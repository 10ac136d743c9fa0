/** Seeding users from a configuration file. */
module Seed {
  datatype Entry = Entry(id: string, email: string, password: string, displayName: string, role: string)

  datatype Row = Row(email: string, hash: string, displayName: string, role: string)

  datatype Tables = Tables(users: map<string, Row>, userRoles: set<(string, string)>)

  /** What one entry meets: the hash it draws, and whether the database runs its two statements. */
  datatype Luck = Luck(hash: string, insertOk: bool, linkOk: bool)

  function OrElse(s: string, default: string): string {
    if s == "" then default else s
  }

  predicate Skipped(e: Entry) {
    e.id == "" || e.email == ""
  }

  /** The password that is hashed for an entry. */
  function Password(e: Entry): string {
    OrElse(e.password, "password123")
  }

  function RoleId(e: Entry): string {
    if e.role == "admin" then "rol_admin" else "rol_default"
  }

  function RowFor(e: Entry, hash: string): Row {
    Row(e.email, hash, OrElse(e.displayName, e.email), OrElse(e.role, "user"))
  }

  predicate Taken(t: Tables, e: Entry) {
    e.id in t.users || exists id :: id in t.users && t.users[id].email == e.email
  }

  /** INSERT OR IGNORE: nothing when the id or the email is taken. */
  function Insert(t: Tables, e: Entry, hash: string): Tables {
    if Taken(t, e) then t else t.(users := t.users[e.id := RowFor(e, hash)])
  }

  function Link(t: Tables, e: Entry, ok: bool): Tables {
    if ok then t.(userRoles := t.userRoles + {(e.id, RoleId(e))}) else t
  }

  /** The run goes through the entries in order. It stops at a password that cannot be hashed and at an
      insertion the database refuses; a failing link is passed over. */
  function Run(t: Tables, entries: seq<Entry>, luck: seq<Luck>, hashable: string -> bool): Tables
    requires |entries| <= |luck|
    decreases |entries|
  {
    if entries == [] then t
    else if Skipped(entries[0]) then Run(t, entries[1..], luck[1..], hashable)
    else if !hashable(Password(entries[0])) || !luck[0].insertOk then t
    else Run(Link(Insert(t, entries[0], luck[0].hash), entries[0], luck[0].linkOk), entries[1..], luck[1..], hashable)
  }

  /** Some entry stops the run: its password cannot be hashed or its insertion is refused. */
  ghost predicate Stops(entries: seq<Entry>, luck: seq<Luck>, hashable: string -> bool)
    requires |entries| <= |luck|
  {
    exists i :: 0 <= i < |entries| && Stopper(entries[i], luck[i], hashable)
  }

  predicate Stopper(e: Entry, luck: Luck, hashable: string -> bool) {
    !Skipped(e) && (!hashable(Password(e)) || !luck.insertOk)
  }

  predicate Faultless(luck: seq<Luck>) {
    forall i :: 0 <= i < |luck| ==> luck[i].insertOk && luck[i].linkOk
  }

  /** Email addresses are unique in the table. */
  ghost predicate UniqueEmails(t: Tables) {
    forall a, b :: a in t.users && b in t.users && t.users[a].email == t.users[b].email ==> a == b
  }

  lemma {:induction false} RunKeepsEmailsUnique(t: Tables, entries: seq<Entry>, luck: seq<Luck>,
                                                hashable: string -> bool)
    requires |entries| <= |luck| && UniqueEmails(t)
    ensures UniqueEmails(Run(t, entries, luck, hashable))
    decreases |entries|
  {
    if entries == [] {
    } else {
      if Skipped(entries[0]) {
        RunKeepsEmailsUnique(t, entries[1..], luck[1..], hashable);
      } else if hashable(Password(entries[0])) && luck[0].insertOk {
        var t' := Link(Insert(t, entries[0], luck[0].hash), entries[0], luck[0].linkOk);
        RunKeepsEmailsUnique(t', entries[1..], luck[1..], hashable);
      }
    }
  }

  // ----- entries that have nothing left to do -----

  /** Neither statement of the entry would change a row. */
  predicate Settled(t: Tables, e: Entry) {
    Skipped(e) || (Taken(t, e) && (e.id, RoleId(e)) in t.userRoles)
  }

  /** Every entry up to the first whose password cannot be hashed is settled. */
  ghost predicate AllSettled(t: Tables, entries: seq<Entry>, hashable: string -> bool) {
    forall i :: 0 <= i < |entries| && Reached(entries, i, hashable) ==> Settled(t, entries[i])
  }

  ghost predicate Reached(entries: seq<Entry>, i: nat, hashable: string -> bool)
    requires i < |entries|
  {
    forall j :: 0 <= j <= i && !Skipped(entries[j]) ==> hashable(Password(entries[j]))
  }

  ghost predicate Within(t: Tables, t': Tables) {
    && (forall id :: id in t.users ==> id in t'.users && t'.users[id] == t.users[id])
    && t.userRoles <= t'.userRoles
  }

  lemma SettledStays(t: Tables, t': Tables, e: Entry)
    requires Within(t, t') && Settled(t, e)
    ensures Settled(t', e)
  {
  }

  /** No run changes or removes a row that is there. */
  lemma {:induction false} RunOnlyAdds(t: Tables, entries: seq<Entry>, luck: seq<Luck>, hashable: string -> bool)
    requires |entries| <= |luck|
    ensures Within(t, Run(t, entries, luck, hashable))
    decreases |entries|
  {
    if entries == [] {
    } else {
      if Skipped(entries[0]) {
        RunOnlyAdds(t, entries[1..], luck[1..], hashable);
      } else if hashable(Password(entries[0])) && luck[0].insertOk {
        RunOnlyAdds(Link(Insert(t, entries[0], luck[0].hash), entries[0], luck[0].linkOk), entries[1..], luck[1..],
                    hashable);
      }
    }
  }

  lemma ReachedRest(entries: seq<Entry>, i: nat, hashable: string -> bool)
    requires 0 < i < |entries| && Reached(entries, i, hashable)
    ensures Reached(entries[1..], i - 1, hashable)
  {
    forall j | 0 <= j <= i - 1 && !Skipped(entries[1..][j])
      ensures hashable(Password(entries[1..][j]))
    {
      assert entries[1..][j] == entries[j + 1];
    }
  }

  lemma SettledCons(t: Tables, entries: seq<Entry>, hashable: string -> bool)
    requires entries != [] && (Skipped(entries[0]) || hashable(Password(entries[0])))
    ensures AllSettled(t, entries, hashable) <==> Settled(t, entries[0]) && AllSettled(t, entries[1..], hashable)
  {
    assert Reached(entries, 0, hashable);
    if Settled(t, entries[0]) && AllSettled(t, entries[1..], hashable) {
      forall i | 0 <= i < |entries| && Reached(entries, i, hashable)
        ensures Settled(t, entries[i])
      {
        if i > 0 {
          ReachedRest(entries, i, hashable);
          assert entries[1..][i - 1] == entries[i];
        }
      }
    }
    if AllSettled(t, entries, hashable) {
      forall i | 0 <= i < |entries[1..]| && Reached(entries[1..], i, hashable)
        ensures Settled(t, entries[1..][i])
      {
        assert entries[1..][i] == entries[i + 1];
        forall j | 0 <= j <= i + 1 && !Skipped(entries[j])
          ensures hashable(Password(entries[j]))
        {
          assert j > 0 ==> entries[1..][j - 1] == entries[j];
        }
        assert Reached(entries, i + 1, hashable);
      }
    }
  }

  /** A run without database faults settles all entries it reaches. */
  lemma {:induction false} RunSettles(t: Tables, entries: seq<Entry>, luck: seq<Luck>, hashable: string -> bool)
    requires |entries| <= |luck| && Faultless(luck)
    ensures AllSettled(Run(t, entries, luck, hashable), entries, hashable)
    decreases |entries|
  {
    if entries == [] {
    } else {
      var e := entries[0];
      if Skipped(e) {
        RunSettles(t, entries[1..], luck[1..], hashable);
        SettledCons(Run(t, entries, luck, hashable), entries, hashable);
      } else if hashable(Password(e)) {
        var t' := Link(Insert(t, e, luck[0].hash), e, true);
        RunSettles(t', entries[1..], luck[1..], hashable);
        RunOnlyAdds(t', entries[1..], luck[1..], hashable);
        SettledStays(t', Run(t, entries, luck, hashable), e);
        SettledCons(Run(t, entries, luck, hashable), entries, hashable);
      }
    }
  }

  lemma {:induction false} SettledMeansNoChange(t: Tables, entries: seq<Entry>, luck: seq<Luck>,
                                                hashable: string -> bool)
    requires |entries| <= |luck| && AllSettled(t, entries, hashable)
    ensures Run(t, entries, luck, hashable) == t
    decreases |entries|
  {
    if entries == [] {
    } else {
      var e := entries[0];
      if Skipped(e) {
        SettledCons(t, entries, hashable);
        SettledMeansNoChange(t, entries[1..], luck[1..], hashable);
      } else if hashable(Password(e)) && luck[0].insertOk {
        SettledCons(t, entries, hashable);
        assert t.userRoles + {(e.id, RoleId(e))} == t.userRoles;
        assert Link(Insert(t, e, luck[0].hash), e, luck[0].linkOk) == t;
        SettledMeansNoChange(t, entries[1..], luck[1..], hashable);
      }
    }
  }

  /** From any tables and for any list, however its ids and emails collide, a second run changes no row,
      whatever hashes it draws and whatever faults it meets, once a first run met none. */
  lemma SeedingTwice(t: Tables, entries: seq<Entry>, first: seq<Luck>, second: seq<Luck>, hashable: string -> bool)
    requires |entries| <= |first| && |entries| <= |second| && Faultless(first)
    ensures var t' := Run(t, entries, first, hashable);
            Run(t', entries, second, hashable) == t'
  {
    RunSettles(t, entries, first, hashable);
    SettledMeansNoChange(Run(t, entries, first, hashable), entries, second, hashable);
  }

  /** After a first run with faults, a faultless one changes nothing exactly if every entry it reaches
      was already settled. */
  lemma NoChangeIff(t: Tables, entries: seq<Entry>, luck: seq<Luck>, hashable: string -> bool)
    requires |entries| <= |luck| && Faultless(luck)
    ensures Run(t, entries, luck, hashable) == t <==> AllSettled(t, entries, hashable)
  {
    RunSettles(t, entries, luck, hashable);
    if AllSettled(t, entries, hashable) {
      SettledMeansNoChange(t, entries, luck, hashable);
    }
  }

  /** A failing link is passed over in silence, and the next run adds it. */
  lemma FailedLinkIsAddedLater(e: Entry, hash: string, hash2: string, hashable: string -> bool)
    requires !Skipped(e) && hashable(Password(e))
    ensures var t := Run(Tables(map[], {}), [e], [Luck(hash, true, false)], hashable);
            Run(t, [e], [Luck(hash2, true, true)], hashable) != t
  {
    var t := Run(Tables(map[], {}), [e], [Luck(hash, true, false)], hashable);
    assert (e.id, RoleId(e)) in Run(t, [e], [Luck(hash2, true, true)], hashable).userRoles;
  }

  /** The row that an entry gives: the email stands in for a display name, and `user` for a role. */
  predicate RowOf(e: Entry, row: Row) {
    && row.email == e.email
    && row.displayName == (if e.displayName == "" then e.email else e.displayName)
    && row.role == (if e.role == "" then "user" else e.role)
  }

  /** The row is one of the entries', under its id and with the hash that was drawn for it. */
  predicate FromEntry(entries: seq<Entry>, luck: seq<Luck>, id: string, row: Row)
    requires |entries| <= |luck|
  {
    exists i :: 0 <= i < |entries| && entries[i].id == id && RowOf(entries[i], row) && row.hash == luck[i].hash
  }

  /** The link gives an administrator among the entries the administrator's role, any other the default one. */
  predicate LinkFromEntry(entries: seq<Entry>, link: (string, string)) {
    exists i :: 0 <= i < |entries| && entries[i].id == link.0
                && link.1 == if entries[i].role == "admin" then "rol_admin" else "rol_default"
  }

  lemma FromLater(entries: seq<Entry>, luck: seq<Luck>)
    requires 0 < |entries| <= |luck|
    ensures forall id, row :: FromEntry(entries[1..], luck[1..], id, row) ==> FromEntry(entries, luck, id, row)
    ensures forall link :: LinkFromEntry(entries[1..], link) ==> LinkFromEntry(entries, link)
  {
    forall id, row | FromEntry(entries[1..], luck[1..], id, row)
      ensures FromEntry(entries, luck, id, row)
    {
      var i :| 0 <= i < |entries[1..]| && entries[1..][i].id == id && RowOf(entries[1..][i], row)
               && row.hash == luck[1..][i].hash;
      assert entries[i + 1] == entries[1..][i] && luck[i + 1] == luck[1..][i];
    }
    forall link | LinkFromEntry(entries[1..], link)
      ensures LinkFromEntry(entries, link)
    {
      var i :| 0 <= i < |entries[1..]| && entries[1..][i].id == link.0
               && link.1 == if entries[1..][i].role == "admin" then "rol_admin" else "rol_default";
      assert entries[i + 1] == entries[1..][i];
    }
  }

  /** Every row and every link that a run adds is an entry's. */
  lemma {:induction false} AddedIsFromEntries(t: Tables, entries: seq<Entry>, luck: seq<Luck>,
                                              hashable: string -> bool)
    requires |entries| <= |luck|
    ensures var t' := Run(t, entries, luck, hashable);
            && (forall id :: id in t'.users && id !in t.users ==> FromEntry(entries, luck, id, t'.users[id]))
            && (forall link :: link in t'.userRoles && link !in t.userRoles ==> LinkFromEntry(entries, link))
    decreases |entries|
  {
    if entries == [] {
    } else {
      FromLater(entries, luck);
      var e := entries[0];
      if Skipped(e) {
        AddedIsFromEntries(t, entries[1..], luck[1..], hashable);
      } else if hashable(Password(e)) && luck[0].insertOk {
        var t1 := Link(Insert(t, e, luck[0].hash), e, luck[0].linkOk);
        AddedIsFromEntries(t1, entries[1..], luck[1..], hashable);
        RunOnlyAdds(t1, entries[1..], luck[1..], hashable);
        assert e.id in t1.users && e.id !in t.users ==> RowOf(entries[0], t1.users[e.id]);
        assert LinkFromEntry(entries, (e.id, RoleId(e)));
      }
    }
  }

  /** A faultless run leaves every entry it reaches with its role linked, and its id or its email in the table. */
  lemma EntriesArePresent(t: Tables, entries: seq<Entry>, luck: seq<Luck>, hashable: string -> bool, i: nat)
    requires |entries| <= |luck| && Faultless(luck) && i < |entries| && Reached(entries, i, hashable)
    requires entries[i].id != "" && entries[i].email != ""
    ensures var t', e := Run(t, entries, luck, hashable), entries[i];
            && (e.id, if e.role == "admin" then "rol_admin" else "rol_default") in t'.userRoles
            && (e.id in t'.users || exists id :: id in t'.users && t'.users[id].email == e.email)
  {
    RunSettles(t, entries, luck, hashable);
    assert Settled(Run(t, entries, luck, hashable), entries[i]);
  }

  class Store {
    var users: map<string, Row>
    var userRoles: set<(string, string)>

    constructor (t: Tables)
      ensures Contents() == t
    {
      users, userRoles := t.users, t.userRoles;
    }

    ghost function Contents(): Tables
      reads this
    {
      Tables(users, userRoles)
    }

    method SeedFromConfig(entries: seq<Entry>, luck: seq<Luck>, hashable: string -> bool) returns (failed: bool)
      requires |entries| <= |luck|
      modifies this
      ensures Contents() == Run(old(Contents()), entries, luck, hashable)
      ensures failed <==> Stops(entries, luck, hashable)
    {
      for i := 0 to |entries|
        invariant Run(Contents(), entries[i..], luck[i..], hashable) == Run(old(Contents()), entries, luck, hashable)
        invariant forall j :: 0 <= j < i ==> !Stopper(entries[j], luck[j], hashable)
      {
        var e := entries[i];
        assert entries[i..][1..] == entries[i + 1..] && luck[i..][1..] == luck[i + 1..];
        if e.id == "" || e.email == "" {
          continue;
        }
        var pass := if e.password == "" then "password123" else e.password;
        if !hashable(pass) || !luck[i].insertOk {
          assert Stopper(e, luck[i], hashable);
          return true;
        }
        var displayName := if e.displayName == "" then e.email else e.displayName;
        var role := if e.role == "" then "user" else e.role;
        var roleId := if role == "admin" then "rol_admin" else "rol_default";
        if e.id !in users && !exists id :: id in users && users[id].email == e.email {
          users := users[e.id := Row(e.email, luck[i].hash, displayName, role)];
        }
        if luck[i].linkOk {
          userRoles := userRoles + {(e.id, roleId)};
        }
      }
      failed := false;
    }
  }
}
