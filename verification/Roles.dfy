/** Roles and permissions in the database: every SQL statement is one atomic step on the tables, it may
    fail, and the statements of several operations interleave. Foreign keys are not enforced. */
module Roles {
  datatype Role = Role(name: string, description: string)
  datatype Permission = Permission(name: string, resourceServer: string, description: string)

  datatype Tables = Tables(
    users: set<string>,
    blocks: set<string>,
    roles: map<string, Role>,
    permissions: map<string, Permission>,
    userRoles: set<(string, string)>,  // user, role
    rolePermissions: set<(string, string)>)  // role, permission

  /** A database as the first migration leaves it. */
  function Seeded(): Tables {
    Tables({}, {},
           map["rol_default" := Role("user", "Default user role"), "rol_admin" := Role("admin", "Administrator role")],
           map["perm_read" := Permission("read:users", "https://api.example.com", "Read users"),
               "perm_write" := Permission("write:users", "https://api.example.com", "Write users")],
           {},
           {("rol_default", "perm_read"), ("rol_admin", "perm_read"), ("rol_admin", "perm_write")})
  }

  // ----- queries -----

  ghost function UserRoles(t: Tables, userId: string): set<string> {
    set r | r in t.roles && (userId, r) in t.userRoles
  }

  /** The permissions a role is given. */
  ghost function PermissionsOf(t: Tables, role: string): set<string> {
    set p | p in t.permissions && (role, p) in t.rolePermissions
  }

  /** The query joins the two link tables without looking at the roles. */
  ghost function UserPermissions(t: Tables, userId: string): set<string> {
    set p, ur | p in t.permissions && ur in t.userRoles && ur.0 == userId && (ur.1, p) in t.rolePermissions :: p
  }

  /** The user's permissions are those of the roles that are listed for the user. */
  ghost predicate Agrees(t: Tables, userId: string) {
    forall p :: p in UserPermissions(t, userId) <==> exists r :: r in UserRoles(t, userId) && p in PermissionsOf(t, r)
  }

  // ----- statements -----

  datatype Statement =
    | InsertUser(id: string)                       // fails on a duplicate id or email
    | InsertUserOrIgnore(id: string, inserts: bool) // does nothing when id or email is taken
    | LinkRole(userId: string, role: string)       // INSERT OR IGNORE
    | UnlinkRole(userId: string, role: string)
    | InsertRole(role: string, row: Role)
    | SetRole(role: string, row: Role)
    | UnlinkUser(userId: string)
    | DeleteBlocks(userId: string)
    | DeleteUserRow(userId: string)
    | DropPermissionsOf(role: string)
    | UnlinkFromUsers(role: string)
    | DeleteRoleRow(role: string)

  predicate NameTaken(t: Tables, name: string, except: string) {
    exists r :: r in t.roles && r != except && t.roles[r].name == name
  }

  /** Statements that break a key or a unique name fail and change nothing. */
  predicate Rejected(t: Tables, s: Statement) {
    match s
    case InsertUser(id) => id in t.users
    case InsertRole(role, row) => role in t.roles || NameTaken(t, row.name, role)
    case SetRole(role, row) => role in t.roles && NameTaken(t, row.name, role)
    case _ => false
  }

  function Effect(t: Tables, s: Statement): Tables {
    match s
    case InsertUser(id) => t.(users := t.users + {id})
    case InsertUserOrIgnore(id, inserts) => if inserts then t.(users := t.users + {id}) else t
    case LinkRole(userId, role) => t.(userRoles := t.userRoles + {(userId, role)})
    case UnlinkRole(userId, role) => t.(userRoles := t.userRoles - {(userId, role)})
    case InsertRole(role, row) => t.(roles := t.roles[role := row])
    case SetRole(role, row) => if role in t.roles then t.(roles := t.roles[role := row]) else t
    case UnlinkUser(userId) => t.(userRoles := set ur | ur in t.userRoles && ur.0 != userId)
    case DeleteBlocks(userId) => t.(blocks := t.blocks - {userId})
    case DeleteUserRow(userId) => t.(users := t.users - {userId})
    case DropPermissionsOf(role) => t.(rolePermissions := set rp | rp in t.rolePermissions && rp.0 != role)
    case UnlinkFromUsers(role) => t.(userRoles := set ur | ur in t.userRoles && ur.1 != role)
    case DeleteRoleRow(role) => t.(roles := t.roles - {role})
  }

  /** `ok` says whether the database could run the statement at all. */
  function Exec(t: Tables, s: Statement, ok: bool): Tables {
    if ok && !Rejected(t, s) then Effect(t, s) else t
  }

  // ----- operations and their interleavings -----

  /** A statement of an operation, and whether the operation stops when it fails. */
  datatype Line = Line(s: Statement, stops: bool)

  datatype Operation =
    | CreateUser(userId: string, admin: bool)
    | SeedUser(userId: string, inserts: bool, admin: bool)
    | DeleteUser(userId: string)
    | CreateRole(id: string, role: Role)
    | UpdateRole(id: string, role: Role)
    | DeleteRole(id: string)
    | AssignRole(userId: string, id: string)
    | RemoveRole(userId: string, id: string)

  function RoleFor(admin: bool): string {
    if admin then "rol_admin" else "rol_default"
  }

  function Program(op: Operation): seq<Line> {
    match op
    case CreateUser(u, admin) => [Line(InsertUser(u), true), Line(LinkRole(u, RoleFor(admin)), false)]
    case SeedUser(u, inserts, admin) =>
        [Line(InsertUserOrIgnore(u, inserts), true), Line(LinkRole(u, RoleFor(admin)), false)]
    case DeleteUser(u) => [Line(UnlinkUser(u), true), Line(DeleteBlocks(u), true), Line(DeleteUserRow(u), true)]
    case CreateRole(id, role) => [Line(InsertRole(id, role), true)]
    case UpdateRole(id, role) => [Line(SetRole(id, role), true)]
    case DeleteRole(id) =>
        [Line(DropPermissionsOf(id), false), Line(UnlinkFromUsers(id), false), Line(DeleteRoleRow(id), true)]
    case AssignRole(u, id) => [Line(LinkRole(u, id), true)]
    case RemoveRole(u, id) => [Line(UnlinkRole(u, id), true)]
  }

  /** The tables, and what is left to run of each operation in flight. */
  datatype Db = Db(t: Tables, jobs: map<nat, seq<Line>>)

  datatype Event = Start(job: nat, op: Operation) | Run(job: nat, ok: bool)

  predicate Allowed(db: Db, e: Event) {
    match e
    case Start(job, _) => job !in db.jobs
    case Run(job, _) => job in db.jobs && db.jobs[job] != []
  }

  function Next(db: Db, e: Event): Db
    requires Allowed(db, e)
  {
    match e
    case Start(job, op) => db.(jobs := db.jobs[job := Program(op)])
    case Run(job, ok) =>
      var line := db.jobs[job][0];
      var failed := !ok || Rejected(db.t, line.s);
      Db(Exec(db.t, line.s, ok), db.jobs[job := if failed && line.stops then [] else db.jobs[job][1..]])
  }

  predicate Legal(db: Db, run: seq<Event>)
    decreases |run|
  {
    run == [] || (Allowed(db, run[0]) && Legal(Next(db, run[0]), run[1..]))
  }

  function After(db: Db, run: seq<Event>): Db
    requires Legal(db, run)
    decreases |run|
  {
    if run == [] then db else After(Next(db, run[0]), run[1..])
  }

  // ----- dangling permission rows -----

  /** No permission is linked to a role that does not exist. */
  ghost predicate NoDangling(t: Tables) {
    forall rp :: rp in t.rolePermissions ==> rp.0 in t.roles
  }

  lemma NoDanglingAgrees(t: Tables, userId: string)
    requires NoDangling(t)
    ensures Agrees(t, userId)
  {
    forall p
      ensures p in UserPermissions(t, userId) <==> exists r :: r in UserRoles(t, userId) && p in PermissionsOf(t, r)
    {
      if p in UserPermissions(t, userId) {
        var ur :| ur in t.userRoles && ur.0 == userId && (ur.1, p) in t.rolePermissions;
        assert ur == (userId, ur.1);
        assert ur.1 in UserRoles(t, userId) && p in PermissionsOf(t, ur.1);
      }
    }
  }

  lemma {:induction false} NewUser(links: set<(string, string)>) returns (u: string)
    ensures forall ur :: ur in links ==> |ur.0| < |u|
    decreases |links|
  {
    if links == {} {
      u := "x";
    } else {
      var ur :| ur in links;
      var v := NewUser(links - {ur});
      u := if |ur.0| < |v| then v else ur.0 + "x";
    }
  }

  /** If a permission row dangles, giving its role to a user without roles breaks the agreement. */
  lemma DanglingBreaks(t: Tables, rp: (string, string)) returns (u: string)
    requires rp in t.rolePermissions && rp.0 !in t.roles && rp.1 in t.permissions
    ensures !Agrees(Exec(t, LinkRole(u, rp.0), true), u)
  {
    u := NewUser(t.userRoles);
    var t' := Exec(t, LinkRole(u, rp.0), true);
    assert (u, rp.0) in t'.userRoles && rp == (rp.0, rp.1);
    assert rp.1 in UserPermissions(t', u);
    assert UserRoles(t', u) == {};
  }

  /** The roles whose permissions some statement of the run dropped. */
  ghost function Dropped(db: Db, run: seq<Event>): set<string>
    requires Legal(db, run)
    decreases |run|
  {
    if run == [] then {}
    else
      (match run[0]
       case Run(job, true) =>
         if db.jobs[job][0].s.DropPermissionsOf? then {db.jobs[job][0].s.role} else {}
       case _ => {})
      + Dropped(Next(db, run[0]), run[1..])
  }

  /** No operation adds a permission to a role: after any run, the rows left are the first ones without
      those of the roles that were dropped. */
  lemma {:induction false} RowsLeft(db: Db, run: seq<Event>)
    requires Legal(db, run)
    ensures forall rp :: rp in After(db, run).t.rolePermissions <==>
              rp in db.t.rolePermissions && rp.0 !in Dropped(db, run)
    ensures After(db, run).t.permissions == db.t.permissions
    decreases |run|
  {
    if run == [] {
    } else {
      RowsLeft(Next(db, run[0]), run[1..]);
    }
  }

  /** Exactly when no permission row dangles after a run, whichever statements failed on the way: every
      role that came with permissions still exists or had them dropped. */
  lemma NoDanglingIff(run: seq<Event>)
    requires Legal(Db(Seeded(), map[]), run)
    ensures var t := After(Db(Seeded(), map[]), run).t;
            NoDangling(t) <==>
            forall r :: r in {"rol_default", "rol_admin"} ==> r in t.roles || r in Dropped(Db(Seeded(), map[]), run)
  {
    var db := Db(Seeded(), map[]);
    RowsLeft(db, run);
    var t := After(db, run).t;
    assert ("rol_default", "perm_read") in db.t.rolePermissions && ("rol_admin", "perm_read") in db.t.rolePermissions;
    if NoDangling(t) {
      assert "rol_default" !in Dropped(db, run) ==> ("rol_default", "perm_read") in t.rolePermissions;
      assert "rol_admin" !in Dropped(db, run) ==> ("rol_admin", "perm_read") in t.rolePermissions;
    }
  }

  /** Exactly when the two answers agree for every user after every assignment that may follow a run,
      whichever statements failed in it. */
  lemma AgreesAfterAssignmentsIff(run: seq<Event>)
    requires Legal(Db(Seeded(), map[]), run)
    ensures var t := After(Db(Seeded(), map[]), run).t;
            (forall u, r :: Agrees(Exec(t, LinkRole(u, r), true), u)) <==>
            (forall r :: r in {"rol_default", "rol_admin"} ==> r in t.roles || r in Dropped(Db(Seeded(), map[]), run))
  {
    NoDanglingIff(run);
    RowsLeft(Db(Seeded(), map[]), run);
    var t := After(Db(Seeded(), map[]), run).t;
    if NoDangling(t) {
      forall u, r
        ensures Agrees(Exec(t, LinkRole(u, r), true), u)
      {
        NoDanglingAgrees(Exec(t, LinkRole(u, r), true), u);
      }
    } else {
      var rp :| rp in t.rolePermissions && rp.0 !in t.roles;
      var u := DanglingBreaks(t, rp);
    }
  }

  // ----- runs in which the first statement of DeleteRole never fails -----

  /** The event runs the first statement of a DeleteRole, and the database fails it. */
  predicate FailsDrop(db: Db, e: Event) {
    e.Run? && !e.ok && e.job in db.jobs && db.jobs[e.job] != [] && db.jobs[e.job][0].s.DropPermissionsOf?
  }

  ghost predicate DropsSucceed(db: Db, run: seq<Event>)
    requires Legal(db, run)
    decreases |run|
  {
    run == [] || (!FailsDrop(db, run[0]) && DropsSucceed(Next(db, run[0]), run[1..]))
  }

  ghost predicate Rowless(t: Tables, role: string) {
    forall rp :: rp in t.rolePermissions ==> rp.0 != role
  }

  /** The remaining lines drop a role's permissions before they delete its row, or need not. */
  ghost predicate Careful(t: Tables, lines: seq<Line>) {
    forall k :: 0 <= k < |lines| && lines[k].s.DeleteRoleRow? ==>
      Rowless(t, lines[k].s.role) || exists j :: 0 <= j < k && lines[j].s == DropPermissionsOf(lines[k].s.role)
  }

  ghost predicate Inv(db: Db) {
    NoDangling(db.t) && forall job :: job in db.jobs ==> Careful(db.t, db.jobs[job])
  }

  lemma CarefulRest(t: Tables, lines: seq<Line>, ok: bool)
    requires lines != [] && Careful(t, lines) && (lines[0].s.DropPermissionsOf? ==> ok)
    ensures Careful(Exec(t, lines[0].s, ok), lines[1..])
  {
    var t', rest := Exec(t, lines[0].s, ok), lines[1..];
    forall k | 0 <= k < |rest| && rest[k].s.DeleteRoleRow? && !Rowless(t', rest[k].s.role)
      ensures exists j :: 0 <= j < k && rest[j].s == DropPermissionsOf(rest[k].s.role)
    {
      assert rest[k] == lines[k + 1];
      var j :| 0 <= j < k + 1 && lines[j].s == DropPermissionsOf(lines[k + 1].s.role);
      assert j > 0 && rest[j - 1] == lines[j];
    }
  }

  lemma CarefulElsewhere(t: Tables, s: Statement, ok: bool, lines: seq<Line>)
    requires Careful(t, lines)
    ensures Careful(Exec(t, s, ok), lines)
  {
  }

  lemma ProgramCareful(t: Tables, op: Operation)
    ensures Careful(t, Program(op))
  {
    if op.DeleteRole? {
      assert Program(op)[0].s == DropPermissionsOf(op.id);
    }
  }

  lemma NextKeeps(db: Db, e: Event)
    requires Inv(db) && Allowed(db, e) && !FailsDrop(db, e)
    ensures Inv(Next(db, e))
  {
    var db' := Next(db, e);
    if e.Run? {
      var lines := db.jobs[e.job];
      assert Careful(db.t, lines);
      CarefulRest(db.t, lines, e.ok);
      forall job | job in db'.jobs
        ensures Careful(db'.t, db'.jobs[job])
      {
        if job != e.job {
          CarefulElsewhere(db.t, lines[0].s, e.ok, db.jobs[job]);
        }
      }
      assert lines[0].s.DeleteRoleRow? ==> Rowless(db.t, lines[0].s.role);
    } else {
      ProgramCareful(db.t, e.op);
    }
  }

  lemma {:induction false} RunKeeps(db: Db, run: seq<Event>)
    requires Inv(db) && Legal(db, run) && DropsSucceed(db, run)
    ensures Inv(After(db, run))
    decreases |run|
  {
    if run == [] {
    } else {
      NextKeeps(db, run[0]);
      RunKeeps(Next(db, run[0]), run[1..]);
    }
  }

  /** From a freshly seeded database, in every interleaving of statements and also between the statements
      of one operation, the permissions of any user are the union of those of the roles listed for the
      user; any statement may fail, except the first one of DeleteRole, whose failure goes unnoticed. */
  lemma PermissionsMatchRoles(run: seq<Event>, userId: string)
    requires Legal(Db(Seeded(), map[]), run) && DropsSucceed(Db(Seeded(), map[]), run)
    ensures Agrees(After(Db(Seeded(), map[]), run).t, userId)
  {
    RunKeeps(Db(Seeded(), map[]), run);
    NoDanglingAgrees(After(Db(Seeded(), map[]), run).t, userId);
  }

  lemma Prepend(db: Db, e: Event, rest: seq<Event>)
    requires Allowed(db, e) && Legal(Next(db, e), rest)
    ensures Legal(db, [e] + rest) && After(db, [e] + rest) == After(Next(db, e), rest)
  {
    assert ([e] + rest)[1..] == rest;
  }

  /** With that failure it can go wrong: the default role is deleted while its permission row stays, and
      a user who is then given the deleted role has the permission without having any role. */
  lemma UnnoticedFailure() returns (run: seq<Event>)
    ensures Legal(Db(Seeded(), map[]), run)
    ensures !Agrees(After(Db(Seeded(), map[]), run).t, "auth0|u")
  {
    var id, u := "rol_default", "auth0|u";
    var d0 := Db(Seeded(), map[]);
    var d1 := Next(d0, Start(0, DeleteRole(id)));
    var d2 := Next(d1, Run(0, false));
    var d3 := Next(d2, Run(0, true));
    var d4 := Next(d3, Run(0, true));
    var d5 := Next(d4, Start(1, AssignRole(u, id)));
    var d6 := Next(d5, Run(1, true));
    run := [];
    Prepend(d5, Run(1, true), run);
    run := [Run(1, true)] + run;
    Prepend(d4, Start(1, AssignRole(u, id)), run);
    run := [Start(1, AssignRole(u, id))] + run;
    Prepend(d3, Run(0, true), run);
    run := [Run(0, true)] + run;
    Prepend(d2, Run(0, true), run);
    run := [Run(0, true)] + run;
    Prepend(d1, Run(0, false), run);
    run := [Run(0, false)] + run;
    Prepend(d0, Start(0, DeleteRole(id)), run);
    run := [Start(0, DeleteRole(id))] + run;
    EndOfFailure(d6.t, u, id);
  }

  lemma EndOfFailure(t: Tables, u: string, id: string)
    requires t.userRoles == {(u, id)} && id !in t.roles && (id, "perm_read") in t.rolePermissions
    requires "perm_read" in t.permissions
    ensures !Agrees(t, u)
  {
    assert (u, id) in t.userRoles && (u, id).0 == u;
    assert "perm_read" in UserPermissions(t, u);
    assert UserRoles(t, u) == {};
  }

  // ----- the store, one operation after another -----

  /** The operation's lines run without interruption; `ok` says which of them the database can run. */
  function RunAlone(t: Tables, lines: seq<Line>, ok: seq<bool>): Tables
    requires |lines| <= |ok|
    decreases |lines|
  {
    if lines == [] then t
    else if lines[0].stops && (!ok[0] || Rejected(t, lines[0].s)) then t
    else RunAlone(Exec(t, lines[0].s, ok[0]), lines[1..], ok[1..])
  }

  lemma RunAloneCons(t: Tables, line: Line, rest: seq<Line>, ok: seq<bool>)
    requires 1 + |rest| <= |ok|
    ensures RunAlone(t, [line] + rest, ok) ==
            if line.stops && (!ok[0] || Rejected(t, line.s)) then t else RunAlone(Exec(t, line.s, ok[0]), rest, ok[1..])
  {
    assert ([line] + rest)[1..] == rest;
  }

  lemma RunAloneTwo(t: Tables, a: Line, b: Line, ok: seq<bool>)
    requires |ok| == 2
    ensures RunAlone(t, [a, b], ok) ==
            if a.stops && (!ok[0] || Rejected(t, a.s)) then t else Exec(Exec(t, a.s, ok[0]), b.s, ok[1])
  {
    assert [a, b] == [a] + [b] && [b] == [b] + [];
    RunAloneCons(t, a, [b], ok);
    RunAloneCons(Exec(t, a.s, ok[0]), b, [], ok[1..]);
  }

  lemma RunAloneThree(t: Tables, a: Line, b: Line, c: Line, ok: seq<bool>)
    requires |ok| == 3
    ensures RunAlone(t, [a, b, c], ok) ==
            if a.stops && (!ok[0] || Rejected(t, a.s)) then t
            else
              var t1 := Exec(t, a.s, ok[0]);
              if b.stops && (!ok[1] || Rejected(t1, b.s)) then t1 else Exec(Exec(t1, b.s, ok[1]), c.s, ok[2])
  {
    assert [a, b, c] == [a] + [b, c] && ok[1..] == [ok[1], ok[2]];
    RunAloneCons(t, a, [b, c], ok);
    RunAloneTwo(Exec(t, a.s, ok[0]), b, c, ok[1..]);
  }

  /** An operation that runs alone is one of the interleavings. */
  lemma {:induction false} RunAloneIsRun(db: Db, job: nat, ok: seq<bool>) returns (run: seq<Event>)
    requires job in db.jobs && |db.jobs[job]| <= |ok|
    ensures Legal(db, run) && After(db, run) == Db(RunAlone(db.t, db.jobs[job], ok), db.jobs[job := []])
    decreases |db.jobs[job]|
  {
    if db.jobs[job] == [] {
      run := [];
      assert db.jobs[job := []] == db.jobs;
    } else {
      var e := Run(job, ok[0]);
      var db' := Next(db, e);
      var rest := RunAloneIsRun(db', job, if db'.jobs[job] == [] then ok else ok[1..]);
      run := [e] + rest;
      Prepend(db, e, rest);
    }
  }

  ghost predicate Distinct<T>(rows: seq<T>) {
    forall i, j :: 0 <= i < j < |rows| ==> rows[i] != rows[j]
  }

  class Store {
    var t: Tables

    constructor ()
      ensures t == Seeded()
    {
      t := Seeded();
    }

    method Execute(s: Statement, ok: bool) returns (failed: bool)
      modifies this
      ensures t == Exec(old(t), s, ok) && (failed <==> !ok || Rejected(old(t), s))
    {
      failed := !ok || Rejected(t, s);
      if !failed {
        t := Effect(t, s);
      }
    }

    /** The first two errors are thrown away. */
    method DeleteRole(id: string, ok: seq<bool>) returns (failed: bool)
      requires |ok| == 3
      modifies this
      ensures t == RunAlone(old(t), Program(Operation.DeleteRole(id)), ok) && failed == !ok[2]
      ensures t.roles == (if ok[2] then old(t).roles - {id} else old(t).roles)
      ensures forall rp :: rp in t.rolePermissions <==> rp in old(t).rolePermissions && (rp.0 == id ==> !ok[0])
      ensures forall ur :: ur in t.userRoles <==> ur in old(t).userRoles && (ur.1 == id ==> !ok[1])
      ensures t.users == old(t).users && t.blocks == old(t).blocks && t.permissions == old(t).permissions
    {
      RunAloneThree(t, Line(DropPermissionsOf(id), false), Line(UnlinkFromUsers(id), false),
                    Line(DeleteRoleRow(id), true), ok);
      var _ := Execute(DropPermissionsOf(id), ok[0]);
      var _ := Execute(UnlinkFromUsers(id), ok[1]);
      failed := Execute(DeleteRoleRow(id), ok[2]);
    }

    /** Stops at the first error. */
    method DeleteUser(userId: string, ok: seq<bool>) returns (failed: bool)
      requires |ok| == 3
      modifies this
      ensures t == RunAlone(old(t), Program(Operation.DeleteUser(userId)), ok) && failed == !(ok[0] && ok[1] && ok[2])
      ensures t.users == (if failed then old(t).users else old(t).users - {userId})
      ensures t.blocks == (if ok[0] && ok[1] then old(t).blocks - {userId} else old(t).blocks)
      ensures forall ur :: ur in t.userRoles <==> ur in old(t).userRoles && (ur.0 == userId ==> !ok[0])
      ensures t.roles == old(t).roles && t.permissions == old(t).permissions
      ensures t.rolePermissions == old(t).rolePermissions
    {
      RunAloneThree(t, Line(UnlinkUser(userId), true), Line(DeleteBlocks(userId), true),
                    Line(DeleteUserRow(userId), true), ok);
      failed := Execute(UnlinkUser(userId), ok[0]);
      if failed {
        return;
      }
      failed := Execute(DeleteBlocks(userId), ok[1]);
      if failed {
        return;
      }
      failed := Execute(DeleteUserRow(userId), ok[2]);
    }

    /** The default role is linked last, and an error there is thrown away. */
    method CreateUser(userId: string, role: string, ok: seq<bool>) returns (failed: bool)
      requires |ok| == 2
      modifies this
      ensures t == RunAlone(old(t), Program(Operation.CreateUser(userId, role == "admin")), ok)
      ensures failed <==> !ok[0] || userId in old(t).users
      ensures t == if failed then old(t)
                   else old(t).(users := old(t).users + {userId},
                                userRoles := old(t).userRoles + if !ok[1] then {}
                                             else {(userId, if role == "admin" then "rol_admin" else "rol_default")})
    {
      RunAloneTwo(t, Line(InsertUser(userId), true), Line(LinkRole(userId, RoleFor(role == "admin")), false), ok);
      failed := Execute(InsertUser(userId), ok[0]);
      if failed {
        return;
      }
      var roleId := "rol_default";
      if role == "admin" {
        roleId := "rol_admin";
      }
      var _ := Execute(LinkRole(userId, roleId), ok[1]);
    }

    method GetUserRoles(userId: string) returns (rows: seq<string>)
      ensures Distinct(rows) && forall r :: r in rows <==> r in UserRoles(t, userId)
    {
      rows := [];
      var todo := t.roles.Keys;
      while todo != {}
        invariant todo <= t.roles.Keys && Distinct(rows)
        invariant forall r :: r in rows <==> r in UserRoles(t, userId) && r !in todo
        decreases |todo|
      {
        var r :| r in todo;
        todo := todo - {r};
        if (userId, r) in t.userRoles {
          rows := rows + [r];
        }
      }
    }

    method GetUserPermissions(userId: string) returns (rows: seq<string>)
      ensures Distinct(rows) && forall p :: p in rows <==> p in UserPermissions(t, userId)
    {
      rows := [];
      var todo := t.permissions.Keys;
      while todo != {}
        invariant todo <= t.permissions.Keys && Distinct(rows)
        invariant forall p :: p in rows <==> p in UserPermissions(t, userId) && p !in todo
        decreases |todo|
      {
        var p :| p in todo;
        todo := todo - {p};
        if exists ur :: ur in t.userRoles && ur.0 == userId && (ur.1, p) in t.rolePermissions {
          rows := rows + [p];
        }
      }
    }
  }
}
