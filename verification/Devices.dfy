/** Device authorizations: the records, the two maps the store keeps over them, and the history,
    keyed by device code, that they refine. */
module Devices {
  import opened Wrappers
  import TtlTable

  datatype Record = Record(
    deviceCode: string, userCode: string, userId: string, clientId: string,
    scope: string, audience: string, expiresAt: int, interval: int,
    authorized: bool, denied: bool, expired: bool)

  // ----- user codes -----

  function Upper(c: char): char {
    if 'a' <= c <= 'z' then c - 'a' + 'A' else c
  }

  /** The look-up form of a user code: upper case, no hyphens. */
  function Norm(userCode: string): string {
    if userCode == "" then ""
    else if userCode[0] == '-' then Norm(userCode[1..])
    else [Upper(userCode[0])] + Norm(userCode[1..])
  }

  const ALPHABET := "ABCDEFGHJKLMNPQRSTUVWXYZ23456789"

  /** The shape the store hands out: two groups of four letters or digits. */
  predicate UserCodeShape(c: string) {
    && |c| == 9 && c[4] == '-'
    && forall i :: 0 <= i < 9 && i != 4 ==> c[i] in ALPHABET
  }

  lemma {:induction false} NormAppend(a: string, b: string)
    ensures Norm(a + b) == Norm(a) + Norm(b)
  {
    if a == "" {
      assert a + b == b;
    } else {
      assert (a + b)[1..] == a[1..] + b;
      NormAppend(a[1..], b);
    }
  }

  lemma {:induction false} NormPlain(a: string)
    requires forall i :: 0 <= i < |a| ==> a[i] != '-' && !('a' <= a[i] <= 'z')
    ensures Norm(a) == a
  {
    if a == "" {
    } else {
      NormPlain(a[1..]);
    }
  }

  /** Codes of the issued shape are told apart by their look-up form. */
  lemma NormInjective(a: string, b: string)
    requires UserCodeShape(a) && UserCodeShape(b) && Norm(a) == Norm(b)
    ensures a == b
  {
    NormOfShape(a);
    NormOfShape(b);
    var plain := a[..4] + a[5..];
    assert plain == b[..4] + b[5..];
    assert a[..4] == plain[..4] == b[..4];
    assert a[5..] == plain[4..] == b[5..];
    assert a == a[..4] + [a[4]] + a[5..];
    assert b == b[..4] + [b[4]] + b[5..];
  }

  lemma AlphabetIsPlain(c: char)
    requires c in ALPHABET
    ensures c != '-' && !('a' <= c <= 'z')
  {
  }

  lemma NormOfShape(a: string)
    requires UserCodeShape(a)
    ensures Norm(a) == a[..4] + a[5..]
  {
    var front, back := a[..4], a[5..];
    assert a == front + (['-'] + back);
    NormAppend(front, ['-'] + back);
    assert (['-'] + back)[1..] == back;
    forall i | 0 <= i < 4
      ensures front[i] != '-' && !('a' <= front[i] <= 'z') && back[i] != '-' && !('a' <= back[i] <= 'z')
    {
      AlphabetIsPlain(a[i]);
      AlphabetIsPlain(a[i + 5]);
    }
    NormPlain(front);
    NormPlain(back);
  }

  lemma NormOfLetters(letters: string)
    requires |letters| == 8 && forall i :: 0 <= i < 8 ==> letters[i] in ALPHABET
    ensures UserCodeShape(letters[..4] + "-" + letters[4..])
    ensures Norm(letters[..4] + "-" + letters[4..]) == letters
  {
    var code := letters[..4] + "-" + letters[4..];
    assert code[..4] == letters[..4] && code[5..] == letters[4..];
    NormOfShape(code);
  }

  /** The same letter or digit, the first in either case. */
  predicate SameLetter(c: char, letter: char) {
    c == letter || ('a' <= c <= 'z' && 'A' <= letter <= 'Z' && c - 'a' == letter - 'A')
  }

  /** The typed text spells the letters: one by one, in either case, with hyphens anywhere between them. */
  predicate Spells(typed: string, letters: string) {
    if typed == "" then letters == ""
    else if typed[0] == '-' then Spells(typed[1..], letters)
    else letters != "" && SameLetter(typed[0], letters[0]) && Spells(typed[1..], letters[1..])
  }

  predicate Plain(c: char) {
    c != '-' && !('a' <= c <= 'z')
  }

  lemma UpperIsSameLetter(c: char, letter: char)
    requires Plain(letter)
    ensures Upper(c) == letter <==> SameLetter(c, letter)
  {
  }

  lemma ConsEqual(a: char, s: string, b: char, t: string)
    ensures [a] + s == [b] + t <==> a == b && s == t
  {
    assert ([a] + s)[1..] == s && ([b] + t)[1..] == t;
    assert ([a] + s)[0] == a && ([b] + t)[0] == b;
  }

  lemma {:induction false} NormSpells(typed: string, letters: string)
    requires forall i :: 0 <= i < |letters| ==> Plain(letters[i])
    ensures Norm(typed) == letters <==> Spells(typed, letters)
  {
    if typed == "" {
    } else if typed[0] == '-' {
      NormSpells(typed[1..], letters);
    } else if letters != "" {
      UpperIsSameLetter(typed[0], letters[0]);
      NormSpells(typed[1..], letters[1..]);
      ConsEqual(Upper(typed[0]), Norm(typed[1..]), letters[0], letters[1..]);
      assert letters == [letters[0]] + letters[1..];
    }
  }

  /** What is typed looks up a code of the issued shape if and only if it spells its eight letters, in
      whatever case and with hyphens or without. */
  lemma TypedFindsCode(typed: string, issued: string)
    requires UserCodeShape(issued)
    ensures Norm(typed) == Norm(issued) <==> Spells(typed, issued[..4] + issued[5..])
  {
    NormOfShape(issued);
    var letters := issued[..4] + issued[5..];
    forall i | 0 <= i < |letters|
      ensures Plain(letters[i])
    {
      AlphabetIsPlain(if i < 4 then issued[i] else issued[i + 1]);
    }
    NormSpells(typed, letters);
  }

  /** Fills the buffer one random letter at a time, then puts the hyphen in the middle. */
  method RandomUserCode(draws: seq<nat>) returns (code: string)
    requires |draws| == 8
    requires forall i :: 0 <= i < 8 ==> draws[i] < |ALPHABET|
    ensures UserCodeShape(code)
    ensures Norm(code) == seq(8, i requires 0 <= i < 8 => ALPHABET[draws[i]])
  {
    var b := new char[8](_ => '-');
    for i := 0 to 8
      invariant forall j :: 0 <= j < i ==> b[j] == ALPHABET[draws[j]]
    {
      b[i] := ALPHABET[draws[i]];
    }
    code := b[..4] + "-" + b[4..];
    ghost var letters := seq(8, i requires 0 <= i < 8 => ALPHABET[draws[i]]);
    assert b[..4] == letters[..4] && b[4..] == letters[4..];
    NormOfLetters(letters);
  }

  // ----- the store's tables -----

  /** `recs` are the record objects ever stored, by device code; `live` the codes the device map
      still holds; `index` the map from user codes to device codes. */
  datatype Tables0 = Tables(recs: map<string, Record>, live: set<string>, index: map<string, string>)
  type Tables = d: Tables0 | d.live <= d.recs.Keys witness Tables(map[], {}, map[])

  predicate Dead(r: Record, now: int) {
    r.expiresAt < now || r.expired
  }

  function DeadCodes(d: Tables, now: int): set<string> {
    set k | k in d.live && Dead(d.recs[k], now)
  }

  function Clean(d: Tables, now: int): Tables {
    var dead := DeadCodes(d, now);
    Tables(d.recs, d.live - dead, d.index - (set k | k in dead :: Norm(d.recs[k].userCode)))
  }

  /** Clean-up half way: the codes in `todo` are still to be visited. */
  function CleanPart(d: Tables, todo: set<string>, now: int): Tables {
    var dead := DeadCodes(d, now) - todo;
    Tables(d.recs, d.live - dead, d.index - (set k | k in dead :: Norm(d.recs[k].userCode)))
  }

  /** Visiting one more code removes it exactly when it is dead, in whatever order. */
  lemma CleanPartStep(d: Tables, todo: set<string>, k: string, now: int)
    requires k in d.live && k in todo
    ensures k in CleanPart(d, todo, now).live
    ensures CleanPart(d, todo - {k}, now) ==
              if Dead(d.recs[k], now) then Remove(CleanPart(d, todo, now), k) else CleanPart(d, todo, now)
  {
    var dead := DeadCodes(d, now);
    if Dead(d.recs[k], now) {
      assert dead - (todo - {k}) == dead - todo + {k};
      assert (set j | j in dead - todo + {k} :: Norm(d.recs[j].userCode))
          == (set j | j in dead - todo :: Norm(d.recs[j].userCode)) + {Norm(d.recs[k].userCode)};
    } else {
      assert dead - (todo - {k}) == dead - todo;
    }
  }

  lemma CleanPartEnds(d: Tables, now: int)
    ensures CleanPart(d, d.live, now) == d
    ensures CleanPart(d, {}, now) == Clean(d, now)
  {
    assert DeadCodes(d, now) - d.live == {};
    assert DeadCodes(d, now) - {} == DeadCodes(d, now);
  }

  function Save(d: Tables, code: string, userCode: string, r: Record, stamp: int, ttl: int, now: int): Tables {
    var c := Clean(d, now);
    Tables(c.recs[code := r.(expiresAt := stamp + ttl, interval := 5)],
           c.live + {code},
           c.index[Norm(userCode) := code])
  }

  predicate Found(d: Tables, code: string, now: int) {
    code in d.live && !Dead(d.recs[code], now)
  }

  /** The device a user code leads to, if it is still good. */
  function Lookup(d: Tables, userCode: string, now: int): Option<string> {
    var n := Norm(userCode);
    if n in d.index && Found(d, d.index[n], now) then Some(d.index[n]) else None
  }

  function Authorize(d: Tables, userCode: string, userId: string, now: int): Tables {
    match Lookup(d, userCode, now)
    case None => d
    case Some(k) => d.(recs := d.recs[k := d.recs[k].(authorized := true, userId := userId)])
  }

  /** No expiry test here: a denial also reaches a dead device that was not cleaned up yet. */
  function DenyTarget(d: Tables, userCode: string): Option<string> {
    var n := Norm(userCode);
    if n in d.index && d.index[n] in d.live then Some(d.index[n]) else None
  }

  function Deny(d: Tables, userCode: string): Tables {
    match DenyTarget(d, userCode)
    case None => d
    case Some(k) => d.(recs := d.recs[k := d.recs[k].(denied := true)])
  }

  /** No test of `denied` here. */
  predicate Consumable(d: Tables, code: string, now: int) {
    Found(d, code, now) && d.recs[code].authorized
  }

  function Remove(d: Tables, code: string): Tables
    requires code in d.live
  {
    Tables(d.recs, d.live - {code}, d.index - {Norm(d.recs[code].userCode)})
  }

  function Consume(d: Tables, code: string, now: int): Tables {
    if Consumable(d, code, now) then Remove(d, code) else d
  }

  // ----- index invariants -----

  /** Every index entry leads to a live device with that user code. */
  ghost predicate NoStaleEntry(d: Tables) {
    forall n :: n in d.index ==> d.index[n] in d.live && Norm(d.recs[d.index[n]].userCode) == n
  }

  /** Records and index entries correspond exactly. */
  ghost predicate Exact(d: Tables) {
    && NoStaleEntry(d)
    && forall k :: k in d.live ==>
         Norm(d.recs[k].userCode) in d.index && d.index[Norm(d.recs[k].userCode)] == k
  }

  // ----- operations and their log -----

  datatype Op =
    | SaveOp(code: string, userCode: string, rec: Record, stamp: int, at: int)
    | GetOp(code: string, cleanedAt: int, at: int)
    | AuthorizeOp(userCode: string, userId: string, at: int)
    | DenyOp(userCode: string)
    | ConsumeOp(code: string, at: int)

  function Apply(d: Tables, ttl: int, op: Op): Tables {
    match op
    case SaveOp(code, userCode, rec, stamp, at) => Save(d, code, userCode, rec, stamp, ttl, at)
    case GetOp(_, cleanedAt, _) => Clean(d, cleanedAt)
    case AuthorizeOp(userCode, userId, at) => Authorize(d, userCode, userId, at)
    case DenyOp(userCode) => Deny(d, userCode)
    case ConsumeOp(code, at) => Consume(d, code, at)
  }

  function Run(ttl: int, log: seq<Op>): Tables {
    if log == [] then Tables(map[], {}, map[])
    else Apply(Run(ttl, log[..|log| - 1]), ttl, log[|log| - 1])
  }

  function Clock(log: seq<Op>): int {
    if log == [] then 0
    else
      var op := log[|log| - 1];
      if op.DenyOp? then Clock(log[..|log| - 1]) else op.at
  }

  predicate WellTimed(log: seq<Op>) {
    log == [] ||
    (var op := log[|log| - 1];
     var before := Clock(log[..|log| - 1]);
     && WellTimed(log[..|log| - 1])
     && (!op.DenyOp? ==> before <= op.at)
     && (op.SaveOp? ==> op.stamp <= op.at)
     && (op.GetOp? ==> before <= op.cleanedAt <= op.at))
  }

  /** What the handler arranges for every save: a device code never saved before, and a record that
      carries the user code it is saved under. */
  predicate FreshSaves(log: seq<Op>) {
    log == [] ||
    (var op := log[|log| - 1];
     && FreshSaves(log[..|log| - 1])
     && (op.SaveOp? ==>
         (forall o :: o in log[..|log| - 1] && o.SaveOp? ==> o.code != op.code) && op.rec.userCode == op.userCode))
  }

  lemma {:induction false} SavedCodes(ttl: int, log: seq<Op>)
    ensures forall k :: k in Run(ttl, log).recs ==> exists o :: o in log && o.SaveOp? && o.code == k
  {
    if log == [] {
    } else {
      SavedCodes(ttl, log[..|log| - 1]);
      forall k | k in Run(ttl, log).recs
        ensures exists o :: o in log && o.SaveOp? && o.code == k
      {
        if k in Run(ttl, log[..|log| - 1]).recs {
          var o :| o in log[..|log| - 1] && o.SaveOp? && o.code == k;
          assert o in log;
        } else {
          assert log[|log| - 1] in log;
        }
      }
    }
  }

  /** With fresh device codes alone, no index entry is ever stale, even when user codes collide. */
  lemma {:induction false} NoStaleEntryEver(ttl: int, log: seq<Op>)
    requires FreshSaves(log)
    ensures NoStaleEntry(Run(ttl, log))
  {
    if log == [] {
    } else {
      NoStaleEntryEver(ttl, log[..|log| - 1]);
      SavedCodes(ttl, log[..|log| - 1]);
      NoStaleEntryStep(Run(ttl, log[..|log| - 1]), ttl, log[|log| - 1]);
    }
  }

  lemma NoStaleEntryStep(d: Tables, ttl: int, op: Op)
    requires NoStaleEntry(d)
    requires op.SaveOp? ==> op.code !in d.recs && op.rec.userCode == op.userCode
    ensures NoStaleEntry(Apply(d, ttl, op))
  {
    NoStaleEntryAfterClean(d, if op.SaveOp? then op.at else if op.GetOp? then op.cleanedAt else 0);
  }

  lemma NoStaleEntryAfterClean(d: Tables, now: int)
    requires NoStaleEntry(d)
    ensures NoStaleEntry(Clean(d, now))
  {
    var c := Clean(d, now);
    forall n | n in c.index
      ensures c.index[n] in c.live
    {
      assert d.index[n] in d.live && Norm(d.recs[d.index[n]].userCode) == n;
    }
  }

  /** A save keeps the exact correspondence if and only if no other device still held after its
      clean-up has the same user code and the record carries the code it is saved under. */
  lemma SaveKeepsExactIff(d: Tables, code: string, userCode: string, r: Record, stamp: int, ttl: int, now: int)
    requires Exact(d) && code !in d.live
    ensures Exact(Save(d, code, userCode, r, stamp, ttl, now)) <==>
              && Norm(r.userCode) == Norm(userCode)
              && forall k :: k in Clean(d, now).live ==> Norm(d.recs[k].userCode) != Norm(userCode)
  {
    ExactAfterClean(d, now);
    var c, s := Clean(d, now), Save(d, code, userCode, r, stamp, ttl, now);
    assert s.index[Norm(userCode)] == code;
    forall k | k in c.live && Norm(d.recs[k].userCode) == Norm(userCode)
      ensures !Exact(s)
    {
      assert k in s.live && s.recs[k] == d.recs[k];
    }
    if Norm(r.userCode) == Norm(userCode) && forall k :: k in c.live ==> Norm(d.recs[k].userCode) != Norm(userCode) {
      forall k | k in s.live
        ensures Norm(s.recs[k].userCode) in s.index && s.index[Norm(s.recs[k].userCode)] == k
      {
        if k != code {
          assert k in c.live;
        }
      }
    }
    if Norm(r.userCode) != Norm(userCode) {
      assert Norm(userCode) in s.index && Norm(s.recs[s.index[Norm(userCode)]].userCode) != Norm(userCode);
    }
  }

  lemma ExactAfterClean(d: Tables, now: int)
    requires Exact(d)
    ensures Exact(Clean(d, now))
  {
    NoStaleEntryAfterClean(d, now);
    var c := Clean(d, now);
    forall k | k in c.live
      ensures Norm(c.recs[k].userCode) in c.index
    {
      forall j | j in DeadCodes(d, now)
        ensures Norm(d.recs[j].userCode) != Norm(d.recs[k].userCode)
      {
        assert d.index[Norm(d.recs[j].userCode)] == j;
      }
    }
  }

  lemma ExactAfterRemove(d: Tables, code: string)
    requires Exact(d) && code in d.live
    ensures Exact(Remove(d, code))
  {
  }

  /** A collision of user codes: when the first device dies, clean-up takes the index entry of the
      second, which is live but can no longer be authorized. */
  lemma CollisionOrphans(a: Record, b: Record)
    requires a.userCode == b.userCode == "ABCD-2345" && !a.expired && !b.expired
    ensures var d := Run(900, [SaveOp("dc_1", "ABCD-2345", a, 0, 0), SaveOp("dc_2", "ABCD-2345", b, 600, 600),
                               GetOp("dc_2", 1000, 1000)]);
            && Found(d, "dc_2", 1000)
            && Lookup(d, "ABCD-2345", 1000) == None
  {
    var op1, op2, op3 := SaveOp("dc_1", "ABCD-2345", a, 0, 0), SaveOp("dc_2", "ABCD-2345", b, 600, 600),
        GetOp("dc_2", 1000, 1000);
    RunSnoc(900, [], op1);
    RunSnoc(900, [op1], op2);
    RunSnoc(900, [op1, op2], op3);
    assert [op1] + [op2] == [op1, op2] && [op1, op2] + [op3] == [op1, op2, op3] && [] + [op1] == [op1];
    var d2 := Run(900, [op1, op2]);
    OverlappingSaves(a, b, d2);
    assert "dc_1" in DeadCodes(d2, 1000) && "dc_2" !in DeadCodes(d2, 1000);
    assert Norm(d2.recs["dc_1"].userCode) == Norm("ABCD-2345");
  }

  /** Consuming a device takes away the index entry of every other device with its user code. */
  lemma ConsumeOrphans(d: Tables, k: string, j: string, at: int, now: int)
    requires Consumable(d, k, at) && j != k && Found(d, j, now) && Norm(d.recs[j].userCode) == Norm(d.recs[k].userCode)
    ensures Found(Consume(d, k, at), j, now)
    ensures Lookup(Consume(d, k, at), d.recs[j].userCode, now) == None
  {
    assert Norm(d.recs[k].userCode) !in Remove(d, k).index;
  }

  lemma OverlappingSaves(a: Record, b: Record, d2: Tables)
    requires !a.expired
    requires d2 == Save(Save(Tables(map[], {}, map[]), "dc_1", "ABCD-2345", a, 0, 900, 0), "dc_2", "ABCD-2345", b, 600,
                        900, 600)
    ensures d2.live == {"dc_1", "dc_2"}
    ensures d2.recs["dc_1"] == a.(expiresAt := 900, interval := 5)
    ensures d2.recs["dc_2"] == b.(expiresAt := 1500, interval := 5)
  {
    var d1 := Save(Tables(map[], {}, map[]), "dc_1", "ABCD-2345", a, 0, 900, 0);
    assert d1.live == {"dc_1"} && d1.recs["dc_1"] == a.(expiresAt := 900, interval := 5);
    assert DeadCodes(d1, 600) == {};
    assert "dc_1" != "dc_2";
  }

  lemma RunSnoc(ttl: int, log: seq<Op>, op: Op)
    ensures Run(ttl, log + [op]) == Apply(Run(ttl, log), ttl, op)
    ensures op.DenyOp? ==> Clock(log + [op]) == Clock(log)
    ensures !op.DenyOp? ==> Clock(log + [op]) == op.at
    ensures WellTimed(log + [op]) <==>
              && WellTimed(log)
              && (!op.DenyOp? ==> Clock(log) <= op.at)
              && (op.SaveOp? ==> op.stamp <= op.at)
              && (op.GetOp? ==> Clock(log) <= op.cleanedAt <= op.at)
  {
    assert (log + [op])[..|log|] == log;
  }

  // ----- the history, which never deletes -----

  datatype Past = Past(rec: Record, consumed: bool)
  type History = map<string, Past>

  predicate LiveAt(p: Past, at: int) {
    !p.consumed && !Dead(p.rec, at)
  }

  predicate Holds(p: Past, userCode: string) {
    Norm(p.rec.userCode) == Norm(userCode)
  }

  function Remember(h: History, ttl: int, op: Op): History {
    match op
    case SaveOp(code, _, rec, stamp, _) => h[code := Past(rec.(expiresAt := stamp + ttl, interval := 5), false)]
    case GetOp(_, _, _) => h
    case AuthorizeOp(userCode, userId, at) =>
      map k | k in h :: if LiveAt(h[k], at) && Holds(h[k], userCode)
                        then h[k].(rec := h[k].rec.(authorized := true, userId := userId)) else h[k]
    case DenyOp(userCode) =>
      map k | k in h :: if !h[k].consumed && Holds(h[k], userCode)
                        then h[k].(rec := h[k].rec.(denied := true)) else h[k]
    case ConsumeOp(code, at) =>
      if code in h && LiveAt(h[code], at) && h[code].rec.authorized then h[code := h[code].(consumed := true)] else h
  }

  function Chronicle(ttl: int, log: seq<Op>): History {
    if log == [] then map[]
    else Remember(Chronicle(ttl, log[..|log| - 1]), ttl, log[|log| - 1])
  }

  /** Every save brings a device code never seen, and a user code no live device has. */
  ghost predicate UniqueSaves(ttl: int, log: seq<Op>) {
    log == [] ||
    (var before, op := log[..|log| - 1], log[|log| - 1];
     && UniqueSaves(ttl, before)
     && (op.SaveOp? ==>
           && op.code !in Chronicle(ttl, before)
           && op.rec.userCode == op.userCode
           && forall k :: k in Chronicle(ttl, before) && LiveAt(Chronicle(ttl, before)[k], op.at) ==>
                !Holds(Chronicle(ttl, before)[k], op.userCode)))
  }

  ghost predicate Refines(h: History, d: Tables, now: int) {
    && (forall k :: k in d.live ==> k in h && !h[k].consumed && h[k].rec == d.recs[k])
    && (forall k :: k in h && LiveAt(h[k], now) ==> k in d.live)
    && d.recs.Keys <= h.Keys
    && Exact(d)
  }

  lemma {:induction false} TablesRefineHistory(ttl: int, log: seq<Op>)
    requires WellTimed(log) && UniqueSaves(ttl, log)
    ensures Refines(Chronicle(ttl, log), Run(ttl, log), Clock(log))
  {
    if log == [] {
    } else {
      var before, op := log[..|log| - 1], log[|log| - 1];
      TablesRefineHistory(ttl, before);
      RefinesStep(Chronicle(ttl, before), Run(ttl, before), ttl, Clock(before), op);
    }
  }

  lemma RefinesStep(h: History, d: Tables, ttl: int, now: int, op: Op)
    requires Refines(h, d, now)
    requires !op.DenyOp? ==> now <= op.at
    requires op.GetOp? ==> now <= op.cleanedAt <= op.at
    requires op.SaveOp? ==> op.code !in h && op.rec.userCode == op.userCode
    requires op.SaveOp? ==> forall k :: k in h && LiveAt(h[k], op.at) ==> !Holds(h[k], op.userCode)
    ensures Refines(Remember(h, ttl, op), Apply(d, ttl, op), if op.DenyOp? then now else op.at)
  {
    match op
    case SaveOp(code, userCode, rec, stamp, at) =>
      RefinesSave(h, d, now, code, userCode, rec, stamp, ttl, at);
    case GetOp(_, cleanedAt, at) =>
      RefinesClean(h, d, now, cleanedAt, at);
    case AuthorizeOp(userCode, userId, at) =>
      RefinesAuthorize(h, d, now, ttl, userCode, userId, at);
    case DenyOp(userCode) =>
      RefinesDeny(h, d, now, ttl, userCode);
    case ConsumeOp(code, at) =>
      RefinesConsume(h, d, now, ttl, code, at);
  }

  lemma RefinesClean(h: History, d: Tables, now: int, cleanedAt: int, at: int)
    requires Refines(h, d, now) && now <= cleanedAt <= at
    ensures Refines(h, Clean(d, cleanedAt), at)
  {
    ExactAfterClean(d, cleanedAt);
    assert forall k :: k in h && LiveAt(h[k], at) ==> LiveAt(h[k], now);
  }

  lemma RefinesSave(h: History, d: Tables, now: int, code: string, userCode: string, rec: Record, stamp: int, ttl: int,
                    at: int)
    requires Refines(h, d, now) && now <= at
    requires code !in h && rec.userCode == userCode
    requires forall k :: k in h && LiveAt(h[k], at) ==> !Holds(h[k], userCode)
    ensures Refines(Remember(h, ttl, SaveOp(code, userCode, rec, stamp, at)),
                    Save(d, code, userCode, rec, stamp, ttl, at), at)
  {
    RefinesClean(h, d, now, at, at);
    SaveKeepsExactIff(d, code, userCode, rec, stamp, ttl, at);
    forall k | k in Clean(d, at).live
      ensures Norm(d.recs[k].userCode) != Norm(userCode)
    {
      assert LiveAt(h[k], at);
    }
  }

  lemma RefinesAuthorize(h: History, d: Tables, now: int, ttl: int, userCode: string, userId: string, at: int)
    requires Refines(h, d, now) && now <= at
    ensures Refines(Remember(h, ttl, AuthorizeOp(userCode, userId, at)), Authorize(d, userCode, userId, at), at)
  {
    LookupMeetsHistory(h, d, now, userCode, at);
    assert forall k :: k in h && LiveAt(h[k], at) ==> LiveAt(h[k], now);
  }

  lemma RefinesDeny(h: History, d: Tables, now: int, ttl: int, userCode: string)
    requires Refines(h, d, now)
    ensures Refines(Remember(h, ttl, DenyOp(userCode)), Deny(d, userCode), now)
  {
    var g := Remember(h, ttl, DenyOp(userCode));
    forall k | k in d.live
      ensures Deny(d, userCode).recs[k] == g[k].rec
    {
      assert d.index[Norm(d.recs[k].userCode)] == k;
    }
  }

  lemma RefinesConsume(h: History, d: Tables, now: int, ttl: int, code: string, at: int)
    requires Refines(h, d, now) && now <= at
    ensures Refines(Remember(h, ttl, ConsumeOp(code, at)), Consume(d, code, at), at)
  {
    if Consumable(d, code, at) {
      ExactAfterRemove(d, code);
    }
    assert forall k :: k in h && LiveAt(h[k], at) ==> LiveAt(h[k], now);
  }

  lemma LookupMeetsHistory(h: History, d: Tables, now: int, userCode: string, at: int)
    requires Refines(h, d, now) && now <= at
    ensures forall k :: Lookup(d, userCode, at) == Some(k) <==> k in h && LiveAt(h[k], at) && Holds(h[k], userCode)
  {
    forall k | k in h && LiveAt(h[k], at) && Holds(h[k], userCode)
      ensures Lookup(d, userCode, at) == Some(k)
    {
      assert LiveAt(h[k], now);
      assert k in d.live && d.index[Norm(d.recs[k].userCode)] == k;
    }
  }

  /** Under live user-code uniqueness, for every sequence of operations: the two maps correspond
      exactly, and Get, Authorize and Consume answer as the history does, so that neither clean-up
      nor deletion can be noticed. */
  lemma AnswersMeetHistory(ttl: int, log: seq<Op>, now: int)
    requires WellTimed(log) && UniqueSaves(ttl, log) && Clock(log) <= now
    ensures Exact(Run(ttl, log))
    ensures forall code, cleanedAt :: Clock(log) <= cleanedAt <= now ==>
              (Found(Clean(Run(ttl, log), cleanedAt), code, now) <==>
                 code in Chronicle(ttl, log) && LiveAt(Chronicle(ttl, log)[code], now))
    ensures forall code :: Found(Run(ttl, log), code, now) ==>
              code in Chronicle(ttl, log) && Run(ttl, log).recs[code] == Chronicle(ttl, log)[code].rec
    ensures forall userCode, k :: Lookup(Run(ttl, log), userCode, now) == Some(k) <==>
              k in Chronicle(ttl, log) && LiveAt(Chronicle(ttl, log)[k], now) && Holds(Chronicle(ttl, log)[k], userCode)
    ensures forall code :: Consumable(Run(ttl, log), code, now) <==>
              code in Chronicle(ttl, log) && LiveAt(Chronicle(ttl, log)[code], now)
                  && Chronicle(ttl, log)[code].rec.authorized
  {
    TablesRefineHistory(ttl, log);
    var h, d := Chronicle(ttl, log), Run(ttl, log);
    forall userCode, k
      ensures Lookup(d, userCode, now) == Some(k) <==> k in h && LiveAt(h[k], now) && Holds(h[k], userCode)
    {
      LookupMeetsHistory(h, d, Clock(log), userCode, now);
    }
    assert forall k :: k in h && LiveAt(h[k], now) ==> LiveAt(h[k], Clock(log));
  }

  /** A device that is no longer held is never touched again, whatever follows, unless its code is saved anew. */
  lemma {:induction false} GoneIsFinal(ttl: int, log: seq<Op>, after: seq<Op>, code: string)
    requires code in Run(ttl, log).recs && code !in Run(ttl, log).live
    requires forall o :: o in after && o.SaveOp? ==> o.code != code
    ensures code in Run(ttl, log + after).recs && Run(ttl, log + after).recs[code] == Run(ttl, log).recs[code]
    ensures code !in Run(ttl, log + after).live
    decreases |after|
  {
    if after == [] {
      assert log + after == log;
    } else {
      var n := |after| - 1;
      GoneIsFinal(ttl, log, after[..n], code);
      assert (log + after)[..|log + after| - 1] == log + after[..n];
      assert after[n] in after;
      GoneStays(Run(ttl, log + after[..n]), ttl, after[n], code);
    }
  }

  lemma GoneStays(d: Tables, ttl: int, op: Op, code: string)
    requires code in d.recs && code !in d.live && (op.SaveOp? ==> op.code != code)
    ensures code in Apply(d, ttl, op).recs && Apply(d, ttl, op).recs[code] == d.recs[code]
    ensures code !in Apply(d, ttl, op).live
  {
  }

  /** The record that a consume returned is final: no later operation changes it, nor finds it again. */
  lemma ConsumedIsFinal(ttl: int, log: seq<Op>, code: string, at: int, after: seq<Op>)
    requires Consumable(Run(ttl, log), code, at)
    requires forall o :: o in after && o.SaveOp? ==> o.code != code
    ensures var d := Run(ttl, log + [ConsumeOp(code, at)] + after);
            && code in d.recs && d.recs[code] == Run(ttl, log).recs[code]
            && forall now :: !Found(d, code, now)
  {
    assert (log + [ConsumeOp(code, at)])[..|log|] == log;
    GoneIsFinal(ttl, log + [ConsumeOp(code, at)], after, code);
  }

  // ----- when the two maps correspond throughout -----

  ghost predicate ExactThroughout(ttl: int, log: seq<Op>) {
    log == [] || (ExactThroughout(ttl, log[..|log| - 1]) && Exact(Run(ttl, log)))
  }

  lemma {:induction false} ChroniclesSaved(ttl: int, log: seq<Op>)
    ensures forall k :: k in Chronicle(ttl, log) ==> exists o :: o in log && o.SaveOp? && o.code == k
  {
    if log == [] {
    } else {
      var before, op := log[..|log| - 1], log[|log| - 1];
      ChroniclesSaved(ttl, before);
      forall k | k in Chronicle(ttl, log)
        ensures exists o :: o in log && o.SaveOp? && o.code == k
      {
        if k in Chronicle(ttl, before) {
          var o :| o in before && o.SaveOp? && o.code == k;
          assert o in log;
        } else {
          assert op in log;
        }
      }
    }
  }

  lemma SaveExactOnlyIfUnique(h: History, d: Tables, now: int, ttl: int, op: Op)
    requires op.SaveOp? && Refines(h, d, now) && now <= op.at && op.code !in h && Exact(Apply(d, ttl, op))
    ensures forall k :: k in h && LiveAt(h[k], op.at) ==> !Holds(h[k], op.userCode)
  {
    SaveKeepsExactIff(d, op.code, op.userCode, op.rec, op.stamp, ttl, op.at);
    RefinesClean(h, d, now, op.at, op.at);
  }

  /** Given what the handler arranges for every save, records and index entries correspond exactly after
      every operation of a log if and only if every save brings a user code that no live device has. */
  lemma {:induction false} ExactThroughoutIff(ttl: int, log: seq<Op>)
    requires WellTimed(log) && FreshSaves(log)
    ensures ExactThroughout(ttl, log) <==> UniqueSaves(ttl, log)
  {
    if log == [] {
    } else {
      var before, op := log[..|log| - 1], log[|log| - 1];
      ExactThroughoutIff(ttl, before);
      ChroniclesSaved(ttl, before);
      if UniqueSaves(ttl, log) {
        TablesRefineHistory(ttl, log);
      }
      if ExactThroughout(ttl, log) && op.SaveOp? {
        TablesRefineHistory(ttl, before);
        SaveExactOnlyIfUnique(Chronicle(ttl, before), Run(ttl, before), Clock(before), ttl, op);
      }
    }
  }

  // ----- how large the device map can grow -----

  function SavesInWindow(ttl: int, log: seq<Op>, now: int): nat {
    if log == [] then 0
    else
      var op := log[|log| - 1];
      SavesInWindow(ttl, log[..|log| - 1], now)
      + if op.SaveOp? && now <= op.stamp + ttl then 1 else 0
  }

  lemma {:induction false} UnexpiredBound(ttl: int, log: seq<Op>, now: int)
    requires WellTimed(log) && Clock(log) <= now
    ensures |Clean(Run(ttl, log), now).live| <= SavesInWindow(ttl, log, now)
  {
    if log == [] {
    } else {
      var before, op := log[..|log| - 1], log[|log| - 1];
      UnexpiredBound(ttl, before, now);
      var kept, held := Clean(Run(ttl, before), now).live, Clean(Run(ttl, log), now).live;
      if op.SaveOp? && now <= op.stamp + ttl {
        TtlTable.SubsetSize(held, kept + {op.code});
      } else {
        TtlTable.SubsetSize(held, kept);
      }
    }
  }

  /** Right after a save the device map holds the new device and otherwise only unexpired ones. */
  lemma SizeAfterSave(ttl: int, log: seq<Op>, op: Op)
    requires op.SaveOp? && WellTimed(log + [op])
    ensures forall k :: k in Run(ttl, log + [op]).live && k != op.code ==>
              k in Run(ttl, log).live && op.at <= Run(ttl, log).recs[k].expiresAt
    ensures |Run(ttl, log + [op]).live| <= SavesInWindow(ttl, log, op.at) + 1
    ensures op.at <= op.stamp + ttl ==> |Run(ttl, log + [op]).live| <= SavesInWindow(ttl, log + [op], op.at)
  {
    assert (log + [op])[..|log|] == log;
    UnexpiredBound(ttl, log, op.at);
    TtlTable.SubsetSize(Run(ttl, log + [op]).live, Clean(Run(ttl, log), op.at).live + {op.code});
  }

  /** Every device held right after a save is within its time to live if and only if the new one is. */
  lemma AllFreshIff(ttl: int, log: seq<Op>, op: Op)
    requires op.SaveOp? && WellTimed(log + [op])
    ensures (forall k :: k in Run(ttl, log + [op]).live ==> op.at <= Run(ttl, log + [op]).recs[k].expiresAt) <==>
              op.at <= op.stamp + ttl
  {
    RunSnoc(ttl, log, op);
    assert op.code in Run(ttl, log + [op]).live;
  }

  /** The device map is no larger than the number of saves stamped within the time to live, after every
      log, exactly for those saves that did not wait for the lock past their own expiry. */
  lemma SizeInWindowIff(ttl: int, op: Op)
    requires op.SaveOp? && WellTimed([op])
    ensures (forall log: seq<Op> :: WellTimed(log + [op]) ==>
               |Run(ttl, log + [op]).live| <= SavesInWindow(ttl, log + [op], op.at)) <==>
              op.at <= op.stamp + ttl
  {
    if op.at <= op.stamp + ttl {
      forall log: seq<Op> | WellTimed(log + [op])
        ensures |Run(ttl, log + [op]).live| <= SavesInWindow(ttl, log + [op], op.at)
      {
        SizeAfterSave(ttl, log, op);
      }
    } else {
      LoneStaleSave(ttl, op);
      var none: seq<Op> := [];
      assert none + [op] == [op];
      assert WellTimed(none + [op]) && |Run(ttl, none + [op]).live| > SavesInWindow(ttl, none + [op], op.at);
    }
  }

  lemma LoneStaleSave(ttl: int, op: Op)
    requires op.SaveOp? && op.at > op.stamp + ttl
    ensures |Run(ttl, [op]).live| == 1 && SavesInWindow(ttl, [op], op.at) == 0
  {
    var none: seq<Op> := [];
    RunSnoc(ttl, none, op);
    assert none + [op] == [op] && [op][..0] == none;
    assert Run(ttl, [op]).live == {op.code};
  }

  /** How many saves of the log took place, by their own clean-up's reading, within the time to live
      before `now`. */
  function SavesAt(ttl: int, log: seq<Op>, now: int): nat {
    if log == [] then 0
    else
      var op := log[|log| - 1];
      SavesAt(ttl, log[..|log| - 1], now) + if op.SaveOp? && now <= op.at + ttl then 1 else 0
  }

  lemma {:induction false} WindowWithin(ttl: int, log: seq<Op>, now: int)
    requires WellTimed(log)
    ensures SavesInWindow(ttl, log, now) <= SavesAt(ttl, log, now)
  {
    if log == [] {
    } else {
      WindowWithin(ttl, log[..|log| - 1], now);
    }
  }

  /** Counted by when they took place, the saves of the last time to live bound the device map right after
      any save. */
  lemma SizeBySaveTime(ttl: int, log: seq<Op>, op: Op)
    requires op.SaveOp? && WellTimed(log + [op]) && ttl >= 0
    ensures |Run(ttl, log + [op]).live| <= SavesAt(ttl, log + [op], op.at)
  {
    assert (log + [op])[..|log|] == log;
    SizeAfterSave(ttl, log, op);
    WindowWithin(ttl, log, op.at);
  }
}
