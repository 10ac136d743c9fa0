/** Server-side sessions with a sliding time to live. */
module Sessions {
  import opened Wrappers
  import opened Durations

  // ----- what each locked call does to the map -----

  datatype Record = Record(sessionId: string, userId: string, email: string, expiresAt: int)
  type Table = map<string, Record>

  function Clean(t: Table, now: int): Table {
    map k | k in t && now <= t[k].expiresAt :: t[k]
  }

  function Begin(t: Table, sid: string, userId: string, email: string, stamp: int, ttl: int, now: int): Table {
    Clean(t, now)[sid := Record(sid, userId, email, stamp + ttl)]
  }

  /** `Get` reads the clock three times: to clean up, to test the entry, and to extend it. */
  function Touch(t: Table, sid: string, cleanAt: int, testAt: int, extendAt: int, ttl: int): Table {
    var c := Clean(t, cleanAt);
    if Present(t, sid, cleanAt, testAt) then c[sid := c[sid].(expiresAt := extendAt + ttl)] else c - {sid}
  }

  predicate Present(t: Table, sid: string, cleanAt: int, testAt: int) {
    var c := Clean(t, cleanAt);
    sid in c && testAt <= c[sid].expiresAt
  }

  // ----- the history -----

  datatype Op =
    | CreateOp(sid: string, userId: string, email: string, stamp: int, at: int)
    | GetOp(sid: string, cleanAt: int, testAt: int, at: int)
    | RevokeOp(sid: string)

  function Apply(t: Table, ttl: int, op: Op): Table {
    match op
    case CreateOp(sid, userId, email, stamp, at) => Begin(t, sid, userId, email, stamp, ttl, at)
    case GetOp(sid, cleanAt, testAt, at) => Touch(t, sid, cleanAt, testAt, at, ttl)
    case RevokeOp(sid) => t - {sid}
  }

  function Run(ttl: int, log: seq<Op>): Table {
    if log == [] then map[]
    else Apply(Run(ttl, log[..|log| - 1]), ttl, log[|log| - 1])
  }

  function Clock(log: seq<Op>): int {
    if log == [] then 0
    else
      var op := log[|log| - 1];
      if op.RevokeOp? then Clock(log[..|log| - 1]) else op.at
  }

  predicate WellTimed(log: seq<Op>) {
    log == [] ||
    (var op := log[|log| - 1];
     var before := Clock(log[..|log| - 1]);
     && WellTimed(log[..|log| - 1])
     && (op.CreateOp? ==> before <= op.at && op.stamp <= op.at)
     && (op.GetOp? ==> before <= op.cleanAt <= op.testAt <= op.at))
  }

  lemma RunSnoc(ttl: int, log: seq<Op>, op: Op)
    requires WellTimed(log)
    requires op.CreateOp? ==> Clock(log) <= op.at && op.stamp <= op.at
    requires op.GetOp? ==> Clock(log) <= op.cleanAt <= op.testAt <= op.at
    ensures Run(ttl, log + [op]) == Apply(Run(ttl, log), ttl, op)
    ensures WellTimed(log + [op])
  {
    assert (log + [op])[..|log|] == log;
  }

  /** Operation `i` created the session, and no later operation created it again or revoked it. */
  ghost predicate CreatedAt(log: seq<Op>, i: int, sid: string) {
    && 0 <= i < |log|
    && log[i].CreateOp? && log[i].sid == sid
    && forall j :: i < j < |log| && log[j].sid == sid ==> log[j].GetOp?
  }

  /** When the session created by operation `i` was last accessed: at its creation, or by the last
      Get that came within the time to live of the access before it. */
  function LastAccess(ttl: int, log: seq<Op>, i: nat): int
    requires i < |log| && log[i].CreateOp?
    decreases |log|
  {
    var n := |log| - 1;
    if n == i then log[i].stamp
    else
      var before := LastAccess(ttl, log[..n], i);
      if log[n].GetOp? && log[n].sid == log[i].sid && log[n].testAt - before <= ttl then log[n].at else before
  }

  /** The entry's whole history in one statement; `GetSucceedsExactly` spells out its consequence. */
  ghost predicate Tracks(ttl: int, log: seq<Op>, sid: string) {
    var t := Run(ttl, log);
    && (sid in t ==> (exists i ::
          CreatedAt(log, i, sid) && t[sid] == Record(sid, log[i].userId, log[i].email, LastAccess(ttl, log, i) + ttl)))
    && (forall i :: CreatedAt(log, i, sid) && Clock(log) - LastAccess(ttl, log, i) <= ttl ==> sid in t)
  }

  lemma CreatedUnique(log: seq<Op>, i: int, j: int, sid: string)
    requires CreatedAt(log, i, sid) && CreatedAt(log, j, sid)
    ensures i == j
  {
  }

  lemma CreatedSnoc(log: seq<Op>, i: int, sid: string)
    requires log != []
    requires !(log[|log| - 1].sid == sid && !log[|log| - 1].GetOp?)
    ensures CreatedAt(log[..|log| - 1], i, sid) <==> CreatedAt(log, i, sid)
  {
    var before := log[..|log| - 1];
    if CreatedAt(log, i, sid) {
      assert i != |log| - 1;
      assert forall j :: i < j < |before| && before[j].sid == sid ==> log[j].GetOp?;
    }
    if CreatedAt(before, i, sid) {
      assert forall j :: i < j < |before| ==> log[j] == before[j];
    }
  }

  lemma {:induction false} RunTracks(ttl: int, log: seq<Op>, sid: string)
    requires WellTimed(log) && ttl > 0
    ensures Tracks(ttl, log, sid)
  {
    if log == [] {
    } else {
      var n := |log| - 1;
      RunTracks(ttl, log[..n], sid);
      var op := log[n];
      if op.sid == sid && op.CreateOp? {
        assert CreatedAt(log, n, sid);
        forall i | CreatedAt(log, i, sid)
          ensures i == n
        {
          CreatedUnique(log, i, n, sid);
        }
      } else if op.sid == sid && op.RevokeOp? {
      } else {
        forall i
          ensures CreatedAt(log[..n], i, sid) <==> CreatedAt(log, i, sid)
        {
          CreatedSnoc(log, i, sid);
        }
        TracksStep(ttl, log, sid);
      }
    }
  }

  lemma TracksStep(ttl: int, log: seq<Op>, sid: string)
    requires log != [] && WellTimed(log) && ttl > 0
    requires Tracks(ttl, log[..|log| - 1], sid)
    requires !(log[|log| - 1].sid == sid && !log[|log| - 1].GetOp?)
    requires forall i :: CreatedAt(log[..|log| - 1], i, sid) <==> CreatedAt(log, i, sid)
    ensures Tracks(ttl, log, sid)
  {
    var n := |log| - 1;
    var before, op := log[..n], log[n];
    var s, t := Run(ttl, before), Run(ttl, log);
    if sid in t {
      assert sid in s;
      var i :| CreatedAt(before, i, sid)
          && s[sid] == Record(sid, before[i].userId, before[i].email, LastAccess(ttl, before, i) + ttl);
      assert CreatedAt(log, i, sid);
    }
    forall i | CreatedAt(log, i, sid) && Clock(log) - LastAccess(ttl, log, i) <= ttl
      ensures sid in t
    {
      assert CreatedAt(before, i, sid);
      if sid in s {
        var k :| CreatedAt(before, k, sid)
            && s[sid] == Record(sid, before[k].userId, before[k].email, LastAccess(ttl, before, k) + ttl);
        CreatedUnique(before, i, k, sid);
      }
    }
  }

  /** Over every interleaving of Create, Get, Revoke and their clean-ups: Get succeeds exactly when
      the session was created, not revoked since, and the gap since its last successful access is at
      most the time to live; and it then returns the user it was created for. */
  lemma GetSucceedsExactly(ttl: int, log: seq<Op>, sid: string, cleanAt: int, testAt: int)
    requires WellTimed(log) && ttl > 0 && Clock(log) <= cleanAt <= testAt
    ensures Present(Run(ttl, log), sid, cleanAt, testAt) <==>
              exists i :: CreatedAt(log, i, sid) && testAt - LastAccess(ttl, log, i) <= ttl
    ensures forall i :: CreatedAt(log, i, sid) && Present(Run(ttl, log), sid, cleanAt, testAt) ==>
              Run(ttl, log)[sid].userId == log[i].userId
  {
    RunTracks(ttl, log, sid);
    var t := Run(ttl, log);
    if sid in t {
      var k :| CreatedAt(log, k, sid)
          && t[sid] == Record(sid, log[k].userId, log[k].email, LastAccess(ttl, log, k) + ttl);
      forall i | CreatedAt(log, i, sid)
        ensures i == k
      {
        CreatedUnique(log, i, k, sid);
      }
    }
  }

  // ----- the store -----

  class Session {
    const sessionId: string
    const userId: string
    const email: string
    var expiresAt: int

    constructor (sessionId: string, userId: string, email: string, expiresAt: int)
      ensures this.sessionId == sessionId && this.userId == userId && this.email == email && this.expiresAt == expiresAt
    {
      this.sessionId, this.userId, this.email, this.expiresAt := sessionId, userId, email, expiresAt;
    }

    ghost function Value(): Record
      reads this
    {
      Record(sessionId, userId, email, expiresAt)
    }
  }

  const DEFAULT_TTL := 24 * HOUR

  class Store {
    var sessions: map<string, Session>
    const ttl: int
    ghost var records: Table  // the map's contents, as values
    ghost var log: seq<Op>

    /** `records` shows what the map's objects hold. Every object carries its own key, so distinct
        keys hold distinct objects. */
    ghost predicate Mirrored()
      reads this`sessions, this`records, sessions.Values
    {
      && records.Keys == sessions.Keys
      && forall k :: k in sessions ==> sessions[k].sessionId == k && records[k] == sessions[k].Value()
    }

    ghost predicate Valid()
      reads this, sessions.Values
    {
      && ttl > 0
      && Mirrored()
      && WellTimed(log)
      && records == Run(ttl, log)
    }

    constructor (ttl: int)
      ensures Valid() && log == [] && sessions == map[]
      ensures this.ttl == if ttl <= 0 then DEFAULT_TTL else ttl
    {
      sessions, records := map[], map[];
      this.ttl := if ttl <= 0 then DEFAULT_TTL else ttl;
      log := [];
    }

    method CleanExpiredLocked(now: int)
      requires Mirrored()
      modifies this`sessions, this`records
      ensures Mirrored()
      ensures forall k :: k in sessions ==> k in old(sessions) && sessions[k] == old(sessions)[k]
      ensures records == Clean(old(records), now)
    {
      var todo := sessions.Keys;
      ghost var held, before := sessions, records;
      while todo != {}
        invariant Mirrored() && todo <= sessions.Keys
        invariant forall k :: k in sessions ==> k in held && sessions[k] == held[k] && records[k] == before[k]
        invariant forall k :: k in before ==> (k in records <==> k in todo || now <= before[k].expiresAt)
        decreases |todo|
      {
        var k :| k in todo;
        CleanOneLocked(k, now);
        todo := todo - {k};
      }
    }

    method CleanOneLocked(sid: string, now: int)
      requires Mirrored() && sid in sessions
      modifies this`sessions, this`records
      ensures Mirrored()
      ensures var dead := old(records)[sid].expiresAt < now;
              && sessions == (if dead then old(sessions) - {sid} else old(sessions))
              && records == (if dead then old(records) - {sid} else old(records))
    {
      if sessions[sid].expiresAt < now {
        DeleteLocked(sid);
      }
    }

    method DeleteLocked(sid: string)
      requires Mirrored()
      modifies this`sessions, this`records
      ensures Mirrored()
      ensures sessions == old(sessions) - {sid} && records == old(records) - {sid}
    {
      sessions, records := sessions - {sid}, records - {sid};
    }

    /** Moves the expiry of an entry forward, in the object itself. */
    method ExtendLocked(sid: string, sess: Session, now: int)
      requires Mirrored() && sid in sessions && sessions[sid] == sess
      modifies this`records, sess`expiresAt
      ensures Mirrored()
      ensures records == old(records)[sid := old(records)[sid].(expiresAt := now + ttl)]
    {
      sess.expiresAt := now + ttl;
      records := records[sid := records[sid].(expiresAt := now + ttl)];
    }

    /** `random` is the hexadecimal text of sixteen random bytes, or nothing when the source fails. */
    method Create(userId: string, email: string, random: Option<string>, stamp: int, now: int)
      returns (sid: string, ok: bool)
      requires Valid() && stamp <= now && Clock(log) <= now
      modifies this
      ensures Valid()
      ensures ok == random.Some?
      ensures !ok ==> unchanged(this)
      ensures ok ==> sid == "sid_" + random.value && log == old(log) + [CreateOp(sid, userId, email, stamp, now)]
      ensures ok ==> records == Begin(old(records), sid, userId, email, stamp, ttl, now)
      ensures forall k :: k in sessions ==>
                fresh(sessions[k]) || (k in old(sessions) && sessions[k] == old(sessions)[k])
    {
      if random == None {
        return "", false;
      }
      sid := "sid_" + random.value;
      RunSnoc(ttl, log, CreateOp(sid, userId, email, stamp, now));
      var sess := new Session(sid, userId, email, stamp + ttl);
      CleanExpiredLocked(now);
      sessions := sessions[sid := sess];
      records := records[sid := Record(sid, userId, email, stamp + ttl)];
      log := log + [CreateOp(sid, userId, email, stamp, now)];
      ok := true;
    }

    /** Returns the very object the map holds, with its expiry moved forward. */
    method Get(sid: string, cleanAt: int, testAt: int, extendAt: int) returns (sess: Session?, ok: bool)
      requires Valid() && Clock(log) <= cleanAt <= testAt <= extendAt
      modifies this, sessions.Values`expiresAt
      ensures Valid()
      ensures forall k :: k in sessions ==> k in old(sessions) && sessions[k] == old(sessions)[k]
      ensures log == old(log) + [GetOp(sid, cleanAt, testAt, extendAt)]
      ensures records == Touch(old(records), sid, cleanAt, testAt, extendAt, ttl)
      ensures ok <==> exists i :: CreatedAt(old(log), i, sid) && testAt - LastAccess(ttl, old(log), i) <= ttl
      ensures ok <==> Present(old(records), sid, cleanAt, testAt)
      ensures ok <==> sess != null
      ensures ok ==> sid in sessions && sess == sessions[sid]
      ensures ok ==> sess.userId == old(records)[sid].userId && sess.expiresAt == extendAt + ttl
    {
      assert Present(records, sid, cleanAt, testAt) <==>
               exists i :: CreatedAt(log, i, sid) && testAt - LastAccess(ttl, log, i) <= ttl by {
        GetSucceedsExactly(ttl, log, sid, cleanAt, testAt);
      }
      RunSnoc(ttl, log, GetOp(sid, cleanAt, testAt, extendAt));
      CleanExpiredLocked(cleanAt);
      log := log + [GetOp(sid, cleanAt, testAt, extendAt)];
      if sid !in sessions || sessions[sid].expiresAt < testAt {
        DeleteLocked(sid);
        return null, false;
      }
      ExtendLocked(sid, sessions[sid], extendAt);
      sess, ok := sessions[sid], true;
    }

    method Revoke(sid: string)
      requires Valid()
      modifies this
      ensures Valid()
      ensures sessions == old(sessions) - {sid} && records == old(records) - {sid}
      ensures log == old(log) + [RevokeOp(sid)]
    {
      RunSnoc(ttl, log, RevokeOp(sid));
      DeleteLocked(sid);
      log := log + [RevokeOp(sid)];
    }
  }
}
