/** The cache that answers a repeated code exchange with the tokens of the first. */
module Replay {
  import opened Wrappers
  import opened Durations

  const CODE_REPLAY_TTL := 30 * SECOND

  datatype Entry<T> = Entry(body: T, expires: int)
  type Cache<T> = map<string, Entry<T>>

  function Evict<T>(c: Cache<T>, now: int): Cache<T> {
    map k | k in c && now <= c[k].expires :: c[k]
  }

  /** The clock is read twice under the lock: for the expiry, then for the eviction. */
  function Put<T>(c: Cache<T>, code: string, body: T, stampAt: int, evictAt: int): Cache<T> {
    Evict(c[code := Entry(body, stampAt + CODE_REPLAY_TTL)], evictAt)
  }

  /** An entry is served strictly before its expiry. */
  predicate Serves<T>(c: Cache<T>, code: string, now: int) {
    code in c && now < c[code].expires
  }

  // ----- the history of writes -----

  datatype Write<T> = Write(code: string, body: T, stampAt: int, evictAt: int)

  function Run<T>(log: seq<Write<T>>): Cache<T> {
    if log == [] then map[]
    else
      var w := log[|log| - 1];
      Put(Run(log[..|log| - 1]), w.code, w.body, w.stampAt, w.evictAt)
  }

  function Clock<T>(log: seq<Write<T>>): int {
    if log == [] then 0 else log[|log| - 1].evictAt
  }

  predicate WellTimed<T>(log: seq<Write<T>>) {
    log == [] ||
    (var w := log[|log| - 1];
     WellTimed(log[..|log| - 1]) && Clock(log[..|log| - 1]) <= w.stampAt <= w.evictAt)
  }

  ghost predicate LastWrite<T>(log: seq<Write<T>>, i: int, code: string) {
    && 0 <= i < |log| && log[i].code == code
    && forall j :: i < j < |log| ==> log[j].code != code
  }

  lemma {:induction false} RunHoldsLastWrite<T>(log: seq<Write<T>>, code: string)
    requires WellTimed(log)
    ensures code in Run(log) ==>
              exists i :: LastWrite(log, i, code)
                  && Run(log)[code] == Entry(log[i].body, log[i].stampAt + CODE_REPLAY_TTL)
    ensures forall i :: LastWrite(log, i, code) && Clock(log) <= log[i].stampAt + CODE_REPLAY_TTL ==> code in Run(log)
  {
    if log == [] {
    } else {
      var n := |log| - 1;
      var before := log[..n];
      RunHoldsLastWrite(before, code);
      if log[n].code == code {
        assert LastWrite(log, n, code);
      } else {
        forall i
          ensures LastWrite(before, i, code) <==> LastWrite(log, i, code)
        {
          if LastWrite(before, i, code) {
            assert forall j :: i < j < n ==> log[j] == before[j];
          }
          if LastWrite(log, i, code) {
            assert forall j :: i < j < n ==> before[j] == log[j];
          }
        }
      }
    }
  }

  /** Whatever was written and evicted since, a code is served exactly while its last write is less
      than thirty seconds old, and with the body of that write. */
  lemma ServesExactly<T>(log: seq<Write<T>>, code: string, now: int)
    requires WellTimed(log) && Clock(log) <= now
    ensures Serves(Run(log), code, now) <==>
              exists i :: LastWrite(log, i, code) && now < log[i].stampAt + CODE_REPLAY_TTL
    ensures forall i :: LastWrite(log, i, code) && Serves(Run(log), code, now) ==> Run(log)[code].body == log[i].body
  {
    RunHoldsLastWrite(log, code);
    if code in Run(log) {
      var k :| LastWrite(log, k, code) && Run(log)[code] == Entry(log[k].body, log[k].stampAt + CODE_REPLAY_TTL);
      assert forall i :: LastWrite(log, i, code) ==> i == k;
    }
  }

  class CodeReplayCache<T> {
    var entries: map<string, Entry<T>>
    ghost var log: seq<Write<T>>

    ghost predicate Valid()
      reads this
    {
      WellTimed(log) && entries == Run(log)
    }

    constructor ()
      ensures Valid() && log == [] && entries == map[]
    {
      entries, log := map[], [];
    }

    method Store(code: string, body: T, stampAt: int, evictAt: int)
      requires Valid() && Clock(log) <= stampAt <= evictAt
      modifies this
      ensures Valid()
      ensures log == old(log) + [Write(code, body, stampAt, evictAt)]
      ensures entries == Put(old(entries), code, body, stampAt, evictAt)
    {
      entries := entries[code := Entry(body, stampAt + CODE_REPLAY_TTL)];
      ghost var full := entries;
      var todo := entries.Keys;
      while todo != {}
        invariant log == old(log) && todo <= entries.Keys <= full.Keys
        invariant forall k :: k in entries ==> entries[k] == full[k]
        invariant forall k :: k in full ==> (k in entries <==> k in todo || evictAt <= full[k].expires)
        decreases |todo|
      {
        var k :| k in todo;
        todo := todo - {k};
        if entries[k].expires < evictAt {
          entries := entries - {k};
        }
      }
      assert entries == Evict(full, evictAt);
      log := log + [Write(code, body, stampAt, evictAt)];
      assert log[..|log| - 1] == old(log);
    }

    /** Locked look-up; the caller tests the expiry with a later clock reading. */
    method Load(code: string) returns (e: Option<Entry<T>>)
      requires Valid()
      ensures e == if code in entries then Some(entries[code]) else None
    {
      e := if code in entries then Some(entries[code]) else None;
    }
  }
}
