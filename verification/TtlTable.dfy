/** One-shot grants with a time to live, as the grant store keeps authorization codes and refresh
    tokens: a map that forgets entries on consumption, on revocation and on clean-up, and the log
    of operations, from which nothing is ever deleted. Clock readings are counted from the start of
    the process. An entry is still good at exactly its expiry. */
module TtlTable {
  import opened Wrappers

  datatype Entry<G> = Entry(grant: G, expiresAt: int)
  type Table<G> = map<string, Entry<G>>

  // ----- what each locked call does to the map -----

  function Clean<G>(t: Table<G>, now: int): Table<G> {
    map k | k in t && now <= t[k].expiresAt :: t[k]
  }

  /** The expiry is computed from `stamp`, read before the lock is taken. */
  function Save<G>(t: Table<G>, key: string, grant: G, stamp: int, ttl: int, now: int): Table<G> {
    Clean(t, now)[key := Entry(grant, stamp + ttl)]
  }

  function Drop<G>(t: Table<G>, key: string): Table<G> {
    t - {key}
  }

  function Find<G>(t: Table<G>, key: string, now: int): Option<G> {
    if key in t && now <= t[key].expiresAt then Some(t[key].grant) else None
  }

  // ----- the history that never deletes -----

  datatype Op<G> =
    | SaveOp(key: string, grant: G, stamp: int, at: int)
    | ConsumeOp(key: string, at: int)
    | RevokeOp(key: string)

  /** The last clock reading of a log. */
  function Clock<G>(log: seq<Op<G>>): int {
    if log == [] then 0
    else
      var op := log[|log| - 1];
      if op.RevokeOp? then Clock(log[..|log| - 1]) else op.at
  }

  /** The clock never runs backwards. */
  predicate WellTimed<G>(log: seq<Op<G>>) {
    log == [] ||
    (var op := log[|log| - 1];
     && WellTimed(log[..|log| - 1])
     && (!op.RevokeOp? ==> Clock(log[..|log| - 1]) <= op.at)
     && (op.SaveOp? ==> op.stamp <= op.at))
  }

  function Apply<G>(t: Table<G>, ttl: int, op: Op<G>): Table<G> {
    match op
    case SaveOp(key, grant, stamp, at) => Save(t, key, grant, stamp, ttl, at)
    case ConsumeOp(key, _) => Drop(t, key)
    case RevokeOp(key) => Drop(t, key)
  }

  /** The map after a log of operations. */
  function Run<G>(ttl: int, log: seq<Op<G>>): Table<G> {
    if log == [] then map[]
    else Apply(Run(ttl, log[..|log| - 1]), ttl, log[|log| - 1])
  }

  lemma RunSnoc<G>(ttl: int, log: seq<Op<G>>, op: Op<G>)
    ensures Run(ttl, log + [op]) == Apply(Run(ttl, log), ttl, op)
    ensures op.RevokeOp? ==> Clock(log + [op]) == Clock(log)
    ensures !op.RevokeOp? ==> Clock(log + [op]) == op.at
    ensures WellTimed(log + [op]) <==>
              && WellTimed(log)
              && (!op.RevokeOp? ==> Clock(log) <= op.at)
              && (op.SaveOp? ==> op.stamp <= op.at)
  {
    assert (log + [op])[..|log|] == log;
  }

  /** Operation `i` saved `key`, and no later operation saved, consumed or revoked it. */
  ghost predicate LatestSave<G>(log: seq<Op<G>>, i: int, key: string) {
    && 0 <= i < |log|
    && log[i].SaveOp? && log[i].key == key
    && forall j :: i < j < |log| ==> log[j].key != key
  }

  /** `LatestSave`, and not past its time to live at `now`. */
  ghost predicate LiveSave<G>(ttl: int, log: seq<Op<G>>, i: int, key: string, now: int) {
    LatestSave(log, i, key) && now <= log[i].stamp + ttl
  }

  lemma {:induction false} RunMeetsHistory<G>(ttl: int, log: seq<Op<G>>, key: string)
    requires WellTimed(log)
    ensures key in Run(ttl, log) ==>
              exists i :: LatestSave(log, i, key) && Run(ttl, log)[key] == Entry(log[i].grant, log[i].stamp + ttl)
    ensures forall i :: LiveSave(ttl, log, i, key, Clock(log)) ==> key in Run(ttl, log)
  {
    if log == [] {
    } else {
      var n := |log| - 1;
      var before, op := log[..n], log[n];
      RunMeetsHistory(ttl, before, key);
      if op.SaveOp? && op.key == key {
        assert LatestSave(log, n, key);
      } else if op.key != key {
        forall i | LatestSave(before, i, key)
          ensures LatestSave(log, i, key)
        {
          assert log[i] == before[i];
          forall j | i < j < |log|
            ensures log[j].key != key
          {
            assert j < n ==> log[j] == before[j];
          }
        }
        forall i | LiveSave(ttl, log, i, key, Clock(log))
          ensures key in Run(ttl, log)
        {
          assert log[i] == before[i];
          assert LiveSave(ttl, before, i, key, Clock(before)) by {
            assert forall j :: i < j < n ==> before[j] == log[j];
          }
        }
      }
    }
  }

  lemma LatestSaveUnique<G>(log: seq<Op<G>>, i: int, j: int, key: string)
    requires LatestSave(log, i, key) && LatestSave(log, j, key)
    ensures i == j
  {
  }

  /** Over every sequence of operations: a look-up finds a grant exactly when the latest save of the
      key was neither consumed nor revoked since and is within its time to live, and then it finds
      the grant of that save. */
  lemma FindMeetsHistory<G>(ttl: int, log: seq<Op<G>>, key: string, now: int)
    requires WellTimed(log) && Clock(log) <= now
    ensures Find(Run(ttl, log), key, now).Some? <==> exists i :: LiveSave(ttl, log, i, key, now)
    ensures forall i :: LiveSave(ttl, log, i, key, now) ==> Find(Run(ttl, log), key, now) == Some(log[i].grant)
  {
    RunMeetsHistory(ttl, log, key);
    if key in Run(ttl, log) {
      var i :| LatestSave(log, i, key) && Run(ttl, log)[key] == Entry(log[i].grant, log[i].stamp + ttl);
      assert now <= log[i].stamp + ttl ==> LiveSave(ttl, log, i, key, now);
      forall j | LiveSave(ttl, log, j, key, now)
        ensures j == i
      {
        LatestSaveUnique(log, i, j, key);
      }
    }
    forall j | LiveSave(ttl, log, j, key, now)
      ensures key in Run(ttl, log)
    {
      assert LiveSave(ttl, log, j, key, Clock(log));
    }
  }

  /** A grant is consumed at most once: whatever follows a consumption, until the key is saved again
      no consumption of it succeeds. */
  lemma SingleUse<G>(ttl: int, before: seq<Op<G>>, key: string, at: int, after: seq<Op<G>>, now: int)
    requires var log := before + [ConsumeOp(key, at)] + after; WellTimed(log) && Clock(log) <= now
    requires forall op :: op in after && op.SaveOp? ==> op.key != key
    ensures Find(Run(ttl, before + [ConsumeOp(key, at)] + after), key, now) == None
  {
    var log := before + [ConsumeOp(key, at)] + after;
    FindMeetsHistory(ttl, log, key, now);
    assert log[|before|].key == key;
    forall i | |before| < i < |log| && log[i].SaveOp?
      ensures log[i].key != key
    {
      assert log[i] == after[i - |before| - 1];
    }
  }

  /** When clean-up runs is invisible to every later look-up. */
  lemma CleanIsInvisible<G>(t: Table<G>, key: string, cleanedAt: int, now: int)
    requires cleanedAt <= now
    ensures Find(Clean(t, cleanedAt), key, now) == Find(t, key, now)
  {
  }

  // ----- how large the map can grow -----

  /** How many saves of the log are within their time to live at `now`. */
  function SavesInWindow<G>(ttl: int, log: seq<Op<G>>, now: int): nat {
    if log == [] then 0
    else
      var op := log[|log| - 1];
      SavesInWindow(ttl, log[..|log| - 1], now)
      + if op.SaveOp? && now <= op.stamp + ttl then 1 else 0
  }

  lemma SubsetSize<T>(a: set<T>, b: set<T>)
    requires a <= b
    ensures |a| <= |b|
  {
    assert b == a + (b - a);
  }

  lemma {:induction false} UnexpiredBound<G>(ttl: int, log: seq<Op<G>>, now: int)
    requires WellTimed(log) && Clock(log) <= now
    ensures |Clean(Run(ttl, log), now)| <= SavesInWindow(ttl, log, now)
  {
    if log == [] {
    } else {
      var before, op := log[..|log| - 1], log[|log| - 1];
      UnexpiredBound(ttl, before, now);
      var kept, held := Clean(Run(ttl, before), now).Keys, Clean(Run(ttl, log), now).Keys;
      if op.SaveOp? && now <= op.stamp + ttl {
        SubsetSize(held, kept + {op.key});
      } else {
        SubsetSize(held, kept);
      }
    }
  }

  /** Right after a save the map holds the entry just saved and, besides it, only entries within
      their time to live at the clean-up's clock reading; so its size is at most the number of such
      saves, plus one when the new entry itself waited for the lock past its own expiry. */
  lemma SizeAfterSave<G>(ttl: int, log: seq<Op<G>>, op: Op<G>)
    requires op.SaveOp? && WellTimed(log + [op])
    ensures forall k :: k in Run(ttl, log + [op]) && k != op.key ==>
              exists i :: LatestSave(log, i, k) && op.at <= log[i].stamp + ttl
    ensures |Run(ttl, log + [op])| <= SavesInWindow(ttl, log, op.at) + 1
    ensures op.at <= op.stamp + ttl ==> |Run(ttl, log + [op])| <= SavesInWindow(ttl, log + [op], op.at)
  {
    RunSnoc(ttl, log, op);
    assert (log + [op])[..|log|] == log;
    forall k | k in Run(ttl, log + [op]) && k != op.key
      ensures exists i :: LatestSave(log, i, k) && op.at <= log[i].stamp + ttl
    {
      RunMeetsHistory(ttl, log, k);
    }
    UnexpiredBound(ttl, log, op.at);
    SubsetSize(Run(ttl, log + [op]).Keys, Clean(Run(ttl, log), op.at).Keys + {op.key});
  }

  /** Every entry is within its time to live right after a save if and only if the save itself is: all
      others have just been cleaned up, but the new one carries a stamp from before the lock. */
  lemma AllFreshIff<G>(ttl: int, log: seq<Op<G>>, op: Op<G>)
    requires op.SaveOp? && WellTimed(log + [op])
    ensures (forall k :: k in Run(ttl, log + [op]) ==> op.at <= Run(ttl, log + [op])[k].expiresAt) <==>
              op.at <= op.stamp + ttl
  {
    RunSnoc(ttl, log, op);
    assert op.key in Run(ttl, log + [op]);
  }

  /** The size is at most the number of saves whose stamp is within the time to live, after every log,
      exactly for those saves that did not wait for the lock past their own expiry. */
  lemma SizeInWindowIff<G(!new)>(ttl: int, op: Op<G>)
    requires op.SaveOp? && WellTimed([op])
    ensures (forall log: seq<Op<G>> :: WellTimed(log + [op]) ==>
               |Run(ttl, log + [op])| <= SavesInWindow(ttl, log + [op], op.at)) <==>
              op.at <= op.stamp + ttl
  {
    if op.at <= op.stamp + ttl {
      forall log: seq<Op<G>> | WellTimed(log + [op])
        ensures |Run(ttl, log + [op])| <= SavesInWindow(ttl, log + [op], op.at)
      {
        SizeAfterSave(ttl, log, op);
      }
    } else {
      var none: seq<Op<G>> := [];
      RunSnoc(ttl, none, op);
      assert none + [op] == [op] && [op][..0] == none;
      assert Run(ttl, [op]).Keys == {op.key};
      assert WellTimed(none + [op]) && |Run(ttl, none + [op])| > SavesInWindow(ttl, none + [op], op.at);
    }
  }

  /** Such a save: stamped at 0, stored at 10 with a time to live of 5. */
  lemma StaleSave<G>(key: string, grant: G)
    ensures var log := [SaveOp(key, grant, 0, 10)];
            WellTimed(log) && |Run(5, log)| == 1 && SavesInWindow(5, log, 10) == 0
  {
    var none: seq<Op<G>>, op := [], SaveOp(key, grant, 0, 10);
    RunSnoc(5, none, op);
    assert none + [op] == [op] && [op][..0] == none;
    assert Run(5, [op]).Keys == {key};
  }

  /** How many saves of the log took place, by their own clean-up's reading, within the time to live
      before `now`. */
  function SavesAt<G>(ttl: int, log: seq<Op<G>>, now: int): nat {
    if log == [] then 0
    else
      var op := log[|log| - 1];
      SavesAt(ttl, log[..|log| - 1], now) + if op.SaveOp? && now <= op.at + ttl then 1 else 0
  }

  lemma {:induction false} WindowWithin<G>(ttl: int, log: seq<Op<G>>, now: int)
    requires WellTimed(log)
    ensures SavesInWindow(ttl, log, now) <= SavesAt(ttl, log, now)
  {
    if log == [] {
    } else {
      WindowWithin(ttl, log[..|log| - 1], now);
    }
  }

  /** Counted by when they took place, the saves of the last time to live bound the map right after any
      save, and every entry was put there by one of them. */
  lemma SizeBySaveTime<G>(ttl: int, log: seq<Op<G>>, op: Op<G>)
    requires op.SaveOp? && WellTimed(log + [op]) && ttl >= 0
    ensures |Run(ttl, log + [op])| <= SavesAt(ttl, log + [op], op.at)
    ensures forall k :: k in Run(ttl, log + [op]) ==>
              exists i :: LatestSave(log + [op], i, k) && op.at <= (log + [op])[i].at + ttl
  {
    assert (log + [op])[..|log|] == log;
    SizeAfterSave(ttl, log, op);
    WindowWithin(ttl, log, op.at);
    forall k | k in Run(ttl, log + [op])
      ensures exists i :: LatestSave(log + [op], i, k) && op.at <= (log + [op])[i].at + ttl
    {
      if k == op.key {
        assert LatestSave(log + [op], |log|, k);
      } else {
        var i :| LatestSave(log, i, k) && op.at <= log[i].stamp + ttl;
        LatestSaveBefore(log, op, i, k);
      }
    }
  }

  lemma LatestSaveBefore<G>(log: seq<Op<G>>, op: Op<G>, i: int, key: string)
    requires WellTimed(log) && LatestSave(log, i, key) && op.SaveOp? && op.key != key
    ensures LatestSave(log + [op], i, key) && log[i].stamp <= log[i].at
  {
    TimedAt(log, i);
    assert forall j :: i < j < |log| ==> (log + [op])[j] == log[j];
  }

  lemma {:induction false} TimedAt<G>(log: seq<Op<G>>, i: int)
    requires WellTimed(log) && 0 <= i < |log| && log[i].SaveOp?
    ensures log[i].stamp <= log[i].at
  {
    if i < |log| - 1 {
      TimedAt(log[..|log| - 1], i);
    }
  }
}
