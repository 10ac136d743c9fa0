/** What the theorems about the protocol say of the server's own stores, after any sequence of requests. */
module ServerTheorems {
  import opened Wrappers
  import opened Text
  import opened Protocol
  import opened ProtocolInvariant
  import opened ProtocolSteps
  import opened ProtocolTheorems
  import opened ProtocolOrigins
  import TtlTable
  import Handlers

  /** The store never holds more refresh tokens than were issued other than by rotation, and no two of
      one family. */
  lemma RefreshStoreBounded(server: Handlers.Server, t: string, u: string)
    requires server.Linked() && t in server.grants.refresh && u in server.grants.refresh
    ensures |server.grants.refresh| <= |server.sys.h.roots|
    ensures t in server.sys.h.familyOf && u in server.sys.h.familyOf
    ensures server.sys.h.familyOf[t] == server.sys.h.familyOf[u] ==> t == u
  {
    server.SysIsReachable();
    var s := server.sys;
    LiveTokensBounded(server.cfg, s);
    FamilyGrantConstant(server.cfg, s, t);
    FamilyGrantConstant(server.cfg, s, u);
    if s.h.familyOf[t] == s.h.familyOf[u] && t != u {
      FamilyHeldOnce(server.cfg, s, s.h.familyOf[t]);
      TwoElements(LiveTokens(s, s.h.familyOf[t]), t, u);
      assert false;
    }
  }

  lemma TwoElements<T>(a: set<T>, x: T, y: T)
    requires x in a && y in a && x != y
    ensures |a| >= 2
  {
    TtlTable.SubsetSize({x, y}, a);
  }

  lemma CachedFacts(cfg: Config, s: State, code: string)
    requires CodesInv(cfg, s) && IssuedInv(s) && ReplayInv(s) && code in s.replay
    ensures code in s.h.issued && s.replay[code].body == s.h.issued[code]
    ensures code in s.h.consumed && Gates(cfg, s.h.consumed[code].ac, s.h.consumed[code].q)
    ensures code !in s.codes
  {
    assert IssuedOk(s, s.h.consumed[code], s.h.issued[code]);
  }

  /** What the replay cache serves are the tokens issued for that code, by an exchange that passed the gates. */
  lemma CacheHoldsIssuedTokens(server: Handlers.Server, code: string)
    requires server.Linked() && code in server.replay.entries
    ensures var h := server.sys.h;
            && code in h.issued && server.replay.entries[code].body == h.issued[code]
            && code in h.consumed && Gates(server.cfg, h.consumed[code].ac, h.consumed[code].q)
            && code !in server.grants.codes
  {
    server.SysIsReachable();
    ReachableInv(server.cfg, server.sys);
    CachedFacts(server.cfg, server.sys, code);
  }

  /** An answered request keeps its reply. */
  lemma {:induction false} ReplyKept(cfg: Config, states: seq<State>, run: seq<Event>, n: nat, r: nat)
    requires Handlers.Chain(cfg, states, run) && n <= |run| && r in states[n].reqs && states[n].reqs[r].Done?
    ensures r in states[|run|].reqs && states[|run|].reqs[r] == states[n].reqs[r]
    decreases |run| - n
  {
    if n == |run| {
    } else {
      assert Handlers.Link(cfg, states, run, n);
      DoneStays(cfg, states[n], run[n], r);
      ReplyKept(cfg, states, run, n + 1, r);
    }
  }

  lemma DoneStays(cfg: Config, s: State, e: Event, r: nat)
    requires Allowed(s, e) && r in s.reqs && s.reqs[r].Done?
    ensures r in Next(cfg, s, e).reqs && Next(cfg, s, e).reqs[r] == s.reqs[r]
  {
  }

  /** Any two successful exchanges of a code were answered with the same tokens: one at any time `n` since
      the server started, the other by now. */
  lemma ResponsesAgree(server: Handlers.Server, code: string, n: nat, r: nat, q: nat, a: bool, x: Tokens, y: Tokens)
    requires server.Linked() && n <= |server.trace|
    requires r in server.states[n].reqs && server.states[n].reqs[r] == Done(Granted(FromCode(code), a, x))
    requires server.Exchanged(q, code, y)
    ensures x == y
  {
    server.SysIsReachable();
    var s := server.sys;
    ReplyKept(server.cfg, server.states, server.trace, n, r);
    assert After(server.cfg, s, []) == s;
    SameTokens(server.cfg, s, [], code, r, q, a, s.reqs[q].reply.replayed, x, y);
  }

  /** For one code, one refresh token and one device code the server has minted at most once. */
  lemma OneMintEach(server: Handlers.Server, i: nat, j: nat)
    requires server.Linked() && i < |server.sys.h.mints| && j < |server.sys.h.mints|
    requires SameGrant(server.sys.h.mints[i].g.src, server.sys.h.mints[j].g.src)
    ensures i == j
  {
    server.SysIsReachable();
    MintedOnce(server.cfg, server.sys, i, j);
  }

  lemma ServerIsTraced(server: Handlers.Server)
    requires server.Traced()
    ensures Legal(server.cfg, Init(server.users0), server.trace)
    ensures Traced(server.cfg, server.sys, TrailAfter(server.cfg, Init(server.users0), START, server.trace))
  {
    server.SysIsReachable();
  }

  /** Every code in the store was made for a request that arrived at this server, with what that request
      asked for and for the user it proved to come from. */
  lemma HeldCodesAreAskedFor(server: Handlers.Server, code: string)
    requires server.Linked() && code in server.grants.codes
    ensures Legal(server.cfg, Init(server.users0), server.trace)
    ensures var t := TrailAfter(server.cfg, Init(server.users0), START, server.trace);
            && CodeOf(server.cfg, t, code, server.grants.codes[code].grant)
            && Arrive(t.made[code], t.asked[t.made[code]]) in server.trace
  {
    ServerIsTraced(server);
    var t := TrailAfter(server.cfg, Init(server.users0), START, server.trace);
    CodesAreAskedFor(server.cfg, server.sys, t, code);
    AskedIsWhatArrived(server.cfg, Init(server.users0), START, server.trace, t.made[code]);
  }

  /** And every device in the store was made for a device request that arrived at this server. */
  lemma HeldDevicesAreAskedFor(server: Handlers.Server, device: string)
    requires server.Linked() && device in server.grants.tables.recs
    ensures Legal(server.cfg, Init(server.users0), server.trace)
    ensures var t := TrailAfter(server.cfg, Init(server.users0), START, server.trace);
            && DeviceOf(t, device, server.grants.tables.recs[device])
            && Arrive(t.made[device], t.asked[t.made[device]]) in server.trace
  {
    ServerIsTraced(server);
    var t := TrailAfter(server.cfg, Init(server.users0), START, server.trace);
    TracedFrom(server.cfg, server.sys, t);
    AskedIsWhatArrived(server.cfg, Init(server.users0), START, server.trace, t.made[device]);
  }
}
