/** What holds in every interleaving of requests. */
module ProtocolTheorems {
  import opened Wrappers
  import opened Text
  import opened Durations
  import opened Grants
  import opened Protocol
  import opened ProtocolInvariant
  import opened ProtocolSteps
  import opened ProtocolGrowth
  import TtlTable
  import Pkce
  import Replay

  // ----- refresh-token families -----

  ghost function LiveTokens(s: State, f: nat): set<string> {
    set t | t in s.refresh && t in s.h.familyOf && s.h.familyOf[t] == f
  }

  ghost function Rotations(s: State, f: nat): set<nat> {
    set r | r in s.reqs && Rotating(s.reqs[r]) == Some(f)
  }

  lemma AtMostOne<T>(a: set<T>)
    requires forall x, y :: x in a && y in a ==> x == y
    ensures |a| <= 1
  {
    if a != {} {
      var x :| x in a;
      assert a == {x};
    }
  }

  /** Every family has at most one holder: its live tokens and the rotations in flight are at most one. */
  lemma FamilyHeldOnce(cfg: Config, s: State, f: nat)
    requires Reachable(cfg, s)
    ensures |LiveTokens(s, f)| + |Rotations(s, f)| <= 1
  {
    ReachableInv(cfg, s);
    AtMostOne(LiveTokens(s, f));
    AtMostOne(Rotations(s, f));
    if LiveTokens(s, f) != {} {
      assert Rotations(s, f) == {};
    }
  }

  lemma {:induction false} BelowBound(a: set<nat>, n: nat)
    requires forall x :: x in a ==> x < n
    ensures |a| <= n
  {
    if n > 0 {
      BelowBound(a - {n - 1}, n - 1);
    } else {
      assert a == {};
    }
  }

  lemma {:induction false} InjectionBound(tokens: set<string>, family: map<string, nat>, n: nat)
    requires tokens <= family.Keys
    requires forall t :: t in tokens ==> family[t] < n
    requires forall t, u :: t in tokens && u in tokens && t != u ==> family[t] != family[u]
    ensures |tokens| <= n
    decreases |tokens|
  {
    if tokens == {} {
    } else {
      var t :| t in tokens;
      ImageSize(tokens, family);
      BelowBound(set u | u in tokens :: family[u], n);
    }
  }

  lemma {:induction false} ImageSize(tokens: set<string>, family: map<string, nat>)
    requires tokens <= family.Keys
    requires forall t, u :: t in tokens && u in tokens && t != u ==> family[t] != family[u]
    ensures |set u | u in tokens :: family[u]| == |tokens|
    decreases |tokens|
  {
    if tokens == {} {
    } else {
      var t :| t in tokens;
      var rest := tokens - {t};
      ImageSize(rest, family);
      assert (set u | u in tokens :: family[u]) == (set u | u in rest :: family[u]) + {family[t]};
    }
  }

  /** Live refresh tokens never outnumber the issuances that founded a family. */
  lemma LiveTokensBounded(cfg: Config, s: State)
    requires Reachable(cfg, s)
    ensures |s.refresh| <= |s.h.roots|
  {
    ReachableInv(cfg, s);
    InjectionBound(s.refresh.Keys, s.h.familyOf, |s.h.roots|);
  }

  /** Along a family nothing of the grant changes: every live token carries the user, client, scope and
      session of its root, the session is not empty and the scope has offline access. */
  lemma FamilyGrantConstant(cfg: Config, s: State, token: string)
    requires Reachable(cfg, s) && token in s.refresh
    ensures token in s.h.familyOf && s.h.familyOf[token] < |s.h.roots|
    ensures RootOf(s.refresh[token].grant) == s.h.roots[s.h.familyOf[token]]
    ensures s.refresh[token].grant.sessionId != "" && Contains(s.refresh[token].grant.scope, OFFLINE)
  {
    ReachableInv(cfg, s);
    RefreshOfFamily(s, token);
  }

  /** The step that ends a rotation: exactly one new token, in the same family and with the same grant,
      which the reply carries. */
  lemma RotationEnds(cfg: Config, s: State, r: nat, c: Choice)
    requires Reachable(cfg, s) && Enabled(s, r, c) && s.reqs[r].SaveRefresh? && s.reqs[r].g.src.FromRefresh?
    ensures var s', g, token := Act(cfg, s, r, c), s.reqs[r].g, "rt_" + c.uuid;
            && g.src.family < |s.h.roots| && token !in s.refresh && token in s'.refresh
            && s'.refresh.Keys <= s.refresh.Keys + {token}
            && s'.h.familyOf[token] == g.src.family && s'.h.roots == s.h.roots
            && RootOf(s'.refresh[token].grant) == s.h.roots[g.src.family]
            && s'.reqs[r] == Done(Granted(g.src, false, s.reqs[r].tokens.(refresh := Some(token))))
  {
    ReachableInv(cfg, s);
    Ready(cfg, s, r, c);
  }

  /** Every successful refresh is answered with a replacement token. */
  lemma RefreshAnswered(cfg: Config, s: State, r: nat, token: string, f: nat, replayed: bool, tokens: Tokens)
    requires Reachable(cfg, s) && r in s.reqs && s.reqs[r] == Done(Granted(FromRefresh(token, f), replayed, tokens))
    ensures tokens.refresh.Some?
  {
    ReachableInv(cfg, s);
    assert PcOk(cfg, s, r, s.reqs[r]);
  }

  // ----- families that ended -----

  ghost predicate FamilyEnded(s: State, f: nat) {
    f < |s.h.roots| && LiveTokens(s, f) == {} && Rotations(s, f) == {}
  }

  lemma EndedAfterConsume(cfg: Config, s: State, r: nat, c: Choice, token: string, clientId: string, f: nat)
    requires Enabled(s, r, c) && s.reqs[r] == RefreshConsume(token, clientId)
    requires FamilyEnded(s, f) && s.refresh.Keys <= s.h.familyOf.Keys
    ensures FamilyEnded(RefreshConsumeStep(s, r, c, token, clientId), f)
  {
    var s' := RefreshConsumeStep(s, r, c, token, clientId);
    ConsumeFamilies(s, r, c, token, clientId);
    forall t | t in s'.refresh && t in s'.h.familyOf
      ensures s'.h.familyOf[t] != f
    {
      assert t !in LiveTokens(s, f);
    }
    forall q | q in s'.reqs && q != r
      ensures Rotating(s'.reqs[q]) != Some(f)
    {
      assert q !in Rotations(s, f);
    }
    if token in s.refresh {
      assert token !in LiveTokens(s, f);
    }
    assert LiveTokens(s', f) == {} && Rotations(s', f) == {};
  }

  lemma ConsumeFamilies(s: State, r: nat, c: Choice, token: string, clientId: string)
    ensures var s' := RefreshConsumeStep(s, r, c, token, clientId);
            && (forall t :: t in s'.refresh ==> t in s.refresh) && s'.h.familyOf == s.h.familyOf
                && s'.h.roots == s.h.roots
            && (Rotating(s'.reqs[r]).Some? ==> token in s.refresh && Rotating(s'.reqs[r]) == Some(Family(s, token)))
  {
  }

  lemma EndedAfterSave(cfg: Config, s: State, r: nat, c: Choice, g: Grantee, tokens: Tokens, f: nat)
    requires Enabled(s, r, c) && s.reqs[r] == SaveRefresh(g, tokens) && FamilyEnded(s, f)
    ensures FamilyEnded(SaveRefreshStep(cfg, s, r, c, g, tokens), f)
  {
    var s' := SaveRefreshStep(cfg, s, r, c, g, tokens);
    assert r !in Rotations(s, f);
    assert forall t :: t in LiveTokens(s', f) ==> t in LiveTokens(s, f);
    assert forall q :: q in Rotations(s', f) ==> q != r && q in Rotations(s, f);
  }

  lemma MintStepFamilies(s: State, r: nat, c: Choice, g: Grantee)
    requires r in s.reqs && s.reqs[r] == Mint(g)
    ensures var s' := MintStep(s, r, c, g);
            && s'.refresh == s.refresh && s'.h.familyOf == s.h.familyOf && s'.h.roots == s.h.roots
            && (Rotating(s'.reqs[r]) == None || Rotating(s'.reqs[r]) == Rotating(s.reqs[r]))
  {
    if c.access.Some? {
      MintShape(s, r, c, g);
    }
  }

  lemma EndedAfterMint(s: State, r: nat, c: Choice, g: Grantee, f: nat)
    requires Enabled(s, r, c) && s.reqs[r] == Mint(g) && FamilyEnded(s, f)
    ensures FamilyEnded(MintStep(s, r, c, g), f)
  {
    MintStepFamilies(s, r, c, g);
    var s' := MintStep(s, r, c, g);
    assert LiveTokens(s', f) == LiveTokens(s, f);
    forall q | q in s'.reqs
      ensures Rotating(s'.reqs[q]) != Some(f)
    {
      assert q !in Rotations(s, f);
    }
    assert Rotations(s', f) == {};
  }

  lemma EndedWhenSteady(s: State, r: nat, c: Choice, s': State, f: nat)
    requires Local(s, r, c, s') && Steady(s, r, s') && FamilyEnded(s, f)
    ensures FamilyEnded(s', f)
  {
    assert forall t :: t in LiveTokens(s', f) ==> t in LiveTokens(s, f);
    assert forall q :: q in Rotations(s', f) ==> q in Rotations(s, f);
  }

  lemma EndedAfterArrive(cfg: Config, s: State, r: nat, q: Request, f: nat)
    requires r !in s.reqs && FamilyEnded(s, f)
    ensures FamilyEnded(Arrived(cfg, s, r, q), f)
  {
    AdmitOk(cfg, s, r, q);
    var s' := Arrived(cfg, s, r, q);
    assert LiveTokens(s', f) == LiveTokens(s, f);
    assert forall p :: p in Rotations(s', f) ==> p in Rotations(s, f);
  }

  lemma EndedAfterNext(cfg: Config, s: State, e: Event, f: nat)
    requires Allowed(s, e) && FamilyEnded(s, f) && s.refresh.Keys <= s.h.familyOf.Keys
    ensures FamilyEnded(Next(cfg, s, e), f)
  {
    match e
    case Arrive(r, q) => EndedAfterArrive(cfg, s, r, q, f);
    case SetUsers(users) =>
      assert LiveTokens(s.(users := users), f) == LiveTokens(s, f);
      assert Rotations(s.(users := users), f) == Rotations(s, f);
    case Step(r, c) =>
      var pc := s.reqs[r];
      if pc.RefreshConsume? {
        EndedAfterConsume(cfg, s, r, c, pc.token, pc.clientId, f);
      } else if pc.SaveRefresh? {
        EndedAfterSave(cfg, s, r, c, pc.g, pc.tokens, f);
      } else if pc.Mint? {
        EndedAfterMint(s, r, c, pc.g, f);
      } else {
        EndedWhenSteady(s, r, c, Act(cfg, s, r, c), f);
      }
  }

  lemma {:induction false} EndedStaysEnded(cfg: Config, s: State, run: seq<Event>, f: nat)
    requires Inv(cfg, s) && Legal(cfg, s, run) && FamilyEnded(s, f)
    ensures FamilyEnded(After(cfg, s, run), f)
    decreases |run|
  {
    if run == [] {
    } else {
      EndedAfterNext(cfg, s, run[0], f);
      NextKeeps(cfg, s, run[0]);
      EndedStaysEnded(cfg, Next(cfg, s, run[0]), run[1..], f);
    }
  }

  /** A refresh token presented with the wrong client is burned and its family ends for good. */
  lemma WrongClientEndsFamily(cfg: Config, s: State, r: nat, c: Choice, token: string, clientId: string,
                              run: seq<Event>)
    requires Reachable(cfg, s) && Enabled(s, r, c) && s.reqs[r] == RefreshConsume(token, clientId)
    requires TtlTable.Find(s.refresh, token, c.t1).Some? && clientId != ""
    requires s.refresh[token].grant.clientId != clientId
    requires Legal(cfg, Act(cfg, s, r, c), run)
    ensures token in s.h.familyOf && FamilyEnded(After(cfg, Act(cfg, s, r, c), run), s.h.familyOf[token])
    ensures Act(cfg, s, r, c).reqs[r] == Done(Refused)
  {
    ReachableInv(cfg, s);
    NextKeeps(cfg, s, Step(r, c));
    ConsumedLeavesNoHolder(cfg, s, r, c, token, clientId);
    EndedStaysEnded(cfg, Act(cfg, s, r, c), run, s.h.familyOf[token]);
  }

  lemma ConsumedLeavesNoHolder(cfg: Config, s: State, r: nat, c: Choice, token: string, clientId: string)
    requires RefreshInv(s) && FamiliesInv(s) && Enabled(s, r, c) && s.reqs[r] == RefreshConsume(token, clientId)
    requires TtlTable.Find(s.refresh, token, c.t1).Some? && clientId != ""
    requires s.refresh[token].grant.clientId != clientId
    ensures token in s.h.familyOf && FamilyEnded(RefreshConsumeStep(s, r, c, token, clientId), s.h.familyOf[token])
    ensures RefreshConsumeStep(s, r, c, token, clientId).reqs[r] == Done(Refused)
  {
    var s', f := RefreshConsumeStep(s, r, c, token, clientId), s.h.familyOf[token];
    forall t | t in s'.refresh
      ensures s.h.familyOf[t] != f
    {
      assert t in s.refresh && t != token;
    }
    forall q | q in s'.reqs
      ensures Rotating(s'.reqs[q]) != Some(f)
    {
      assert q != r ==> s'.reqs[q] == s.reqs[q];
    }
    assert LiveTokens(s', f) == {} && Rotations(s', f) == {};
  }

  /** Revoking the live token of a family ends the family for good. */
  lemma RevocationEndsFamily(cfg: Config, s: State, r: nat, c: Choice, token: string, run: seq<Event>)
    requires Reachable(cfg, s) && Enabled(s, r, c) && s.reqs[r] == Revoke(token) && token in s.refresh
    requires Legal(cfg, Act(cfg, s, r, c), run)
    ensures token in s.h.familyOf && FamilyEnded(After(cfg, Act(cfg, s, r, c), run), s.h.familyOf[token])
  {
    ReachableInv(cfg, s);
    NextKeeps(cfg, s, Step(r, c));
    RevokedLeavesNoHolder(s, r, c, token);
    EndedStaysEnded(cfg, Act(cfg, s, r, c), run, s.h.familyOf[token]);
  }

  lemma RevokedLeavesNoHolder(s: State, r: nat, c: Choice, token: string)
    requires RefreshInv(s) && FamiliesInv(s) && Enabled(s, r, c) && s.reqs[r] == Revoke(token) && token in s.refresh
    ensures token in s.h.familyOf && FamilyEnded(RevokeStep(s, r, c, token), s.h.familyOf[token])
  {
    var s', f := RevokeStep(s, r, c, token), s.h.familyOf[token];
    forall t | t in s'.refresh
      ensures s.h.familyOf[t] != f
    {
      assert t in s.refresh && t != token;
    }
    forall q | q in s'.reqs
      ensures Rotating(s'.reqs[q]) != Some(f)
    {
      assert q != r ==> s'.reqs[q] == s.reqs[q];
    }
    assert LiveTokens(s', f) == {} && Rotations(s', f) == {};
  }

  // ----- authorization codes -----

  /** Both mints are for one authorization code, one refresh token or one device code. */
  predicate SameGrant(a: Source, b: Source) {
    || (a.FromCode? && b.FromCode? && a.code == b.code)
    || (a.FromRefresh? && b.FromRefresh? && a.token == b.token)
    || (a.FromDevice? && b.FromDevice? && a.device == b.device)
  }

  /** An authorization code, a refresh token and a device code each lead to at most one mint. */
  lemma MintedOnce(cfg: Config, s: State, i: nat, j: nat)
    requires Reachable(cfg, s) && i < |s.h.mints| && j < |s.h.mints|
    requires SameGrant(s.h.mints[i].g.src, s.h.mints[j].g.src)
    ensures i == j
  {
    ReachableInv(cfg, s);
    assert MintOk(s, s.h.mints[i]) && MintOk(s, s.h.mints[j]);
  }

  /** Every success response for a code, first or replayed, carries the same tokens, also when the two
      responses are far apart in the run. */
  lemma SameTokens(cfg: Config, s: State, run: seq<Event>, code: string, r: nat, q: nat, a: bool, b: bool, x: Tokens,
                   y: Tokens)
    requires Reachable(cfg, s) && Legal(cfg, s, run)
    requires r in s.reqs && s.reqs[r] == Done(Granted(FromCode(code), a, x))
    requires q in After(cfg, s, run).reqs && After(cfg, s, run).reqs[q] == Done(Granted(FromCode(code), b, y))
    ensures x == y
  {
    ReachableInv(cfg, s);
    RunGrows(cfg, s, run);
    assert PcOk(cfg, s, r, s.reqs[r]);
    assert PcOk(cfg, After(cfg, s, run), q, After(cfg, s, run).reqs[q]);
  }

  lemma SuccessHasRefresh(cfg: Config, s: State, r: nat, code: string, replayed: bool, tokens: Tokens)
    requires Inv(cfg, s) && r in s.reqs && s.reqs[r] == Done(Granted(FromCode(code), replayed, tokens))
    ensures code in s.h.consumed && (tokens.refresh.Some? <==> Contains(s.h.consumed[code].ac.scope, OFFLINE))
  {
    assert PcOk(cfg, s, r, s.reqs[r]);
    assert IssuedOk(s, s.h.consumed[code], s.h.issued[code]);
  }

  /** Behind every success response for a code there is an exchange of that very code that passed the
      client, redirect, proof-key and secret gates. No other exchange of the code ever follows it. */
  lemma SuccessMeansGatesPassed(cfg: Config, s: State, r: nat, code: string, replayed: bool, tokens: Tokens)
    requires Reachable(cfg, s) && r in s.reqs && s.reqs[r] == Done(Granted(FromCode(code), replayed, tokens))
    ensures code in s.h.consumed && s.h.consumed[code].q.code == code
    ensures var ac, q := s.h.consumed[code].ac, s.h.consumed[code].q;
            && (q.clientId == "" || q.clientId == ac.clientId)
            && (q.redirectURI == "" || cfg.normalizeURI(q.redirectURI) == cfg.normalizeURI(ac.redirectUri))
            && (ac.codeChallenge == "" ||
                (q.codeVerifier != ""
                 && Pkce.Transform(cfg.hash, q.codeVerifier, ac.codeChallengeMethod) == Some(ac.codeChallenge)))
            && (cfg.hasRegistry && cfg.requireSecretForCodes && ac.clientId in cfg.clients
                && cfg.clients[ac.clientId].clientSecret != "" ==>
                  q.clientSecret == cfg.clients[ac.clientId].clientSecret)
    ensures tokens.refresh.Some? <==> Contains(s.h.consumed[code].ac.scope, OFFLINE)
  {
    ReachableInv(cfg, s);
    SuccessMeansPassed(cfg, s, r, code, replayed, tokens);
    GatesSpelledOut(cfg, s.h.consumed[code].ac, s.h.consumed[code].q);
    SuccessHasRefresh(cfg, s, r, code, replayed, tokens);
  }

  /** A consumed code is never held, exchanged or minted from again; one whose exchange failed a gate
      never leads to tokens at all. */
  lemma ConsumedForGood(cfg: Config, s: State, run: seq<Event>, code: string)
    requires Reachable(cfg, s) && Legal(cfg, s, run) && code in s.h.consumed
    ensures var s' := After(cfg, s, run);
            && code !in s'.codes && code in s'.h.consumed && s'.h.consumed[code] == s.h.consumed[code]
            && (!s.h.consumed[code].passed ==>
                  && (forall i :: 0 <= i < |s'.h.mints| ==> s'.h.mints[i].g.src != FromCode(code))
                  && (forall r :: r in s'.reqs && s'.reqs[r].Done? && s'.reqs[r].reply.Granted? ==>
                      s'.reqs[r].reply.src != FromCode(code)))
  {
    ReachableInv(cfg, s);
    RunGrows(cfg, s, run);
    BurnedFacts(cfg, After(cfg, s, run), code);
  }

  lemma BurnedFacts(cfg: Config, s: State, code: string)
    requires CodesInv(cfg, s) && IssuedInv(s) && MintsInv(s) && PcsInv(cfg, s) && code in s.h.consumed
    ensures code !in s.codes
    ensures !s.h.consumed[code].passed ==>
              && (forall i :: 0 <= i < |s.h.mints| ==> s.h.mints[i].g.src != FromCode(code))
              && (forall r :: r in s.reqs && s.reqs[r].Done? && s.reqs[r].reply.Granted? ==>
                  s.reqs[r].reply.src != FromCode(code))
  {
    if !s.h.consumed[code].passed {
      forall i | 0 <= i < |s.h.mints|
        ensures s.h.mints[i].g.src != FromCode(code)
      {
        assert MintOk(s, s.h.mints[i]);
      }
      forall r | r in s.reqs && s.reqs[r].Done? && s.reqs[r].reply.Granted?
        ensures s.reqs[r].reply.src != FromCode(code)
      {
        assert PcOk(cfg, s, r, s.reqs[r]);
        assert code in s.h.issued ==> IssuedOk(s, s.h.consumed[code], s.h.issued[code]);
      }
    }
  }

  // ----- replayed exchanges -----

  ghost predicate WithoutStepsOf(run: seq<Event>, r: nat) {
    forall i :: 0 <= i < |run| ==> !(run[i].Step? && run[i].r == r)
  }

  /** A request stays where it is while others run. */
  lemma {:induction false} OthersRun(cfg: Config, s: State, run: seq<Event>, r: nat)
    requires Legal(cfg, s, run) && r in s.reqs && WithoutStepsOf(run, r)
    ensures r in After(cfg, s, run).reqs && After(cfg, s, run).reqs[r] == s.reqs[r]
    decreases |run|
  {
    if run == [] {
    } else {
      var s1 := Next(cfg, s, run[0]);
      assert r in s1.reqs && s1.reqs[r] == s.reqs[r];
      forall i | 0 <= i < |run[1..]|
        ensures !(run[1..][i].Step? && run[1..][i].r == r)
      {
        assert run[1..][i] == run[i + 1];
      }
      OthersRun(cfg, s1, run[1..], r);
    }
  }

  lemma ReplayLookup(cfg: Config, s: State, code: string)
    requires ReplayInv(s) && code in s.h.cached && s.now <= s.h.cached[code]
    ensures code in s.h.issued && code in s.replay && s.replay[code] == Replay.Entry(s.h.issued[code], s.h.cached[code])
  {
  }

  lemma CacheStepShape(s: State, r: nat, c: Choice, code: string, tokens: Tokens)
    ensures CacheStep(s, r, c, code, tokens).h.cached == s.h.cached[code := c.t1 + 30 * SECOND]
  {
  }

  /** The cached response of a code expires thirty seconds after the clock reading that caching takes. */
  lemma CachedForThirtySeconds(cfg: Config, s: State, r: nat, c: Choice, code: string, tokens: Tokens)
    requires Reachable(cfg, s) && Enabled(s, r, c) && s.reqs[r] == Cache(code, tokens)
    ensures Act(cfg, s, r, c).h.cached == s.h.cached[code := c.t1 + 30 * SECOND] && code !in s.h.cached
    ensures code in s.h.issued && s.h.issued[code] == tokens
  {
    NotCachedYet(cfg, s, r, code, tokens);
    CacheAct(cfg, s, r, c, code, tokens);
    CacheStepShape(s, r, c, code, tokens);
  }

  lemma NotCachedYet(cfg: Config, s: State, r: nat, code: string, tokens: Tokens)
    requires Reachable(cfg, s) && r in s.reqs && s.reqs[r] == Cache(code, tokens)
    ensures code !in s.h.cached && code in s.h.issued && s.h.issued[code] == tokens
  {
    ReachableInv(cfg, s);
    CacheFacts(cfg, s, r, code, tokens);
  }

  lemma CacheAct(cfg: Config, s: State, r: nat, c: Choice, code: string, tokens: Tokens)
    requires Enabled(s, r, c) && s.reqs[r] == Cache(code, tokens)
    ensures Act(cfg, s, r, c) == CacheStep(s, r, c, code, tokens)
  {
  }

  /** A repeated exchange of a code whose response was cached: whatever other requests and evictions run
      between its three steps, it is answered with the same tokens if its last clock reading is strictly
      before the expiry, and refused otherwise. */
  lemma RepeatedExchange(
      cfg: Config, s: State, r: nat, q: CodeQuery,
      c0: Choice, mid1: seq<Event>, s2: State, c1: Choice, mid2: seq<Event>, s4: State, c2: Choice)
    requires Reachable(cfg, s) && s.reqs.Keys >= {r} && s.reqs[r] == CodeConsume(q) && q.code in s.h.cached
    requires Enabled(s, r, c0) && Legal(cfg, Act(cfg, s, r, c0), mid1) && WithoutStepsOf(mid1, r)
    requires s2 == After(cfg, Act(cfg, s, r, c0), mid1)
    requires Enabled(s2, r, c1) && Legal(cfg, Act(cfg, s2, r, c1), mid2) && WithoutStepsOf(mid2, r)
    requires s4 == After(cfg, Act(cfg, s2, r, c1), mid2)
    requires Enabled(s4, r, c2)
    ensures q.code in s.h.issued
    ensures Act(cfg, s4, r, c2).reqs[r] ==
              Done(if c2.t1 < s.h.cached[q.code] then Granted(FromCode(q.code), true, s.h.issued[q.code]) else Refused)
  {
    ReachableInv(cfg, s);
    CachedCodeMisses(cfg, s, r, c0, q);
    StepThenOthers(cfg, s, r, c0, mid1, s2);
    StepThenOthers(cfg, s2, r, c1, mid2, s4);
    AfterLookup(cfg, s, r, q.code, s2, c1, s4, c2);
  }

  /** One step of a request, then steps of others only. */
  lemma StepThenOthers(cfg: Config, s: State, r: nat, c: Choice, mid: seq<Event>, s': State)
    requires Inv(cfg, s) && Enabled(s, r, c) && Legal(cfg, Act(cfg, s, r, c), mid) && WithoutStepsOf(mid, r)
    requires s' == After(cfg, Act(cfg, s, r, c), mid)
    ensures Inv(cfg, s') && Grows(s, s') && c.t3 <= s'.now
    ensures r in s'.reqs && s'.reqs[r] == Act(cfg, s, r, c).reqs[r]
  {
    var m := Act(cfg, s, r, c);
    assert m == Next(cfg, s, Step(r, c));
    NextKeeps(cfg, s, Step(r, c));
    ActGrows(cfg, s, r, c);
    OthersRun(cfg, m, mid, r);
    RunGrows(cfg, m, mid);
    KeysApart(cfg, s);
    GrowsTransitive(s, m, s');
  }

  lemma CachedCodeMisses(cfg: Config, s: State, r: nat, c: Choice, q: CodeQuery)
    requires NamesInv(s) && CodesInv(cfg, s) && Enabled(s, r, c) && s.reqs[r] == CodeConsume(q) && q.code in s.h.cached
    ensures Act(cfg, s, r, c).reqs[r] == CodeReplay(q.code)
    ensures q.code in s.h.issued
  {
    assert q.code !in s.codes;
    assert Act(cfg, s, r, c) == CodeConsumeStep(cfg, s, r, c, q);
  }

  lemma AfterLookup(cfg: Config, s: State, r: nat, code: string, s2: State, c1: Choice, s4: State, c2: Choice)
    requires code in s.h.cached && code in s.h.issued && Grows(s, s2)
    requires ReplayInv(s2) && Enabled(s2, r, c1) && s2.reqs[r] == CodeReplay(code)
    requires Enabled(s4, r, c2) && s4.reqs[r] == Act(cfg, s2, r, c1).reqs[r] && c1.t3 <= s4.now
    ensures Act(cfg, s4, r, c2).reqs[r] ==
              Done(if c2.t1 < s.h.cached[code] then Granted(FromCode(code), true, s.h.issued[code]) else Refused)
  {
    assert Act(cfg, s2, r, c1) == CodeReplayStep(s2, r, c1, code);
    LookupThenCheck(cfg, s2, r, c1, s4, c2, code);
    assert Act(cfg, s4, r, c2) == CodeReplayCheckStep(s4, r, c2, code, s4.reqs[r].entry);
  }

  lemma LookupThenCheck(cfg: Config, s2: State, r: nat, c1: Choice, s4: State, c2: Choice, code: string)
    requires ReplayInv(s2) && r in s2.reqs && s2.reqs[r] == CodeReplay(code) && code in s2.h.cached
    requires code in s2.h.issued
    requires s2.now <= c1.t3 && r in s4.reqs && s4.reqs[r] == CodeReplayStep(s2, r, c1, code).reqs[r]
    requires c1.t3 <= s4.now <= c2.t1
    ensures s4.reqs[r].CodeReplayCheck? && s4.reqs[r].code == code
    ensures CodeReplayCheckStep(s4, r, c2, code, s4.reqs[r].entry).reqs[r] ==
              Done(if c2.t1 < s2.h.cached[code] then Granted(FromCode(code), true, s2.h.issued[code]) else Refused)
  {
    if c2.t1 < s2.h.cached[code] {
      ReplayLookup(cfg, s2, code);
    }
  }
}
