/** What requests get. Each result starts from the arrival of a request, lets any other requests run in
    between its own steps, counts these, and says when it is answered and what it is answered with. */
module ProtocolProgress {
  import opened Wrappers
  import opened Text
  import opened Grants
  import opened Protocol
  import opened ProtocolInvariant
  import opened ProtocolSteps
  import opened ProtocolGrowth
  import opened ProtocolTheorems
  import opened ProtocolOrigins
  import TtlTable
  import Pkce

  // ----- the steps of one request in a run -----

  predicate Own(e: Event, r: nat) {
    e.Step? && e.r == r
  }

  function OwnSteps(run: seq<Event>, r: nat): nat {
    if run == [] then 0 else (if Own(run[0], r) then 1 else 0) + OwnSteps(run[1..], r)
  }

  /** In no step of the request does the issuer fail. */
  predicate IssuerWorks(run: seq<Event>, r: nat) {
    forall i :: 0 <= i < |run| && Own(run[i], r) ==> run[i].c.access.Some?
  }

  lemma IssuerStillWorks(run: seq<Event>, r: nat)
    requires IssuerWorks(run, r) && run != []
    ensures IssuerWorks(run[1..], r)
    ensures Own(run[0], r) ==> run[0].c.access.Some?
  {
    forall i | 0 <= i < |run[1..]| && Own(run[1..][i], r)
      ensures run[1..][i].c.access.Some?
    {
      assert run[1..][i] == run[i + 1];
    }
  }

  /** In every step of the request the database answers, and holds the user. */
  predicate UserThere(cfg: Config, s: State, run: seq<Event>, r: nat, userId: string)
    requires Legal(cfg, s, run)
    decreases |run|
  {
    run != [] ==>
      && (Own(run[0], r) ==> run[0].c.dbOk && userId in s.users)
      && UserThere(cfg, Next(cfg, s, run[0]), run[1..], r, userId)
  }

  lemma OthersEvent(cfg: Config, s: State, e: Event, r: nat)
    requires Inv(cfg, s) && Allowed(s, e) && r in s.reqs && !Own(e, r)
    ensures var s' := Next(cfg, s, e); Inv(cfg, s') && Grows(s, s') && r in s'.reqs && s'.reqs[r] == s.reqs[r]
  {
    NextKeeps(cfg, s, e);
    NextGrows(cfg, s, e);
  }

  lemma OwnEvent(cfg: Config, s: State, e: Event, r: nat)
    requires Inv(cfg, s) && Allowed(s, e) && Own(e, r)
    ensures Next(cfg, s, e) == Act(cfg, s, r, e.c) && Enabled(s, r, e.c)
    ensures Inv(cfg, Next(cfg, s, e)) && Grows(s, Next(cfg, s, e))
  {
    NextKeeps(cfg, s, e);
    NextGrows(cfg, s, e);
  }

  // ----- from minting to the answer -----

  /** The tokens are those of the mint, with a refresh token exactly when the scope asks for offline access:
      one that was not there before and stands for the same user, client, scope and session. A refresh
      token for a refresh token is of the same family. */
  predicate Carries(s: State, names: set<string>, m: MintEvent, tokens: Tokens) {
    && tokens.access == m.access && tokens.id == m.id
    && (tokens.refresh.Some? <==> Contains(m.g.scope, "offline_access"))
    && (tokens.refresh.Some? ==>
          var t := tokens.refresh.value;
          && t !in names && t in s.h.familyOf && s.h.familyOf[t] < |s.h.roots|
          && s.h.roots[s.h.familyOf[t]] == Root(m.g.sub, m.g.client, m.g.scope, m.g.sid)
          && (m.g.src.FromRefresh? ==> s.h.familyOf[t] == m.g.src.family))
  }

  predicate MintedBy(s: State, r: nat, g: Grantee, i: int) {
    0 <= i < |s.h.mints| && s.h.mints[i].req == r && s.h.mints[i].g == g
  }

  /** The request is answered with the tokens minted for `g`. */
  ghost predicate Answered(s: State, r: nat, names: set<string>, g: Grantee) {
    exists i, tokens ::
      && MintedBy(s, r, g, i) && Carries(s, names, s.h.mints[i], tokens)
      && r in s.reqs && s.reqs[r] == Done(Granted(g.src, false, tokens))
  }

  ghost predicate Caching(s: State, r: nat, names: set<string>, g: Grantee) {
    exists i, tokens ::
      && MintedBy(s, r, g, i) && Carries(s, names, s.h.mints[i], tokens)
      && r in s.reqs && g.src.FromCode? && s.reqs[r] == Cache(g.src.code, tokens)
  }

  ghost predicate Saving(s: State, r: nat, g: Grantee) {
    exists i ::
      && MintedBy(s, r, g, i) && Contains(g.scope, OFFLINE)
      && r in s.reqs && s.reqs[r] == SaveRefresh(g, Tokens(s.h.mints[i].access, s.h.mints[i].id, None))
  }

  /** How many steps minting for `g` takes: one to mint, one to save a refresh token, one to cache the
      response for a code. */
  function MintSteps(g: Grantee): nat {
    1 + SaveSteps(g)
  }

  function SaveSteps(g: Grantee): nat {
    (if Contains(g.scope, "offline_access") then 1 else 0) + CacheSteps(g)
  }

  function CacheSteps(g: Grantee): nat {
    if g.src.FromCode? then 1 else 0
  }

  /** The request is on course to be answered, `left` steps from now. */
  ghost predicate OnCourse(s: State, r: nat, names: set<string>, g: Grantee, left: nat) {
    && names <= s.names
    && (|| (r in s.reqs && s.reqs[r] == Mint(g) && left == MintSteps(g))
        || (Saving(s, r, g) && left == SaveSteps(g))
        || (Caching(s, r, names, g) && left == 1)
        || (Answered(s, r, names, g) && left == 0))
  }

  lemma CarriesOn(s: State, s': State, names: set<string>, m: MintEvent, tokens: Tokens)
    requires Carries(s, names, m, tokens) && Grows(s, s')
    ensures Carries(s', names, m, tokens)
  {
  }

  lemma MintedOn(s: State, s': State, r: nat, g: Grantee, i: int)
    requires MintedBy(s, r, g, i) && Grows(s, s')
    ensures MintedBy(s', r, g, i) && s'.h.mints[i] == s.h.mints[i]
  {
  }

  lemma OthersOnCourse(s: State, s': State, r: nat, names: set<string>, g: Grantee, left: nat)
    requires OnCourse(s, r, names, g, left) && Grows(s, s')
    requires r in s.reqs ==> r in s'.reqs && s'.reqs[r] == s.reqs[r]
    ensures OnCourse(s', r, names, g, left)
  {
    if Saving(s, r, g) {
      var i :|
        && MintedBy(s, r, g, i) && Contains(g.scope, OFFLINE)
        && r in s.reqs && s.reqs[r] == SaveRefresh(g, Tokens(s.h.mints[i].access, s.h.mints[i].id, None));
      MintedOn(s, s', r, g, i);
    } else if Caching(s, r, names, g) {
      var i, tokens :|
        && MintedBy(s, r, g, i) && Carries(s, names, s.h.mints[i], tokens)
        && r in s.reqs && g.src.FromCode? && s.reqs[r] == Cache(g.src.code, tokens);
      MintedOn(s, s', r, g, i);
      CarriesOn(s, s', names, s.h.mints[i], tokens);
    } else if Answered(s, r, names, g) {
      var i, tokens :|
        && MintedBy(s, r, g, i) && Carries(s, names, s.h.mints[i], tokens)
        && r in s.reqs && s.reqs[r] == Done(Granted(g.src, false, tokens));
      MintedOn(s, s', r, g, i);
      CarriesOn(s, s', names, s.h.mints[i], tokens);
    }
  }

  lemma DeliveredOnCourse(s: State, r: nat, names: set<string>, g: Grantee, i: int, tokens: Tokens)
    requires names <= s.names && MintedBy(s, r, g, i) && Carries(s, names, s.h.mints[i], tokens)
    requires r in s.reqs && s.reqs[r] == Delivered(g, tokens)
    ensures OnCourse(s, r, names, g, CacheSteps(g))
  {
    if g.src.FromCode? {
      assert Caching(s, r, names, g);
    } else {
      assert Answered(s, r, names, g);
    }
  }

  lemma MintOnCourse(s: State, r: nat, c: Choice, names: set<string>, g: Grantee)
    requires c.access.Some? && names <= MintStep(s, r, c, g).names
    ensures OnCourse(MintStep(s, r, c, g), r, names, g, SaveSteps(g))
  {
    MintGoes(s, r, c, g);
    var s', i := MintStep(s, r, c, g), |s.h.mints|;
    assert MintedBy(s', r, g, i);
    if Contains(g.scope, OFFLINE) {
      assert Saving(s', r, g);
    } else {
      DeliveredOnCourse(s', r, names, g, i, MintTokens(g, c));
    }
  }

  lemma SaveCarries(cfg: Config, s: State, r: nat, c: Choice, g: Grantee, tokens: Tokens, names: set<string>, i: int)
    requires FreshName(s.names, c.uuid) && names <= s.names && Contains(g.scope, OFFLINE)
    requires MintedBy(s, r, g, i) && tokens == Tokens(s.h.mints[i].access, s.h.mints[i].id, None)
    requires g.src.FromRefresh? ==> g.src.family < |s.h.roots|
    requires g.src.FromRefresh? ==> s.h.roots[g.src.family] == Root(g.sub, g.client, g.scope, g.sid)
    ensures var s' := SaveRefreshStep(cfg, s, r, c, g, tokens);
            Carries(s', names, s.h.mints[i], tokens.(refresh := Some("rt_" + c.uuid)))
  {
    SaveRefreshGoes(cfg, s, r, c, g, tokens);
    var s' := SaveRefreshStep(cfg, s, r, c, g, tokens);
    assert s'.h.familyOf["rt_" + c.uuid] == if g.src.FromRefresh? then g.src.family else |s.h.roots|;
  }

  lemma SaveOnCourse(cfg: Config, s: State, r: nat, c: Choice, names: set<string>, g: Grantee)
    requires Saving(s, r, g) && FreshName(s.names, c.uuid) && names <= s.names
    requires Enabled(s, r, c) && PcOk(cfg, s, r, s.reqs[r]) && names <= Act(cfg, s, r, c).names
    ensures OnCourse(Act(cfg, s, r, c), r, names, g, CacheSteps(g))
  {
    var i :|
      && MintedBy(s, r, g, i) && Contains(g.scope, OFFLINE)
      && r in s.reqs && s.reqs[r] == SaveRefresh(g, Tokens(s.h.mints[i].access, s.h.mints[i].id, None));
    var tokens := s.reqs[r].tokens;
    TokenActs(cfg, s, r, c);
    SaveRefreshGoes(cfg, s, r, c, g, tokens);
    SaveCarries(cfg, s, r, c, g, tokens, names, i);
    DeliveredOnCourse(Act(cfg, s, r, c), r, names, g, i, tokens.(refresh := Some("rt_" + c.uuid)));
  }

  lemma CacheGoes(s: State, r: nat, c: Choice, code: string, tokens: Tokens)
    ensures var s' := CacheStep(s, r, c, code, tokens);
            && s'.reqs[r] == Done(Granted(FromCode(code), false, tokens))
            && s'.names == s.names && s'.h == s.h.(cached := s'.h.cached)
  {
  }

  lemma CacheOnCourse(cfg: Config, s: State, r: nat, c: Choice, names: set<string>, g: Grantee)
    requires Caching(s, r, names, g) && Enabled(s, r, c) && names <= s.names
    ensures OnCourse(Act(cfg, s, r, c), r, names, g, 0)
  {
    var i, tokens :|
      && MintedBy(s, r, g, i) && Carries(s, names, s.h.mints[i], tokens)
      && r in s.reqs && g.src.FromCode? && s.reqs[r] == Cache(g.src.code, tokens);
    CacheAct(cfg, s, r, c, g.src.code, tokens);
    CacheGoes(s, r, c, g.src.code, tokens);
    var s' := Act(cfg, s, r, c);
    assert MintedBy(s', r, g, i) && Carries(s', names, s'.h.mints[i], tokens);
    assert Answered(s', r, names, g);
  }

  /** A step of a request on course brings it one step nearer to its answer. */
  lemma OwnOnCourse(cfg: Config, s: State, r: nat, c: Choice, names: set<string>, g: Grantee, left: nat)
    requires OnCourse(s, r, names, g, left) && Enabled(s, r, c) && c.access.Some? && PcOk(cfg, s, r, s.reqs[r])
    requires Grows(s, Act(cfg, s, r, c))
    ensures left > 0 && OnCourse(Act(cfg, s, r, c), r, names, g, left - 1)
  {
    if s.reqs[r].Mint? {
      TokenActs(cfg, s, r, c);
      MintOnCourse(s, r, c, names, g);
    } else if s.reqs[r].SaveRefresh? {
      SaveOnCourse(cfg, s, r, c, names, g);
    } else {
      CacheOnCourse(cfg, s, r, c, names, g);
    }
  }

  /** After so many steps of its own a request on course is still so many steps from its answer, and it is
      answered exactly when none is left. */
  lemma {:induction false} StaysOnCourse(cfg: Config, s: State, run: seq<Event>, r: nat, names: set<string>, g: Grantee,
                                         left: nat)
    requires Inv(cfg, s) && Legal(cfg, s, run) && OnCourse(s, r, names, g, left) && IssuerWorks(run, r)
    ensures OwnSteps(run, r) <= left
    ensures OnCourse(After(cfg, s, run), r, names, g, left - OwnSteps(run, r))
    decreases |run|
  {
    if run == [] {
    } else {
      IssuerStillWorks(run, r);
      var e := run[0];
      if Own(e, r) {
        OwnEvent(cfg, s, e, r);
        Ready(cfg, s, r, e.c);
        OwnOnCourse(cfg, s, r, e.c, names, g, left);
        StaysOnCourse(cfg, Next(cfg, s, e), run[1..], r, names, g, left - 1);
      } else {
        OthersEvent(cfg, s, e, r);
        OthersOnCourse(s, Next(cfg, s, e), r, names, g, left);
        StaysOnCourse(cfg, Next(cfg, s, e), run[1..], r, names, g, left);
      }
    }
  }

  lemma CourseEnds(s: State, r: nat, names: set<string>, g: Grantee, left: nat)
    requires OnCourse(s, r, names, g, left)
    ensures r in s.reqs && (s.reqs[r].Done? <==> left == 0)
    ensures left == 0 ==> Answered(s, r, names, g)
  {
  }

  /** From the step that takes the request to minting: what the rest of the run makes of it. */
  lemma MintingEnds(cfg: Config, s: State, run: seq<Event>, r: nat, names: set<string>, g: Grantee)
    requires Inv(cfg, s) && Legal(cfg, s, run) && IssuerWorks(run, r) && names <= s.names
    requires r in s.reqs && s.reqs[r] == Mint(g)
    ensures OwnSteps(run, r) <= MintSteps(g)
    ensures OnCourse(After(cfg, s, run), r, names, g, MintSteps(g) - OwnSteps(run, r))
  {
    StaysOnCourse(cfg, s, run, r, names, g, MintSteps(g));
  }

  // ----- refreshing -----

  /** The entry is held, unless its time is over. */
  predicate HeldInTime<G(==)>(t: TtlTable.Table<G>, key: string, entry: TtlTable.Entry<G>, now: int) {
    (key in t && t[key] == entry) || entry.expiresAt < now
  }

  /** Another request presents or revokes the token. */
  predicate TakesToken(s: State, e: Event, token: string) {
    e.Step? && e.r in s.reqs &&
    match s.reqs[e.r]
    case RefreshConsume(t, _) => t == token
    case Revoke(t) => t == token
    case _ => false
  }

  /** No other request takes the token before `r` takes a step, and that first step is in time. */
  predicate TokenSpared(cfg: Config, s: State, run: seq<Event>, r: nat, token: string, expiry: int)
    requires Legal(cfg, s, run)
    decreases |run|
  {
    run != [] ==>
      if Own(run[0], r) then run[0].c.t1 <= expiry
      else !TakesToken(s, run[0], token) && TokenSpared(cfg, Next(cfg, s, run[0]), run[1..], r, token, expiry)
  }

  lemma ConsumeSpares(s: State, r: nat, c: Choice, token: string, clientId: string, key: string,
                      entry: TtlTable.Entry<RefreshGrant>)
    requires Enabled(s, r, c) && HeldInTime(s.refresh, key, entry, s.now) && token != key
    ensures HeldInTime(RefreshConsumeStep(s, r, c, token, clientId).refresh, key, entry, c.t3)
  {
  }

  lemma RevokeSpares(s: State, r: nat, c: Choice, token: string, key: string, entry: TtlTable.Entry<RefreshGrant>)
    requires Enabled(s, r, c) && HeldInTime(s.refresh, key, entry, s.now) && token != key
    ensures HeldInTime(RevokeStep(s, r, c, token).refresh, key, entry, c.t3)
  {
  }

  /** A save cleans up, but no entry whose time is not over, and it draws a new name. */
  lemma SaveSpares(cfg: Config, s: State, r: nat, c: Choice, g: Grantee, tokens: Tokens, key: string,
                   entry: TtlTable.Entry<RefreshGrant>)
    requires Enabled(s, r, c) && HeldInTime(s.refresh, key, entry, s.now) && key in s.names
    ensures HeldInTime(SaveRefreshStep(cfg, s, r, c, g, tokens).refresh, key, entry, c.t3)
  {
  }

  lemma OthersSpareToken(cfg: Config, s: State, e: Event, token: string, entry: TtlTable.Entry<RefreshGrant>)
    requires Allowed(s, e) && !TakesToken(s, e, token) && token in s.names && HeldInTime(s.refresh, token, entry, s.now)
    ensures HeldInTime(Next(cfg, s, e).refresh, token, entry, Next(cfg, s, e).now)
  {
    if e.Step? {
      var pc := s.reqs[e.r];
      TokenActs(cfg, s, e.r, e.c);
      if pc.RefreshConsume? {
        ConsumeSpares(s, e.r, e.c, pc.token, pc.clientId, token, entry);
      } else if pc.Revoke? {
        RevokeSpares(s, e.r, e.c, pc.token, token, entry);
      } else if pc.SaveRefresh? {
        SaveSpares(cfg, s, e.r, e.c, pc.g, pc.tokens, token, entry);
      }
    }
  }

  /** What a refresh is minted for: the stored user, client, scope and session, with the client as the
      audience or else the default. */
  function Refreshing(token: string, family: nat, rg: RefreshGrant): Grantee {
    Grantee(FromRefresh(token, family), rg.userId, rg.clientId,
            if rg.clientId == "" then "https://api.example.com" else rg.clientId, rg.scope, rg.sessionId)
  }

  lemma RefreshMints(s: State, r: nat, c: Choice, token: string, clientId: string,
                     entry: TtlTable.Entry<RefreshGrant>)
    requires Enabled(s, r, c) && HeldInTime(s.refresh, token, entry, s.now) && c.t1 <= entry.expiresAt
    requires (clientId == "" || clientId == entry.grant.clientId) && entry.grant.sessionId != ""
    requires token in s.h.familyOf
    ensures var s' := RefreshConsumeStep(s, r, c, token, clientId);
            s'.reqs[r] == Mint(Refreshing(token, s.h.familyOf[token], entry.grant)) && token in s'.h.refreshed
  {
  }

  lemma GoneForGood(cfg: Config, s: State, run: seq<Event>, token: string)
    requires Inv(cfg, s) && Legal(cfg, s, run) && token in s.h.refreshed
    ensures token !in After(cfg, s, run).refresh
  {
    RunGrows(cfg, s, run);
    KeysApart(cfg, After(cfg, s, run));
  }

  lemma {:induction false} RefreshRuns(cfg: Config, s: State, run: seq<Event>, r: nat, names: set<string>,
                                       token: string, clientId: string, entry: TtlTable.Entry<RefreshGrant>, f: nat)
    requires Inv(cfg, s) && Legal(cfg, s, run) && IssuerWorks(run, r) && names <= s.names
    requires r in s.reqs && s.reqs[r] == RefreshConsume(token, clientId)
    requires HeldInTime(s.refresh, token, entry, s.now) && TokenSpared(cfg, s, run, r, token, entry.expiresAt)
    requires (clientId == "" || clientId == entry.grant.clientId) && entry.grant.sessionId != "" && token in s.names
    requires token in s.h.familyOf && s.h.familyOf[token] == f
    ensures var s', n, g := After(cfg, s, run), OwnSteps(run, r), Refreshing(token, f, entry.grant);
            && (n == 0 ==> r in s'.reqs && s'.reqs[r] == RefreshConsume(token, clientId))
            && (n > 0 ==> token !in s'.refresh && n - 1 <= MintSteps(g))
            && (n > 0 ==> OnCourse(s', r, names, g, MintSteps(g) - (n - 1)))
    decreases |run|
  {
    if run == [] {
    } else {
      IssuerStillWorks(run, r);
      var e, s1 := run[0], Next(cfg, s, run[0]);
      if Own(e, r) {
        OwnEvent(cfg, s, e, r);
        TokenActs(cfg, s, r, e.c);
        RefreshMints(s, r, e.c, token, clientId, entry);
        GoneForGood(cfg, s1, run[1..], token);
        MintingEnds(cfg, s1, run[1..], r, names, Refreshing(token, f, entry.grant));
      } else {
        OthersEvent(cfg, s, e, r);
        OthersSpareToken(cfg, s, e, token, entry);
        RefreshRuns(cfg, s1, run[1..], r, names, token, clientId, entry, f);
      }
    }
  }

  /** A live refresh token that is presented by its client, or by none, is rotated. While others interleave
      that do not take the token, and the issuer works, the request is answered after exactly three steps
      of its own: with tokens minted for the stored user, client, scope and session, among them a new
      refresh token of the same family. The old token is gone from the first step on. */
  lemma RefreshIsAnswered(cfg: Config, s: State, r: nat, token: string, clientId: string, run: seq<Event>)
    requires Reachable(cfg, s) && r !in s.reqs && token != "" && token in s.refresh
    requires clientId == "" || clientId == s.refresh[token].grant.clientId
    requires Legal(cfg, Next(cfg, s, Arrive(r, TokenRefresh(token, clientId))), run) && IssuerWorks(run, r)
    requires TokenSpared(cfg, Next(cfg, s, Arrive(r, TokenRefresh(token, clientId))), run, r, token,
                         s.refresh[token].expiresAt)
    ensures token in s.h.familyOf
    ensures var s' := After(cfg, Next(cfg, s, Arrive(r, TokenRefresh(token, clientId))), run);
            var n, rg, f := OwnSteps(run, r), s.refresh[token].grant, s.h.familyOf[token];
            && n <= 3 && r in s'.reqs && (s'.reqs[r].Done? <==> n == 3)
            && (n > 0 ==> token !in s'.refresh)
            && (n == 3 ==>
                exists i, tokens ::
                  && MintedBy(s', r, Refreshing(token, f, rg), i) && Carries(s', s.names, s'.h.mints[i], tokens)
                  && s'.reqs[r] == Done(Granted(FromRefresh(token, f), false, tokens)) && tokens.refresh.Some?)
  {
    ReachableInv(cfg, s);
    var q := TokenRefresh(token, clientId);
    var s1, rg := Next(cfg, s, Arrive(r, q)), s.refresh[token].grant;
    NextKeeps(cfg, s, Arrive(r, q));
    RefreshOfFamily(s, token);
    var g := Refreshing(token, s.h.familyOf[token], rg);
    RefreshRuns(cfg, s1, run, r, s.names, token, clientId, s.refresh[token], s.h.familyOf[token]);
    var s', n := After(cfg, s1, run), OwnSteps(run, r);
    if n > 0 {
      CourseEnds(s', r, s.names, g, MintSteps(g) - (n - 1));
    }
  }

  // ----- exchanging a code -----

  predicate TakesCode(s: State, e: Event, code: string) {
    e.Step? && e.r in s.reqs && s.reqs[e.r].CodeConsume? && s.reqs[e.r].q.code == code
  }

  /** No other request presents the code before `r` takes a step, and that first step is in time. */
  predicate CodeSpared(cfg: Config, s: State, run: seq<Event>, r: nat, code: string, expiry: int)
    requires Legal(cfg, s, run)
    decreases |run|
  {
    run != [] ==>
      if Own(run[0], r) then run[0].c.t1 <= expiry
      else !TakesCode(s, run[0], code) && CodeSpared(cfg, Next(cfg, s, run[0]), run[1..], r, code, expiry)
  }

  lemma ExchangeSpares(cfg: Config, s: State, r: nat, c: Choice, q: CodeQuery, key: string,
                       entry: TtlTable.Entry<AuthCode>)
    requires Enabled(s, r, c) && HeldInTime(s.codes, key, entry, s.now) && q.code != key
    ensures HeldInTime(CodeConsumeStep(cfg, s, r, c, q).codes, key, entry, c.t3)
  {
  }

  lemma SaveCodeSpares(cfg: Config, s: State, r: nat, c: Choice, f: Front, userId: string, key: string,
                       entry: TtlTable.Entry<AuthCode>)
    requires Enabled(s, r, c) && HeldInTime(s.codes, key, entry, s.now) && key in s.names
    ensures HeldInTime(SaveCodeStep(cfg, s, r, c, f, userId).codes, key, entry, c.t3)
  {
  }

  lemma OthersSpareCode(cfg: Config, s: State, e: Event, code: string, entry: TtlTable.Entry<AuthCode>)
    requires Allowed(s, e) && !TakesCode(s, e, code) && code in s.names && HeldInTime(s.codes, code, entry, s.now)
    ensures HeldInTime(Next(cfg, s, e).codes, code, entry, Next(cfg, s, e).now)
  {
    if e.Step? {
      var pc := s.reqs[e.r];
      if pc.CodeConsume? {
        TokenActs(cfg, s, e.r, e.c);
        ExchangeSpares(cfg, s, e.r, e.c, pc.q, code, entry);
      } else if pc.SaveCode? {
        FrontActs(cfg, s, e.r, e.c);
        SaveCodeSpares(cfg, s, e.r, e.c, pc.f, pc.userId, code, entry);
      }
    }
  }

  /** What an exchange is minted for: everything as it was saved with the code. */
  function Exchanged(code: string, ac: AuthCode): Grantee {
    Grantee(FromCode(code), ac.userId, ac.clientId,
            if ac.audience == "" then "https://api.example.com" else ac.audience, ac.scope, ac.sessionId)
  }

  lemma GatesMeanClient(cfg: Config, ac: AuthCode, q: CodeQuery)
    requires Gates(cfg, ac, q)
    ensures OrElse(q.clientId, ac.clientId) == ac.clientId
  {
  }

  lemma FoundLeadsOn(cfg: Config, s: State, r: nat, c: Choice, q: CodeQuery, ac: AuthCode)
    requires TtlTable.Find(s.codes, q.code, c.t1) == Some(ac) && Gates(cfg, ac, q)
    ensures CodeConsumeStep(cfg, s, r, c, q).reqs[r] == CodeUser(q.code, ac, OrElse(q.clientId, ac.clientId))
  {
  }

  lemma ConsumeLeadsOn(cfg: Config, s: State, r: nat, c: Choice, q: CodeQuery, entry: TtlTable.Entry<AuthCode>)
    requires Enabled(s, r, c) && HeldInTime(s.codes, q.code, entry, s.now) && c.t1 <= entry.expiresAt
    requires Gates(cfg, entry.grant, q)
    ensures CodeConsumeStep(cfg, s, r, c, q).reqs[r] == CodeUser(q.code, entry.grant, entry.grant.clientId)
  {
    GatesMeanClient(cfg, entry.grant, q);
    FoundLeadsOn(cfg, s, r, c, q, entry.grant);
  }

  lemma UserLeadsOn(cfg: Config, s: State, r: nat, c: Choice, code: string, ac: AuthCode)
    requires c.dbOk && ac.userId in s.users && ac.sessionId != ""
    ensures CodeUserStep(s, r, c, code, ac, ac.clientId).reqs[r] == Mint(Exchanged(code, ac))
  {
  }

  /** From the look-up of the user on. */
  lemma {:induction false} UserRuns(cfg: Config, s: State, run: seq<Event>, r: nat, names: set<string>, code: string,
                                    ac: AuthCode)
    requires Inv(cfg, s) && Legal(cfg, s, run) && IssuerWorks(run, r) && names <= s.names
    requires r in s.reqs && s.reqs[r] == CodeUser(code, ac, ac.clientId) && ac.sessionId != ""
    requires UserThere(cfg, s, run, r, ac.userId)
    ensures var s', n, g := After(cfg, s, run), OwnSteps(run, r), Exchanged(code, ac);
            && (n == 0 ==> r in s'.reqs && s'.reqs[r] == CodeUser(code, ac, ac.clientId))
            && (n > 0 ==> n - 1 <= MintSteps(g) && OnCourse(s', r, names, g, MintSteps(g) - (n - 1)))
    decreases |run|
  {
    if run == [] {
    } else {
      IssuerStillWorks(run, r);
      var e, s1 := run[0], Next(cfg, s, run[0]);
      if Own(e, r) {
        OwnEvent(cfg, s, e, r);
        TokenActs(cfg, s, r, e.c);
        UserLeadsOn(cfg, s, r, e.c, code, ac);
        MintingEnds(cfg, s1, run[1..], r, names, Exchanged(code, ac));
      } else {
        OthersEvent(cfg, s, e, r);
        UserRuns(cfg, s1, run[1..], r, names, code, ac);
      }
    }
  }

  lemma {:induction false} CodeRuns(cfg: Config, s: State, run: seq<Event>, r: nat, names: set<string>, q: CodeQuery,
                                    entry: TtlTable.Entry<AuthCode>)
    requires Inv(cfg, s) && Legal(cfg, s, run) && IssuerWorks(run, r) && names <= s.names
    requires r in s.reqs && s.reqs[r] == CodeConsume(q)
    requires HeldInTime(s.codes, q.code, entry, s.now) && CodeSpared(cfg, s, run, r, q.code, entry.expiresAt)
    requires Gates(cfg, entry.grant, q) && entry.grant.sessionId != "" && q.code in s.names
    requires UserThere(cfg, s, run, r, entry.grant.userId)
    ensures var s', n, g := After(cfg, s, run), OwnSteps(run, r), Exchanged(q.code, entry.grant);
            && (n < 2 ==> r in s'.reqs && !s'.reqs[r].Done?)
            && (n >= 2 ==> n - 2 <= MintSteps(g) && OnCourse(s', r, names, g, MintSteps(g) - (n - 2)))
    decreases |run|
  {
    if run == [] {
    } else {
      IssuerStillWorks(run, r);
      var e, s1 := run[0], Next(cfg, s, run[0]);
      if Own(e, r) {
        OwnEvent(cfg, s, e, r);
        TokenActs(cfg, s, r, e.c);
        ConsumeLeadsOn(cfg, s, r, e.c, q, entry);
        UserRuns(cfg, s1, run[1..], r, names, q.code, entry.grant);
      } else {
        OthersEvent(cfg, s, e, r);
        OthersSpareCode(cfg, s, e, q.code, entry);
        CodeRuns(cfg, s1, run[1..], r, names, q, entry);
      }
    }
  }

  /** An exchange that meets the four conditions on a live code succeeds. While others interleave that do
      not present the code, the user is there and the issuer works, it is answered after two steps and as
      many as minting takes: with tokens minted for what was saved with the code. */
  lemma ExchangeIsAnswered(cfg: Config, s: State, r: nat, q: CodeQuery, run: seq<Event>)
    requires Reachable(cfg, s) && r !in s.reqs && q.code != "" && q.code in s.codes
    requires var ac := s.codes[q.code].grant;
             && (q.clientId == "" || q.clientId == ac.clientId)
             && (q.redirectURI == "" || cfg.normalizeURI(q.redirectURI) == cfg.normalizeURI(ac.redirectUri))
             && (ac.codeChallenge == "" ||
                 (q.codeVerifier != ""
                  && Pkce.Transform(cfg.hash, q.codeVerifier, ac.codeChallengeMethod) == Some(ac.codeChallenge)))
             && (cfg.hasRegistry && cfg.requireSecretForCodes && ac.clientId in cfg.clients
                 && cfg.clients[ac.clientId].clientSecret != "" ==>
                   q.clientSecret == cfg.clients[ac.clientId].clientSecret)
    requires Legal(cfg, Next(cfg, s, Arrive(r, TokenCode(q))), run) && IssuerWorks(run, r)
    requires CodeSpared(cfg, Next(cfg, s, Arrive(r, TokenCode(q))), run, r, q.code, s.codes[q.code].expiresAt)
    requires UserThere(cfg, Next(cfg, s, Arrive(r, TokenCode(q))), run, r, s.codes[q.code].grant.userId)
    ensures var s' := After(cfg, Next(cfg, s, Arrive(r, TokenCode(q))), run);
            var n, g := OwnSteps(run, r), Exchanged(q.code, s.codes[q.code].grant);
            && n <= 2 + MintSteps(g) && r in s'.reqs && (s'.reqs[r].Done? <==> n == 2 + MintSteps(g))
            && (n == 2 + MintSteps(g) ==> Answered(s', r, s.names, g))
  {
    ReachableInv(cfg, s);
    NextKeeps(cfg, s, Arrive(r, TokenCode(q)));
    GatesSpelledOut(cfg, s.codes[q.code].grant, q);
    assert AuthCodeOk(cfg, s.h, q.code, s.codes[q.code].grant);
    CodeRuns(cfg, Next(cfg, s, Arrive(r, TokenCode(q))), run, r, s.names, q, s.codes[q.code]);
    var s', n := After(cfg, Next(cfg, s, Arrive(r, TokenCode(q))), run), OwnSteps(run, r);
    var g := Exchanged(q.code, s.codes[q.code].grant);
    if n >= 2 {
      CourseEnds(s', r, s.names, g, MintSteps(g) - (n - 2));
    }
  }

  // ----- passwords -----

  /** The first step of the request looks up the row of `userId`, which has the email and whose hash
      accepts the password. */
  predicate PasswordRight(cfg: Config, s: State, run: seq<Event>, r: nat, username: string, password: string,
                          userId: string)
    requires Legal(cfg, s, run)
    decreases |run|
  {
    run != [] ==>
      if Own(run[0], r) then
        && run[0].c.row == Some(userId) && userId in s.users
        && s.users[userId].email == username && cfg.verifyPassword(s.users[userId].passwordHash, password)
      else PasswordRight(cfg, Next(cfg, s, run[0]), run[1..], r, username, password, userId)
  }

  lemma PasswordLeadsOn(cfg: Config, s: State, r: nat, c: Choice, pc: Pc, userId: string)
    requires pc.PasswordCheck? && c.row == Some(userId) && userId in s.users
    requires s.users[userId].email == pc.username && cfg.verifyPassword(s.users[userId].passwordHash, pc.password)
    ensures PasswordStep(cfg, s, r, c, pc).reqs[r] ==
              Mint(Grantee(FromPassword, userId, pc.clientId,
                           if pc.audience == "" then "https://api.example.com" else pc.audience, pc.scope,
                           "sid_" + c.uuid))
  {
  }

  lemma {:induction false} PasswordRuns(cfg: Config, s: State, run: seq<Event>, r: nat, names: set<string>, pc: Pc,
                                        userId: string)
      returns (g: Grantee)
    requires Inv(cfg, s) && Legal(cfg, s, run) && IssuerWorks(run, r) && names <= s.names
    requires pc.PasswordCheck? && r in s.reqs && s.reqs[r] == pc
    requires PasswordRight(cfg, s, run, r, pc.username, pc.password, userId)
    ensures g.src == FromPassword && g.sub == userId && g.client == pc.clientId && g.scope == pc.scope
    ensures g.aud == (if pc.audience == "" then "https://api.example.com" else pc.audience)
    ensures var s', n := After(cfg, s, run), OwnSteps(run, r);
            && (n == 0 ==> r in s'.reqs && s'.reqs[r] == pc)
            && (n > 0 ==> n - 1 <= MintSteps(g) && OnCourse(s', r, names, g, MintSteps(g) - (n - 1)))
    decreases |run|
  {
    var aud := if pc.audience == "" then "https://api.example.com" else pc.audience;
    if run == [] {
      g := Grantee(FromPassword, userId, pc.clientId, aud, pc.scope, "");
    } else {
      IssuerStillWorks(run, r);
      var e, s1 := run[0], Next(cfg, s, run[0]);
      if Own(e, r) {
        OwnEvent(cfg, s, e, r);
        TokenActs(cfg, s, r, e.c);
        PasswordLeadsOn(cfg, s, r, e.c, pc, userId);
        g := Grantee(FromPassword, userId, pc.clientId, aud, pc.scope, "sid_" + e.c.uuid);
        MintingEnds(cfg, s1, run[1..], r, names, g);
      } else {
        OthersEvent(cfg, s, e, r);
        g := PasswordRuns(cfg, s1, run[1..], r, names, pc, userId);
      }
    }
  }

  /** A right password is answered with tokens for its user, after one step and as many as minting takes. */
  lemma PasswordIsAnswered(cfg: Config, s: State, r: nat, q: Request, userId: string, run: seq<Event>)
      returns (g: Grantee)
    requires Reachable(cfg, s) && r !in s.reqs && q.TokenPassword? && q.username != "" && q.password != ""
    requires Legal(cfg, Next(cfg, s, Arrive(r, q)), run) && IssuerWorks(run, r)
    requires PasswordRight(cfg, Next(cfg, s, Arrive(r, q)), run, r, q.username, q.password, userId)
    ensures g.src == FromPassword && g.sub == userId && g.scope == q.scope
    ensures g.client == (if q.clientId == "" then "e2e-test" else q.clientId)
    ensures g.aud == (if q.audience == "" then "https://api.example.com" else q.audience)
    ensures var s', n := After(cfg, Next(cfg, s, Arrive(r, q)), run), OwnSteps(run, r);
            && n <= 1 + MintSteps(g) && r in s'.reqs && (s'.reqs[r].Done? <==> n == 1 + MintSteps(g))
            && (n == 1 + MintSteps(g) ==> Answered(s', r, s.names, g))
  {
    ReachableInv(cfg, s);
    NextKeeps(cfg, s, Arrive(r, q));
    var s1 := Next(cfg, s, Arrive(r, q));
    g := PasswordRuns(cfg, s1, run, r, s.names, s1.reqs[r], userId);
    var s', n := After(cfg, s1, run), OwnSteps(run, r);
    if n > 0 {
      CourseEnds(s', r, s.names, g, MintSteps(g) - (n - 1));
    }
  }
}
