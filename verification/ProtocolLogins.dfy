/** What requests to authorize and to log in get, from their arrival on: a session, a code, or tokens. */
module ProtocolLogins {
  import opened Wrappers
  import opened Text
  import opened Grants
  import opened Protocol
  import opened ProtocolInvariant
  import opened ProtocolSteps
  import opened ProtocolGrowth
  import opened ProtocolOrigins
  import opened ProtocolProgress
  import opened ProtocolAnswers
  import TtlTable
  import Sessions

  // ----- from an identified user to the answer -----

  predicate IdsWork(run: seq<Event>, r: nat) {
    forall i :: 0 <= i < |run| && Own(run[i], r) ==> run[i].c.id.Some?
  }

  lemma IdsStillWork(run: seq<Event>, r: nat)
    requires IdsWork(run, r) && run != []
    ensures IdsWork(run[1..], r)
    ensures Own(run[0], r) ==> run[0].c.id.Some?
  {
    forall i | 0 <= i < |run[1..]| && Own(run[1..][i], r)
      ensures run[1..][i].c.id.Some?
    {
      assert run[1..][i] == run[i + 1];
    }
  }

  /** The request is answered with the tokens minted for the user, an ID token among them if it asked for one. */
  predicate ImplicitAnswered(s: State, r: nat, wantIdToken: bool, userId: string, i: int) {
    && 0 <= i < |s.h.mints| && s.h.mints[i].req == r
    && s.h.mints[i].g.src == FromFront && s.h.mints[i].g.sub == userId && s.h.mints[i].id.Some? == wantIdToken
    && r in s.reqs
    && s.reqs[r] == Done(Granted(FromFront, false, Tokens(s.h.mints[i].access, s.h.mints[i].id, None)))
  }

  /** Where a request with a known user is, `left` steps from its answer. */
  ghost predicate FrontAt(s: State, r: nat, f: Front, userId: string, left: nat) {
    r in s.reqs &&
    if left == 2 then s.reqs[r].LoginSession? && s.reqs[r].f == f && s.reqs[r].userId == userId
    else if left == 1 then s.reqs[r] == if f.implicit then ImplicitMint(f, userId) else SaveCode(f, userId)
    else
      && left == 0
      && if f.implicit then exists i :: ImplicitAnswered(s, r, f.wantIdToken, userId, i) else s.reqs[r] == Done(Other)
  }

  lemma FrontWaits(s: State, s': State, r: nat, f: Front, userId: string, left: nat)
    requires FrontAt(s, r, f, userId, left) && Grows(s, s') && r in s'.reqs && s'.reqs[r] == s.reqs[r]
    ensures FrontAt(s', r, f, userId, left)
  {
    if left == 0 && f.implicit {
      var i :| ImplicitAnswered(s, r, f.wantIdToken, userId, i);
      assert ImplicitAnswered(s', r, f.wantIdToken, userId, i);
    }
  }

  lemma SessionLeadsOn(cfg: Config, s: State, r: nat, c: Choice, f: Front, userId: string, email: string)
    requires Enabled(s, r, c) && s.reqs[r] == LoginSession(f, userId, email)
    ensures Act(cfg, s, r, c).reqs[r] == if f.implicit then ImplicitMint(f, userId) else SaveCode(f, userId)
    ensures c.random.Some? ==>
              var sid, s' := "sid_" + c.random.value, Act(cfg, s, r, c);
              sid in s'.sessions && s'.sessions[sid] == Sessions.Record(sid, userId, email, c.stamp + cfg.sessionTTL)
  {
  }

  lemma ImplicitLeadsOn(s: State, r: nat, c: Choice, f: Front, userId: string)
    requires c.access.Some? && c.id.Some?
    ensures ImplicitAnswered(ImplicitMintStep(s, r, c, f, userId), r, f.wantIdToken, userId, |s.h.mints|)
  {
    ImplicitMintShape(s, r, c, f, userId);
  }

  lemma FrontGoesOn(cfg: Config, s: State, r: nat, c: Choice, f: Front, userId: string, left: nat)
    requires Enabled(s, r, c) && FrontAt(s, r, f, userId, left)
    requires f.implicit ==> c.access.Some? && c.id.Some?
    ensures left > 0 && FrontAt(Act(cfg, s, r, c), r, f, userId, left - 1)
  {
    FrontActs(cfg, s, r, c);
    if left == 2 {
      SessionLeadsOn(cfg, s, r, c, f, userId, s.reqs[r].email);
    } else if f.implicit {
      ImplicitLeadsOn(s, r, c, f, userId);
    } else {
      SavedThenDone(cfg, s, r, c);
    }
  }

  lemma {:induction false} FrontRuns(cfg: Config, s: State, run: seq<Event>, r: nat, f: Front, userId: string,
                                     left: nat)
    requires Inv(cfg, s) && Legal(cfg, s, run) && FrontAt(s, r, f, userId, left)
    requires f.implicit ==> IssuerWorks(run, r) && IdsWork(run, r)
    ensures OwnSteps(run, r) <= left && FrontAt(After(cfg, s, run), r, f, userId, left - OwnSteps(run, r))
    decreases |run|
  {
    if run == [] {
    } else {
      var e, s1 := run[0], Next(cfg, s, run[0]);
      if f.implicit {
        IssuerStillWorks(run, r);
        IdsStillWork(run, r);
      }
      if Own(e, r) {
        OwnEvent(cfg, s, e, r);
        FrontGoesOn(cfg, s, r, e.c, f, userId, left);
        FrontRuns(cfg, s1, run[1..], r, f, userId, left - 1);
      } else {
        OthersEvent(cfg, s, e, r);
        FrontWaits(s, s1, r, f, userId, left);
        FrontRuns(cfg, s1, run[1..], r, f, userId, left);
      }
    }
  }

  // ----- logins -----

  /** The steps after the password check: none but the last for tokens at the authorize endpoint, and one
      more for the session elsewhere, where sessions are kept. */
  function StepsAfterLogin(cfg: Config, f: Front): nat {
    if cfg.hasSessions && !(f.via == Authorize && f.implicit) then 2 else 1
  }

  lemma LoginLeadsOn(cfg: Config, s: State, r: nat, c: Choice, pc: Pc, userId: string)
    requires pc.LoginCheck? && c.row == Some(userId) && userId in s.users
    requires s.users[userId].email == pc.username && cfg.verifyPassword(s.users[userId].passwordHash, pc.password)
    ensures FrontAt(LoginCheckStep(cfg, s, r, c, pc), r, pc.f, userId, StepsAfterLogin(cfg, pc.f))
  {
    LoginCheckGoes(cfg, s, r, c, pc);
  }

  lemma {:induction false} LoginRuns(cfg: Config, s: State, run: seq<Event>, r: nat, pc: Pc, userId: string)
    requires Inv(cfg, s) && Legal(cfg, s, run) && r in s.reqs && s.reqs[r] == pc && pc.LoginCheck?
    requires PasswordRight(cfg, s, run, r, pc.username, pc.password, userId)
    requires pc.f.implicit ==> IssuerWorks(run, r) && IdsWork(run, r)
    ensures var s', n, left := After(cfg, s, run), OwnSteps(run, r), StepsAfterLogin(cfg, pc.f);
            && (n == 0 ==> r in s'.reqs && s'.reqs[r] == pc)
            && (n > 0 ==> n - 1 <= left && FrontAt(s', r, pc.f, userId, left - (n - 1)))
    decreases |run|
  {
    if run == [] {
    } else {
      var e, s1 := run[0], Next(cfg, s, run[0]);
      if pc.f.implicit {
        IssuerStillWorks(run, r);
        IdsStillWork(run, r);
      }
      if Own(e, r) {
        OwnEvent(cfg, s, e, r);
        FrontActs(cfg, s, r, e.c);
        LoginLeadsOn(cfg, s, r, e.c, pc, userId);
        FrontRuns(cfg, s1, run[1..], r, pc.f, userId, StepsAfterLogin(cfg, pc.f));
      } else {
        OthersEvent(cfg, s, e, r);
        LoginRuns(cfg, s1, run[1..], r, pc, userId);
      }
    }
  }

  /** The request may be served: it has a redirect URI, which is registered if need be, and so is its
      scope; and it asks for a code or for tokens. */
  predicate Admissible(cfg: Config, q: Request) {
    || (q.LoginForm? && q.redirectURI != "")
    || (q.AuthorizeRequest? && q.redirectURI != "" && q.redirectParses
        && (Contains(q.responseType, "token") || q.responseType == "code")
        && (cfg.hasRegistry ==>
              && Registered(cfg, q.clientId, q.redirectURI)
              && WordsAllowed(cfg, if q.clientId == "" then "e2e-test" else q.clientId,
                              if q.scope == "" then "openid" else q.scope)))
  }

  lemma CodeIsNoToken()
    ensures !Contains("code", "token")
  {
  }

  lemma AdmitsLogin(cfg: Config, q: Request)
    requires Admissible(cfg, q) && q.username != "" && q.password != ""
    ensures var pc := Admit(cfg, q);
            && pc.LoginCheck? && FrontFrom(cfg, q, pc.f) && pc.username == q.username && pc.password == q.password
  {
    CodeIsNoToken();
  }

  /** The step saves a new code, which is what `q` asks for, for the user. */
  predicate SavesCode(cfg: Config, q: Request, r: nat, userId: string, c: Choice, s': State) {
    var code := "ac_" + c.uuid;
    && r in s'.reqs && s'.reqs[r] == Done(Other)
    && code in s'.codes && s'.codes[code].expiresAt == c.stamp + cfg.codeTTL
    && AsksForCode(cfg, q, s'.codes[code].grant) && s'.codes[code].grant.userId == userId
  }

  lemma SaveLeadsOn(cfg: Config, s: State, r: nat, c: Choice, q: Request, f: Front, userId: string)
    requires Enabled(s, r, c) && s.reqs[r] == SaveCode(f, userId) && FrontFrom(cfg, q, f) && !f.implicit
    ensures SavesCode(cfg, q, r, userId, c, Act(cfg, s, r, c))
  {
    SavedThenDone(cfg, s, r, c);
    FrontActs(cfg, s, r, c);
  }

  /** How many steps a request with a right password takes. */
  function LoginSteps(cfg: Config, q: Request): nat
    requires q.AuthorizeRequest? || q.LoginForm?
  {
    if cfg.hasSessions && !(q.AuthorizeRequest? && Contains(q.responseType, "token")) then 3 else 2
  }

  lemma LoginProceeds(cfg: Config, s: State, r: nat, q: Request, userId: string, run: seq<Event>) returns (f: Front)
    requires Reachable(cfg, s) && r !in s.reqs && Admissible(cfg, q) && q.username != "" && q.password != ""
    requires Legal(cfg, Next(cfg, s, Arrive(r, q)), run)
    requires PasswordRight(cfg, Next(cfg, s, Arrive(r, q)), run, r, q.username, q.password, userId)
    requires Contains(q.responseType, "token") ==> IssuerWorks(run, r) && IdsWork(run, r)
    ensures FrontFrom(cfg, q, f)
    ensures var s', n := After(cfg, Next(cfg, s, Arrive(r, q)), run), OwnSteps(run, r);
            && (n == 0 ==> r in s'.reqs && !s'.reqs[r].Done?)
            && n <= LoginSteps(cfg, q)
            && (n > 0 ==> FrontAt(s', r, f, userId, LoginSteps(cfg, q) - n))
  {
    ReachableInv(cfg, s);
    AdmitsLogin(cfg, q);
    NextKeeps(cfg, s, Arrive(r, q));
    f := Admit(cfg, q).f;
    LoginRuns(cfg, Next(cfg, s, Arrive(r, q)), run, r, Admit(cfg, q), userId);
  }

  /** A request with a right password is answered after two steps, or three where a session is begun. If it
      asks for a code, the last step saves one with what it asked for; if it asks for tokens, they are
      minted for the user. */
  lemma LoginIsAnswered(cfg: Config, s: State, r: nat, q: Request, userId: string, run: seq<Event>, c: Choice)
    requires Reachable(cfg, s) && r !in s.reqs && Admissible(cfg, q) && q.username != "" && q.password != ""
    requires Legal(cfg, Next(cfg, s, Arrive(r, q)), run)
    requires PasswordRight(cfg, Next(cfg, s, Arrive(r, q)), run, r, q.username, q.password, userId)
    requires Contains(q.responseType, "token") ==> IssuerWorks(run, r) && IdsWork(run, r)
    ensures var s', n := After(cfg, Next(cfg, s, Arrive(r, q)), run), OwnSteps(run, r);
            && r in s'.reqs && n <= LoginSteps(cfg, q) && (s'.reqs[r].Done? <==> n == LoginSteps(cfg, q))
            && (!Contains(q.responseType, "token") && n == LoginSteps(cfg, q) - 1 && Enabled(s', r, c) ==>
                SavesCode(cfg, q, r, userId, c, Act(cfg, s', r, c)))
            && (Contains(q.responseType, "token") && n == LoginSteps(cfg, q) ==>
                exists i :: ImplicitAnswered(s', r, Contains(q.responseType, "id_token"), userId, i))
  {
    var f := LoginProceeds(cfg, s, r, q, userId, run);
    var s', n := After(cfg, Next(cfg, s, Arrive(r, q)), run), OwnSteps(run, r);
    if !f.implicit && n == LoginSteps(cfg, q) - 1 && Enabled(s', r, c) {
      SaveLeadsOn(cfg, s', r, c, q, f, userId);
    }
    if f.implicit && n == LoginSteps(cfg, q) {
      var i :| ImplicitAnswered(s', r, f.wantIdToken, userId, i);
      assert ImplicitAnswered(s', r, Contains(q.responseType, "id_token"), userId, i);
    }
  }

  /** Where sessions are kept, the second step of a login for a code begins one for the user. */
  lemma LoginBeginsSession(cfg: Config, s: State, r: nat, q: Request, userId: string, run: seq<Event>, c: Choice)
    requires Reachable(cfg, s) && r !in s.reqs && Admissible(cfg, q) && q.username != "" && q.password != ""
    requires Legal(cfg, Next(cfg, s, Arrive(r, q)), run)
    requires PasswordRight(cfg, Next(cfg, s, Arrive(r, q)), run, r, q.username, q.password, userId)
    requires cfg.hasSessions && !Contains(q.responseType, "token") && OwnSteps(run, r) == 1
    ensures var s', n := After(cfg, Next(cfg, s, Arrive(r, q)), run), OwnSteps(run, r);
            && r in s'.reqs && !s'.reqs[r].Done?
            && (Enabled(s', r, c) && c.random.Some? ==>
                var sid, s2 := "sid_" + c.random.value, Act(cfg, s', r, c);
                && sid in s2.sessions && s2.sessions[sid].userId == userId
                && s2.sessions[sid].expiresAt == c.stamp + cfg.sessionTTL)
  {
    var f := LoginProceeds(cfg, s, r, q, userId, run);
    var s' := After(cfg, Next(cfg, s, Arrive(r, q)), run);
    if Enabled(s', r, c) {
      SessionLeadsOn(cfg, s', r, c, f, userId, s'.reqs[r].email);
    }
  }

  // ----- cookies -----

  /** What each step of a request with a cookie needs: a session of the user that has not expired, then the
      user itself. */
  predicate CookieNeeds(s: State, c: Choice, cookie: string, userId: string, k: nat) {
    && (k == 0 ==> cookie in s.sessions && s.sessions[cookie].userId == userId && c.t2 <= s.sessions[cookie].expiresAt)
    && (k == 1 ==> c.dbOk && userId in s.users)
  }

  predicate CookieServed(cfg: Config, s: State, run: seq<Event>, r: nat, cookie: string, userId: string, k: nat)
    requires Legal(cfg, s, run)
    decreases |run|
  {
    run != [] ==>
      if Own(run[0], r) then
        && CookieNeeds(s, run[0].c, cookie, userId, k)
        && CookieServed(cfg, Next(cfg, s, run[0]), run[1..], r, cookie, userId, k + 1)
      else CookieServed(cfg, Next(cfg, s, run[0]), run[1..], r, cookie, userId, k)
  }

  predicate CookieAt(s: State, r: nat, f: Front, cookie: string, userId: string, k: nat) {
    r in s.reqs &&
    if k == 0 then s.reqs[r] == CookieGet(f, cookie)
    else if k == 1 then s.reqs[r] == CookieUser(f, userId)
    else if k == 2 then s.reqs[r] == SaveCode(f, userId)
    else k == 3 && s.reqs[r] == Done(Other)
  }

  lemma CookieLeadsOn(cfg: Config, s: State, r: nat, c: Choice, f: Front, cookie: string, userId: string)
    requires Enabled(s, r, c)
    ensures CookieNeeds(s, c, cookie, userId, 0) ==>
              CookieGetStep(cfg, s, r, c, f, cookie).reqs[r] == CookieUser(f, userId)
    ensures CookieNeeds(s, c, cookie, userId, 1) ==> CookieUserStep(s, r, c, f, userId).reqs[r] == SaveCode(f, userId)
  {
  }

  lemma CookieGoesOn(cfg: Config, s: State, r: nat, c: Choice, f: Front, cookie: string, userId: string, k: nat)
    requires Enabled(s, r, c) && CookieAt(s, r, f, cookie, userId, k) && CookieNeeds(s, c, cookie, userId, k)
    ensures k < 3 && CookieAt(Act(cfg, s, r, c), r, f, cookie, userId, k + 1)
  {
    CookieLeadsOn(cfg, s, r, c, f, cookie, userId);
    if k == 0 {
      FrontActs(cfg, s, r, c);
    } else if k == 1 {
      FrontActs(cfg, s, r, c);
    } else {
      SavedThenDone(cfg, s, r, c);
    }
  }

  lemma {:induction false} CookieRuns(cfg: Config, s: State, run: seq<Event>, r: nat, f: Front, cookie: string,
                                      userId: string, k: nat)
    requires Inv(cfg, s) && Legal(cfg, s, run) && CookieAt(s, r, f, cookie, userId, k)
    requires CookieServed(cfg, s, run, r, cookie, userId, k)
    ensures CookieAt(After(cfg, s, run), r, f, cookie, userId, k + OwnSteps(run, r))
    decreases |run|
  {
    if run == [] {
    } else {
      var e, s1 := run[0], Next(cfg, s, run[0]);
      if Own(e, r) {
        OwnEvent(cfg, s, e, r);
        CookieGoesOn(cfg, s, r, e.c, f, cookie, userId, k);
        CookieRuns(cfg, s1, run[1..], r, f, cookie, userId, k + 1);
      } else {
        OthersEvent(cfg, s, e, r);
        CookieRuns(cfg, s1, run[1..], r, f, cookie, userId, k);
      }
    }
  }

  lemma AdmitsCookie(cfg: Config, q: Request)
    requires q.AuthorizeRequest? && Admissible(cfg, q) && q.responseType == "code" && !q.promptNone
    requires q.username == "" && q.password == "" && cfg.hasSessions && q.cookie != ""
    ensures var pc := Admit(cfg, q); pc.CookieGet? && FrontFrom(cfg, q, pc.f) && !pc.f.implicit && pc.cookie == q.cookie
  {
    CodeIsNoToken();
  }

  /** A request for a code that carries the cookie of a live session instead of a password is answered after
      three steps, and the last of them saves a code for the user of the session. */
  lemma CookieIsAnswered(cfg: Config, s: State, r: nat, q: Request, userId: string, run: seq<Event>, c: Choice)
    requires Reachable(cfg, s) && r !in s.reqs
    requires q.AuthorizeRequest? && Admissible(cfg, q) && q.responseType == "code" && !q.promptNone
    requires q.username == "" && q.password == "" && cfg.hasSessions && q.cookie != ""
    requires Legal(cfg, Next(cfg, s, Arrive(r, q)), run)
    requires CookieServed(cfg, Next(cfg, s, Arrive(r, q)), run, r, q.cookie, userId, 0)
    ensures var s', n := After(cfg, Next(cfg, s, Arrive(r, q)), run), OwnSteps(run, r);
            && r in s'.reqs && n <= 3 && (s'.reqs[r].Done? <==> n == 3)
            && (n == 2 && Enabled(s', r, c) ==> SavesCode(cfg, q, r, userId, c, Act(cfg, s', r, c)))
  {
    ReachableInv(cfg, s);
    AdmitsCookie(cfg, q);
    NextKeeps(cfg, s, Arrive(r, q));
    var f := Admit(cfg, q).f;
    CookieRuns(cfg, Next(cfg, s, Arrive(r, q)), run, r, f, q.cookie, userId, 0);
    var s' := After(cfg, Next(cfg, s, Arrive(r, q)), run);
    if OwnSteps(run, r) == 2 && Enabled(s', r, c) {
      SaveLeadsOn(cfg, s', r, c, q, f, userId);
    }
  }
}
