/** Who tokens are minted for, in every interleaving: verified users, approved devices, allowed scopes. */
module ProtocolUsers {
  import opened Wrappers
  import opened Text
  import opened Grants
  import opened Protocol
  import opened ProtocolInvariant
  import opened ProtocolSteps
  import opened ProtocolGrowth
  import Devices
  import Clients

  // ----- provenance -----

  /** The event is a step that verifies the password of `userId` against the users table as it is: the
      look-up returns that row, which has the email, and its hash accepts the password. */
  predicate VerifiesPassword(cfg: Config, s: State, e: Event, userId: string) {
    && e.Step? && Enabled(s, e.r, e.c)
    && var pc := s.reqs[e.r];
       && (pc.PasswordCheck? || pc.DeviceCheck? || pc.LoginCheck?)
       && e.c.row == Some(userId) && userId in s.users && s.users[userId].email == pc.username
       && cfg.verifyPassword(s.users[userId].passwordHash, pc.password)
  }

  ghost predicate VerifiedDuring(cfg: Config, s: State, run: seq<Event>, userId: string)
    requires Legal(cfg, s, run)
    decreases |run|
  {
    run != [] && (VerifiesPassword(cfg, s, run[0], userId)
                  || VerifiedDuring(cfg, Next(cfg, s, run[0]), run[1..], userId))
  }

  lemma PasswordVerifies(cfg: Config, s: State, r: nat, c: Choice, pc: Pc, userId: string)
    requires pc.PasswordCheck? && userId in PasswordStep(cfg, s, r, c, pc).h.verified && userId !in s.h.verified
    ensures Authenticate(cfg, s, c, pc.username, pc.password) == Some(userId)
  {
  }

  lemma DeviceCheckVerifies(cfg: Config, s: State, r: nat, c: Choice, pc: Pc, userId: string)
    requires pc.DeviceCheck? && userId in DeviceCheckStep(cfg, s, r, c, pc).h.verified && userId !in s.h.verified
    ensures Authenticate(cfg, s, c, pc.username, pc.password) == Some(userId)
  {
  }

  lemma LoginVerifies(cfg: Config, s: State, r: nat, c: Choice, pc: Pc, userId: string)
    requires pc.LoginCheck? && userId in LoginCheckStep(cfg, s, r, c, pc).h.verified && userId !in s.h.verified
    ensures Authenticate(cfg, s, c, pc.username, pc.password) == Some(userId)
  {
  }

  lemma VerifiedAfterAct(cfg: Config, s: State, r: nat, c: Choice, userId: string)
    requires Enabled(s, r, c) && userId in Act(cfg, s, r, c).h.verified && userId !in s.h.verified
    ensures var pc := s.reqs[r];
            && (pc.PasswordCheck? || pc.DeviceCheck? || pc.LoginCheck?)
            && Authenticate(cfg, s, c, pc.username, pc.password) == Some(userId)
  {
    var pc := s.reqs[r];
    if pc.PasswordCheck? {
      PasswordVerifies(cfg, s, r, c, pc, userId);
    } else if pc.DeviceCheck? {
      DeviceCheckVerifies(cfg, s, r, c, pc, userId);
    } else if pc.LoginCheck? {
      LoginVerifies(cfg, s, r, c, pc, userId);
    }
  }

  lemma VerifiedAfterNext(cfg: Config, s: State, e: Event, userId: string)
    requires Allowed(s, e) && userId in Next(cfg, s, e).h.verified && userId !in s.h.verified
    ensures VerifiesPassword(cfg, s, e, userId)
  {
    if e.Step? {
      VerifiedAfterAct(cfg, s, e.r, e.c, userId);
    }
  }

  lemma {:induction false} VerifiedHasCause(cfg: Config, s: State, run: seq<Event>, userId: string)
    requires Legal(cfg, s, run) && userId in After(cfg, s, run).h.verified && userId !in s.h.verified
    ensures VerifiedDuring(cfg, s, run, userId)
    decreases |run|
  {
    if run == [] {
    } else {
      if userId in Next(cfg, s, run[0]).h.verified {
        VerifiedAfterNext(cfg, s, run[0], userId);
      } else {
        VerifiedHasCause(cfg, Next(cfg, s, run[0]), run[1..], userId);
      }
    }
  }

  /** Every user token ever minted, through any chain of sessions, codes, device approvals and refresh
      rotations, has as its subject a user whose password was verified by an earlier step of the run or
      by the minting request itself. Only client credentials are minted without a user. */
  lemma MintsAreForVerifiedUsers(cfg: Config, users: map<string, User>, run: seq<Event>, i: nat)
    requires Legal(cfg, Init(users), run)
    requires i < |After(cfg, Init(users), run).h.mints|
    requires After(cfg, Init(users), run).h.mints[i].g.src != FromClient
    ensures VerifiedDuring(cfg, Init(users), run, After(cfg, Init(users), run).h.mints[i].g.sub)
  {
    var s := After(cfg, Init(users), run);
    InitInv(cfg, users);
    RunKeeps(cfg, Init(users), run);
    assert MintOk(s, s.h.mints[i]);
    VerifiedHasCause(cfg, Init(users), run, s.h.mints[i].g.sub);
  }

  /** And the verification comes first: whatever step mints a user token, the password of its subject was
      verified by a step before it. */
  lemma MintsFollowVerification(cfg: Config, users: map<string, User>, run: seq<Event>, e: Event, i: nat)
    requires Legal(cfg, Init(users), run) && Allowed(After(cfg, Init(users), run), e)
    requires |After(cfg, Init(users), run).h.mints| <= i < |Next(cfg, After(cfg, Init(users), run), e).h.mints|
    requires Next(cfg, After(cfg, Init(users), run), e).h.mints[i].g.src != FromClient
    ensures VerifiedDuring(cfg, Init(users), run, Next(cfg, After(cfg, Init(users), run), e).h.mints[i].g.sub)
  {
    var s := After(cfg, Init(users), run);
    InitInv(cfg, users);
    RunKeeps(cfg, Init(users), run);
    NextKeeps(cfg, s, e);
    MinterWasVerified(cfg, s, e, i);
    VerifiedHasCause(cfg, Init(users), run, Next(cfg, s, e).h.mints[i].g.sub);
  }

  /** No step both verifies a password and mints. */
  lemma MinterWasVerified(cfg: Config, s: State, e: Event, i: nat)
    requires Allowed(s, e) && MintsInv(Next(cfg, s, e))
    requires |s.h.mints| <= i < |Next(cfg, s, e).h.mints| && Next(cfg, s, e).h.mints[i].g.src != FromClient
    ensures Next(cfg, s, e).h.mints[i].g.sub in s.h.verified
  {
    assert MintOk(Next(cfg, s, e), Next(cfg, s, e).h.mints[i]);
  }

  // ----- scopes -----

  lemma ScopeExcludes(cfg: Config, clientId: string, scope: string)
    requires cfg.hasRegistry && clientId in cfg.clients && cfg.clients[clientId].allowedScopes != []
    requires forall a :: a in cfg.clients[clientId].allowedScopes ==> !Contains(a, OFFLINE)
    requires ScopeOk(cfg, clientId, scope)
    ensures !Contains(scope, OFFLINE)
  {
    Clients.WordPassesIff(cfg.clients, clientId, OFFLINE);
  }

  /** If a client's allowed scopes are restricted and none of them contains `offline_access`, then no
      code that the authorize handler saved for the client ever yields a refresh token: not in a
      response, and not in the store either, for no request ever goes to save one for it. */
  lemma NoOfflineNoRefresh(cfg: Config, s: State, code: string)
    requires Reachable(cfg, s) && code in s.h.consumed && code in s.h.viaAuthorize
    requires var clientId := s.h.consumed[code].ac.clientId;
             && cfg.hasRegistry && clientId in cfg.clients && cfg.clients[clientId].allowedScopes != []
             && forall a :: a in cfg.clients[clientId].allowedScopes ==> !Contains(a, OFFLINE)
    ensures forall r :: r in s.reqs ==> !(s.reqs[r].SaveRefresh? && s.reqs[r].g.src == FromCode(code))
    ensures forall r ::
              r in s.reqs && s.reqs[r].Done? && s.reqs[r].reply.Granted? && s.reqs[r].reply.src == FromCode(code) ==>
              s.reqs[r].reply.tokens.refresh == None
  {
    ReachableInv(cfg, s);
    var ac := s.h.consumed[code].ac;
    ScopeExcludes(cfg, ac.clientId, ac.scope);
    forall r | r in s.reqs
      ensures !(s.reqs[r].SaveRefresh? && s.reqs[r].g.src == FromCode(code))
      ensures s.reqs[r].Done? && s.reqs[r].reply.Granted? && s.reqs[r].reply.src == FromCode(code) ==>
                s.reqs[r].reply.tokens.refresh == None
    {
      assert PcOk(cfg, s, r, s.reqs[r]);
      if code in s.h.issued {
        assert IssuedOk(s, s.h.consumed[code], s.h.issued[code]);
      }
    }
  }
}
