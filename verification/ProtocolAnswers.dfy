/** What revocations, device requests, device forms, polls, logins and logouts get, from their arrival on. */
module ProtocolAnswers {
  import opened Wrappers
  import opened Text
  import opened Grants
  import opened Protocol
  import opened ProtocolInvariant
  import opened ProtocolSteps
  import opened ProtocolGrowth
  import opened ProtocolTheorems
  import opened ProtocolOrigins
  import opened ProtocolProgress
  import TtlTable
  import Devices
  import Sessions

  // ----- requests that take one step -----

  /** In `s1` the request `q`, which arrived in `s`, waits for a step, after any steps `mid` of others. */
  ghost predicate Waits(cfg: Config, s: State, r: nat, q: Request, mid: seq<Event>, s1: State) {
    && r !in s.reqs && Legal(cfg, Next(cfg, s, Arrive(r, q)), mid) && WithoutStepsOf(mid, r)
    && s1 == After(cfg, Next(cfg, s, Arrive(r, q)), mid)
  }

  lemma StillWaits(cfg: Config, s: State, r: nat, q: Request, mid: seq<Event>, s1: State)
    requires Reachable(cfg, s) && Waits(cfg, s, r, q, mid, s1)
    ensures Inv(cfg, s1) && r in s1.reqs && s1.reqs[r] == Admit(cfg, q)
  {
    ReachableInv(cfg, s);
    NextKeeps(cfg, s, Arrive(r, q));
    RunKeeps(cfg, Next(cfg, s, Arrive(r, q)), mid);
    OthersRun(cfg, Next(cfg, s, Arrive(r, q)), mid, r);
  }

  predicate Unanswered(s: State, r: nat) {
    r in s.reqs && !s.reqs[r].Done?
  }

  // ----- revocation -----

  /** The request is for a refresh token: the hint says so, or the token looks like one. */
  predicate ForRefreshToken(token: string, hint: string) {
    token != "" && (hint == "refresh_token" || "rt_" <= token)
  }

  /** A revocation that is not for a refresh token is answered when it arrives and changes nothing. */
  lemma OtherRevocationIsAnswered(cfg: Config, s: State, r: nat, token: string, hint: string)
    requires r !in s.reqs && !ForRefreshToken(token, hint)
    ensures Next(cfg, s, Arrive(r, RevokeRequest(token, hint))) == s.(reqs := s.reqs[r := Done(Other)])
  {
  }

  predicate Revokes(cfg: Config, s: State, r: nat, c: Choice, token: string)
    requires Enabled(s, r, c)
  {
    var s' := Act(cfg, s, r, c);
    s'.reqs[r] == Done(Other) && s'.refresh == s.refresh - {token}
  }

  lemma RevocationRevokes(cfg: Config, s: State, r: nat, token: string, hint: string)
    requires r in s.reqs && s.reqs[r] == Admit(cfg, RevokeRequest(token, hint)) && ForRefreshToken(token, hint)
    ensures s.reqs[r] == Revoke(token)
    ensures forall c :: Enabled(s, r, c) ==> Revokes(cfg, s, r, c, token)
  {
    forall c | Enabled(s, r, c)
      ensures Revokes(cfg, s, r, c, token)
    {
      TokenActs(cfg, s, r, c);
    }
  }

  /** A revocation for a refresh token waits for one step, and whichever step that is, it answers the request
      and takes the token and nothing else out of the store. */
  lemma RevocationIsAnswered(cfg: Config, s: State, r: nat, token: string, hint: string, mid: seq<Event>, s1: State)
    requires Reachable(cfg, s) && Waits(cfg, s, r, RevokeRequest(token, hint), mid, s1) && ForRefreshToken(token, hint)
    ensures Unanswered(s1, r) && forall c :: Enabled(s1, r, c) ==> Revokes(cfg, s1, r, c, token)
  {
    StillWaits(cfg, s, r, RevokeRequest(token, hint), mid, s1);
    RevocationRevokes(cfg, s1, r, token, hint);
  }

  lemma EndedHoldsNone(s: State, token: string, f: nat)
    requires FamilyEnded(s, f) && token in s.h.familyOf && s.h.familyOf[token] == f
    ensures token !in s.refresh
  {
    assert token !in LiveTokens(s, f);
  }

  lemma EndedRuns(cfg: Config, s: State, run: seq<Event>, token: string, f: nat)
    requires Inv(cfg, s) && Legal(cfg, s, run) && FamilyEnded(s, f)
    requires token in s.h.familyOf && s.h.familyOf[token] == f
    ensures FamilyEnded(After(cfg, s, run), f) && token !in After(cfg, s, run).refresh
  {
    EndedStaysEnded(cfg, s, run, f);
    RunGrows(cfg, s, run);
    EndedHoldsNone(After(cfg, s, run), token, f);
  }

  lemma RevokeStepEnds(cfg: Config, s: State, r: nat, c: Choice, token: string)
    requires Inv(cfg, s) && Enabled(s, r, c) && s.reqs[r] == Revoke(token) && token in s.refresh
    ensures var s' := Next(cfg, s, Step(r, c)); Inv(cfg, s') && Grows(s, s')
    ensures token in s.h.familyOf && FamilyEnded(Act(cfg, s, r, c), s.h.familyOf[token])
  {
    TokenActs(cfg, s, r, c);
    RevokedLeavesNoHolder(s, r, c, token);
    NextKeeps(cfg, s, Step(r, c));
    NextGrows(cfg, s, Step(r, c));
  }

  lemma RevokedRuns(cfg: Config, s: State, r: nat, c: Choice, token: string, run: seq<Event>)
    requires Inv(cfg, s) && Enabled(s, r, c) && s.reqs[r] == Revoke(token) && token in s.refresh
    requires Legal(cfg, Act(cfg, s, r, c), run)
    ensures token in s.h.familyOf && FamilyEnded(After(cfg, Act(cfg, s, r, c), run), s.h.familyOf[token])
    ensures token !in After(cfg, Act(cfg, s, r, c), run).refresh
  {
    RevokeStepEnds(cfg, s, r, c, token);
    EndedRuns(cfg, Act(cfg, s, r, c), run, token, s.h.familyOf[token]);
  }

  /** A token that was live when it was revoked is never live again, and its family is ended, whatever runs after. */
  lemma RevokedForGood(cfg: Config, s: State, r: nat, token: string, hint: string, mid: seq<Event>, s1: State,
                       c: Choice, run: seq<Event>)
    requires Reachable(cfg, s) && Waits(cfg, s, r, RevokeRequest(token, hint), mid, s1) && ForRefreshToken(token, hint)
    requires Enabled(s1, r, c) && token in s1.refresh && Legal(cfg, Act(cfg, s1, r, c), run)
    ensures token in s1.h.familyOf && FamilyEnded(After(cfg, Act(cfg, s1, r, c), run), s1.h.familyOf[token])
    ensures token !in After(cfg, Act(cfg, s1, r, c), run).refresh
  {
    StillWaits(cfg, s, r, RevokeRequest(token, hint), mid, s1);
    RevocationRevokes(cfg, s1, r, token, hint);
    RevokedRuns(cfg, s1, r, c, token, run);
  }

  // ----- client credentials -----

  /** The step mints an access token for the client itself and answers with it. */
  predicate MintsForClient(cfg: Config, s: State, r: nat, c: Choice, client: string)
    requires Enabled(s, r, c) && c.access.Some?
  {
    var s' := Act(cfg, s, r, c);
    var g := Grantee(FromClient, "client|" + client, client, "https://api.example.com", "", "");
    && s'.reqs[r] == Done(Granted(FromClient, false, Tokens(c.access.value, None, None)))
    && s'.h.mints == s.h.mints + [MintEvent(r, g, c.access.value, None)]
  }

  lemma ClientIsMintedFor(cfg: Config, s: State, r: nat, clientId: string)
    requires r in s.reqs && s.reqs[r] == Admit(cfg, TokenClient(clientId))
    ensures !s.reqs[r].Done?
    ensures forall c :: Enabled(s, r, c) && c.access.Some? ==>
              MintsForClient(cfg, s, r, c, if clientId == "" then "e2e-test" else clientId)
  {
    forall c | Enabled(s, r, c) && c.access.Some?
      ensures MintsForClient(cfg, s, r, c, if clientId == "" then "e2e-test" else clientId)
    {
      TokenActs(cfg, s, r, c);
    }
  }

  /** Client credentials are answered in one step, with an access token for the client or the default one. */
  lemma ClientIsAnswered(cfg: Config, s: State, r: nat, clientId: string, mid: seq<Event>, s1: State)
    requires Reachable(cfg, s) && Waits(cfg, s, r, TokenClient(clientId), mid, s1)
    ensures Unanswered(s1, r)
    ensures forall c :: Enabled(s1, r, c) && c.access.Some? ==>
              MintsForClient(cfg, s1, r, c, if clientId == "" then "e2e-test" else clientId)
  {
    StillWaits(cfg, s, r, TokenClient(clientId), mid, s1);
    ClientIsMintedFor(cfg, s1, r, clientId);
  }

  // ----- device requests -----

  /** The step leaves a live, unapproved device with what `q` asks for, its user code leading to it. */
  predicate SavesDevice(cfg: Config, s: State, r: nat, c: Choice, q: Request)
    requires Enabled(s, r, c) && q.DeviceRequest?
  {
    var s', device := Act(cfg, s, r, c), "dc_" + c.uuid;
    && s'.reqs[r] == Done(Other) && device in s'.dev.live
    && s'.dev.recs[device] ==
         Devices.Record(device, c.userCode, "", if q.clientId == "" then "e2e-test" else q.clientId,
                        if q.scope == "" then "openid" else q.scope, q.audience,
                        c.stamp + cfg.deviceTTL, 5, false, false, false)
    && Devices.Norm(c.userCode) in s'.dev.index && s'.dev.index[Devices.Norm(c.userCode)] == device
  }

  lemma DeviceIsSaved(cfg: Config, s: State, r: nat, q: Request)
    requires r in s.reqs && q.DeviceRequest? && s.reqs[r] == Admit(cfg, q)
    ensures !s.reqs[r].Done?
    ensures forall c :: Enabled(s, r, c) ==> SavesDevice(cfg, s, r, c, q)
  {
    forall c | Enabled(s, r, c)
      ensures SavesDevice(cfg, s, r, c, q)
    {
      ApprovalAct(cfg, s, r, c);
    }
  }

  /** A device request is answered in one step, which saves the device it asks for. */
  lemma DeviceRequestIsAnswered(cfg: Config, s: State, r: nat, q: Request, mid: seq<Event>, s1: State)
    requires Reachable(cfg, s) && q.DeviceRequest? && Waits(cfg, s, r, q, mid, s1)
    ensures Unanswered(s1, r) && forall c :: Enabled(s1, r, c) ==> SavesDevice(cfg, s1, r, c, q)
  {
    StillWaits(cfg, s, r, q, mid, s1);
    DeviceIsSaved(cfg, s1, r, q);
  }

  // ----- denials -----

  /** The step denies the device that the user code leads to, and leaves all others as they were. */
  predicate DeniesDevice(cfg: Config, s: State, r: nat, c: Choice, userCode: string)
    requires Enabled(s, r, c)
  {
    var s', n := Act(cfg, s, r, c), Devices.Norm(userCode);
    && s'.reqs[r] == Done(Other) && s'.dev.live == s.dev.live && s'.dev.index == s.dev.index
    && s'.dev.recs == if n in s.dev.index && s.dev.index[n] in s.dev.live
                      then var d := s.dev.index[n]; s.dev.recs[d := s.dev.recs[d].(denied := true)]
                      else s.dev.recs
  }

  lemma DeviceIsDenied(cfg: Config, s: State, r: nat, q: Request)
    requires r in s.reqs && q.DeviceForm? && q.deny && q.userCode != "" && s.reqs[r] == Admit(cfg, q)
    ensures !s.reqs[r].Done?
    ensures forall c :: Enabled(s, r, c) ==> DeniesDevice(cfg, s, r, c, q.userCode)
  {
    forall c | Enabled(s, r, c)
      ensures DeniesDevice(cfg, s, r, c, q.userCode)
    {
      ApprovalAct(cfg, s, r, c);
    }
  }

  /** A denial is answered in one step, which denies the device. */
  lemma DenialIsAnswered(cfg: Config, s: State, r: nat, q: Request, mid: seq<Event>, s1: State)
    requires Reachable(cfg, s) && q.DeviceForm? && q.deny && q.userCode != "" && Waits(cfg, s, r, q, mid, s1)
    ensures Unanswered(s1, r) && forall c :: Enabled(s1, r, c) ==> DeniesDevice(cfg, s1, r, c, q.userCode)
  {
    StillWaits(cfg, s, r, q, mid, s1);
    DeviceIsDenied(cfg, s1, r, q);
  }

  // ----- logouts -----

  predicate EndsSession(cfg: Config, s: State, r: nat, c: Choice, cookie: string)
    requires Enabled(s, r, c)
  {
    var s' := Act(cfg, s, r, c);
    s'.reqs[r] == Done(Other) && s'.sessions == s.sessions - {cookie}
  }

  lemma SessionIsEnded(cfg: Config, s: State, r: nat, cookie: string)
    requires cfg.hasSessions && cookie != "" && r in s.reqs && s.reqs[r] == Admit(cfg, LogoutRequest(cookie))
    ensures !s.reqs[r].Done?
    ensures forall c :: Enabled(s, r, c) ==> EndsSession(cfg, s, r, c, cookie)
  {
    forall c | Enabled(s, r, c)
      ensures EndsSession(cfg, s, r, c, cookie)
    {
      FrontActs(cfg, s, r, c);
    }
  }

  /** A logout with a cookie is answered in one step, which ends that session and no other. */
  lemma LogoutIsAnswered(cfg: Config, s: State, r: nat, cookie: string, mid: seq<Event>, s1: State)
    requires Reachable(cfg, s) && cfg.hasSessions && cookie != ""
    requires Waits(cfg, s, r, LogoutRequest(cookie), mid, s1)
    ensures Unanswered(s1, r) && forall c :: Enabled(s1, r, c) ==> EndsSession(cfg, s1, r, c, cookie)
  {
    StillWaits(cfg, s, r, LogoutRequest(cookie), mid, s1);
    SessionIsEnded(cfg, s1, r, cookie);
  }

  // ----- approving a device -----

  lemma CheckLeadsOn(cfg: Config, s: State, r: nat, c: Choice, pc: Pc, userId: string)
    requires pc.DeviceCheck? && c.row == Some(userId) && userId in s.users
    requires s.users[userId].email == pc.username && cfg.verifyPassword(s.users[userId].passwordHash, pc.password)
    ensures DeviceCheckStep(cfg, s, r, c, pc).reqs[r] == DeviceApprove(pc.userCode, userId)
  {
  }

  lemma ApproveGoes(s: State, r: nat, c: Choice, userCode: string, userId: string)
    ensures var s', n := DeviceApproveStep(s, r, c, userCode, userId), Devices.Norm(userCode);
            && s'.reqs[r] == Done(Other)
            && (n in s.dev.index && s.dev.index[n] in s.dev.live
                && !s.dev.recs[s.dev.index[n]].expired && c.t1 <= s.dev.recs[s.dev.index[n]].expiresAt ==>
                  var d := s.dev.index[n];
                  s'.dev.recs == s.dev.recs[d := s.dev.recs[d].(authorized := true, userId := userId)])
  {
  }

  lemma {:induction false} ApprovalRuns(cfg: Config, s: State, run: seq<Event>, r: nat, pc: Pc, userId: string)
    requires Inv(cfg, s) && Legal(cfg, s, run) && r in s.reqs && s.reqs[r] == pc && pc.DeviceCheck?
    requires PasswordRight(cfg, s, run, r, pc.username, pc.password, userId)
    ensures var s', n := After(cfg, s, run), OwnSteps(run, r);
            && r in s'.reqs
            && (n == 0 ==> s'.reqs[r] == pc)
            && (n == 1 ==> s'.reqs[r] == DeviceApprove(pc.userCode, userId))
            && (n >= 2 ==> n == 2 && s'.reqs[r] == Done(Other))
    decreases |run|
  {
    if run == [] {
    } else {
      var e, s1 := run[0], Next(cfg, s, run[0]);
      if Own(e, r) {
        OwnEvent(cfg, s, e, r);
        ApprovalAct(cfg, s, r, e.c);
        CheckLeadsOn(cfg, s, r, e.c, pc, userId);
        ApproverRuns(cfg, s1, run[1..], r, pc.userCode, userId);
      } else {
        OthersEvent(cfg, s, e, r);
        ApprovalRuns(cfg, s1, run[1..], r, pc, userId);
      }
    }
  }

  lemma {:induction false} ApproverRuns(cfg: Config, s: State, run: seq<Event>, r: nat, userCode: string,
                                        userId: string)
    requires Inv(cfg, s) && Legal(cfg, s, run) && r in s.reqs && s.reqs[r] == DeviceApprove(userCode, userId)
    ensures var s', n := After(cfg, s, run), OwnSteps(run, r);
            && r in s'.reqs && n <= 1
            && s'.reqs[r] == if n == 0 then DeviceApprove(userCode, userId) else Done(Other)
    decreases |run|
  {
    if run == [] {
    } else {
      var e, s1 := run[0], Next(cfg, s, run[0]);
      if Own(e, r) {
        OwnEvent(cfg, s, e, r);
        ApprovalAct(cfg, s, r, e.c);
        ApproveGoes(s, r, e.c, userCode, userId);
        DoneStays(cfg, s1, run[1..], r);
      } else {
        OthersEvent(cfg, s, e, r);
        ApproverRuns(cfg, s1, run[1..], r, userCode, userId);
      }
    }
  }

  /** An answered request takes no more steps. */
  lemma {:induction false} DoneStays(cfg: Config, s: State, run: seq<Event>, r: nat)
    requires Legal(cfg, s, run) && r in s.reqs && s.reqs[r].Done?
    ensures OwnSteps(run, r) == 0
    ensures r in After(cfg, s, run).reqs && After(cfg, s, run).reqs[r] == s.reqs[r]
    decreases |run|
  {
    if run == [] {
    } else {
      assert r in Next(cfg, s, run[0]).reqs && Next(cfg, s, run[0]).reqs[r] == s.reqs[r];
      DoneStays(cfg, Next(cfg, s, run[0]), run[1..], r);
    }
  }

  /** A form with a right password that is not a denial is answered after two steps, and the second of them
      approves for its user the live device that the user code leads to. */
  lemma ApprovalIsAnswered(cfg: Config, s: State, r: nat, q: Request, userId: string, run: seq<Event>, c: Choice)
    requires Reachable(cfg, s) && r !in s.reqs && q.DeviceForm? && !q.deny
    requires q.userCode != "" && q.username != "" && q.password != ""
    requires Legal(cfg, Next(cfg, s, Arrive(r, q)), run)
    requires PasswordRight(cfg, Next(cfg, s, Arrive(r, q)), run, r, q.username, q.password, userId)
    ensures var s', n := After(cfg, Next(cfg, s, Arrive(r, q)), run), OwnSteps(run, r);
            && r in s'.reqs && n <= 2 && (s'.reqs[r].Done? <==> n == 2)
            && (n == 1 && Enabled(s', r, c) ==>
                var s2, k := Act(cfg, s', r, c), Devices.Norm(q.userCode);
                && s2.reqs[r] == Done(Other)
                && (k in s'.dev.index && s'.dev.index[k] in s'.dev.live
                    && !s'.dev.recs[s'.dev.index[k]].expired && c.t1 <= s'.dev.recs[s'.dev.index[k]].expiresAt ==>
                      var d := s'.dev.index[k];
                      s2.dev.recs == s'.dev.recs[d := s'.dev.recs[d].(authorized := true, userId := userId)]))
  {
    ReachableInv(cfg, s);
    NextKeeps(cfg, s, Arrive(r, q));
    var s1 := Next(cfg, s, Arrive(r, q));
    ApprovalRuns(cfg, s1, run, r, s1.reqs[r], userId);
    var s' := After(cfg, s1, run);
    if OwnSteps(run, r) == 1 && Enabled(s', r, c) {
      ApprovalAct(cfg, s', r, c);
      ApproveGoes(s', r, c, q.userCode, userId);
    }
  }

  // ----- polling -----

  /** What each step of a poll needs: a live, approved device that is not denied, until it is consumed; then
      the user it was approved for; then the issuer. */
  predicate PollNeeds(s: State, c: Choice, device: string, k: nat) {
    device in s.dev.recs &&
    var rec := s.dev.recs[device];
    && (k < 4 ==> device in s.dev.live && !rec.expired && c.t2 <= rec.expiresAt && rec.authorized && !rec.denied)
    && (k == 4 ==> c.dbOk && rec.userId in s.users)
    && (k == 5 ==> c.access.Some?)
  }

  predicate PollServed(cfg: Config, s: State, run: seq<Event>, r: nat, device: string, k: nat)
    requires Legal(cfg, s, run)
    decreases |run|
  {
    run != [] ==>
      if Own(run[0], r) then
        PollNeeds(s, run[0].c, device, k) && PollServed(cfg, Next(cfg, s, run[0]), run[1..], r, device, k + 1)
      else PollServed(cfg, Next(cfg, s, run[0]), run[1..], r, device, k)
  }

  /** The poll is answered with the tokens minted for it and no refresh token. */
  ghost predicate PollAnswered(s: State, r: nat, device: string) {
    exists i ::
      && 0 <= i < |s.h.mints| && s.h.mints[i].req == r && s.h.mints[i].g.src == FromDevice(device)
      && r in s.reqs
      && s.reqs[r] == Done(Granted(FromDevice(device), false, Tokens(s.h.mints[i].access, s.h.mints[i].id, None)))
  }

  /** Where a poll is after `k` steps. */
  ghost predicate PollAt(s: State, r: nat, device: string, k: nat) {
    r in s.reqs &&
    if k == 0 then s.reqs[r] == DeviceLookup(device)
    else if k == 1 then s.reqs[r] == DeviceDenied(device)
    else if k == 2 then s.reqs[r] == DeviceAuthorized(device)
    else if k == 3 then s.reqs[r] == DeviceConsume(device)
    else if k == 4 then s.reqs[r] == DeviceUser(device)
    else if k == 5 then s.reqs[r] == DeviceMint(device)
    else k == 6 && PollAnswered(s, r, device)
  }

  lemma LooksOn(s: State, r: nat, c: Choice, device: string)
    requires Enabled(s, r, c) && PollNeeds(s, c, device, 0)
    ensures DeviceLookupStep(s, r, c, device).reqs[r] == DeviceDenied(device)
    ensures DeviceDeniedStep(s, r, c, device).reqs[r] == DeviceAuthorized(device)
    ensures DeviceAuthorizedStep(s, r, c, device).reqs[r] == DeviceConsume(device)
    ensures DeviceConsumeStep(s, r, c, device).reqs[r] == DeviceUser(device)
  {
  }

  lemma MintsOn(s: State, r: nat, c: Choice, device: string)
    requires Enabled(s, r, c) && device in s.dev.recs && c.access.Some?
    ensures PollAnswered(DeviceMintStep(s, r, c, device), r, device)
  {
    var s' := DeviceMintStep(s, r, c, device);
    assert |s'.h.mints| == |s.h.mints| + 1;
    assert s'.h.mints[|s.h.mints|].g.src == FromDevice(device);
  }

  lemma PollGoesOn(cfg: Config, s: State, r: nat, c: Choice, device: string, k: nat)
    requires Enabled(s, r, c) && PollAt(s, r, device, k) && PollNeeds(s, c, device, k)
    ensures k < 6 && PollAt(Act(cfg, s, r, c), r, device, k + 1)
  {
    if k < 4 {
      LooksOn(s, r, c, device);
    }
    match s.reqs[r]
    case DeviceLookup(_) => DeviceLookupAct(cfg, s, r, c, device);
    case DeviceDenied(_) => DeviceDeniedAct(cfg, s, r, c, device);
    case DeviceAuthorized(_) => DeviceAuthorizedAct(cfg, s, r, c, device);
    case DeviceConsume(_) => DeviceConsumeAct(cfg, s, r, c, device);
    case DeviceUser(_) => DeviceUserAct(cfg, s, r, c, device);
    case DeviceMint(_) =>
      DeviceMintAct(cfg, s, r, c, device);
      MintsOn(s, r, c, device);
  }

  lemma PollWaits(s: State, s': State, r: nat, device: string, k: nat)
    requires PollAt(s, r, device, k) && Grows(s, s') && r in s'.reqs && s'.reqs[r] == s.reqs[r]
    ensures PollAt(s', r, device, k)
  {
    if k == 6 {
      var i :|
        && 0 <= i < |s.h.mints| && s.h.mints[i].req == r && s.h.mints[i].g.src == FromDevice(device)
        && s.reqs[r] == Done(Granted(FromDevice(device), false, Tokens(s.h.mints[i].access, s.h.mints[i].id, None)));
      assert s'.h.mints[i] == s.h.mints[i];
    }
  }

  lemma {:induction false} PollRuns(cfg: Config, s: State, run: seq<Event>, r: nat, device: string, k: nat)
    requires Inv(cfg, s) && Legal(cfg, s, run) && PollAt(s, r, device, k) && PollServed(cfg, s, run, r, device, k)
    ensures PollAt(After(cfg, s, run), r, device, k + OwnSteps(run, r))
    decreases |run|
  {
    if run == [] {
    } else {
      var e, s1 := run[0], Next(cfg, s, run[0]);
      if Own(e, r) {
        OwnEvent(cfg, s, e, r);
        PollGoesOn(cfg, s, r, e.c, device, k);
        PollRuns(cfg, s1, run[1..], r, device, k + 1);
      } else {
        OthersEvent(cfg, s, e, r);
        PollWaits(s, s1, r, device, k);
        PollRuns(cfg, s1, run[1..], r, device, k);
      }
    }
  }

  /** A poll of an approved device is answered with tokens after exactly six steps, whatever runs between
      them, if the device is live, approved and not denied at the first four, the user there at the fifth,
      and the issuer works at the last. */
  lemma PollIsAnswered(cfg: Config, s: State, r: nat, device: string, run: seq<Event>)
    requires Reachable(cfg, s) && r !in s.reqs && device != ""
    requires Legal(cfg, Next(cfg, s, Arrive(r, TokenDevice(device))), run)
    requires PollServed(cfg, Next(cfg, s, Arrive(r, TokenDevice(device))), run, r, device, 0)
    ensures var s', n := After(cfg, Next(cfg, s, Arrive(r, TokenDevice(device))), run), OwnSteps(run, r);
            && r in s'.reqs && n <= 6 && (s'.reqs[r].Done? <==> n == 6)
            && (n == 6 ==>
                exists i ::
                  && 0 <= i < |s'.h.mints| && s'.h.mints[i].req == r && s'.h.mints[i].g.src == FromDevice(device)
                  && s'.reqs[r] ==
                       Done(Granted(FromDevice(device), false,
                                    Tokens(s'.h.mints[i].access, s'.h.mints[i].id, None))))
  {
    ReachableInv(cfg, s);
    NextKeeps(cfg, s, Arrive(r, TokenDevice(device)));
    PollRuns(cfg, Next(cfg, s, Arrive(r, TokenDevice(device))), run, r, device, 0);
  }

  // ----- nothing goes on past its time -----

  /** A refresh token, a code and a device that a request goes on with were held, and their time was not
      over, by the clock reading of the step that took them; the device was approved. */
  lemma TakenInTime(cfg: Config, s: State, r: nat, c: Choice)
    requires Enabled(s, r, c)
    ensures var pc, pc' := s.reqs[r], Act(cfg, s, r, c).reqs[r];
            && (pc.RefreshConsume? && pc' != Done(Refused) ==>
                  pc.token in s.refresh && c.t1 <= s.refresh[pc.token].expiresAt)
            && (pc.CodeConsume? && pc'.CodeUser? ==> pc.q.code in s.codes && c.t1 <= s.codes[pc.q.code].expiresAt)
            && (pc.DeviceConsume? && pc' != Done(Refused) ==>
                  && pc.device in s.dev.live && c.t1 <= s.dev.recs[pc.device].expiresAt
                  && s.dev.recs[pc.device].authorized && !s.dev.recs[pc.device].expired)
  {
    match s.reqs[r]
    case RefreshConsume(token, clientId) =>
      TokenActs(cfg, s, r, c);
      TokenTakenInTime(s, r, c, token, clientId);
    case CodeConsume(q) =>
      TokenActs(cfg, s, r, c);
      CodeTakenInTime(cfg, s, r, c, q);
    case DeviceConsume(device) =>
      DeviceConsumeAct(cfg, s, r, c, device);
      DeviceTakenInTime(s, r, c, device);
    case _ =>
  }

  lemma TokenTakenInTime(s: State, r: nat, c: Choice, token: string, clientId: string)
    ensures RefreshConsumeStep(s, r, c, token, clientId).reqs[r] != Done(Refused) ==>
              token in s.refresh && c.t1 <= s.refresh[token].expiresAt
  {
  }

  lemma CodeTakenInTime(cfg: Config, s: State, r: nat, c: Choice, q: CodeQuery)
    ensures CodeConsumeStep(cfg, s, r, c, q).reqs[r].CodeUser? ==>
              q.code in s.codes && c.t1 <= s.codes[q.code].expiresAt
  {
  }

  lemma DeviceTakenInTime(s: State, r: nat, c: Choice, device: string)
    ensures DeviceConsumeStep(s, r, c, device).reqs[r] != Done(Refused) ==>
              && device in s.dev.live && c.t1 <= s.dev.recs[device].expiresAt
              && s.dev.recs[device].authorized && !s.dev.recs[device].expired
  {
  }

  /** The step that saves a refresh token leaves it in the store, for what was minted and for its full time. */
  lemma SavedIsHeld(cfg: Config, s: State, r: nat, c: Choice, g: Grantee, tokens: Tokens)
    requires Enabled(s, r, c) && s.reqs[r] == SaveRefresh(g, tokens)
    ensures var token, s' := "rt_" + c.uuid, Act(cfg, s, r, c);
            && token in s'.refresh
            && s'.refresh[token] ==
                 TtlTable.Entry(RefreshGrant(g.sub, g.client, g.scope, "", g.sid), c.stamp + cfg.refreshTTL)
            && (s'.reqs[r].Cache? || s'.reqs[r].Done?)
            && (s'.reqs[r].Cache? ==> s'.reqs[r].tokens.refresh == Some(token))
            && (s'.reqs[r].Done? ==> s'.reqs[r].reply.Granted? && s'.reqs[r].reply.tokens.refresh == Some(token))
  {
    TokenActs(cfg, s, r, c);
    SaveRefreshGoes(cfg, s, r, c, g, tokens);
  }
}
