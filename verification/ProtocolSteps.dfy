/** Every step of every request keeps the protocol's invariant, and forgets nothing. */
module ProtocolSteps {
  import opened Wrappers
  import opened Text
  import opened Grants
  import opened Protocol
  import opened ProtocolInvariant
  import TtlTable
  import Devices
  import Sessions

  lemma Ready(cfg: Config, s: State, r: nat, c: Choice)
    requires Inv(cfg, s) && Enabled(s, r, c)
    ensures PcOk(cfg, s, r, s.reqs[r])
  {
  }

  // ----- minting -----

  /** Minting, when the request has moved on to a stage past minting. */
  lemma MintAfterMove(cfg: Config, s: State, r: nat, c: Choice, pc: Pc, m: MintEvent)
    requires Inv(cfg, s) && Enabled(s, r, c) && !PastMint(s.reqs[r]) && MayMove(cfg, s, r, pc) && PastMint(pc)
    requires m.req == r && MintOk(Moved(s, r, c.t3, pc), m)
    ensures Inv(cfg, WithMint(Moved(s, r, c.t3, pc), m))
  {
    NoMintYet(s, r);
    Move(cfg, s, r, c.t3, pc);
    AddMint(cfg, Moved(s, r, c.t3, pc), m);
  }

  lemma ClientMintKeeps(cfg: Config, s: State, r: nat, c: Choice, clientId: string)
    requires Inv(cfg, s) && Enabled(s, r, c) && s.reqs[r] == ClientCredentials(clientId)
    ensures Inv(cfg, ClientMintStep(s, r, c, clientId))
  {
    if c.access == None {
      Move(cfg, s, r, c.t3, Done(Refused));
    } else {
      var g := Grantee(FromClient, "client|" + clientId, clientId, DEFAULT_AUDIENCE, "", "");
      var m := MintEvent(r, g, c.access.value, None);
      var pc := Done(Granted(FromClient, false, Tokens(c.access.value, None, None)));
      MintAfterMove(cfg, s, r, c, pc, m);
      assert ClientMintStep(s, r, c, clientId) == WithMint(Moved(s, r, c.t3, pc), m);
    }
  }

  // What the mint steps come to, without the invariant.

  function MintId(g: Grantee, c: Choice): Option<string> {
    if Contains(g.scope, "openid") then c.id else None
  }

  function MintTokens(g: Grantee, c: Choice): Tokens
    requires c.access.Some?
  {
    Tokens(c.access.value, MintId(g, c), None)
  }

  /** Where a request is once its tokens are complete. */
  function Delivered(g: Grantee, tokens: Tokens): Pc {
    if g.src.FromCode? then Cache(g.src.code, tokens) else Done(Granted(g.src, false, tokens))
  }

  function MintNext(g: Grantee, c: Choice): Pc
    requires c.access.Some?
  {
    if Contains(g.scope, OFFLINE) then SaveRefresh(g, MintTokens(g, c))
        else Done(Granted(g.src, false, MintTokens(g, c)))
  }

  function MintMade(r: nat, g: Grantee, c: Choice): MintEvent
    requires c.access.Some?
  {
    MintEvent(r, g, c.access.value, MintId(g, c))
  }

  lemma MintShape(s: State, r: nat, c: Choice, g: Grantee)
    requires c.access.Some?
    ensures g.src.FromCode? && !Contains(g.scope, OFFLINE) ==>
              MintStep(s, r, c, g) == WithMint(WithIssued(s, r, c.t3, g.src.code, MintTokens(g, c)), MintMade(r, g, c))
    ensures !(g.src.FromCode? && !Contains(g.scope, OFFLINE)) ==>
              MintStep(s, r, c, g) == WithMint(Moved(s, r, c.t3, MintNext(g, c)), MintMade(r, g, c))
  {
  }

  /** A rotation always goes on to save a successor, because every family has offline access. */
  lemma MintMayMove(cfg: Config, s: State, r: nat, c: Choice, g: Grantee)
    requires r in s.reqs && s.reqs[r] == Mint(g) && PcOk(cfg, s, r, Mint(g)) && RefreshInv(s) && c.access.Some?
    requires !(g.src.FromCode? && !Contains(g.scope, OFFLINE))
    ensures MayMove(cfg, s, r, MintNext(g, c)) && PastMint(MintNext(g, c))
    ensures MintOk(Moved(s, r, c.t3, MintNext(g, c)), MintMade(r, g, c))
  {
    if g.src.FromRefresh? {
      assert RootOk(s.h, s.h.roots[g.src.family]);
    }
  }

  lemma MintOkAfterIssue(cfg: Config, s: State, r: nat, c: Choice, g: Grantee)
    requires PcOk(cfg, s, r, Mint(g)) && g.src.FromCode? && c.access.Some?
    ensures MintOk(WithIssued(s, r, c.t3, g.src.code, MintTokens(g, c)), MintMade(r, g, c))
  {
  }

  /** Minting for a code: the tokens are complete at once, and cached next. */
  lemma MintForCodeKeeps(cfg: Config, s: State, r: nat, c: Choice, g: Grantee)
    requires Inv(cfg, s) && Enabled(s, r, c) && s.reqs[r] == Mint(g) && PcOk(cfg, s, r, Mint(g)) && c.access.Some?
    requires g.src.FromCode? && !Contains(g.scope, OFFLINE)
    ensures Inv(cfg, WithMint(WithIssued(s, r, c.t3, g.src.code, MintTokens(g, c)), MintMade(r, g, c)))
  {
    NoMintYet(s, r);
    MintOkAfterIssue(cfg, s, r, c, g);
    IssueCode(cfg, s, r, c.t3, g.src.code, MintTokens(g, c));
    AddMint(cfg, WithIssued(s, r, c.t3, g.src.code, MintTokens(g, c)), MintMade(r, g, c));
  }

  lemma MintOtherKeeps(cfg: Config, s: State, r: nat, c: Choice, g: Grantee)
    requires Inv(cfg, s) && Enabled(s, r, c) && s.reqs[r] == Mint(g) && c.access.Some?
    requires !(g.src.FromCode? && !Contains(g.scope, OFFLINE))
    ensures Inv(cfg, WithMint(Moved(s, r, c.t3, MintNext(g, c)), MintMade(r, g, c)))
  {
    Ready(cfg, s, r, c);
    MintMayMove(cfg, s, r, c, g);
    MintAfterMove(cfg, s, r, c, MintNext(g, c), MintMade(r, g, c));
  }

  lemma MintKeeps(cfg: Config, s: State, r: nat, c: Choice, g: Grantee)
    requires Inv(cfg, s) && Enabled(s, r, c) && s.reqs[r] == Mint(g)
    ensures Inv(cfg, MintStep(s, r, c, g))
  {
    if c.access == None {
      Move(cfg, s, r, c.t3, Done(Refused));
    } else {
      MintShape(s, r, c, g);
      if g.src.FromCode? && !Contains(g.scope, OFFLINE) {
        Ready(cfg, s, r, c);
        MintForCodeKeeps(cfg, s, r, c, g);
      } else {
        MintOtherKeeps(cfg, s, r, c, g);
      }
    }
  }

  function ImplicitMade(r: nat, f: Front, userId: string, c: Choice): MintEvent
    requires c.access.Some?
  {
    MintEvent(r, ImplicitGrantee(f, userId), c.access.value, if f.wantIdToken then c.id else None)
  }

  lemma ImplicitMintShape(s: State, r: nat, c: Choice, f: Front, userId: string)
    requires c.access.Some?
    ensures ImplicitMintStep(s, r, c, f, userId)
         == WithMint(Moved(s, r, c.t3, Done(ImplicitReply(f, c))), ImplicitMade(r, f, userId, c))
  {
  }

  lemma ImplicitMintMayMove(cfg: Config, s: State, r: nat, c: Choice, f: Front, userId: string)
    requires r in s.reqs && s.reqs[r] == ImplicitMint(f, userId) && PcOk(cfg, s, r, s.reqs[r]) && c.access.Some?
    ensures MayMove(cfg, s, r, Done(ImplicitReply(f, c)))
    ensures MintOk(Moved(s, r, c.t3, Done(ImplicitReply(f, c))), ImplicitMade(r, f, userId, c))
  {
  }

  lemma ImplicitMintKeeps(cfg: Config, s: State, r: nat, c: Choice, f: Front, userId: string)
    requires Inv(cfg, s) && Enabled(s, r, c) && s.reqs[r] == ImplicitMint(f, userId)
    ensures Inv(cfg, ImplicitMintStep(s, r, c, f, userId))
  {
    Ready(cfg, s, r, c);
    if c.access == None {
      Move(cfg, s, r, c.t3, Done(Refused));
    } else {
      ImplicitMintShape(s, r, c, f, userId);
      ImplicitMintMayMove(cfg, s, r, c, f, userId);
      MintAfterMove(cfg, s, r, c, Done(ImplicitReply(f, c)), ImplicitMade(r, f, userId, c));
    }
  }

  lemma DeviceMintShape(cfg: Config, s: State, r: nat, c: Choice, device: string) returns (pc: Pc, m: MintEvent)
    requires r in s.reqs && s.reqs[r] == DeviceMint(device) && PcOk(cfg, s, r, s.reqs[r]) && DevicesInv(s)
    requires c.access.Some?
    ensures DeviceMintStep(s, r, c, device) == WithMint(Moved(s, r, c.t3, pc), m)
    ensures MayMove(cfg, s, r, pc) && PastMint(pc) && m.req == r && MintOk(Moved(s, r, c.t3, pc), m)
  {
    var rec := s.dev.recs[device];
    var g := Grantee(FromDevice(device), rec.userId, rec.clientId,
                     OrElse(rec.audience, OrElse(rec.clientId, DEFAULT_AUDIENCE)), rec.scope, "sid_" + c.uuid);
    m := MintEvent(r, g, c.access.value, MintId(g, c));
    pc := Done(Granted(g.src, false, Tokens(c.access.value, MintId(g, c), None)));
  }

  lemma DeviceMintKeeps(cfg: Config, s: State, r: nat, c: Choice, device: string)
    requires Inv(cfg, s) && Enabled(s, r, c) && s.reqs[r] == DeviceMint(device)
    ensures Inv(cfg, DeviceMintStep(s, r, c, device))
  {
    Ready(cfg, s, r, c);
    if c.access == None {
      Move(cfg, s, r, c.t3, Done(Refused));
    } else {
      var pc, m := DeviceMintShape(cfg, s, r, c, device);
      MintAfterMove(cfg, s, r, c, pc, m);
    }
  }

  // ----- tokens -----

  lemma PasswordKeeps(cfg: Config, s: State, r: nat, c: Choice, pc: Pc)
    requires Inv(cfg, s) && Enabled(s, r, c) && s.reqs[r] == pc && pc.PasswordCheck?
    ensures Inv(cfg, PasswordStep(cfg, s, r, c, pc))
  {
    match Authenticate(cfg, s, c, pc.username, pc.password)
    case None => Move(cfg, s, r, c.t3, Done(Refused));
    case Some(userId) =>
      VerifyUser(cfg, s, userId);
      Move(cfg, Verified(s, userId), r, c.t3,
           Mint(Grantee(FromPassword, userId, pc.clientId, OrElse(pc.audience, DEFAULT_AUDIENCE), pc.scope,
                        "sid_" + c.uuid)));
  }

  lemma CodeConsumeSome(cfg: Config, s: State, r: nat, c: Choice, q: CodeQuery) returns (e: Exchange, pc: Pc)
    requires r in s.reqs && s.reqs[r] == CodeConsume(q) && TtlTable.Find(s.codes, q.code, c.t1).Some?
    ensures q.code in s.codes && e.req == r && e.ac == s.codes[q.code].grant && e.q == q
    ensures e.passed == Gates(cfg, e.ac, q)
    ensures CodeConsumeStep(cfg, s, r, c, q) == Moved(WithConsumed(s, q.code, e), r, c.t3, pc)
    ensures MayMove(cfg, WithConsumed(s, q.code, e), r, pc)
  {
    var ac := s.codes[q.code].grant;
    e := Exchange(r, ac, q, Gates(cfg, ac, q));
    pc := if e.passed then CodeUser(q.code, ac, OrElse(q.clientId, ac.clientId)) else Done(Refused);
  }

  lemma CodeConsumeKeeps(cfg: Config, s: State, r: nat, c: Choice, q: CodeQuery)
    requires Inv(cfg, s) && Enabled(s, r, c) && s.reqs[r] == CodeConsume(q)
    ensures Inv(cfg, CodeConsumeStep(cfg, s, r, c, q))
  {
    if TtlTable.Find(s.codes, q.code, c.t1) == None {
      DropCode(cfg, s, q.code);
      Move(cfg, s.(codes := TtlTable.Drop(s.codes, q.code)), r, c.t3, CodeReplay(q.code));
    } else {
      var e, pc := CodeConsumeSome(cfg, s, r, c, q);
      ConsumeCode(cfg, s, q.code, e);
      Move(cfg, WithConsumed(s, q.code, e), r, c.t3, pc);
    }
  }

  lemma CodeReplayKeeps(cfg: Config, s: State, r: nat, c: Choice, code: string)
    requires Inv(cfg, s) && Enabled(s, r, c) && s.reqs[r] == CodeReplay(code)
    ensures Inv(cfg, CodeReplayStep(s, r, c, code))
  {
    ReplayLookupMayMove(cfg, s, r, c, code);
    Move(cfg, s, r, c.t3, CodeReplayCheck(code, if code in s.replay then Some(s.replay[code]) else None));
  }

  lemma ReplayLookupMayMove(cfg: Config, s: State, r: nat, c: Choice, code: string)
    requires ReplayInv(s) && r in s.reqs && s.reqs[r] == CodeReplay(code)
    ensures MayMove(cfg, s, r, CodeReplayCheck(code, if code in s.replay then Some(s.replay[code]) else None))
    ensures CodeReplayStep(s, r, c, code)
              == Moved(s, r, c.t3, CodeReplayCheck(code, if code in s.replay then Some(s.replay[code]) else None))
  {
  }

  lemma ReplayMayMove(cfg: Config, s: State, r: nat, now: int, pc: Pc) returns (next: Pc)
    requires r in s.reqs && s.reqs[r] == pc && pc.CodeReplayCheck? && PcOk(cfg, s, r, pc)
    ensures next == Done(if pc.entry.Some? && now < pc.entry.value.expires
                         then Granted(FromCode(pc.code), true, pc.entry.value.body) else Refused)
    ensures MayMove(cfg, s, r, next)
  {
    next := Done(if pc.entry.Some? && now < pc.entry.value.expires
                 then Granted(FromCode(pc.code), true, pc.entry.value.body) else Refused);
  }

  lemma CodeReplayCheckKeeps(cfg: Config, s: State, r: nat, c: Choice, pc: Pc)
    requires Inv(cfg, s) && Enabled(s, r, c) && s.reqs[r] == pc && pc.CodeReplayCheck?
    ensures Inv(cfg, CodeReplayCheckStep(s, r, c, pc.code, pc.entry))
  {
    Ready(cfg, s, r, c);
    var next := ReplayMayMove(cfg, s, r, c.t1, pc);
    Move(cfg, s, r, c.t3, next);
  }

  lemma CodeUserKeeps(cfg: Config, s: State, r: nat, c: Choice, pc: Pc)
    requires Inv(cfg, s) && Enabled(s, r, c) && s.reqs[r] == pc && pc.CodeUser?
    ensures Inv(cfg, CodeUserStep(s, r, c, pc.code, pc.ac, pc.clientId))
  {
    Ready(cfg, s, r, c);
    assert AuthCodeOk(cfg, s.h, pc.code, pc.ac);
    Move(cfg, s, r, c.t3,
         if UserExists(s, c, pc.ac.userId) then
           Mint(Grantee(FromCode(pc.code), pc.ac.userId, pc.clientId, OrElse(pc.ac.audience, DEFAULT_AUDIENCE),
                        pc.ac.scope,
                        OrElse(pc.ac.sessionId, "sid_" + c.uuid)))
         else Done(Refused));
  }

  function RefreshNext(s: State, c: Choice, token: string, clientId: string, rg: RefreshGrant): Pc {
    if clientId != "" && rg.clientId != clientId then Done(Refused)
    else Mint(Grantee(FromRefresh(token, Family(s, token)), rg.userId, rg.clientId,
                      OrElse(rg.clientId, DEFAULT_AUDIENCE),
                      rg.scope, OrElse(rg.sessionId, "sid_" + c.uuid)))
  }

  lemma RefreshConsumeShape(s: State, r: nat, c: Choice, token: string, clientId: string)
    requires TtlTable.Find(s.refresh, token, c.t1).Some?
    ensures RefreshConsumeStep(s, r, c, token, clientId)
         == Moved(WithRefreshed(s, token, r), r, c.t3, RefreshNext(s, c, token, clientId, s.refresh[token].grant))
  {
  }

  lemma RefreshMayMove(cfg: Config, s: State, r: nat, c: Choice, token: string, clientId: string)
    requires r in s.reqs && s.reqs[r] == RefreshConsume(token, clientId) && token in s.refresh
    requires RefreshInv(s) && token in s.h.familyOf && FamilyFree(WithRefreshed(s, token, r), r, s.h.familyOf[token])
    ensures MayMove(cfg, WithRefreshed(s, token, r), r, RefreshNext(s, c, token, clientId, s.refresh[token].grant))
  {
    RefreshOfFamily(s, token);
  }

  lemma RefreshMissKeeps(cfg: Config, s: State, r: nat, c: Choice, token: string, clientId: string)
    requires Inv(cfg, s) && Enabled(s, r, c) && s.reqs[r] == RefreshConsume(token, clientId)
    requires TtlTable.Find(s.refresh, token, c.t1) == None
    ensures Inv(cfg, RefreshConsumeStep(s, r, c, token, clientId))
  {
    DropRefresh(cfg, s, token);
    Move(cfg, s.(refresh := TtlTable.Drop(s.refresh, token)), r, c.t3, Done(Refused));
  }

  lemma RefreshConsumeKeeps(cfg: Config, s: State, r: nat, c: Choice, token: string, clientId: string)
    requires Inv(cfg, s) && Enabled(s, r, c) && s.reqs[r] == RefreshConsume(token, clientId)
    ensures Inv(cfg, RefreshConsumeStep(s, r, c, token, clientId))
  {
    if TtlTable.Find(s.refresh, token, c.t1) == None {
      RefreshMissKeeps(cfg, s, r, c, token, clientId);
    } else {
      ConsumeRefresh(cfg, s, token, r);
      RefreshConsumeShape(s, r, c, token, clientId);
      RefreshMayMove(cfg, s, r, c, token, clientId);
      Move(cfg, WithRefreshed(s, token, r), r, c.t3, RefreshNext(s, c, token, clientId, s.refresh[token].grant));
    }
  }

  lemma RefreshOfFamily(s: State, token: string)
    requires RefreshInv(s) && token in s.refresh
    ensures token in s.h.familyOf && s.h.familyOf[token] < |s.h.roots|
    ensures s.h.roots[s.h.familyOf[token]] == RootOf(s.refresh[token].grant)
    ensures RootOk(s.h, RootOf(s.refresh[token].grant))
  {
    assert RootOk(s.h, s.h.roots[s.h.familyOf[token]]);
  }

  /** Saving the successor of a rotation: the request lets go of the family as the new token takes it. */
  lemma RotateKeeps(cfg: Config, s: State, r: nat, c: Choice, g: Grantee, tokens: Tokens)
    requires Inv(cfg, s) && Enabled(s, r, c) && s.reqs[r] == SaveRefresh(g, tokens) && g.src.FromRefresh?
    ensures Inv(cfg, SaveRefreshStep(cfg, s, r, c, g, tokens))
  {
    Ready(cfg, s, r, c);
    var token := "rt_" + c.uuid;
    var rg := RefreshGrant(g.sub, g.client, g.scope, "", g.sid);
    var pc := Done(Granted(g.src, false, tokens.(refresh := Some(token))));
    assert RootOk(s.h, s.h.roots[g.src.family]);
    assert Rotating(s.reqs[r]) == Some(g.src.family);
    Move(cfg, s, r, c.t3, pc);
    var s1 := Moved(s, r, c.t3, pc);
    AddRefresh(cfg, s1, token, rg, g.src.family, s.h.roots, c.stamp, cfg.refreshTTL, c.t1);
    assert SaveRefreshStep(cfg, s, r, c, g, tokens)
        == WithRefresh(s1, token, rg, g.src.family, s.h.roots, c.stamp, cfg.refreshTTL, c.t1);
  }

  /** Saving the first token of a family. */
  lemma FoundKeeps(cfg: Config, s: State, r: nat, c: Choice, g: Grantee, tokens: Tokens)
    requires Inv(cfg, s) && Enabled(s, r, c) && s.reqs[r] == SaveRefresh(g, tokens) && !g.src.FromRefresh?
    ensures Inv(cfg, SaveRefreshStep(cfg, s, r, c, g, tokens))
  {
    Ready(cfg, s, r, c);
    var token := "rt_" + c.uuid;
    var rg := RefreshGrant(g.sub, g.client, g.scope, "", g.sid);
    var roots := s.h.roots + [RootOf(rg)];
    var family := |s.h.roots|;
    var all := tokens.(refresh := Some(token));
    NextFamilyFree(cfg, s);
    AddRefresh(cfg, s, token, rg, family, roots, c.stamp, cfg.refreshTTL, c.t1);
    var s1 := WithRefresh(s, token, rg, family, roots, c.stamp, cfg.refreshTTL, c.t1);
    if g.src.FromCode? {
      IssueCode(cfg, s1, r, c.t3, g.src.code, all);
    } else {
      Move(cfg, s1, r, c.t3, Done(Granted(g.src, false, all)));
    }
  }

  // ----- devices -----

  lemma DeviceSaveKeeps(cfg: Config, s: State, r: nat, c: Choice, pc: Pc)
    requires Inv(cfg, s) && Enabled(s, r, c) && s.reqs[r] == pc && pc.DeviceSave?
    ensures Inv(cfg, DeviceSaveStep(cfg, s, r, c, pc))
  {
    var device := "dc_" + c.uuid;
    var rec := Devices.Record(device, c.userCode, "", pc.clientId, pc.scope, pc.audience, 0, 0, false, false, false);
    AddDevice(cfg, s, device, c.userCode, rec, c.stamp, cfg.deviceTTL, c.t1);
    Move(cfg, WithDevice(s, device, c.userCode, rec, c.stamp, cfg.deviceTTL, c.t1), r, c.t3, Done(Other));
  }

  lemma DenyShrinks(s: State, userCode: string)
    requires DevicesInv(s)
    ensures Shrinks(s, Devices.Deny(s.dev, userCode))
  {
  }

  lemma DeviceDenyKeeps(cfg: Config, s: State, r: nat, c: Choice, userCode: string)
    requires Inv(cfg, s) && Enabled(s, r, c) && s.reqs[r] == DeviceDeny(userCode)
    ensures Inv(cfg, DeviceDenyStep(s, r, c, userCode))
  {
    DenyShrinks(s, userCode);
    ShrinkDevices(cfg, s, Devices.Deny(s.dev, userCode));
    Move(cfg, s.(dev := Devices.Deny(s.dev, userCode)), r, c.t3, Done(Other));
  }

  lemma DeviceCheckKeeps(cfg: Config, s: State, r: nat, c: Choice, pc: Pc)
    requires Inv(cfg, s) && Enabled(s, r, c) && s.reqs[r] == pc && pc.DeviceCheck?
    ensures Inv(cfg, DeviceCheckStep(cfg, s, r, c, pc))
  {
    match Authenticate(cfg, s, c, pc.username, pc.password)
    case None => Move(cfg, s, r, c.t3, Done(Refused));
    case Some(userId) =>
      VerifyUser(cfg, s, userId);
      Move(cfg, Verified(s, userId), r, c.t3, DeviceApprove(pc.userCode, userId));
  }

  lemma DeviceApproveShape(s: State, r: nat, c: Choice, userCode: string, userId: string)
    ensures Devices.Lookup(s.dev, userCode, c.t1) == None ==>
              DeviceApproveStep(s, r, c, userCode, userId) == Moved(s, r, c.t3, Done(Other))
    ensures Devices.Lookup(s.dev, userCode, c.t1).Some? ==>
              DeviceApproveStep(s, r, c, userCode, userId)
                == Moved(WithApproval(s, Devices.Lookup(s.dev, userCode, c.t1).value, userId), r, c.t3, Done(Other))
  {
  }

  lemma ApproverVerified(cfg: Config, s: State, r: nat, userCode: string, userId: string)
    requires PcsInv(cfg, s) && r in s.reqs && s.reqs[r] == DeviceApprove(userCode, userId)
    ensures userId in s.h.verified
  {
    assert PcOk(cfg, s, r, s.reqs[r]);
  }

  lemma DeviceApproveSome(cfg: Config, s: State, r: nat, now: int, device: string, userId: string)
    requires Inv(cfg, s) && r in s.reqs && s.reqs[r].DeviceApprove? && s.now <= now
    requires device in s.dev.live && userId in s.h.verified
    ensures Inv(cfg, Moved(WithApproval(s, device, userId), r, now, Done(Other)))
  {
    ApproveDevice(cfg, s, device, userId);
    Move(cfg, WithApproval(s, device, userId), r, now, Done(Other));
  }

  lemma DeviceApproveKeeps(cfg: Config, s: State, r: nat, c: Choice, userCode: string, userId: string)
    requires Inv(cfg, s) && Enabled(s, r, c) && s.reqs[r] == DeviceApprove(userCode, userId)
    ensures Inv(cfg, DeviceApproveStep(s, r, c, userCode, userId))
  {
    ApproverVerified(cfg, s, r, userCode, userId);
    DeviceApproveShape(s, r, c, userCode, userId);
    match Devices.Lookup(s.dev, userCode, c.t1)
    case None => Move(cfg, s, r, c.t3, Done(Other));
    case Some(device) => DeviceApproveSome(cfg, s, r, c.t3, device, userId);
  }

  lemma DeviceLookupKeeps(cfg: Config, s: State, r: nat, c: Choice, device: string)
    requires Inv(cfg, s) && Enabled(s, r, c) && s.reqs[r] == DeviceLookup(device)
    ensures Inv(cfg, DeviceLookupStep(s, r, c, device))
  {
    var d := Devices.Clean(s.dev, c.t1);
    ShrinkDevices(cfg, s, d);
    Move(cfg, s.(dev := d), r, c.t3, if Devices.Found(d, device, c.t2) then DeviceDenied(device) else Done(Refused));
  }

  lemma DeviceDeniedKeeps(cfg: Config, s: State, r: nat, c: Choice, device: string)
    requires Inv(cfg, s) && Enabled(s, r, c) && s.reqs[r] == DeviceDenied(device)
    ensures Inv(cfg, DeviceDeniedStep(s, r, c, device))
  {
    Move(cfg, s, r, c.t3, if device in s.dev.recs && !s.dev.recs[device].denied then DeviceAuthorized(device)
         else Done(Refused));
  }

  lemma DeviceAuthorizedKeeps(cfg: Config, s: State, r: nat, c: Choice, device: string)
    requires Inv(cfg, s) && Enabled(s, r, c) && s.reqs[r] == DeviceAuthorized(device)
    ensures Inv(cfg, DeviceAuthorizedStep(s, r, c, device))
  {
    Move(cfg, s, r, c.t3, if device in s.dev.recs && s.dev.recs[device].authorized then DeviceConsume(device)
         else Done(Refused));
  }

  lemma DeviceUserKeeps(cfg: Config, s: State, r: nat, c: Choice, device: string)
    requires Inv(cfg, s) && Enabled(s, r, c) && s.reqs[r] == DeviceUser(device)
    ensures Inv(cfg, DeviceUserStep(s, r, c, device))
  {
    Ready(cfg, s, r, c);
    Move(cfg, s, r, c.t3,
         if device in s.dev.recs && UserExists(s, c, s.dev.recs[device].userId) then DeviceMint(device)
             else Done(Refused));
  }

  lemma UserMayMove(cfg: Config, s: State, r: nat, device: string)
    requires r in s.reqs && s.reqs[r] == DeviceConsume(device) && device in s.dev.live
    ensures MayMove(cfg, WithUse(s, device, r), r, DeviceUser(device))
  {
  }

  lemma DeviceConsumeKeeps(cfg: Config, s: State, r: nat, c: Choice, device: string)
    requires Inv(cfg, s) && Enabled(s, r, c) && s.reqs[r] == DeviceConsume(device)
    ensures Inv(cfg, DeviceConsumeStep(s, r, c, device))
  {
    if Devices.Consumable(s.dev, device, c.t1) {
      UseDevice(cfg, s, device, r);
      UserMayMove(cfg, s, r, device);
      Move(cfg, WithUse(s, device, r), r, c.t3, DeviceUser(device));
    } else {
      Move(cfg, s, r, c.t3, Done(Refused));
    }
  }

  // ----- front channel -----

  lemma LoginCheckKeeps(cfg: Config, s: State, r: nat, c: Choice, pc: Pc)
    requires Inv(cfg, s) && Enabled(s, r, c) && s.reqs[r] == pc && pc.LoginCheck?
    ensures Inv(cfg, LoginCheckStep(cfg, s, r, c, pc))
  {
    Ready(cfg, s, r, c);
    match Authenticate(cfg, s, c, pc.username, pc.password)
    case None => Move(cfg, s, r, c.t3, Done(Refused));
    case Some(userId) =>
      VerifyUser(cfg, s, userId);
      Move(cfg, Verified(s, userId), r, c.t3,
           if pc.f.via == Authorize && pc.f.implicit then ImplicitMint(pc.f, userId)
           else if cfg.hasSessions then LoginSession(pc.f, userId, s.users[userId].email)
           else AfterSession(pc.f, userId));
  }

  lemma LoginSessionKeeps(cfg: Config, s: State, r: nat, c: Choice, f: Front, userId: string, email: string)
    requires Inv(cfg, s) && Enabled(s, r, c) && s.reqs[r] == LoginSession(f, userId, email)
    ensures Inv(cfg, LoginSessionStep(cfg, s, r, c, f, userId, email))
  {
    Ready(cfg, s, r, c);
    if c.random == None {
      Move(cfg, s, r, c.t3, AfterSession(f, userId));
    } else {
      var sessions := Sessions.Begin(s.sessions, "sid_" + c.random.value, userId, email, c.stamp, cfg.sessionTTL, c.t1);
      SetSessions(cfg, s, sessions);
      Move(cfg, s.(sessions := sessions), r, c.t3, AfterSession(f, userId));
    }
  }

  lemma CookieGetKeeps(cfg: Config, s: State, r: nat, c: Choice, f: Front, cookie: string)
    requires Inv(cfg, s) && Enabled(s, r, c) && s.reqs[r] == CookieGet(f, cookie)
    ensures Inv(cfg, CookieGetStep(cfg, s, r, c, f, cookie))
  {
    Ready(cfg, s, r, c);
    var sessions := Sessions.Touch(s.sessions, cookie, c.t1, c.t2, c.t3, cfg.sessionTTL);
    SetSessions(cfg, s, sessions);
    Move(cfg, s.(sessions := sessions), r, c.t3,
         if Sessions.Present(s.sessions, cookie, c.t1, c.t2) then CookieUser(f, s.sessions[cookie].userId)
             else Done(Other));
  }

  lemma CookieUserKeeps(cfg: Config, s: State, r: nat, c: Choice, f: Front, userId: string)
    requires Inv(cfg, s) && Enabled(s, r, c) && s.reqs[r] == CookieUser(f, userId)
    ensures Inv(cfg, CookieUserStep(s, r, c, f, userId))
  {
    Ready(cfg, s, r, c);
    Move(cfg, s, r, c.t3, if UserExists(s, c, userId) then SaveCode(f, userId) else Done(Other));
  }

  lemma SaveCodeShape(cfg: Config, s: State, r: nat, c: Choice, f: Front, userId: string) returns (ac: AuthCode)
    requires PcOk(cfg, s, r, SaveCode(f, userId))
    ensures SaveCodeStep(cfg, s, r, c, f, userId)
         == Moved(WithCode(s, "ac_" + c.uuid, ac, f.via == Authorize, c.stamp, cfg.codeTTL, c.t1), r, c.t3, Done(Other))
    ensures ac.userId in s.h.verified && ac.sessionId != ""
    ensures (f.via == Authorize ==> ScopeOk(cfg, ac.clientId, ac.scope))
  {
    ac := AuthCode(userId, f.clientId, f.redirectURI, f.scope, f.audience, f.nonce, "sid_" + c.uuid, f.codeChallenge,
                   f.codeChallengeMethod);
  }

  lemma SaveCodeKeeps(cfg: Config, s: State, r: nat, c: Choice, f: Front, userId: string)
    requires Inv(cfg, s) && Enabled(s, r, c) && s.reqs[r] == SaveCode(f, userId)
    ensures Inv(cfg, SaveCodeStep(cfg, s, r, c, f, userId))
  {
    Ready(cfg, s, r, c);
    var ac := SaveCodeShape(cfg, s, r, c, f, userId);
    AddCode(cfg, s, "ac_" + c.uuid, ac, f.via == Authorize, c.stamp, cfg.codeTTL, c.t1);
    Move(cfg, WithCode(s, "ac_" + c.uuid, ac, f.via == Authorize, c.stamp, cfg.codeTTL, c.t1), r, c.t3, Done(Other));
  }

  lemma LogoutKeeps(cfg: Config, s: State, r: nat, c: Choice, cookie: string)
    requires Inv(cfg, s) && Enabled(s, r, c) && s.reqs[r] == Logout(cookie)
    ensures Inv(cfg, LogoutStep(s, r, c, cookie))
  {
    SetSessions(cfg, s, s.sessions - {cookie});
    Move(cfg, s.(sessions := s.sessions - {cookie}), r, c.t3, Done(Other));
  }

  lemma RevokeKeeps(cfg: Config, s: State, r: nat, c: Choice, token: string)
    requires Inv(cfg, s) && Enabled(s, r, c) && s.reqs[r] == Revoke(token)
    ensures Inv(cfg, RevokeStep(s, r, c, token))
  {
    DropRefresh(cfg, s, token);
    Move(cfg, s.(refresh := TtlTable.Drop(s.refresh, token)), r, c.t3, Done(Other));
  }

  // ----- all steps -----

  predicate TokenPc(pc: Pc) {
    || pc.ClientCredentials? || pc.PasswordCheck? || pc.CodeConsume? || pc.CodeReplay? || pc.CodeReplayCheck?
        || pc.CodeUser?
    || pc.RefreshConsume? || pc.Mint? || pc.SaveRefresh? || pc.Cache? || pc.Revoke?
  }

  predicate ApprovalPc(pc: Pc) {
    pc.DeviceSave? || pc.DeviceDeny? || pc.DeviceCheck? || pc.DeviceApprove?
  }

  predicate PollPc(pc: Pc) {
    pc.DeviceLookup? || pc.DeviceDenied? || pc.DeviceAuthorized? || pc.DeviceConsume? || pc.DeviceUser?
        || pc.DeviceMint?
  }

  lemma TokenActKeeps(cfg: Config, s: State, r: nat, c: Choice)
    requires Inv(cfg, s) && Enabled(s, r, c) && TokenPc(s.reqs[r])
    ensures Inv(cfg, Act(cfg, s, r, c))
  {
    var pc := s.reqs[r];
    match pc
    case ClientCredentials(clientId) => ClientMintKeeps(cfg, s, r, c, clientId);
    case PasswordCheck(_, _, _, _, _) => PasswordKeeps(cfg, s, r, c, pc);
    case CodeConsume(q) => CodeConsumeKeeps(cfg, s, r, c, q);
    case CodeReplay(code) => CodeReplayKeeps(cfg, s, r, c, code);
    case CodeReplayCheck(_, _) => CodeReplayCheckKeeps(cfg, s, r, c, pc);
    case CodeUser(_, _, _) => CodeUserKeeps(cfg, s, r, c, pc);
    case RefreshConsume(token, clientId) => RefreshConsumeKeeps(cfg, s, r, c, token, clientId);
    case Mint(g) => MintKeeps(cfg, s, r, c, g);
    case SaveRefresh(g, tokens) =>
      if g.src.FromRefresh? {
        RotateKeeps(cfg, s, r, c, g, tokens);
      } else {
        FoundKeeps(cfg, s, r, c, g, tokens);
      }
    case Cache(code, tokens) => CacheTokens(cfg, s, r, c, code, tokens);
    case Revoke(token) => RevokeKeeps(cfg, s, r, c, token);
  }

  lemma ApprovalAct(cfg: Config, s: State, r: nat, c: Choice)
    requires Enabled(s, r, c) && ApprovalPc(s.reqs[r])
    ensures Act(cfg, s, r, c) ==
            match s.reqs[r]
            case DeviceSave(_, _, _) => DeviceSaveStep(cfg, s, r, c, s.reqs[r])
            case DeviceDeny(userCode) => DeviceDenyStep(s, r, c, userCode)
            case DeviceCheck(_, _, _) => DeviceCheckStep(cfg, s, r, c, s.reqs[r])
            case DeviceApprove(userCode, userId) => DeviceApproveStep(s, r, c, userCode, userId)
  {
  }

  lemma TokenActs(cfg: Config, s: State, r: nat, c: Choice)
    requires Enabled(s, r, c)
    ensures var pc, s' := s.reqs[r], Act(cfg, s, r, c);
            && (pc.ClientCredentials? ==> s' == ClientMintStep(s, r, c, pc.clientId))
            && (pc.PasswordCheck? ==> s' == PasswordStep(cfg, s, r, c, pc))
            && (pc.CodeConsume? ==> s' == CodeConsumeStep(cfg, s, r, c, pc.q))
            && (pc.CodeReplay? ==> s' == CodeReplayStep(s, r, c, pc.code))
            && (pc.CodeReplayCheck? ==> s' == CodeReplayCheckStep(s, r, c, pc.code, pc.entry))
            && (pc.CodeUser? ==> s' == CodeUserStep(s, r, c, pc.code, pc.ac, pc.clientId))
            && (pc.RefreshConsume? ==> s' == RefreshConsumeStep(s, r, c, pc.token, pc.clientId))
            && (pc.Mint? ==> s' == MintStep(s, r, c, pc.g))
            && (pc.SaveRefresh? ==> s' == SaveRefreshStep(cfg, s, r, c, pc.g, pc.tokens))
            && (pc.Cache? ==> s' == CacheStep(s, r, c, pc.code, pc.tokens))
            && (pc.Revoke? ==> s' == RevokeStep(s, r, c, pc.token))
  {
  }

  lemma FrontActs(cfg: Config, s: State, r: nat, c: Choice)
    requires Enabled(s, r, c)
    ensures var pc, s' := s.reqs[r], Act(cfg, s, r, c);
            && (pc.LoginCheck? ==> s' == LoginCheckStep(cfg, s, r, c, pc))
            && (pc.LoginSession? ==> s' == LoginSessionStep(cfg, s, r, c, pc.f, pc.userId, pc.email))
            && (pc.CookieGet? ==> s' == CookieGetStep(cfg, s, r, c, pc.f, pc.cookie))
            && (pc.CookieUser? ==> s' == CookieUserStep(s, r, c, pc.f, pc.userId))
            && (pc.SaveCode? ==> s' == SaveCodeStep(cfg, s, r, c, pc.f, pc.userId))
            && (pc.ImplicitMint? ==> s' == ImplicitMintStep(s, r, c, pc.f, pc.userId))
            && (pc.Logout? ==> s' == LogoutStep(s, r, c, pc.cookie))
  {
  }

  lemma DeviceLookupAct(cfg: Config, s: State, r: nat, c: Choice, device: string)
    requires Enabled(s, r, c) && s.reqs[r] == DeviceLookup(device)
    ensures Act(cfg, s, r, c) == DeviceLookupStep(s, r, c, device)
  {
  }

  lemma DeviceDeniedAct(cfg: Config, s: State, r: nat, c: Choice, device: string)
    requires Enabled(s, r, c) && s.reqs[r] == DeviceDenied(device)
    ensures Act(cfg, s, r, c) == DeviceDeniedStep(s, r, c, device)
  {
  }

  lemma DeviceAuthorizedAct(cfg: Config, s: State, r: nat, c: Choice, device: string)
    requires Enabled(s, r, c) && s.reqs[r] == DeviceAuthorized(device)
    ensures Act(cfg, s, r, c) == DeviceAuthorizedStep(s, r, c, device)
  {
  }

  lemma DeviceConsumeAct(cfg: Config, s: State, r: nat, c: Choice, device: string)
    requires Enabled(s, r, c) && s.reqs[r] == DeviceConsume(device)
    ensures Act(cfg, s, r, c) == DeviceConsumeStep(s, r, c, device)
  {
  }

  lemma DeviceUserAct(cfg: Config, s: State, r: nat, c: Choice, device: string)
    requires Enabled(s, r, c) && s.reqs[r] == DeviceUser(device)
    ensures Act(cfg, s, r, c) == DeviceUserStep(s, r, c, device)
  {
  }

  lemma DeviceMintAct(cfg: Config, s: State, r: nat, c: Choice, device: string)
    requires Enabled(s, r, c) && s.reqs[r] == DeviceMint(device)
    ensures Act(cfg, s, r, c) == DeviceMintStep(s, r, c, device)
  {
  }

  lemma ApprovalActKeeps(cfg: Config, s: State, r: nat, c: Choice)
    requires Inv(cfg, s) && Enabled(s, r, c) && ApprovalPc(s.reqs[r])
    ensures Inv(cfg, Act(cfg, s, r, c))
  {
    ApprovalAct(cfg, s, r, c);
    var pc := s.reqs[r];
    match pc
    case DeviceSave(_, _, _) => DeviceSaveKeeps(cfg, s, r, c, pc);
    case DeviceDeny(userCode) => DeviceDenyKeeps(cfg, s, r, c, userCode);
    case DeviceCheck(_, _, _) => DeviceCheckKeeps(cfg, s, r, c, pc);
    case DeviceApprove(userCode, userId) => DeviceApproveKeeps(cfg, s, r, c, userCode, userId);
  }

  lemma PollActKeeps(cfg: Config, s: State, r: nat, c: Choice)
    requires Inv(cfg, s) && Enabled(s, r, c) && PollPc(s.reqs[r])
    ensures Inv(cfg, Act(cfg, s, r, c))
  {
    var pc := s.reqs[r];
    match pc
    case DeviceLookup(device) =>
      DeviceLookupAct(cfg, s, r, c, device);
      DeviceLookupKeeps(cfg, s, r, c, device);
    case DeviceDenied(device) =>
      DeviceDeniedAct(cfg, s, r, c, device);
      DeviceDeniedKeeps(cfg, s, r, c, device);
    case DeviceAuthorized(device) =>
      DeviceAuthorizedAct(cfg, s, r, c, device);
      DeviceAuthorizedKeeps(cfg, s, r, c, device);
    case DeviceConsume(device) =>
      DeviceConsumeAct(cfg, s, r, c, device);
      DeviceConsumeKeeps(cfg, s, r, c, device);
    case DeviceUser(device) =>
      DeviceUserAct(cfg, s, r, c, device);
      DeviceUserKeeps(cfg, s, r, c, device);
    case DeviceMint(device) =>
      DeviceMintAct(cfg, s, r, c, device);
      DeviceMintKeeps(cfg, s, r, c, device);
  }

  lemma FrontActKeeps(cfg: Config, s: State, r: nat, c: Choice)
    requires Inv(cfg, s) && Enabled(s, r, c) && !ApprovalPc(s.reqs[r]) && !PollPc(s.reqs[r]) && !TokenPc(s.reqs[r])
    ensures Inv(cfg, Act(cfg, s, r, c))
  {
    var pc := s.reqs[r];
    match pc
    case LoginCheck(_, _, _) => LoginCheckKeeps(cfg, s, r, c, pc);
    case LoginSession(f, userId, email) => LoginSessionKeeps(cfg, s, r, c, f, userId, email);
    case CookieGet(f, cookie) => CookieGetKeeps(cfg, s, r, c, f, cookie);
    case CookieUser(f, userId) => CookieUserKeeps(cfg, s, r, c, f, userId);
    case SaveCode(f, userId) => SaveCodeKeeps(cfg, s, r, c, f, userId);
    case ImplicitMint(f, userId) => ImplicitMintKeeps(cfg, s, r, c, f, userId);
    case Logout(cookie) => LogoutKeeps(cfg, s, r, c, cookie);
  }

  lemma AdmitOk(cfg: Config, s: State, r: nat, q: Request)
    ensures PcOk(cfg, s, r, Admit(cfg, q))
    ensures Rotating(Admit(cfg, q)) == None
  {
  }

  function Arrived(cfg: Config, s: State, r: nat, q: Request): State {
    s.(reqs := s.reqs[r := Admit(cfg, q)])
  }

  lemma ArriveParts(cfg: Config, s: State, r: nat, q: Request)
    requires CodesInv(cfg, s) && IssuedInv(s) && RefreshInv(s) && FamiliesInv(s) && MintsInv(s) && r !in s.reqs
    ensures var s' := Arrived(cfg, s, r, q);
            CodesInv(cfg, s') && IssuedInv(s') && RefreshInv(s') && FamiliesInv(s') && MintsInv(s')
  {
    var s' := Arrived(cfg, s, r, q);
    AdmitOk(cfg, s', r, q);
    KeepCodes(cfg, s, s');
    KeepIssued(s, s');
    KeepRefresh(s, s');
    KeepMints(s, s');
  }

  lemma ArriveKeeps(cfg: Config, s: State, r: nat, q: Request)
    requires Inv(cfg, s) && r !in s.reqs
    ensures Inv(cfg, Arrived(cfg, s, r, q))
  {
    ArriveParts(cfg, s, r, q);
    ArrivePcs(cfg, s, r, q);
  }

  lemma ArrivePcs(cfg: Config, s: State, r: nat, q: Request)
    requires PcsInv(cfg, s) && r !in s.reqs
    ensures PcsInv(cfg, Arrived(cfg, s, r, q))
  {
    var s' := Arrived(cfg, s, r, q);
    AdmitOk(cfg, s', r, q);
    forall p | p in s'.reqs
      ensures PcOk(cfg, s', p, s'.reqs[p])
    {
      if p != r {
        PcStable(cfg, s, s', p, s.reqs[p]);
      }
    }
  }

  lemma UsersKeep(cfg: Config, s: State, users: map<string, User>)
    requires Inv(cfg, s)
    ensures Inv(cfg, s.(users := users))
  {
    var s' := s.(users := users);
    KeepCodes(cfg, s, s');
    KeepIssued(s, s');
    KeepRefresh(s, s');
    KeepMints(s, s');
    KeepPcs(cfg, s, s');
  }

  lemma NextKeeps(cfg: Config, s: State, e: Event)
    requires Inv(cfg, s) && Allowed(s, e)
    ensures Inv(cfg, Next(cfg, s, e))
  {
    match e
    case Arrive(r, q) => ArriveKeeps(cfg, s, r, q);
    case SetUsers(users) => UsersKeep(cfg, s, users);
    case Step(r, c) =>
      if TokenPc(s.reqs[r]) {
        TokenActKeeps(cfg, s, r, c);
      } else if ApprovalPc(s.reqs[r]) {
        ApprovalActKeeps(cfg, s, r, c);
      } else if PollPc(s.reqs[r]) {
        PollActKeeps(cfg, s, r, c);
      } else {
        FrontActKeeps(cfg, s, r, c);
      }
  }

  /** The invariant holds all along every run. */
  lemma {:induction false} RunKeeps(cfg: Config, s: State, run: seq<Event>)
    requires Inv(cfg, s) && Legal(cfg, s, run)
    ensures Inv(cfg, After(cfg, s, run))
    decreases |run|
  {
    if run == [] {
    } else {
      NextKeeps(cfg, s, run[0]);
      RunKeeps(cfg, Next(cfg, s, run[0]), run[1..]);
    }
  }

  lemma InitInv(cfg: Config, users: map<string, User>)
    ensures Inv(cfg, Init(users))
  {
  }

  lemma ReachableInv(cfg: Config, s: State)
    requires Reachable(cfg, s)
    ensures Inv(cfg, s)
  {
    var users, run :| Legal(cfg, Init(users), run) && After(cfg, Init(users), run) == s;
    InitInv(cfg, users);
    RunKeeps(cfg, Init(users), run);
  }

  lemma SuccessMeansPassed(cfg: Config, s: State, r: nat, code: string, replayed: bool, tokens: Tokens)
    requires Inv(cfg, s) && r in s.reqs && s.reqs[r] == Done(Granted(FromCode(code), replayed, tokens))
    ensures code in s.h.consumed && s.h.consumed[code].q.code == code
    ensures Gates(cfg, s.h.consumed[code].ac, s.h.consumed[code].q)
  {
    assert PcOk(cfg, s, r, s.reqs[r]);
    assert IssuedOk(s, s.h.consumed[code], s.h.issued[code]);
  }
}
