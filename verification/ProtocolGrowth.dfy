/** No step overwrites what the history recorded. */
module ProtocolGrowth {
  import opened Wrappers
  import opened Text
  import opened Protocol
  import opened ProtocolInvariant
  import opened ProtocolSteps
  import Devices

  lemma QuietGrows(s: State, s': State)
    requires s'.h == s.h && s'.names == s.names && s'.dev.recs == s.dev.recs && s.now <= s'.now
    ensures Grows(s, s')
  {
  }

  /** Steps that record nothing. */
  predicate QuietToken(pc: Pc) {
    pc.CodeReplay? || pc.CodeReplayCheck? || pc.CodeUser? || pc.Revoke?
  }

  predicate QuietPoll(pc: Pc) {
    pc.DeviceLookup? || pc.DeviceDenied? || pc.DeviceAuthorized? || pc.DeviceUser?
  }

  lemma QuietTokenGrows(cfg: Config, s: State, r: nat, c: Choice)
    requires Enabled(s, r, c) && QuietToken(s.reqs[r])
    ensures Grows(s, Act(cfg, s, r, c))
  {
    var s' := Act(cfg, s, r, c);
    assert s'.h == s.h && s'.names == s.names && s'.dev == s.dev;
    QuietGrows(s, s');
  }

  lemma QuietPollGrows(cfg: Config, s: State, r: nat, c: Choice)
    requires Enabled(s, r, c) && QuietPoll(s.reqs[r])
    ensures Grows(s, Act(cfg, s, r, c))
  {
    var s' := Act(cfg, s, r, c);
    assert s'.h == s.h && s'.names == s.names && s'.dev.recs == s.dev.recs;
    QuietGrows(s, s');
  }

  lemma LoginSessionGrows(cfg: Config, s: State, r: nat, c: Choice, f: Front, userId: string, email: string)
    requires Enabled(s, r, c) && s.reqs[r] == LoginSession(f, userId, email)
    ensures Grows(s, Act(cfg, s, r, c))
  {
    QuietGrows(s, LoginSessionStep(cfg, s, r, c, f, userId, email));
  }

  lemma CookieGetGrows(cfg: Config, s: State, r: nat, c: Choice, f: Front, cookie: string)
    requires Enabled(s, r, c) && s.reqs[r] == CookieGet(f, cookie)
    ensures Grows(s, Act(cfg, s, r, c))
  {
    QuietGrows(s, CookieGetStep(cfg, s, r, c, f, cookie));
  }

  lemma CookieUserGrows(cfg: Config, s: State, r: nat, c: Choice)
    requires Enabled(s, r, c) && (s.reqs[r].CookieUser? || s.reqs[r].Logout?)
    ensures Grows(s, Act(cfg, s, r, c))
  {
    QuietGrows(s, Act(cfg, s, r, c));
  }

  lemma VerifiedGrows(s: State, s': State)
    requires s'.h == s.h.(verified := s'.h.verified) && s.h.verified <= s'.h.verified
    requires s'.names == s.names && s'.dev.recs == s.dev.recs && s.now <= s'.now
    ensures Grows(s, s')
  {
  }

  lemma PasswordGrows(cfg: Config, s: State, r: nat, c: Choice)
    requires Enabled(s, r, c) && s.reqs[r].PasswordCheck?
    ensures Grows(s, Act(cfg, s, r, c))
  {
    VerifiedGrows(s, PasswordStep(cfg, s, r, c, s.reqs[r]));
  }

  lemma DeviceCheckGrows(cfg: Config, s: State, r: nat, c: Choice)
    requires Enabled(s, r, c) && s.reqs[r].DeviceCheck?
    ensures Grows(s, Act(cfg, s, r, c))
  {
    VerifiedGrows(s, DeviceCheckStep(cfg, s, r, c, s.reqs[r]));
  }

  lemma LoginCheckGrows(cfg: Config, s: State, r: nat, c: Choice)
    requires Enabled(s, r, c) && s.reqs[r].LoginCheck?
    ensures Grows(s, Act(cfg, s, r, c))
  {
    VerifiedGrows(s, LoginCheckStep(cfg, s, r, c, s.reqs[r]));
  }

  lemma MintsGrow(s: State, s': State)
    requires s'.h == s.h.(mints := s'.h.mints) && s.h.mints <= s'.h.mints
    requires s'.names == s.names && s'.dev == s.dev && s.now <= s'.now
    ensures Grows(s, s')
  {
  }

  lemma ClientMintGrows(cfg: Config, s: State, r: nat, c: Choice, clientId: string)
    requires Enabled(s, r, c) && s.reqs[r] == ClientCredentials(clientId)
    ensures Grows(s, Act(cfg, s, r, c))
  {
    MintsGrow(s, ClientMintStep(s, r, c, clientId));
  }

  lemma DeviceMintGrows(cfg: Config, s: State, r: nat, c: Choice, device: string)
    requires Enabled(s, r, c) && s.reqs[r] == DeviceMint(device)
    ensures Grows(s, Act(cfg, s, r, c))
  {
    MintsGrow(s, DeviceMintStep(s, r, c, device));
  }

  lemma ImplicitMintGrows(cfg: Config, s: State, r: nat, c: Choice, f: Front, userId: string)
    requires Enabled(s, r, c) && s.reqs[r] == ImplicitMint(f, userId)
    ensures Grows(s, Act(cfg, s, r, c))
  {
    if c.access.Some? {
      ImplicitMintShape(s, r, c, f, userId);
    }
    MintsGrow(s, ImplicitMintStep(s, r, c, f, userId));
  }

  lemma IssueGrows(s: State, s': State, code: string)
    requires s'.h == s.h.(mints := s'.h.mints, issued := s'.h.issued) && s.h.mints <= s'.h.mints
    requires code !in s.h.issued && code in s'.h.issued && s'.h.issued == s.h.issued[code := s'.h.issued[code]]
    requires s'.names == s.names && s'.dev == s.dev && s.now <= s'.now
    ensures Grows(s, s')
  {
  }

  lemma TokenMintGrows(cfg: Config, s: State, r: nat, c: Choice, g: Grantee)
    requires Enabled(s, r, c) && s.reqs[r] == Mint(g) && (g.src.FromCode? ==> g.src.code !in s.h.issued)
    ensures Grows(s, MintStep(s, r, c, g))
  {
    var s' := MintStep(s, r, c, g);
    if c.access == None || !g.src.FromCode? || Contains(g.scope, OFFLINE) {
      MintsGrow(s, s');
    } else {
      IssueGrows(s, s', g.src.code);
    }
  }

  lemma SaveRefreshGrows(cfg: Config, s: State, r: nat, c: Choice, g: Grantee, tokens: Tokens)
    requires NamesInv(s) && Enabled(s, r, c) && s.reqs[r] == SaveRefresh(g, tokens)
    requires (g.src.FromCode? ==> g.src.code !in s.h.issued)
    ensures Grows(s, Act(cfg, s, r, c))
  {
  }

  lemma CodeConsumeGrows(cfg: Config, s: State, r: nat, c: Choice, q: CodeQuery)
    requires Enabled(s, r, c) && s.reqs[r] == CodeConsume(q) && (q.code in s.codes ==> q.code !in s.h.consumed)
    ensures Grows(s, CodeConsumeStep(cfg, s, r, c, q))
  {
  }

  lemma RefreshConsumeGrows(cfg: Config, s: State, r: nat, c: Choice, token: string, clientId: string)
    requires Enabled(s, r, c) && s.reqs[r] == RefreshConsume(token, clientId)
    requires (token in s.refresh ==> token !in s.h.refreshed)
    ensures Grows(s, RefreshConsumeStep(s, r, c, token, clientId))
  {
  }

  lemma CacheGrows(cfg: Config, s: State, r: nat, c: Choice, code: string, tokens: Tokens)
    requires Enabled(s, r, c) && s.reqs[r] == Cache(code, tokens) && code !in s.h.cached
    ensures Grows(s, Act(cfg, s, r, c))
  {
  }

  lemma SaveCodeGrows(cfg: Config, s: State, r: nat, c: Choice)
    requires Enabled(s, r, c) && s.reqs[r].SaveCode?
    ensures Grows(s, Act(cfg, s, r, c))
  {
  }

  lemma RecordsGrow(s: State, s': State)
    requires s'.h == s.h.(approvals := s'.h.approvals, used := s'.h.used)
    requires s.h.approvals <= s'.h.approvals && Extends(s.h.used, s'.h.used)
    requires s.names <= s'.names && s.now <= s'.now && s.dev.recs.Keys <= s'.dev.recs.Keys
    requires forall d :: d in s.h.used && d in s.dev.recs ==> s'.dev.recs[d] == s.dev.recs[d]
    ensures Grows(s, s')
  {
  }

  ghost predicate UsedAreGone(s: State) {
    forall d :: d in s.h.used ==> d in s.dev.recs && d !in s.dev.live
  }

  lemma DeviceSaveGrows(cfg: Config, s: State, r: nat, c: Choice)
    requires NamesInv(s) && UsedAreGone(s) && Enabled(s, r, c) && s.reqs[r].DeviceSave?
    ensures Grows(s, Act(cfg, s, r, c))
  {
    RecordsGrow(s, DeviceSaveStep(cfg, s, r, c, s.reqs[r]));
  }

  lemma DeviceDenyGrows(cfg: Config, s: State, r: nat, c: Choice, userCode: string)
    requires UsedAreGone(s) && Enabled(s, r, c) && s.reqs[r] == DeviceDeny(userCode)
    ensures Grows(s, Act(cfg, s, r, c))
  {
    RecordsGrow(s, DeviceDenyStep(s, r, c, userCode));
  }

  lemma DeviceApproveGrows(cfg: Config, s: State, r: nat, c: Choice, userCode: string, userId: string)
    requires UsedAreGone(s) && Enabled(s, r, c) && s.reqs[r] == DeviceApprove(userCode, userId)
    ensures Grows(s, Act(cfg, s, r, c))
  {
    DeviceApproveShape(s, r, c, userCode, userId);
    RecordsGrow(s, DeviceApproveStep(s, r, c, userCode, userId));
  }

  lemma DeviceConsumeStepGrows(s: State, r: nat, c: Choice, device: string)
    requires UsedAreGone(s) && s.now <= c.t3
    ensures Grows(s, DeviceConsumeStep(s, r, c, device))
  {
    var s' := DeviceConsumeStep(s, r, c, device);
    if Devices.Consumable(s.dev, device, c.t1) {
      assert s'.h == s.h.(used := s.h.used[device := DeviceUse(r, |s.h.approvals|)]);
      assert s'.dev.recs == s.dev.recs && device !in s.h.used;
    }
    RecordsGrow(s, s');
  }

  lemma DeviceConsumeGrows(cfg: Config, s: State, r: nat, c: Choice, device: string)
    requires UsedAreGone(s) && Enabled(s, r, c) && s.reqs[r] == DeviceConsume(device)
    ensures Grows(s, Act(cfg, s, r, c))
  {
    DeviceConsumeStepGrows(s, r, c, device);
  }

  /** What has not been issued or cached yet when the request is still before that stage. */
  lemma StageFacts(cfg: Config, s: State, r: nat)
    requires IssuedInv(s) && PcsInv(cfg, s) && r in s.reqs
    ensures var pc := s.reqs[r];
            && ((pc.Mint? || pc.SaveRefresh?) && pc.g.src.FromCode? ==> pc.g.src.code !in s.h.issued)
            && (pc.Cache? ==> pc.code !in s.h.cached)
  {
    assert PcOk(cfg, s, r, s.reqs[r]);
  }

  lemma KeysApart(cfg: Config, s: State)
    requires CodesInv(cfg, s) && RefreshInv(s) && DevicesInv(s)
    ensures forall k :: k in s.codes ==> k !in s.h.consumed
    ensures forall k :: k in s.refresh ==> k !in s.h.refreshed
    ensures UsedAreGone(s)
  {
  }

  lemma ActGrows(cfg: Config, s: State, r: nat, c: Choice)
    requires Inv(cfg, s) && Enabled(s, r, c)
    ensures Grows(s, Act(cfg, s, r, c))
  {
    StageFacts(cfg, s, r);
    KeysApart(cfg, s);
    var pc := s.reqs[r];
    if QuietToken(pc) {
      QuietTokenGrows(cfg, s, r, c);
    } else if QuietPoll(pc) {
      QuietPollGrows(cfg, s, r, c);
    } else {
      match pc
      case PasswordCheck(_, _, _, _, _) => PasswordGrows(cfg, s, r, c);
      case DeviceCheck(_, _, _) => DeviceCheckGrows(cfg, s, r, c);
      case LoginCheck(_, _, _) => LoginCheckGrows(cfg, s, r, c);
      case ClientCredentials(clientId) => ClientMintGrows(cfg, s, r, c, clientId);
      case DeviceMint(device) => DeviceMintGrows(cfg, s, r, c, device);
      case ImplicitMint(f, userId) => ImplicitMintGrows(cfg, s, r, c, f, userId);
      case Mint(g) => TokenMintGrows(cfg, s, r, c, g);
      case SaveRefresh(g, tokens) => SaveRefreshGrows(cfg, s, r, c, g, tokens);
      case CodeConsume(q) => CodeConsumeGrows(cfg, s, r, c, q);
      case RefreshConsume(token, clientId) => RefreshConsumeGrows(cfg, s, r, c, token, clientId);
      case Cache(code, tokens) => CacheGrows(cfg, s, r, c, code, tokens);
      case LoginSession(f, userId, email) => LoginSessionGrows(cfg, s, r, c, f, userId, email);
      case CookieGet(f, cookie) => CookieGetGrows(cfg, s, r, c, f, cookie);
      case CookieUser(_, _) => CookieUserGrows(cfg, s, r, c);
      case Logout(_) => CookieUserGrows(cfg, s, r, c);
      case SaveCode(_, _) => SaveCodeGrows(cfg, s, r, c);
      case DeviceSave(_, _, _) => DeviceSaveGrows(cfg, s, r, c);
      case DeviceDeny(userCode) => DeviceDenyGrows(cfg, s, r, c, userCode);
      case DeviceApprove(userCode, userId) => DeviceApproveGrows(cfg, s, r, c, userCode, userId);
      case DeviceConsume(device) => DeviceConsumeGrows(cfg, s, r, c, device);
    }
  }

  lemma NextGrows(cfg: Config, s: State, e: Event)
    requires Inv(cfg, s) && Allowed(s, e)
    ensures Grows(s, Next(cfg, s, e))
  {
    if e.Step? {
      ActGrows(cfg, s, e.r, e.c);
    }
  }

  lemma GrowsTransitive(a: State, b: State, c: State)
    requires Grows(a, b) && Grows(b, c)
    requires a.h.used.Keys <= a.dev.recs.Keys
    ensures Grows(a, c)
  {
  }

  /** Whatever a reachable state remembers, every later state remembers. */
  lemma {:induction false} RunGrows(cfg: Config, s: State, run: seq<Event>)
    requires Inv(cfg, s) && Legal(cfg, s, run)
    ensures Grows(s, After(cfg, s, run)) && Inv(cfg, After(cfg, s, run))
    decreases |run|
  {
    if run == [] {
    } else {
      var s1 := Next(cfg, s, run[0]);
      NextKeeps(cfg, s, run[0]);
      NextGrows(cfg, s, run[0]);
      RunGrows(cfg, s1, run[1..]);
      KeysApart(cfg, s);
      GrowsTransitive(s, s1, After(cfg, s1, run[1..]));
    }
  }
}
