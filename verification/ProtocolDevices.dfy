/** Device authorizations in every interleaving: for whom a device's tokens are minted, which polls a
    denial stops, and that the index of user codes never goes stale. */
module ProtocolDevices {
  import opened Wrappers
  import opened Text
  import opened Grants
  import opened Protocol
  import opened ProtocolInvariant
  import opened ProtocolSteps
  import opened ProtocolGrowth
  import Devices

  /** Tokens for a device are minted for the user of the last approval before the device was consumed. */
  lemma DeviceMintedForLastApproval(cfg: Config, s: State, i: nat, device: string)
    requires Reachable(cfg, s) && i < |s.h.mints| && s.h.mints[i].g.src == FromDevice(device)
    ensures device in s.h.used && s.h.used[device].approvals <= |s.h.approvals|
    ensures s.h.used[device].req == s.h.mints[i].req
    ensures LastApproval(s.h.approvals[..s.h.used[device].approvals], device) == Some(s.h.mints[i].g.sub)
  {
    ReachableInv(cfg, s);
    assert MintOk(s, s.h.mints[i]);
  }

  /** A consumed device record is final, whatever approvals and denials follow, and so is what the
      history says about its consumption. */
  lemma ConsumedDeviceIsFinal(cfg: Config, s: State, run: seq<Event>, device: string)
    requires Reachable(cfg, s) && Legal(cfg, s, run) && device in s.h.used
    ensures var s' := After(cfg, s, run);
            && device in s.dev.recs && device in s'.dev.recs && s'.dev.recs[device] == s.dev.recs[device]
            && device !in s'.dev.live
            && device in s'.h.used && s'.h.used[device] == s.h.used[device]
            && s.h.approvals <= s'.h.approvals
  {
    ReachableInv(cfg, s);
    RunGrows(cfg, s, run);
    KeysApart(cfg, s);
    KeysApart(cfg, After(cfg, s, run));
  }

  predicate StandsDenied(s: State, device: string) {
    device in s.dev.recs && s.dev.recs[device].denied
  }

  /** The request `r` polls a denied device and has not passed the denial check. */
  predicate Blocked(s: State, r: nat, device: string) {
    && StandsDenied(s, device)
    && r in s.reqs
    && (s.reqs[r] == DeviceLookup(device) || s.reqs[r] == DeviceDenied(device) || s.reqs[r] == Done(Refused))
  }

  lemma DenialOutlastsSave(cfg: Config, s: State, r: nat, c: Choice, pc: Pc, device: string)
    requires pc.DeviceSave? && StandsDenied(s, device) && device != "dc_" + c.uuid
    ensures StandsDenied(DeviceSaveStep(cfg, s, r, c, pc), device)
  {
  }

  lemma DenialOutlastsDeny(s: State, r: nat, c: Choice, userCode: string, device: string)
    requires StandsDenied(s, device)
    ensures StandsDenied(DeviceDenyStep(s, r, c, userCode), device)
  {
  }

  lemma DenialOutlastsApprove(s: State, r: nat, c: Choice, userCode: string, userId: string, device: string)
    requires StandsDenied(s, device)
    ensures StandsDenied(DeviceApproveStep(s, r, c, userCode, userId), device)
  {
  }

  lemma DenialStays(cfg: Config, s: State, r: nat, c: Choice, device: string)
    requires s.dev.recs.Keys <= s.names && Enabled(s, r, c) && StandsDenied(s, device)
    ensures StandsDenied(Act(cfg, s, r, c), device)
  {
    var pc := s.reqs[r];
    if pc.DeviceSave? {
      DenialOutlastsSave(cfg, s, r, c, pc, device);
    } else if pc.DeviceDeny? {
      DenialOutlastsDeny(s, r, c, pc.userCode, device);
    } else if pc.DeviceApprove? {
      DenialOutlastsApprove(s, r, c, pc.userCode, pc.userId, device);
    }
  }

  lemma BlockedAct(cfg: Config, s: State, r: nat, c: Choice, device: string)
    requires Blocked(s, r, device) && Enabled(s, r, c)
    ensures Act(cfg, s, r, c).reqs[r] == DeviceDenied(device) || Act(cfg, s, r, c).reqs[r] == Done(Refused)
    ensures Act(cfg, s, r, c).h.mints == s.h.mints
  {
    if s.reqs[r] == DeviceLookup(device) {
      assert Act(cfg, s, r, c) == DeviceLookupStep(s, r, c, device);
    } else {
      assert Act(cfg, s, r, c) == DeviceDeniedStep(s, r, c, device);
    }
  }

  lemma BlockedNext(cfg: Config, s: State, e: Event, r: nat, device: string)
    requires NamesInv(s) && Blocked(s, r, device) && Allowed(s, e)
    requires forall i :: 0 <= i < |s.h.mints| ==> s.h.mints[i].req != r
    ensures Blocked(Next(cfg, s, e), r, device)
    ensures forall i :: 0 <= i < |Next(cfg, s, e).h.mints| ==> Next(cfg, s, e).h.mints[i].req != r
  {
    if e.Step? {
      DenialStays(cfg, s, e.r, e.c, device);
      if e.r == r {
        BlockedAct(cfg, s, r, e.c, device);
      }
    }
  }

  lemma {:induction false} BlockedForGood(cfg: Config, s: State, run: seq<Event>, r: nat, device: string)
    requires Inv(cfg, s) && Legal(cfg, s, run) && Blocked(s, r, device)
    requires forall i :: 0 <= i < |s.h.mints| ==> s.h.mints[i].req != r
    ensures Blocked(After(cfg, s, run), r, device)
    ensures forall i :: 0 <= i < |After(cfg, s, run).h.mints| ==> After(cfg, s, run).h.mints[i].req != r
    decreases |run|
  {
    if run == [] {
    } else {
      BlockedNext(cfg, s, run[0], r, device);
      NextKeeps(cfg, s, run[0]);
      BlockedForGood(cfg, Next(cfg, s, run[0]), run[1..], r, device);
    }
  }

  lemma {:induction false} DenialLasts(cfg: Config, s: State, run: seq<Event>, device: string)
    requires Inv(cfg, s) && Legal(cfg, s, run) && StandsDenied(s, device)
    ensures StandsDenied(After(cfg, s, run), device)
    decreases |run|
  {
    if run == [] {
    } else {
      if run[0].Step? {
        DenialStays(cfg, s, run[0].r, run[0].c, device);
      }
      NextKeeps(cfg, s, run[0]);
      DenialLasts(cfg, Next(cfg, s, run[0]), run[1..], device);
    }
  }

  /** The deny step marks the device its user code leads to; which requests are where is not affected. */
  lemma DenyMarks(cfg: Config, s: State, q: nat, c: Choice, userCode: string, device: string)
    requires Enabled(s, q, c) && s.reqs[q] == DeviceDeny(userCode)
    requires Devices.DenyTarget(s.dev, userCode) == Some(device)
    ensures var s' := Act(cfg, s, q, c);
            && StandsDenied(s', device) && s'.dev.recs[device] == s.dev.recs[device].(denied := true)
            && s'.dev.live == s.dev.live && s'.names == s.names && s'.h.mints == s.h.mints
  {
    assert Act(cfg, s, q, c) == DeviceDenyStep(s, q, c, userCode);
  }

  lemma DenialTakesEffect(cfg: Config, s: State, q: nat, c: Choice, userCode: string, device: string)
    requires Reachable(cfg, s) && Enabled(s, q, c) && s.reqs[q] == DeviceDeny(userCode)
    requires Devices.DenyTarget(s.dev, userCode) == Some(device)
    ensures Inv(cfg, Act(cfg, s, q, c)) && StandsDenied(Act(cfg, s, q, c), device)
    ensures Act(cfg, s, q, c).h.mints == s.h.mints
  {
    ReachableInv(cfg, s);
    DenyMarks(cfg, s, q, c, userCode, device);
    NextKeeps(cfg, s, Step(q, c));
  }

  /** A poll that has not read the denial flag when a denial of its device has taken its step never mints,
      whatever runs between the denial and the poll's look-up or flag read, approvals included, and
      whatever runs after. */
  lemma PollAfterDenialNeverMints(
      cfg: Config, s: State, q: nat, c: Choice, userCode: string, device: string,
      mid: seq<Event>, s2: State, r: nat, run: seq<Event>)
    requires Reachable(cfg, s) && Enabled(s, q, c) && s.reqs[q] == DeviceDeny(userCode)
    requires Devices.DenyTarget(s.dev, userCode) == Some(device)
    requires Legal(cfg, Act(cfg, s, q, c), mid) && s2 == After(cfg, Act(cfg, s, q, c), mid)
    requires r in s2.reqs && (s2.reqs[r] == DeviceLookup(device) || s2.reqs[r] == DeviceDenied(device))
    requires Legal(cfg, s2, run)
    ensures forall i :: 0 <= i < |After(cfg, s2, run).h.mints| ==> After(cfg, s2, run).h.mints[i].req != r
  {
    DenialTakesEffect(cfg, s, q, c, userCode, device);
    DenialLasts(cfg, Act(cfg, s, q, c), mid, device);
    RunKeeps(cfg, Act(cfg, s, q, c), mid);
    NoMintYet(s2, r);
    BlockedForGood(cfg, s2, run, r, device);
  }

  /** The poll is for `device`, has read its denial flag and has not been answered. */
  predicate AtFlag(pc: Pc, device: string) {
    pc == DeviceAuthorized(device) || pc == DeviceConsume(device) || pc == DeviceUser(device)
        || pc == DeviceMint(device)
  }

  lemma ReadStopsDenied(s: State, r: nat, c: Choice, polled: string, device: string)
    requires StandsDenied(s, device)
    ensures !AtFlag(DeviceDeniedStep(s, r, c, polled).reqs[r], device)
  {
  }

  lemma SameDevicePolled(s: State, r: nat, c: Choice, polled: string, device: string)
    ensures AtFlag(DeviceAuthorizedStep(s, r, c, polled).reqs[r], device) ==> polled == device
    ensures AtFlag(DeviceUserStep(s, r, c, polled).reqs[r], device) ==> polled == device
  {
  }

  lemma SameDeviceConsumed(s: State, r: nat, c: Choice, polled: string, device: string)
    ensures AtFlag(DeviceConsumeStep(s, r, c, polled).reqs[r], device) ==> polled == device
  {
    var s' := DeviceConsumeStep(s, r, c, polled);
    assert s'.reqs[r] == if Devices.Consumable(s.dev, polled, c.t1) then DeviceUser(polled) else Done(Refused);
  }

  lemma AtFlagBefore(cfg: Config, s: State, r: nat, c: Choice, device: string)
    requires Enabled(s, r, c) && StandsDenied(s, device) && AtFlag(Act(cfg, s, r, c).reqs[r], device)
    ensures AtFlag(s.reqs[r], device)
  {
    var pc := s.reqs[r];
    if pc.DeviceDenied? {
      DeviceDeniedAct(cfg, s, r, c, pc.device);
      ReadStopsDenied(s, r, c, pc.device, device);
    } else if pc.DeviceAuthorized? {
      DeviceAuthorizedAct(cfg, s, r, c, pc.device);
      SameDevicePolled(s, r, c, pc.device, device);
    } else if pc.DeviceConsume? {
      DeviceConsumeAct(cfg, s, r, c, pc.device);
      SameDeviceConsumed(s, r, c, pc.device, device);
    } else if pc.DeviceUser? {
      DeviceUserAct(cfg, s, r, c, pc.device);
      SameDevicePolled(s, r, c, pc.device, device);
    } else if pc.DeviceMint? {
      DeviceMintAct(cfg, s, r, c, pc.device);
    }
  }

  lemma ClientSource(s: State, r: nat, c: Choice, clientId: string, i: nat)
    requires |s.h.mints| <= i < |ClientMintStep(s, r, c, clientId).h.mints|
    ensures ClientMintStep(s, r, c, clientId).h.mints[i].g.src == FromClient
  {
    if c.access.Some? {
      var m := MintEvent(r, Grantee(FromClient, "client|" + clientId, clientId, DEFAULT_AUDIENCE, "", ""),
                         c.access.value, None);
      assert ClientMintStep(s, r, c, clientId).h.mints == s.h.mints + [m];
    }
  }

  lemma TokenSource(s: State, r: nat, c: Choice, g: Grantee, i: nat)
    requires |s.h.mints| <= i < |MintStep(s, r, c, g).h.mints|
    ensures MintStep(s, r, c, g).h.mints[i].g.src == g.src
  {
    if c.access.Some? {
      MintShape(s, r, c, g);
    }
  }

  lemma FrontSource(s: State, r: nat, c: Choice, f: Front, userId: string, i: nat)
    requires |s.h.mints| <= i < |ImplicitMintStep(s, r, c, f, userId).h.mints|
    ensures ImplicitMintStep(s, r, c, f, userId).h.mints[i].g.src == FromFront
  {
  }

  lemma DeviceSource(s: State, r: nat, c: Choice, device: string, i: nat)
    requires |s.h.mints| <= i < |DeviceMintStep(s, r, c, device).h.mints|
    ensures DeviceMintStep(s, r, c, device).h.mints[i].g.src == FromDevice(device)
  {
    var s' := DeviceMintStep(s, r, c, device);
    assert |s'.h.mints| == |s.h.mints| + 1 && s'.h.mints[|s.h.mints|].g.src == FromDevice(device);
  }

  /** Only the minting step of a poll mints for its device. */
  lemma DeviceMintStepOnly(cfg: Config, s: State, r: nat, c: Choice, i: nat, device: string)
    requires Enabled(s, r, c) && PcOk(cfg, s, r, s.reqs[r])
    requires |s.h.mints| <= i < |Act(cfg, s, r, c).h.mints| && Act(cfg, s, r, c).h.mints[i].g.src == FromDevice(device)
    ensures s.reqs[r] == DeviceMint(device)
  {
    var pc := s.reqs[r];
    if pc.ClientCredentials? {
      ClientSource(s, r, c, pc.clientId, i);
    } else if pc.Mint? {
      TokenSource(s, r, c, pc.g, i);
    } else if pc.ImplicitMint? {
      FrontSource(s, r, c, pc.f, pc.userId, i);
    } else if pc.DeviceMint? {
      DeviceSource(s, r, c, pc.device, i);
    }
  }

  lemma AtFlagBeforeNext(cfg: Config, s: State, e: Event, r: nat, device: string)
    requires Allowed(s, e) && StandsDenied(s, device)
    requires r in Next(cfg, s, e).reqs && AtFlag(Next(cfg, s, e).reqs[r], device)
    ensures r in s.reqs && AtFlag(s.reqs[r], device)
  {
    if e.Step? && e.r == r {
      AtFlagBefore(cfg, s, r, e.c, device);
    } else if e.Arrive? && e.r == r {
      NeverAdmittedAtFlag(cfg, e.q, device);
    }
  }

  lemma NeverAdmittedAtFlag(cfg: Config, q: Request, device: string)
    ensures !AtFlag(Admit(cfg, q), device)
  {
  }

  /** Once a device stands denied, every later mint for it is by a poll that was past the flag by then. */
  lemma {:induction false} OnlyPollsPastFlagMint(cfg: Config, s: State, run: seq<Event>, i: nat, device: string)
    requires Inv(cfg, s) && Legal(cfg, s, run) && StandsDenied(s, device)
    requires |s.h.mints| <= i < |After(cfg, s, run).h.mints|
    requires After(cfg, s, run).h.mints[i].g.src == FromDevice(device)
    ensures var r := After(cfg, s, run).h.mints[i].req;
            r in s.reqs && AtFlag(s.reqs[r], device)
    decreases |run|
  {
    if run == [] {
    } else {
      var e, s1 := run[0], Next(cfg, s, run[0]);
      var m := After(cfg, s, run).h.mints[i];
      NextKeeps(cfg, s, e);
      if i < |s1.h.mints| {
        RunGrows(cfg, s1, run[1..]);
        assert s1.h.mints[i] == m;
        MintedAtFlag(cfg, s, e, i, device);
      } else {
        DenialLasts(cfg, s, [e], device);
        assert After(cfg, s, [e]) == s1;
        OnlyPollsPastFlagMint(cfg, s1, run[1..], i, device);
        AtFlagBeforeNext(cfg, s, e, m.req, device);
      }
    }
  }

  lemma MintedAtFlag(cfg: Config, s: State, e: Event, i: nat, device: string)
    requires PcsInv(cfg, s) && Allowed(s, e)
    requires |s.h.mints| <= i < |Next(cfg, s, e).h.mints| && Next(cfg, s, e).h.mints[i].g.src == FromDevice(device)
    ensures var r := Next(cfg, s, e).h.mints[i].req;
            r in s.reqs && AtFlag(s.reqs[r], device)
  {
    if e.Step? {
      DeviceMintStepOnly(cfg, s, e.r, e.c, i, device);
    }
  }

  /** A denial stops every poll but those past the flag: whatever runs after it, a token minted for the
      device is for a poll that had read the flag and not consumed the device yet when the denial took
      its step. */
  lemma DenialStopsAllButPollsPastFlag(
      cfg: Config, s: State, q: nat, c: Choice, userCode: string, device: string, run: seq<Event>, i: nat)
    requires Reachable(cfg, s) && Enabled(s, q, c) && s.reqs[q] == DeviceDeny(userCode)
    requires Devices.DenyTarget(s.dev, userCode) == Some(device) && Legal(cfg, Act(cfg, s, q, c), run)
    requires |s.h.mints| <= i < |After(cfg, Act(cfg, s, q, c), run).h.mints|
    requires After(cfg, Act(cfg, s, q, c), run).h.mints[i].g.src == FromDevice(device)
    ensures var r := After(cfg, Act(cfg, s, q, c), run).h.mints[i].req;
            r in s.reqs && (s.reqs[r] == DeviceAuthorized(device) || s.reqs[r] == DeviceConsume(device))
  {
    DenialTakesEffect(cfg, s, q, c, userCode, device);
    ReachableInv(cfg, s);
    PollsOfHeldDevice(cfg, s, After(cfg, Act(cfg, s, q, c), run).h.mints[i].req, device);
    OnlyPollsPastFlagMint(cfg, Act(cfg, s, q, c), run, i, device);
    DenyLeavesPolls(cfg, s, q, c, userCode, After(cfg, Act(cfg, s, q, c), run).h.mints[i].req, device);
  }

  /** A poll past the flag of a device that is still held has not consumed it yet. */
  lemma PollsOfHeldDevice(cfg: Config, s: State, r: nat, device: string)
    requires DevicesInv(s) && PcsInv(cfg, s) && device in s.dev.live
    ensures r in s.reqs && AtFlag(s.reqs[r], device) ==>
              s.reqs[r] == DeviceAuthorized(device) || s.reqs[r] == DeviceConsume(device)
  {
    assert r in s.reqs ==> PcOk(cfg, s, r, s.reqs[r]);
  }

  lemma DenyLeavesPolls(cfg: Config, s: State, q: nat, c: Choice, userCode: string, r: nat, device: string)
    requires Enabled(s, q, c) && s.reqs[q] == DeviceDeny(userCode)
    requires r in Act(cfg, s, q, c).reqs && AtFlag(Act(cfg, s, q, c).reqs[r], device)
    ensures r in s.reqs && AtFlag(s.reqs[r], device)
  {
  }

  lemma ConsumeDenied(cfg: Config, s: State, r: nat, c: Choice, device: string)
    requires Enabled(s, r, c) && s.reqs[r] == DeviceConsume(device) && Devices.Consumable(s.dev, device, c.t1)
    ensures var s' := Act(cfg, s, r, c);
            && s'.reqs[r] == DeviceUser(device) && s'.dev.recs == s.dev.recs && s'.h.mints == s.h.mints
                && s'.names == s.names
  {
    assert Act(cfg, s, r, c) == DeviceConsumeStep(s, r, c, device);
  }

  lemma UserFound(cfg: Config, s: State, r: nat, c: Choice, device: string)
    requires Enabled(s, r, c) && s.reqs[r] == DeviceUser(device)
    requires device in s.dev.recs && UserExists(s, c, s.dev.recs[device].userId)
    ensures Act(cfg, s, r, c) == Go(s, r, c, DeviceMint(device))
  {
    assert Act(cfg, s, r, c) == DeviceUserStep(s, r, c, device);
  }

  lemma MintsForDevice(cfg: Config, s: State, r: nat, c: Choice, device: string)
    requires Enabled(s, r, c) && s.reqs[r] == DeviceMint(device) && device in s.dev.recs && c.access.Some?
    ensures var m := Act(cfg, s, r, c).h.mints;
            |m| == |s.h.mints| + 1 && m[|s.h.mints|].req == r && m[|s.h.mints|].g.src == FromDevice(device)
  {
    assert Act(cfg, s, r, c) == DeviceMintStep(s, r, c, device);
  }

  /** The clock readings of `d` come after those of `c`. */
  predicate Follows(c: Choice, d: Choice) {
    c.t3 <= d.t1 <= d.t2 <= d.t3 && d.stamp <= d.t1
  }

  /** The choices of a poll's four last steps, in which nothing fails. */
  predicate Granting(s: State, c0: Choice, c1: Choice, c2: Choice, c3: Choice, c4: Choice) {
    && Follows(c0, c1) && Follows(c1, c2) && Follows(c2, c3) && Follows(c3, c4)
    && FreshName(s.names, c1.uuid) && FreshName(s.names, c2.uuid) && FreshName(s.names, c3.uuid)
        && FreshName(s.names, c4.uuid)
    && c3.dbOk && c4.access.Some?
  }

  lemma AuthorizedRead(cfg: Config, s: State, r: nat, c: Choice, device: string)
    requires Enabled(s, r, c) && s.reqs[r] == DeviceAuthorized(device) && device in s.dev.recs
    requires s.dev.recs[device].authorized
    ensures Act(cfg, s, r, c) == Go(s, r, c, DeviceConsume(device))
  {
    DeviceAuthorizedAct(cfg, s, r, c, device);
  }

  /** The state after the given steps of `r`, if it can take them all. */
  function Stepped(cfg: Config, s: State, r: nat, cs: seq<Choice>): Option<State>
    decreases |cs|
  {
    if cs == [] then Some(s)
    else if !Enabled(s, r, cs[0]) then None
    else Stepped(cfg, Act(cfg, s, r, cs[0]), r, cs[1..])
  }

  lemma SteppedCons(cfg: Config, s: State, r: nat, c: Choice, cs: seq<Choice>)
    requires Enabled(s, r, c)
    ensures Stepped(cfg, s, r, [c] + cs) == Stepped(cfg, Act(cfg, s, r, c), r, cs)
  {
    assert ([c] + cs)[1..] == cs;
  }

  lemma SteppedThree(cfg: Config, s: State, r: nat, c1: Choice, c2: Choice, c3: Choice)
    requires Enabled(s, r, c1) && Enabled(Act(cfg, s, r, c1), r, c2)
    requires Enabled(Act(cfg, Act(cfg, s, r, c1), r, c2), r, c3)
    ensures Stepped(cfg, s, r, [c1, c2, c3]) == Some(Act(cfg, Act(cfg, Act(cfg, s, r, c1), r, c2), r, c3))
  {
    var s1 := Act(cfg, s, r, c1);
    var s2 := Act(cfg, s1, r, c2);
    SteppedCons(cfg, s2, r, c3, []);
    SteppedCons(cfg, s1, r, c2, [c3]);
    SteppedCons(cfg, s, r, c1, [c2, c3]);
    assert [c3] == [c3] + [] && [c2, c3] == [c2] + [c3] && [c1, c2, c3] == [c1] + [c2, c3];
  }

  /** A poll about to consume its device, approved and live, denied or not, mints with its next three steps. */
  lemma ConsumingMints(cfg: Config, s: State, r: nat, c2: Choice, c3: Choice, c4: Choice, device: string)
    requires Enabled(s, r, c2) && s.reqs[r] == DeviceConsume(device)
    requires Follows(c2, c3) && Follows(c3, c4) && FreshName(s.names, c3.uuid) && FreshName(s.names, c4.uuid)
    requires c3.dbOk && c4.access.Some?
    requires Devices.Consumable(s.dev, device, c2.t1) && s.dev.recs[device].userId in s.users
    ensures Stepped(cfg, s, r, [c2, c3, c4]).Some?
    ensures var m := Stepped(cfg, s, r, [c2, c3, c4]).value.h.mints;
            |m| == |s.h.mints| + 1 && m[|s.h.mints|].req == r && m[|s.h.mints|].g.src == FromDevice(device)
  {
    ConsumeDenied(cfg, s, r, c2, device);
    var s2 := Act(cfg, s, r, c2);
    UserFound(cfg, s2, r, c3, device);
    MintsForDevice(cfg, Act(cfg, s2, r, c3), r, c4, device);
    SteppedThree(cfg, s, r, c2, c3, c4);
  }

  lemma AuthorizedMints(
      cfg: Config, s: State, r: nat, c0: Choice, c1: Choice, c2: Choice, c3: Choice, c4: Choice, device: string)
    requires r in s.reqs && s.reqs[r] == DeviceAuthorized(device) && s.now <= c0.t3 && Granting(s, c0, c1, c2, c3, c4)
    requires Devices.Consumable(s.dev, device, c2.t1) && s.dev.recs[device].userId in s.users
    ensures Stepped(cfg, s, r, [c1, c2, c3, c4]).Some?
    ensures var m := Stepped(cfg, s, r, [c1, c2, c3, c4]).value.h.mints;
            |m| == |s.h.mints| + 1 && m[|s.h.mints|].req == r && m[|s.h.mints|].g.src == FromDevice(device)
  {
    AuthorizedRead(cfg, s, r, c1, device);
    ConsumingMints(cfg, Act(cfg, s, r, c1), r, c2, c3, c4, device);
    SteppedCons(cfg, s, r, c1, [c2, c3, c4]);
    assert [c1, c2, c3, c4] == [c1] + [c2, c3, c4];
  }

  /** But the denial does not stop those two kinds of poll. When the denial `q` has taken its step, an
      approved live device stands denied, and a poll `r` that has just read the flag can still take its
      four last steps, which mint for that device. */
  lemma LateDenialDoesNotStopMint(
      cfg: Config, s: State, q: nat, c0: Choice, userCode: string, r: nat,
      c1: Choice, c2: Choice, c3: Choice, c4: Choice, device: string)
    requires Enabled(s, q, c0) && s.reqs[q] == DeviceDeny(userCode)
    requires Devices.DenyTarget(s.dev, userCode) == Some(device)
    requires r in s.reqs && s.reqs[r] == DeviceAuthorized(device) && Granting(s, c0, c1, c2, c3, c4)
    requires Devices.Consumable(s.dev, device, c2.t1) && s.dev.recs[device].userId in s.users
    ensures StandsDenied(Act(cfg, s, q, c0), device)
    ensures Stepped(cfg, Act(cfg, s, q, c0), r, [c1, c2, c3, c4]).Some?
    ensures var m := Stepped(cfg, Act(cfg, s, q, c0), r, [c1, c2, c3, c4]).value.h.mints;
            |m| == |s.h.mints| + 1 && m[|s.h.mints|].req == r && m[|s.h.mints|].g.src == FromDevice(device)
  {
    DenyMarks(cfg, s, q, c0, userCode, device);
    AuthorizedMints(cfg, Act(cfg, s, q, c0), r, c0, c1, c2, c3, c4, device);
  }

  /** Nor one that is about to consume the device. */
  lemma LateDenialDoesNotStopConsume(
      cfg: Config, s: State, q: nat, c0: Choice, userCode: string, r: nat,
      c2: Choice, c3: Choice, c4: Choice, device: string)
    requires Enabled(s, q, c0) && s.reqs[q] == DeviceDeny(userCode)
    requires Devices.DenyTarget(s.dev, userCode) == Some(device)
    requires r in s.reqs && s.reqs[r] == DeviceConsume(device) && c3.dbOk && c4.access.Some?
    requires Follows(c0, c2) && Follows(c2, c3) && Follows(c3, c4)
    requires FreshName(s.names, c2.uuid) && FreshName(s.names, c3.uuid) && FreshName(s.names, c4.uuid)
    requires Devices.Consumable(s.dev, device, c2.t1) && s.dev.recs[device].userId in s.users
    ensures StandsDenied(Act(cfg, s, q, c0), device)
    ensures Stepped(cfg, Act(cfg, s, q, c0), r, [c2, c3, c4]).Some?
    ensures var m := Stepped(cfg, Act(cfg, s, q, c0), r, [c2, c3, c4]).value.h.mints;
            |m| == |s.h.mints| + 1 && m[|s.h.mints|].req == r && m[|s.h.mints|].g.src == FromDevice(device)
  {
    DenyMarks(cfg, s, q, c0, userCode, device);
    ConsumingMints(cfg, Act(cfg, s, q, c0), r, c2, c3, c4, device);
  }

  // A run that leads to such a denial.

  /** Who and what the run is about: a user with this email and password, a user code, and two unique
      identifiers, the first of which the device is named with. */
  datatype Scene = Scene(users: map<string, User>, userId: string, password: string, userCode: string, x: string,
                         y: string)
  {
    function Device(): string {
      "dc_" + x
    }

    predicate Fits(cfg: Config) {
      && cfg.deviceTTL >= 0 && x != y && userCode != "" && password != ""
      && userId in users && users[userId].email != "" && cfg.verifyPassword(users[userId].passwordHash, password)
    }
  }

  /** A choice at time zero in which nothing fails. */
  function Smooth(scene: Scene, uuid: string): Choice {
    Choice(0, 0, 0, 0, uuid, Some(scene.userId), true, Some("access"), None, None, scene.userCode)
  }

  /** The device is live and its index entry in place, at time zero. */
  predicate Held(s: State, scene: Scene, approved: bool) {
    && s.now == 0 && s.users == scene.users && s.names == {scene.Device()} && s.h.mints == []
    && s.dev.live == {scene.Device()} && Devices.Lookup(s.dev, scene.userCode, 0) == Some(scene.Device())
    && !s.dev.recs[scene.Device()].denied
    && s.dev.recs[scene.Device()].authorized == approved
        && (approved ==> s.dev.recs[scene.Device()].userId == scene.userId)
  }

  lemma SaveHolds(cfg: Config, s: State, scene: Scene, pc: Pc)
    requires scene.Fits(cfg) && pc.DeviceSave? && s.now == 0 && s.names == {} && s.h.mints == []
    requires s.users == scene.users
    requires s.dev == Devices.Tables(map[], {}, map[])
    ensures Held(DeviceSaveStep(cfg, s, 0, Smooth(scene, scene.x), pc), scene, false)
  {
    var s' := DeviceSaveStep(cfg, s, 0, Smooth(scene, scene.x), pc);
    assert s'.names == {scene.Device()};
    assert s'.dev.index[Devices.Norm(scene.userCode)] == scene.Device();
  }

  lemma CheckHolds(cfg: Config, s: State, scene: Scene, pc: Pc)
    requires Held(s, scene, false) && scene.Fits(cfg)
    requires pc == DeviceCheck(scene.userCode, scene.users[scene.userId].email, scene.password)
    ensures var s' := DeviceCheckStep(cfg, s, 1, Smooth(scene, scene.y), pc);
            Held(s', scene, false) && s'.reqs[1] == DeviceApprove(scene.userCode, scene.userId)
  {
  }

  lemma ApproveHolds(s: State, scene: Scene)
    requires Held(s, scene, false)
    ensures Held(DeviceApproveStep(s, 1, Smooth(scene, scene.y), scene.userCode, scene.userId), scene, true)
  {
  }

  lemma LookupHolds(s: State, scene: Scene)
    requires Held(s, scene, true)
    ensures var s' := DeviceLookupStep(s, 2, Smooth(scene, scene.y), scene.Device());
            Held(s', scene, true) && s'.reqs[2] == DeviceDenied(scene.Device())
  {
    assert Devices.DeadCodes(s.dev, 0) == {};
    assert Devices.Clean(s.dev, 0) == s.dev;
  }

  lemma FlagHolds(s: State, scene: Scene)
    requires Held(s, scene, true)
    ensures var s' := DeviceDeniedStep(s, 2, Smooth(scene, scene.y), scene.Device());
            Held(s', scene, true) && s'.reqs[2] == DeviceAuthorized(scene.Device())
  {
  }

  lemma ReachNext(cfg: Config, s: State, e: Event)
    requires Reachable(cfg, s) && Allowed(s, e)
    ensures Reachable(cfg, Next(cfg, s, e))
  {
    var users, run :| Legal(cfg, Init(users), run) && After(cfg, Init(users), run) == s;
    RunAppend(cfg, Init(users), run, [e]);
    assert After(cfg, s, [e]) == Next(cfg, s, e);
    assert Legal(cfg, Init(users), run + [e]) && After(cfg, Init(users), run + [e]) == Next(cfg, s, e);
  }

  lemma InitReachable(cfg: Config, users: map<string, User>)
    ensures Reachable(cfg, Init(users))
  {
    assert Legal(cfg, Init(users), []) && After(cfg, Init(users), []) == Init(users);
  }

  lemma Arrives(cfg: Config, s: State, scene: Scene, approved: bool, r: nat, q: Request, pc: Pc) returns (s': State)
    requires Reachable(cfg, s) && Held(s, scene, approved) && r !in s.reqs && Admit(cfg, q) == pc
    ensures Reachable(cfg, s') && Held(s', scene, approved) && s'.reqs == s.reqs[r := pc]
  {
    ReachNext(cfg, s, Arrive(r, q));
    s' := Next(cfg, s, Arrive(r, q));
  }

  lemma CanStep(s: State, scene: Scene, approved: bool, r: nat)
    requires Held(s, scene, approved) && scene.x != scene.y && r in s.reqs && !s.reqs[r].Done?
    ensures Enabled(s, r, Smooth(scene, scene.y))
  {
    assert ("dc_" + scene.y)[3..] == scene.y && scene.Device()[3..] == scene.x;
    assert ("ac_" + scene.y)[0] != scene.Device()[0] && ("rt_" + scene.y)[0] != scene.Device()[0];
  }

  lemma Steps(cfg: Config, s: State, scene: Scene, approved: bool, r: nat) returns (s': State)
    requires Reachable(cfg, s) && Held(s, scene, approved) && scene.x != scene.y && r in s.reqs && !s.reqs[r].Done?
    ensures Enabled(s, r, Smooth(scene, scene.y)) && s' == Act(cfg, s, r, Smooth(scene, scene.y)) && Reachable(cfg, s')
  {
    CanStep(s, scene, approved, r);
    ReachNext(cfg, s, Step(r, Smooth(scene, scene.y)));
    s' := Act(cfg, s, r, Smooth(scene, scene.y));
  }

  /** The device is requested. */
  lemma Requested(cfg: Config, scene: Scene) returns (s: State)
    requires scene.Fits(cfg)
    ensures Reachable(cfg, s) && Held(s, scene, false) && s.reqs.Keys == {0}
  {
    InitReachable(cfg, scene.users);
    var e, c := Arrive(0, DeviceRequest("", "", "")), Smooth(scene, scene.x);
    ReachNext(cfg, Init(scene.users), e);
    var s1 := Next(cfg, Init(scene.users), e);
    assert Enabled(s1, 0, c);
    ReachNext(cfg, s1, Step(0, c));
    ApprovalAct(cfg, s1, 0, c);
    SaveHolds(cfg, s1, scene, s1.reqs[0]);
    s := Act(cfg, s1, 0, c);
  }

  lemma Checks(cfg: Config, s: State, scene: Scene, pc: Pc) returns (s': State)
    requires Reachable(cfg, s) && Held(s, scene, false) && scene.Fits(cfg) && 1 in s.reqs && s.reqs[1] == pc
    requires pc == DeviceCheck(scene.userCode, scene.users[scene.userId].email, scene.password)
    ensures Reachable(cfg, s') && Held(s', scene, false)
    ensures s'.reqs == s.reqs[1 := DeviceApprove(scene.userCode, scene.userId)]
  {
    s' := Steps(cfg, s, scene, false, 1);
    ApprovalAct(cfg, s, 1, Smooth(scene, scene.y));
    CheckHolds(cfg, s, scene, pc);
  }

  lemma Approves(cfg: Config, s: State, scene: Scene) returns (s': State)
    requires Reachable(cfg, s) && Held(s, scene, false) && scene.Fits(cfg)
    requires 1 in s.reqs && s.reqs[1] == DeviceApprove(scene.userCode, scene.userId)
    ensures Reachable(cfg, s') && Held(s', scene, true) && s'.reqs.Keys == s.reqs.Keys
  {
    s' := Steps(cfg, s, scene, false, 1);
    ApprovalAct(cfg, s, 1, Smooth(scene, scene.y));
    ApproveHolds(s, scene);
  }

  lemma LooksUp(cfg: Config, s: State, scene: Scene) returns (s': State)
    requires Reachable(cfg, s) && Held(s, scene, true) && scene.Fits(cfg) && 2 in s.reqs
    requires s.reqs[2] == DeviceLookup(scene.Device())
    ensures Reachable(cfg, s') && Held(s', scene, true) && s'.reqs == s.reqs[2 := DeviceDenied(scene.Device())]
  {
    s' := Steps(cfg, s, scene, true, 2);
    DeviceLookupAct(cfg, s, 2, Smooth(scene, scene.y), scene.Device());
    LookupHolds(s, scene);
  }

  lemma ReadsFlag(cfg: Config, s: State, scene: Scene) returns (s': State)
    requires Reachable(cfg, s) && Held(s, scene, true) && scene.Fits(cfg) && 2 in s.reqs
    requires s.reqs[2] == DeviceDenied(scene.Device())
    ensures Reachable(cfg, s') && Held(s', scene, true) && s'.reqs == s.reqs[2 := DeviceAuthorized(scene.Device())]
  {
    s' := Steps(cfg, s, scene, true, 2);
    DeviceDeniedAct(cfg, s, 2, Smooth(scene, scene.y), scene.Device());
    FlagHolds(s, scene);
  }

  lemma Admitted(cfg: Config, scene: Scene)
    requires scene.Fits(cfg)
    ensures var email := scene.users[scene.userId].email;
            Admit(cfg, DeviceForm(scene.userCode, false, email, scene.password))
                == DeviceCheck(scene.userCode, email, scene.password)
    ensures Admit(cfg, DeviceForm(scene.userCode, true, "", "")) == DeviceDeny(scene.userCode)
    ensures Admit(cfg, TokenDevice(scene.Device())) == DeviceLookup(scene.Device())
  {
  }

  /** The user approves the device. */
  lemma Approved(cfg: Config, scene: Scene) returns (s: State)
    requires scene.Fits(cfg)
    ensures Reachable(cfg, s) && Held(s, scene, true) && s.reqs.Keys == {0, 1}
  {
    var s0 := Requested(cfg, scene);
    var s1 := FormArrives(cfg, s0, scene);
    var s2 := Checks(cfg, s1, scene, s1.reqs[1]);
    s := Approves(cfg, s2, scene);
  }

  lemma PollArrives(cfg: Config, s: State, scene: Scene) returns (s': State)
    requires Reachable(cfg, s) && Held(s, scene, true) && scene.Fits(cfg) && 2 !in s.reqs
    ensures Reachable(cfg, s') && Held(s', scene, true) && s'.reqs == s.reqs[2 := DeviceLookup(scene.Device())]
  {
    Admitted(cfg, scene);
    s' := Arrives(cfg, s, scene, true, 2, TokenDevice(scene.Device()), DeviceLookup(scene.Device()));
  }

  lemma FormArrives(cfg: Config, s: State, scene: Scene) returns (s': State)
    requires Reachable(cfg, s) && Held(s, scene, false) && scene.Fits(cfg) && 1 !in s.reqs
    ensures Reachable(cfg, s') && Held(s', scene, false)
    ensures s'.reqs == s.reqs[1 := DeviceCheck(scene.userCode, scene.users[scene.userId].email, scene.password)]
  {
    Admitted(cfg, scene);
    var email := scene.users[scene.userId].email;
    s' := Arrives(cfg, s, scene, false, 1, DeviceForm(scene.userCode, false, email, scene.password),
                  DeviceCheck(scene.userCode, email, scene.password));
  }

  /** A poll reads the flag. */
  lemma Polls(cfg: Config, scene: Scene) returns (s: State)
    requires scene.Fits(cfg)
    ensures Reachable(cfg, s) && Held(s, scene, true) && s.reqs.Keys == {0, 1, 2}
    ensures s.reqs[2] == DeviceAuthorized(scene.Device())
  {
    var s0 := Approved(cfg, scene);
    var s1 := PollArrives(cfg, s0, scene);
    var s2 := LooksUp(cfg, s1, scene);
    s := ReadsFlag(cfg, s2, scene);
  }

  /** A denial arrives. */
  lemma PolledBeforeDenial(cfg: Config, scene: Scene) returns (s: State)
    requires scene.Fits(cfg)
    ensures Reachable(cfg, s) && Held(s, scene, true)
    ensures 2 in s.reqs && s.reqs[2] == DeviceAuthorized(scene.Device()) && 3 in s.reqs
    ensures s.reqs[3] == DeviceDeny(scene.userCode)
  {
    Admitted(cfg, scene);
    var s0 := Polls(cfg, scene);
    s := Arrives(cfg, s0, scene, true, 3, DeviceForm(scene.userCode, true, "", ""), DeviceDeny(scene.userCode));
  }

  /** It does happen, for every user who knows a password: some run from the start leads to a denial that
      lands right after a poll has read the flag. The device stands denied, no token has been minted, and
      the poll still mints for the device. */
  lemma LateDenialHappens(cfg: Config, scene: Scene) returns (s: State, s': State)
    requires scene.Fits(cfg)
    ensures Reachable(cfg, s) && s.h.mints == [] && StandsDenied(s, scene.Device())
    ensures var c := Smooth(scene, scene.y);
            Stepped(cfg, s, 2, [c, c, c, c]) == Some(s')
    ensures |s'.h.mints| == 1 && s'.h.mints[0].g.src == FromDevice(scene.Device())
  {
    var c := Smooth(scene, scene.y);
    var before := PolledBeforeDenial(cfg, scene);
    s := Steps(cfg, before, scene, true, 3);
    DenyMarks(cfg, before, 3, c, scene.userCode, scene.Device());
    CanStep(before, scene, true, 2);
    LateDenialDoesNotStopMint(cfg, before, 3, c, scene.userCode, 2, c, c, c, c, scene.Device());
    s' := Stepped(cfg, s, 2, [c, c, c, c]).value;
  }

  // ----- the index of user codes -----

  lemma NoStaleEntryAfterSave(cfg: Config, s: State, r: nat, c: Choice, pc: Pc)
    requires Devices.NoStaleEntry(s.dev) && pc.DeviceSave? && "dc_" + c.uuid !in s.dev.recs
    ensures Devices.NoStaleEntry(DeviceSaveStep(cfg, s, r, c, pc).dev)
  {
    var rec := Devices.Record("dc_" + c.uuid, c.userCode, "", pc.clientId, pc.scope, pc.audience, 0, 0, false, false,
                              false);
    var op := Devices.SaveOp("dc_" + c.uuid, c.userCode, rec, c.stamp, c.t1);
    Devices.NoStaleEntryStep(s.dev, cfg.deviceTTL, op);
    assert DeviceSaveStep(cfg, s, r, c, pc).dev == Devices.Apply(s.dev, cfg.deviceTTL, op);
  }

  lemma NoStaleEntryAfterConsume(s: State, r: nat, c: Choice, device: string)
    requires Devices.NoStaleEntry(s.dev)
    ensures Devices.NoStaleEntry(DeviceConsumeStep(s, r, c, device).dev)
  {
    Devices.NoStaleEntryStep(s.dev, 0, Devices.ConsumeOp(device, c.t1));
    assert DeviceConsumeStep(s, r, c, device).dev == Devices.Apply(s.dev, 0, Devices.ConsumeOp(device, c.t1));
  }

  lemma NoStaleEntryAfterMark(s: State, r: nat, c: Choice, userCode: string, userId: string)
    requires Devices.NoStaleEntry(s.dev)
    ensures Devices.NoStaleEntry(DeviceDenyStep(s, r, c, userCode).dev)
    ensures Devices.NoStaleEntry(DeviceApproveStep(s, r, c, userCode, userId).dev)
  {
    Devices.NoStaleEntryStep(s.dev, 0, Devices.DenyOp(userCode));
    Devices.NoStaleEntryStep(s.dev, 0, Devices.AuthorizeOp(userCode, userId, c.t1));
  }

  lemma NoStaleEntryAfterLookup(s: State, r: nat, c: Choice, device: string)
    requires Devices.NoStaleEntry(s.dev)
    ensures Devices.NoStaleEntry(DeviceLookupStep(s, r, c, device).dev)
  {
    Devices.NoStaleEntryStep(s.dev, 0, Devices.GetOp(device, c.t1, c.t2));
  }

  lemma NoStaleEntryAfterAct(cfg: Config, s: State, r: nat, c: Choice)
    requires Devices.NoStaleEntry(s.dev) && s.dev.recs.Keys <= s.names && Enabled(s, r, c)
    ensures Devices.NoStaleEntry(Act(cfg, s, r, c).dev)
  {
    var pc := s.reqs[r];
    if ApprovalPc(pc) {
      ApprovalAct(cfg, s, r, c);
      if pc.DeviceSave? {
        NoStaleEntryAfterSave(cfg, s, r, c, pc);
      } else if pc.DeviceDeny? {
        NoStaleEntryAfterMark(s, r, c, pc.userCode, "");
      } else if pc.DeviceApprove? {
        NoStaleEntryAfterMark(s, r, c, pc.userCode, pc.userId);
      }
    } else if pc.DeviceLookup? {
      DeviceLookupAct(cfg, s, r, c, pc.device);
      NoStaleEntryAfterLookup(s, r, c, pc.device);
    } else if pc.DeviceConsume? {
      DeviceConsumeAct(cfg, s, r, c, pc.device);
      NoStaleEntryAfterConsume(s, r, c, pc.device);
    }
  }

  lemma {:induction false} NoStaleEntryAfterRun(cfg: Config, s: State, run: seq<Event>)
    requires Inv(cfg, s) && Devices.NoStaleEntry(s.dev) && Legal(cfg, s, run)
    ensures Devices.NoStaleEntry(After(cfg, s, run).dev)
    decreases |run|
  {
    if run == [] {
    } else {
      if run[0].Step? {
        NoStaleEntryAfterAct(cfg, s, run[0].r, run[0].c);
      }
      NextKeeps(cfg, s, run[0]);
      NoStaleEntryAfterRun(cfg, Next(cfg, s, run[0]), run[1..]);
    }
  }

  /** The handlers save every device under a fresh device code and with its own user code, which is all
      it takes: in every interleaving no user code ever leads to a device that is gone or has another
      user code, even when the random user codes collide. */
  lemma IndexNeverStale(cfg: Config, users: map<string, User>, run: seq<Event>)
    requires Legal(cfg, Init(users), run)
    ensures Devices.NoStaleEntry(After(cfg, Init(users), run).dev)
  {
    InitInv(cfg, users);
    NoStaleEntryAfterRun(cfg, Init(users), run);
  }
}
