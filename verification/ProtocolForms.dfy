/** Who approved a device and who denied it: the forms that typed its user code. */
module ProtocolForms {
  import opened Wrappers
  import opened Protocol
  import opened ProtocolInvariant
  import opened ProtocolSteps
  import opened ProtocolGrowth
  import opened ProtocolOrigins
  import opened ProtocolDevices
  import Devices

  /** The form `p` types the user code, in whatever case and hyphenation, and turned out to come from the user. */
  predicate Approves(t: Trail, p: nat, userId: string, userCode: string) {
    && p in t.asked && t.asked[p].DeviceForm? && !t.asked[p].deny
    && Devices.Norm(t.asked[p].userCode) == Devices.Norm(userCode) && (p, userId) in t.known
  }

  predicate Denies(t: Trail, p: nat, userCode: string) {
    && p in t.asked && t.asked[p].DeviceForm? && t.asked[p].deny
    && Devices.Norm(t.asked[p].userCode) == Devices.Norm(userCode)
  }

  ghost predicate ApprovedByForm(s: State, t: Trail, a: Approval) {
    a.device in s.dev.recs && exists p :: Approves(t, p, a.userId, s.dev.recs[a.device].userCode)
  }

  ghost predicate FormsFrom(s: State, t: Trail) {
    && (forall i :: 0 <= i < |s.h.approvals| ==> ApprovedByForm(s, t, s.h.approvals[i]))
    && (forall d :: d in s.dev.recs && s.dev.recs[d].denied ==> exists p :: Denies(t, p, s.dev.recs[d].userCode))
  }

  /** No record loses its user code, and none becomes denied. */
  predicate SameForms(s: State, s': State) {
    && (forall d :: d in s.dev.recs ==> d in s'.dev.recs && s'.dev.recs[d].userCode == s.dev.recs[d].userCode)
    && (forall d :: d in s'.dev.recs && s'.dev.recs[d].denied ==> d in s.dev.recs && s.dev.recs[d].denied)
  }

  lemma ApprovedLater(s: State, t: Trail, s': State, t': Trail, a: Approval)
    requires ApprovedByForm(s, t, a) && Later(t, t')
    requires a.device in s'.dev.recs && s'.dev.recs[a.device].userCode == s.dev.recs[a.device].userCode
    ensures ApprovedByForm(s', t', a)
  {
    var p :| Approves(t, p, a.userId, s.dev.recs[a.device].userCode);
    assert Approves(t', p, a.userId, s'.dev.recs[a.device].userCode);
  }

  lemma DeniedLater(t: Trail, t': Trail, userCode: string)
    requires Later(t, t') && exists p :: Denies(t, p, userCode)
    ensures exists p :: Denies(t', p, userCode)
  {
    var p :| Denies(t, p, userCode);
    assert Denies(t', p, userCode);
  }

  lemma FormsLater(s: State, t: Trail, s': State, t': Trail)
    requires FormsFrom(s, t) && Later(t, t') && SameForms(s, s') && s'.h.approvals == s.h.approvals
    ensures FormsFrom(s', t')
  {
    forall i | 0 <= i < |s'.h.approvals|
      ensures ApprovedByForm(s', t', s'.h.approvals[i])
    {
      ApprovedLater(s, t, s', t', s.h.approvals[i]);
    }
    forall d | d in s'.dev.recs && s'.dev.recs[d].denied
      ensures exists p :: Denies(t', p, s'.dev.recs[d].userCode)
    {
      DeniedLater(t, t', s.dev.recs[d].userCode);
    }
  }

  lemma FormsFromApprove(s: State, t: Trail, r: nat, c: Choice, userCode: string, userId: string)
    requires FormsFrom(s, t) && Devices.NoStaleEntry(s.dev) && Approves(t, r, userId, userCode)
    ensures FormsFrom(DeviceApproveStep(s, r, c, userCode, userId), t)
  {
    var s', found := DeviceApproveStep(s, r, c, userCode, userId), Devices.Lookup(s.dev, userCode, c.t1);
    assert SameForms(s, s');
    if found == None {
      FormsLater(s, t, s', t);
    } else {
      var a := Approval(found.value, userId);
      assert s'.h.approvals == s.h.approvals + [a];
      assert Approves(t, r, a.userId, s'.dev.recs[a.device].userCode);
      forall i | 0 <= i < |s'.h.approvals|
        ensures ApprovedByForm(s', t, s'.h.approvals[i])
      {
        if i < |s.h.approvals| {
          ApprovedLater(s, t, s', t, s.h.approvals[i]);
        }
      }
    }
  }

  lemma FormsFromDeny(s: State, t: Trail, r: nat, c: Choice, userCode: string)
    requires FormsFrom(s, t) && Devices.NoStaleEntry(s.dev) && Denies(t, r, userCode)
    ensures FormsFrom(DeviceDenyStep(s, r, c, userCode), t)
  {
    var s', target := DeviceDenyStep(s, r, c, userCode), Devices.DenyTarget(s.dev, userCode);
    forall i | 0 <= i < |s'.h.approvals|
      ensures ApprovedByForm(s', t, s'.h.approvals[i])
    {
      ApprovedLater(s, t, s', t, s.h.approvals[i]);
    }
    if target.Some? {
      assert Denies(t, r, s'.dev.recs[target.value].userCode);
    }
  }

  lemma FormsFromSave(cfg: Config, s: State, t: Trail, r: nat, c: Choice, pc: Pc, t': Trail)
    requires FormsFrom(s, t) && pc.DeviceSave? && "dc_" + c.uuid !in s.dev.recs && Later(t, t')
    ensures FormsFrom(DeviceSaveStep(cfg, s, r, c, pc), t')
  {
    FormsLater(s, t, DeviceSaveStep(cfg, s, r, c, pc), t');
  }

  lemma FormsFromStep(cfg: Config, s: State, t: Trail, r: nat, c: Choice)
    requires Enabled(s, r, c) && PcFrom(cfg, t, s.h, r, s.reqs[r]) && FormsFrom(s, t)
    requires Devices.NoStaleEntry(s.dev) && s.dev.recs.Keys <= s.names && t.made.Keys <= s.names
    ensures FormsFrom(Act(cfg, s, r, c), Noted(cfg, s, t, r, c))
  {
    var pc, s', t' := s.reqs[r], Act(cfg, s, r, c), Noted(cfg, s, t, r, c);
    NotedLater(cfg, s, t, r, c);
    if pc.DeviceApprove? || pc.DeviceDeny? {
      NothingNoted(cfg, s, t, r, c);
      ApprovalAct(cfg, s, r, c);
      match pc
      case DeviceApprove(userCode, userId) => FormsFromApprove(s, t, r, c, userCode, userId);
      case DeviceDeny(userCode) => FormsFromDeny(s, t, r, c, userCode);
    } else if pc.DeviceSave? {
      ApprovalAct(cfg, s, r, c);
      FormsFromSave(cfg, s, t, r, c, pc, t');
    } else {
      assert SameRecords(s, s') && SameApprovals(s, s');
      FormsLater(s, t, s', t');
    }
  }

  lemma FormsFromNext(cfg: Config, s: State, t: Trail, e: Event)
    requires Inv(cfg, s) && Origins(cfg, s, t) && FormsFrom(s, t) && Devices.NoStaleEntry(s.dev) && Allowed(s, e)
    ensures FormsFrom(Next(cfg, s, e), Note(cfg, s, t, e))
  {
    match e
    case Step(r, c) =>
      assert PcFrom(cfg, t, s.h, r, s.reqs[r]);
      FormsFromStep(cfg, s, t, r, c);
    case Arrive(_, _) => FormsLater(s, t, Next(cfg, s, e), Note(cfg, s, t, e));
    case SetUsers(_) => FormsLater(s, t, Next(cfg, s, e), t);
  }

  lemma {:induction false} RunForms(cfg: Config, s: State, t: Trail, run: seq<Event>)
    requires Inv(cfg, s) && Origins(cfg, s, t) && FormsFrom(s, t) && Devices.NoStaleEntry(s.dev) && Legal(cfg, s, run)
    ensures FormsFrom(After(cfg, s, run), TrailAfter(cfg, s, t, run))
    decreases |run|
  {
    if run == [] {
    } else {
      FormsFromNext(cfg, s, t, run[0]);
      NextKeeps(cfg, s, run[0]);
      NextFrom(cfg, s, t, run[0]);
      NoStaleEntryAfterRun(cfg, s, [run[0]]);
      assert After(cfg, s, [run[0]]) == Next(cfg, s, run[0]);
      RunForms(cfg, Next(cfg, s, run[0]), Note(cfg, s, t, run[0]), run[1..]);
    }
  }

  lemma TracedForms(cfg: Config, s: State, t: Trail)
    requires Traced(cfg, s, t)
    ensures FormsFrom(s, t)
  {
    var users, run :|
      && Legal(cfg, Init(users), run) && After(cfg, Init(users), run) == s
      && TrailAfter(cfg, Init(users), START, run) == t;
    InitInv(cfg, users);
    assert Origins(cfg, Init(users), START);
    RunForms(cfg, Init(users), START, run);
  }

  lemma {:induction false} LastApprovalListed(approvals: seq<Approval>, device: string, userId: string) returns (i: nat)
    requires LastApproval(approvals, device) == Some(userId)
    ensures i < |approvals| && approvals[i] == Approval(device, userId)
    decreases |approvals|
  {
    i := |approvals| - 1;
    if approvals[i].device != device {
      i := LastApprovalListed(approvals[..i], device, userId);
    }
  }

  /** Whoever a device's tokens are minted for typed the user code of that device into a form that was
      not a denial, and proved to be that user. */
  lemma DeviceMintsFollowForms(cfg: Config, s: State, t: Trail, i: nat, device: string)
    requires Traced(cfg, s, t) && i < |s.h.mints| && s.h.mints[i].g.src == FromDevice(device)
    ensures device in s.dev.recs
    ensures exists p :: Approves(t, p, s.h.mints[i].g.sub, s.dev.recs[device].userCode)
  {
    TracedFrom(cfg, s, t);
    TracedForms(cfg, s, t);
    assert MintOk(s, s.h.mints[i]);
    var k := LastApprovalListed(s.h.approvals[..s.h.used[device].approvals], device, s.h.mints[i].g.sub);
    assert ApprovedByForm(s, t, s.h.approvals[k]);
  }

  /** No device is denied but by a form that typed its user code and asked for denial. */
  lemma DenialsFollowForms(cfg: Config, s: State, t: Trail, device: string)
    requires Traced(cfg, s, t) && device in s.dev.recs && s.dev.recs[device].denied
    ensures exists p :: Denies(t, p, s.dev.recs[device].userCode)
  {
    TracedForms(cfg, s, t);
  }
}
