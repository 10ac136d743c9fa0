/** The handlers, run one request after another on the stores themselves. Every handler is proved to
    take exactly the steps of the protocol for its request, so whatever holds of all reachable states
    of the protocol holds of the stores after any sequence of requests. */
module Handlers {
  import opened Wrappers
  import opened Text
  import opened Protocol
  import opened ProtocolInvariant
  import opened ProtocolSteps
  import TtlTable
  import Devices
  import Sessions
  import Replay
  import Clients
  import Pkce
  import Grants

  /** What a client sees of a reply. */
  datatype Response = Success(tokens: Tokens) | Failure | Page

  function Shown(reply: Reply): Response {
    match reply
    case Granted(_, _, tokens) => Success(tokens)
    case Refused => Failure
    case Other => Page
  }

  /** Choice `i` can be the next one. */
  predicate Usable(now: int, names: set<string>, env: seq<Choice>, i: nat) {
    && i < |env| && now <= env[i].t1 <= env[i].t2 <= env[i].t3 && env[i].stamp <= env[i].t1
    && FreshName(names, env[i].uuid)
  }

  predicate Earlier(env: seq<Choice>, i: nat, j: nat) {
    i < |env| && j < |env| && env[i].t3 <= env[j].t1 && env[i].uuid != env[j].uuid
  }

  /** What the environment supplies to one request, step by step, after the first `taken`: the clock
      does not run backwards and no unique identifier is handed out twice. */
  ghost predicate Timely(now: int, names: set<string>, env: seq<Choice>, taken: nat) {
    && taken <= |env|
    && (forall i {:trigger Usable(now, names, env, i)} :: taken <= i < |env| ==> Usable(now, names, env, i))
    && (forall i, j {:trigger Earlier(env, i, j)} :: taken <= i < j < |env| ==> Earlier(env, i, j))
  }

  lemma StillFresh(names: set<string>, used: string, uuid: string)
    requires FreshName(names, uuid) && used != uuid
    ensures FreshName(names + {"ac_" + used}, uuid)
    ensures FreshName(names + {"rt_" + used}, uuid)
    ensures FreshName(names + {"dc_" + used}, uuid)
  {
    assert ("ac_" + used)[3..] == used && ("rt_" + used)[3..] == used && ("dc_" + used)[3..] == used;
    assert ("ac_" + uuid)[3..] == uuid && ("rt_" + uuid)[3..] == uuid && ("dc_" + uuid)[3..] == uuid;
    assert ("ac_" + used)[0] == ("ac_" + uuid)[0] == 'a' && ("rt_" + used)[0] == ("rt_" + uuid)[0] == 'r'
        && ("dc_" + used)[0] == ("dc_" + uuid)[0] == 'd';
  }

  predicate Took(run: seq<Event>, start: nat, r: nat, env: seq<Choice>, i: nat) {
    start + i < |run| && i < |env| && run[start + i] == Step(r, env[i])
  }

  lemma TookOn(run: seq<Event>, start: nat, r: nat, env: seq<Choice>, taken: nat)
    requires |run| == start + taken && taken < |env|
    requires forall i {:trigger Took(run, start, r, env, i)} :: 0 <= i < taken ==> Took(run, start, r, env, i)
    ensures forall i {:trigger Took(run + [Step(r, env[taken])], start, r, env, i)} :: 0 <= i < taken + 1 ==>
              Took(run + [Step(r, env[taken])], start, r, env, i)
  {
    var run' := run + [Step(r, env[taken])];
    forall i {:trigger Took(run', start, r, env, i)} | 0 <= i < taken + 1
      ensures Took(run', start, r, env, i)
    {
      assert i < taken ==> Took(run, start, r, env, i);
    }
  }

  predicate Draws(names: set<string>, names': set<string>, uuid: string) {
    || names' == names || names' == names + {"ac_" + uuid}
    || names' == names + {"rt_" + uuid} || names' == names + {"dc_" + uuid}
  }

  lemma TimelyOn(now: int, names: set<string>, env: seq<Choice>, taken: nat, now': int, names': set<string>)
    requires Timely(now, names, env, taken) && taken < |env|
    requires now' == env[taken].t3 && Draws(names, names', env[taken].uuid)
    ensures Timely(now', names', env, taken + 1)
  {
    forall i | taken + 1 <= i < |env|
      ensures Usable(now', names', env, i)
    {
      assert Usable(now, names, env, i) && Earlier(env, taken, i);
      StillFresh(names, env[taken].uuid, env[i].uuid);
    }
    forall i, j | taken + 1 <= i < j < |env|
      ensures Earlier(env, i, j)
    {
    }
  }

  /** In a run with its states, event `i` leads from each state to the next. */
  predicate Link(cfg: Config, states: seq<State>, run: seq<Event>, i: nat) {
    && i < |run| && i + 1 < |states|
    && Allowed(states[i], run[i]) && states[i + 1] == Next(cfg, states[i], run[i])
  }

  ghost predicate Chain(cfg: Config, states: seq<State>, run: seq<Event>) {
    |states| == |run| + 1 && forall i {:trigger Link(cfg, states, run, i)} :: 0 <= i < |run| ==>
        Link(cfg, states, run, i)
  }

  lemma ChainSnoc(cfg: Config, states: seq<State>, run: seq<Event>, e: Event)
    requires Chain(cfg, states, run) && Allowed(states[|run|], e)
    ensures Chain(cfg, states + [Next(cfg, states[|run|], e)], run + [e])
  {
    var states', run' := states + [Next(cfg, states[|run|], e)], run + [e];
    forall i | 0 <= i < |run'|
      ensures Link(cfg, states', run', i)
    {
      assert i < |run| ==> Link(cfg, states, run, i);
    }
  }

  lemma {:induction false} ChainIsRun(cfg: Config, states: seq<State>, run: seq<Event>)
    requires Chain(cfg, states, run)
    ensures Legal(cfg, states[0], run) && After(cfg, states[0], run) == states[|run|]
    decreases |run|
  {
    if run == [] {
    } else {
      assert Link(cfg, states, run, 0);
      forall i | 0 <= i < |run[1..]|
        ensures Link(cfg, states[1..], run[1..], i)
      {
        assert Link(cfg, states, run, i + 1);
      }
      ChainIsRun(cfg, states[1..], run[1..]);
    }
  }

  /** The protocol moves `r` to `pc`, and the tables and names become those of `to`. */
  predicate Moves(cfg: Config, s: State, r: nat, c: Choice, to: State, pc: Pc)
    requires Enabled(s, r, c)
  {
    var s' := Act(cfg, s, r, c);
    s'.reqs[r] == pc && SameTables(to, s') && s'.names == to.names
  }

  predicate SameTables(s: State, s': State) {
    && s'.users == s.users && s'.codes == s.codes && s'.refresh == s.refresh
    && s'.dev == s.dev && s'.sessions == s.sessions && s'.replay == s.replay
  }

  // ----- where each step of a request leads -----

  function ClientReply(c: Choice): Reply {
    if c.access == None then Refused else Granted(FromClient, false, Tokens(c.access.value, None, None))
  }

  lemma ClientMintShape(s: State, r: nat, c: Choice, clientId: string)
    ensures var s' := ClientMintStep(s, r, c, clientId);
            SameTables(s, s') && s'.names == s.names && s'.reqs[r] == Done(ClientReply(c))
  {
    if c.access.Some? {
      var m := MintEvent(r, Grantee(FromClient, "client|" + clientId, clientId, DEFAULT_AUDIENCE, "", ""),
                         c.access.value, None);
      assert ClientMintStep(s, r, c, clientId) == WithMint(Moved(s, r, c.t3, Done(ClientReply(c))), m);
    }
  }

  function AfterPassword(pc: Pc, user: Option<string>, c: Choice): Pc
    requires pc.PasswordCheck?
  {
    match user
    case None => Done(Refused)
    case Some(userId) =>
      Mint(Grantee(FromPassword, userId, pc.clientId, OrElse(pc.audience, DEFAULT_AUDIENCE), pc.scope, "sid_" + c.uuid))
  }

  lemma PasswordShape(cfg: Config, s: State, r: nat, c: Choice, pc: Pc)
    requires pc.PasswordCheck?
    ensures var s' := PasswordStep(cfg, s, r, c, pc);
            && SameTables(s, s') && s'.names == s.names
            && s'.reqs[r] == AfterPassword(pc, Authenticate(cfg, s, c, pc.username, pc.password), c)
  {
    var s' := PasswordStep(cfg, s, r, c, pc);
    var user := Authenticate(cfg, s, c, pc.username, pc.password);
    assert s' == Moved(s.(h := s'.h), r, c.t3, AfterPassword(pc, user, c));
  }

  function AfterConsume(cfg: Config, ac: Option<Grants.AuthCode>, cq: CodeQuery): Pc {
    match ac
    case None => CodeReplay(cq.code)
    case Some(ac) => if Gates(cfg, ac, cq) then CodeUser(cq.code, ac, OrElse(cq.clientId, ac.clientId))
        else Done(Refused)
  }

  function AfterReplayCheck(code: string, entry: Option<Replay.Entry<Tokens>>, now: int): Reply {
    if entry.Some? && now < entry.value.expires then Granted(FromCode(code), true, entry.value.body) else Refused
  }

  function AfterCodeUser(found: bool, code: string, ac: Grants.AuthCode, clientId: string, c: Choice): Pc {
    if found then
      Mint(Grantee(FromCode(code), ac.userId, clientId, OrElse(ac.audience, DEFAULT_AUDIENCE), ac.scope,
                   OrElse(ac.sessionId, "sid_" + c.uuid)))
    else Done(Refused)
  }

  function AfterRefresh(rg: Option<Grants.RefreshGrant>, token: string, family: nat, clientId: string, c: Choice): Pc {
    match rg
    case None => Done(Refused)
    case Some(rg) =>
      if clientId != "" && rg.clientId != clientId then Done(Refused)
      else Mint(Grantee(FromRefresh(token, family), rg.userId, rg.clientId, OrElse(rg.clientId, DEFAULT_AUDIENCE),
                        rg.scope,
                        OrElse(rg.sessionId, "sid_" + c.uuid)))
  }

  function Issued(scope: string, c: Choice): Option<Tokens> {
    if c.access == None then None
        else Some(Tokens(c.access.value, if Contains(scope, "openid") then c.id else None, None))
  }

  function AfterMint(g: Grantee, c: Choice): Pc {
    match Issued(g.scope, c)
    case None => Done(Refused)
    case Some(tokens) => if Contains(g.scope, OFFLINE) then SaveRefresh(g, tokens) else Delivered(g, tokens)
  }

  lemma DeliverShape(s: State, r: nat, c: Choice, g: Grantee, tokens: Tokens)
    ensures Deliver(s, r, c, g, tokens) == Moved(s.(h := Deliver(s, r, c, g, tokens).h), r, c.t3, Delivered(g, tokens))
  {
  }

  lemma MintStepShape(s: State, r: nat, c: Choice, g: Grantee)
    ensures MintStep(s, r, c, g) == Moved(s.(h := MintStep(s, r, c, g).h), r, c.t3, AfterMint(g, c))
  {
    if c.access.Some? {
      var tokens := Issued(g.scope, c).value;
      DeliverShape(Minted(s, r, g, c.(id := tokens.id)), r, c, g, tokens);
    }
  }

  function Rotated(s: State, cfg: Config, c: Choice, g: Grantee): TtlTable.Table<Grants.RefreshGrant> {
    TtlTable.Save(s.refresh, "rt_" + c.uuid, Grants.RefreshGrant(g.sub, g.client, g.scope, "", g.sid), c.stamp,
                  cfg.refreshTTL, c.t1)
  }

  function TokenAdded(s: State, cfg: Config, c: Choice, g: Grantee): State {
    s.(refresh := Rotated(s, cfg, c, g), names := s.names + {"rt_" + c.uuid})
  }

  lemma SaveRefreshShape(cfg: Config, s: State, r: nat, c: Choice, g: Grantee, tokens: Tokens)
    ensures var s' := SaveRefreshStep(cfg, s, r, c, g, tokens);
            && SameTables(TokenAdded(s, cfg, c, g), s') && s'.names == TokenAdded(s, cfg, c, g).names
            && s'.reqs[r] == Delivered(g, tokens.(refresh := Some("rt_" + c.uuid)))
  {
    var full, s' := tokens.(refresh := Some("rt_" + c.uuid)), SaveRefreshStep(cfg, s, r, c, g, tokens);
    var saved := TokenAdded(s, cfg, c, g).(h := s'.h);
    if g.src.FromCode? {
      assert s' == Moved(saved, r, c.t3, Cache(g.src.code, full));
    } else {
      assert s' == Moved(saved, r, c.t3, Done(Granted(g.src, false, full)));
    }
  }

  function DeviceAdded(s: State, cfg: Config, c: Choice, pc: Pc): State
    requires pc.DeviceSave?
  {
    var device := "dc_" + c.uuid;
    var rec := Devices.Record(device, c.userCode, "", pc.clientId, pc.scope, pc.audience, 0, 0, false, false, false);
    s.(dev := Devices.Save(s.dev, device, c.userCode, rec, c.stamp, cfg.deviceTTL, c.t1), names := s.names + {device})
  }

  function AfterDeviceCheck(pc: Pc, user: Option<string>): Pc
    requires pc.DeviceCheck?
  {
    if user == None then Done(Refused) else DeviceApprove(pc.userCode, user.value)
  }

  lemma DeviceCheckShape(cfg: Config, s: State, r: nat, c: Choice, pc: Pc)
    requires pc.DeviceCheck?
    ensures var s' := DeviceCheckStep(cfg, s, r, c, pc);
            && SameTables(s, s') && s'.names == s.names
            && s'.reqs[r] == AfterDeviceCheck(pc, Authenticate(cfg, s, c, pc.username, pc.password))
  {
    var s' := DeviceCheckStep(cfg, s, r, c, pc);
    assert s' == Moved(s.(h := s'.h), r, c.t3, AfterDeviceCheck(pc, Authenticate(cfg, s, c, pc.username, pc.password)));
  }

  function DeviceReply(device: string, scope: string, c: Choice): Reply {
    match Issued(scope, c)
    case None => Refused
    case Some(tokens) => Granted(FromDevice(device), false, tokens)
  }

  lemma DeviceTokenShape(s: State, r: nat, c: Choice, device: string)
    requires device in s.dev.recs
    ensures var s' := DeviceMintStep(s, r, c, device);
            && SameTables(s, s') && s'.names == s.names
            && s'.reqs[r] == Done(DeviceReply(device, s.dev.recs[device].scope, c))
  {
    var s' := DeviceMintStep(s, r, c, device);
    assert s' == Moved(s.(h := s'.h), r, c.t3, Done(DeviceReply(device, s.dev.recs[device].scope, c)));
  }

  function AfterLogin(cfg: Config, pc: Pc, user: Option<string>, users: map<string, User>): Pc
    requires pc.LoginCheck? && (user.Some? ==> user.value in users)
  {
    if user == None then Done(Refused)
    else if pc.f.via == Authorize && pc.f.implicit then ImplicitMint(pc.f, user.value)
    else if cfg.hasSessions then LoginSession(pc.f, user.value, users[user.value].email)
    else AfterSession(pc.f, user.value)
  }

  lemma LoginCheckShape(cfg: Config, s: State, r: nat, c: Choice, pc: Pc)
    requires pc.LoginCheck?
    ensures var s' := LoginCheckStep(cfg, s, r, c, pc);
            && SameTables(s, s') && s'.names == s.names
            && s'.reqs[r] == AfterLogin(cfg, pc, Authenticate(cfg, s, c, pc.username, pc.password), s.users)
  {
    var s' := LoginCheckStep(cfg, s, r, c, pc);
    assert s' == Moved(s.(h := s'.h), r, c.t3,
                       AfterLogin(cfg, pc, Authenticate(cfg, s, c, pc.username, pc.password), s.users));
  }

  function SessionAdded(s: State, cfg: Config, c: Choice, userId: string, email: string): Sessions.Table {
    if c.random == None then s.sessions
    else Sessions.Begin(s.sessions, "sid_" + c.random.value, userId, email, c.stamp, cfg.sessionTTL, c.t1)
  }

  function CodeAdded(s: State, cfg: Config, c: Choice, f: Front, userId: string): State {
    var ac := Grants.AuthCode(userId, f.clientId, f.redirectURI, f.scope, f.audience, f.nonce, "sid_" + c.uuid,
                              f.codeChallenge, f.codeChallengeMethod);
    s.(codes := TtlTable.Save(s.codes, "ac_" + c.uuid, ac, c.stamp, cfg.codeTTL, c.t1),
       names := s.names + {"ac_" + c.uuid})
  }

  function FrontReply(f: Front, c: Choice): Reply {
    if c.access == None then Refused else ImplicitReply(f, c)
  }

  lemma ImplicitTokenShape(s: State, r: nat, c: Choice, f: Front, userId: string)
    ensures var s' := ImplicitMintStep(s, r, c, f, userId);
            && SameTables(s, s') && s'.names == s.names && s'.reqs[r] == Done(FrontReply(f, c))
  {
    if c.access.Some? {
      ImplicitMintShape(s, r, c, f, userId);
    }
  }

  /** The token is held, its time is not over, and the client is its own or not named. */
  predicate Refreshable(refresh: TtlTable.Table<Grants.RefreshGrant>, token: string, clientId: string, now: int) {
    && token in refresh && now <= refresh[token].expiresAt
    && (clientId == "" || clientId == refresh[token].grant.clientId)
  }

  /** The device can be consumed when its turn comes, and then its user and the issuer are there. */
  predicate Redeemable(dev: Devices.Tables, device: string, env: seq<Choice>, users: map<string, User>)
    requires |env| >= 6
  {
    && Devices.Consumable(dev, device, env[3].t1)
    && env[4].dbOk && dev.recs[device].userId in users && env[5].access.Some?
  }

  /** The device is live, approved and not denied, its time is not over, and its user and the issuer are there. */
  predicate Pollable(dev: Devices.Tables, device: string, env: seq<Choice>, users: map<string, User>)
    requires |env| >= 6
  {
    device in dev.live &&
    var rec := dev.recs[device];
    && !rec.expired && env[0].t2 <= rec.expiresAt && env[3].t1 <= rec.expiresAt && rec.authorized && !rec.denied
    && env[4].dbOk && rec.userId in users && env[5].access.Some?
  }

  class Server {
    const cfg: Config
    const grants: Grants.Store
    const sess: Sessions.Store
    const replay: Replay.CodeReplayCache<Tokens>
    const registry: Clients.Registry
    var users: map<string, User>

    ghost const users0: map<string, User>
    ghost var trace: seq<Event>   // all protocol events since the start
    ghost var states: seq<State>  // the protocol states they lead through
    ghost var sys: State          // the last of them

    ghost predicate Traced()
      reads this`trace, this`states, this`sys
    {
      Chain(cfg, states, trace) && states[0] == Init(users0) && states[|trace|] == sys
    }

    /** Whatever the theorems say about reachable states holds of `sys`. */
    lemma SysIsReachable()
      requires Traced()
      ensures Legal(cfg, Init(users0), trace) && After(cfg, Init(users0), trace) == sys
      ensures Reachable(cfg, sys)
    {
      ChainIsRun(cfg, states, trace);
    }

    ghost predicate CodesLinked()
      reads this`sys, grants`codes, grants`codeLog
    {
      && grants.CodesValid() && grants.codes == sys.codes
      && TtlTable.Clock(grants.codeLog) <= sys.now && grants.codeTTL == cfg.codeTTL
    }

    ghost predicate RefreshLinked()
      reads this`sys, grants`refresh, grants`refreshLog
    {
      && grants.RefreshValid() && grants.refresh == sys.refresh
      && TtlTable.Clock(grants.refreshLog) <= sys.now && grants.refreshTTL == cfg.refreshTTL
    }

    ghost predicate DevicesLinked()
      reads this`sys, grants`devices, grants`userCodes, grants`tables, grants`deviceLog, grants.devices.Values
    {
      && grants.DevicesValid() && grants.tables == sys.dev
      && Devices.Clock(grants.deviceLog) <= sys.now && grants.deviceTTL == cfg.deviceTTL
    }

    ghost predicate SessionsLinked()
      reads this`sys, sess, sess.sessions.Values
    {
      sess.Valid() && sess.records == sys.sessions && Sessions.Clock(sess.log) <= sys.now && sess.ttl == cfg.sessionTTL
    }

    ghost predicate ReplayLinked()
      reads this`sys, replay
    {
      replay.Valid() && replay.entries == sys.replay && Replay.Clock(replay.log) <= sys.now
    }

    ghost predicate RegistryLinked()
      reads registry
    {
      registry.clients == cfg.clients && registry.requireSecretForCodes == cfg.requireSecretForCodes
    }

    /** The stores hold what the protocol state says. */
    ghost predicate Linked()
      reads this, grants, grants.devices.Values, sess, sess.sessions.Values, replay, registry
    {
      && Traced() && users == sys.users && RegistryLinked()
      && CodesLinked() && RefreshLinked() && DevicesLinked() && SessionsLinked() && ReplayLinked()
    }

    /** Since `before`, the request `r` arrived and took its first steps with the choices of `env`. */
    ghost predicate Serving(before: seq<Event>, r: nat, q: Request, env: seq<Choice>, taken: nat)
      reads this`trace, this`sys
    {
      && |trace| == |before| + 1 + taken
      && trace[..|before|] == before && trace[|before|] == Arrive(r, q)
      && (forall i {:trigger Took(trace, |before| + 1, r, env, i)} :: 0 <= i < taken ==>
          Took(trace, |before| + 1, r, env, i))
      && r in sys.reqs && Timely(sys.now, sys.names, env, taken)
    }

    /** The request is at `pc` after `taken` steps, and there are choices for one more. */
    ghost predicate At(before: seq<Event>, r: nat, q: Request, env: seq<Choice>, taken: nat, pc: Pc)
      reads this`trace, this`states, this`sys
    {
      Traced() && Serving(before, r, q, env, taken) && Usable(sys.now, sys.names, env, taken) && sys.reqs[r] == pc
    }

    /** The request went on to `pc` with the choices of `c`, and the tables became those of `to`. */
    ghost predicate Went(before: seq<Event>, r: nat, q: Request, env: seq<Choice>, taken: nat, to: State, pc: Pc)
      reads this`trace, this`states, this`sys
    {
      && Traced() && Serving(before, r, q, env, taken) && sys.reqs[r] == pc
      && to.now <= sys.now && SameTables(to, sys) && (0 < taken ==> sys.now == env[taken - 1].t3)
    }

    /** The request was served: it took the protocol's steps for it, and the response is its reply. */
    ghost predicate Served(before: seq<Event>, r: nat, q: Request, env: seq<Choice>, response: Response)
      reads this`trace, this`sys
    {
      exists taken: nat :: Serving(before, r, q, env, taken) && sys.reqs[r].Done?
          && Shown(sys.reqs[r].reply) == response
    }

    /** The request was a successful exchange of `code`, first or repeated, answered with `tokens`. */
    ghost predicate Exchanged(r: nat, code: string, tokens: Tokens)
      reads this`sys
    {
      && r in sys.reqs && sys.reqs[r].Done? && sys.reqs[r].reply.Granted?
      && sys.reqs[r].reply.src == FromCode(code) && sys.reqs[r].reply.tokens == tokens
    }

    /** Time to live settings that are missing or not positive are replaced by the stores' defaults. */
    constructor (settings: Config, users: map<string, User>, registry: Clients.Registry)
      ensures Linked() && fresh(grants) && fresh(sess) && fresh(replay)
      ensures trace == [] && this.users == users && this.registry == registry
      ensures cfg ==
                settings.(codeTTL := grants.codeTTL, refreshTTL := grants.refreshTTL, deviceTTL := grants.deviceTTL,
                               sessionTTL := sess.ttl,
                               clients := registry.clients, requireSecretForCodes := registry.requireSecretForCodes)
    {
      var g := new Grants.Store(settings.codeTTL, settings.refreshTTL, Some(settings.deviceTTL));
      var s := new Sessions.Store(settings.sessionTTL);
      grants, sess := g, s;
      replay := new Replay.CodeReplayCache();
      this.registry := registry;
      cfg := settings.(codeTTL := g.codeTTL, refreshTTL := g.refreshTTL, deviceTTL := g.deviceTTL, sessionTTL := s.ttl,
                       clients := registry.clients, requireSecretForCodes := registry.requireSecretForCodes);
      this.users, users0 := users, users;
      trace, states, sys := [], [Init(users)], Init(users);
    }


    // ----- the ghost side of a step -----

    ghost method Begin(r: nat, q: Request, env: seq<Choice>)
      requires Traced() && r !in sys.reqs && Timely(sys.now, sys.names, env, 0)
      modifies this`sys, this`states, this`trace
      ensures Went(old(trace), r, q, env, 0, old(sys), Admit(cfg, q))
    {
      ChainSnoc(cfg, states, trace, Arrive(r, q));
      sys := Next(cfg, sys, Arrive(r, q));
      trace, states := trace + [Arrive(r, q)], states + [sys];
    }

    ghost method Advance(before: seq<Event>, r: nat, q: Request, env: seq<Choice>, i: nat, to: State, pc: Pc)
      requires r in sys.reqs && At(before, r, q, env, i, sys.reqs[r]) && !sys.reqs[r].Done?
      requires to.now == sys.now && Moves(cfg, sys, r, env[i], to, pc) && Draws(sys.names, to.names, env[i].uuid)
      modifies this`sys, this`states, this`trace
      ensures Went(before, r, q, env, i + 1, to, pc)
    {
      var e := Step(r, env[i]);
      ChainSnoc(cfg, states, trace, e);
      TimelyOn(sys.now, sys.names, env, i, env[i].t3, to.names);
      TookOn(trace, |before| + 1, r, env, i);
      sys := Next(cfg, sys, e);
      trace, states := trace + [e], states + [sys];
    }

    ghost method StepClientMint(before: seq<Event>, r: nat, q: Request, env: seq<Choice>, i: nat, clientId: string)
      requires At(before, r, q, env, i, ClientCredentials(clientId))
      modifies this`sys, this`states, this`trace
      ensures Went(before, r, q, env, i + 1, old(sys), Done(ClientReply(env[i])))
    {
      assert Act(cfg, sys, r, env[i]) == ClientMintStep(sys, r, env[i], clientId);
      ClientMintShape(sys, r, env[i], clientId);
      Advance(before, r, q, env, i, sys, Done(ClientReply(env[i])));
    }

    ghost method StepPassword(before: seq<Event>, r: nat, q: Request, env: seq<Choice>, i: nat, pc: Pc)
      requires pc.PasswordCheck?
      requires At(before, r, q, env, i, pc)
      modifies this`sys, this`states, this`trace
      ensures Went(before, r, q, env, i + 1, old(sys),
                   AfterPassword(pc, Authenticate(cfg, old(sys), env[i], pc.username, pc.password), env[i]))
    {
      assert Act(cfg, sys, r, env[i]) == PasswordStep(cfg, sys, r, env[i], pc);
      PasswordShape(cfg, sys, r, env[i], pc);
      Advance(before, r, q, env, i, sys,
              AfterPassword(pc, Authenticate(cfg, sys, env[i], pc.username, pc.password), env[i]));
    }

    ghost method StepConsumeCode(before: seq<Event>, r: nat, q: Request, env: seq<Choice>, i: nat, cq: CodeQuery)
      requires At(before, r, q, env, i, CodeConsume(cq))
      modifies this`sys, this`states, this`trace
      ensures Went(before, r, q, env, i + 1, old(sys).(codes := TtlTable.Drop(old(sys).codes, cq.code)),
                   AfterConsume(cfg, TtlTable.Find(old(sys).codes, cq.code, env[i].t1), cq))
    {
      assert Act(cfg, sys, r, env[i]) == CodeConsumeStep(cfg, sys, r, env[i], cq);
      Advance(before, r, q, env, i, sys.(codes := TtlTable.Drop(sys.codes, cq.code)),
              AfterConsume(cfg, TtlTable.Find(sys.codes, cq.code, env[i].t1), cq));
    }

    ghost method StepCodeReplay(before: seq<Event>, r: nat, q: Request, env: seq<Choice>, i: nat, code: string)
      requires At(before, r, q, env, i, CodeReplay(code))
      modifies this`sys, this`states, this`trace
      ensures Went(before, r, q, env, i + 1, old(sys),
                   CodeReplayCheck(code, if code in old(sys).replay then Some(old(sys).replay[code]) else None))
    {
      assert Act(cfg, sys, r, env[i]) == CodeReplayStep(sys, r, env[i], code);
      Advance(before, r, q, env, i, sys,
              CodeReplayCheck(code, if code in sys.replay then Some(sys.replay[code]) else None));
    }

    ghost method StepCodeReplayCheck(before: seq<Event>, r: nat, q: Request, env: seq<Choice>, i: nat,
                                     code: string, entry: Option<Replay.Entry<Tokens>>)
      requires At(before, r, q, env, i, CodeReplayCheck(code, entry))
      modifies this`sys, this`states, this`trace
      ensures Went(before, r, q, env, i + 1, old(sys), Done(AfterReplayCheck(code, entry, env[i].t1)))
    {
      assert Act(cfg, sys, r, env[i]) == CodeReplayCheckStep(sys, r, env[i], code, entry);
      Advance(before, r, q, env, i, sys, Done(AfterReplayCheck(code, entry, env[i].t1)));
    }

    ghost method StepCodeUser(before: seq<Event>, r: nat, q: Request, env: seq<Choice>, i: nat,
                              code: string, ac: Grants.AuthCode, clientId: string)
      requires At(before, r, q, env, i, CodeUser(code, ac, clientId))
      modifies this`sys, this`states, this`trace
      ensures Went(before, r, q, env, i + 1, old(sys),
                   AfterCodeUser(UserExists(old(sys), env[i], ac.userId), code, ac, clientId, env[i]))
    {
      assert Act(cfg, sys, r, env[i]) == CodeUserStep(sys, r, env[i], code, ac, clientId);
      Advance(before, r, q, env, i, sys, AfterCodeUser(UserExists(sys, env[i], ac.userId), code, ac, clientId, env[i]));
    }

    ghost method StepConsumeRefresh(before: seq<Event>, r: nat, q: Request, env: seq<Choice>, i: nat,
                                    token: string, clientId: string)
      requires At(before, r, q, env, i, RefreshConsume(token, clientId))
      modifies this`sys, this`states, this`trace
      ensures Went(before, r, q, env, i + 1, old(sys).(refresh := TtlTable.Drop(old(sys).refresh, token)),
                   AfterRefresh(TtlTable.Find(old(sys).refresh, token, env[i].t1), token, Family(old(sys), token),
                                clientId, env[i]))
    {
      assert Act(cfg, sys, r, env[i]) == RefreshConsumeStep(sys, r, env[i], token, clientId);
      Advance(before, r, q, env, i, sys.(refresh := TtlTable.Drop(sys.refresh, token)),
              AfterRefresh(TtlTable.Find(sys.refresh, token, env[i].t1), token, Family(sys, token), clientId, env[i]));
    }

    ghost method StepMint(before: seq<Event>, r: nat, q: Request, env: seq<Choice>, i: nat, g: Grantee)
      requires At(before, r, q, env, i, Mint(g))
      modifies this`sys, this`states, this`trace
      ensures Went(before, r, q, env, i + 1, old(sys), AfterMint(g, env[i]))
    {
      assert Act(cfg, sys, r, env[i]) == MintStep(sys, r, env[i], g);
      MintStepShape(sys, r, env[i], g);
      Advance(before, r, q, env, i, sys, AfterMint(g, env[i]));
    }

    ghost method StepSaveRefresh(before: seq<Event>, r: nat, q: Request, env: seq<Choice>, i: nat,
                                 g: Grantee, tokens: Tokens)
      requires At(before, r, q, env, i, SaveRefresh(g, tokens))
      modifies this`sys, this`states, this`trace
      ensures Went(before, r, q, env, i + 1, TokenAdded(old(sys), cfg, env[i], g),
                   Delivered(g, tokens.(refresh := Some("rt_" + env[i].uuid))))
    {
      assert Act(cfg, sys, r, env[i]) == SaveRefreshStep(cfg, sys, r, env[i], g, tokens);
      SaveRefreshShape(cfg, sys, r, env[i], g, tokens);
      Advance(before, r, q, env, i, TokenAdded(sys, cfg, env[i], g),
              Delivered(g, tokens.(refresh := Some("rt_" + env[i].uuid))));
    }

    ghost method StepCache(before: seq<Event>, r: nat, q: Request, env: seq<Choice>, i: nat,
                           code: string, tokens: Tokens)
      requires At(before, r, q, env, i, Cache(code, tokens))
      modifies this`sys, this`states, this`trace
      ensures Went(before, r, q, env, i + 1,
                   old(sys).(replay := Replay.Put(old(sys).replay, code, tokens, env[i].t1, env[i].t2)),
                   Done(Granted(FromCode(code), false, tokens)))
    {
      assert Act(cfg, sys, r, env[i]) == CacheStep(sys, r, env[i], code, tokens);
      Advance(before, r, q, env, i, sys.(replay := Replay.Put(sys.replay, code, tokens, env[i].t1, env[i].t2)),
              Done(Granted(FromCode(code), false, tokens)));
    }

    ghost method StepRevoke(before: seq<Event>, r: nat, q: Request, env: seq<Choice>, i: nat, token: string)
      requires At(before, r, q, env, i, Revoke(token))
      modifies this`sys, this`states, this`trace
      ensures Went(before, r, q, env, i + 1, old(sys).(refresh := TtlTable.Drop(old(sys).refresh, token)), Done(Other))
    {
      assert Act(cfg, sys, r, env[i]) == RevokeStep(sys, r, env[i], token);
      Advance(before, r, q, env, i, sys.(refresh := TtlTable.Drop(sys.refresh, token)), Done(Other));
    }

    ghost method StepDeviceSave(before: seq<Event>, r: nat, q: Request, env: seq<Choice>, i: nat, pc: Pc)
      requires pc.DeviceSave?
      requires At(before, r, q, env, i, pc)
      modifies this`sys, this`states, this`trace
      ensures Went(before, r, q, env, i + 1, DeviceAdded(old(sys), cfg, env[i], pc), Done(Other))
    {
      assert Act(cfg, sys, r, env[i]) == DeviceSaveStep(cfg, sys, r, env[i], pc);
      Advance(before, r, q, env, i, DeviceAdded(sys, cfg, env[i], pc), Done(Other));
    }

    ghost method StepDeviceDeny(before: seq<Event>, r: nat, q: Request, env: seq<Choice>, i: nat, userCode: string)
      requires At(before, r, q, env, i, DeviceDeny(userCode))
      modifies this`sys, this`states, this`trace
      ensures Went(before, r, q, env, i + 1, old(sys).(dev := Devices.Deny(old(sys).dev, userCode)), Done(Other))
    {
      assert Act(cfg, sys, r, env[i]) == DeviceDenyStep(sys, r, env[i], userCode);
      Advance(before, r, q, env, i, sys.(dev := Devices.Deny(sys.dev, userCode)), Done(Other));
    }

    ghost method StepDeviceCheck(before: seq<Event>, r: nat, q: Request, env: seq<Choice>, i: nat, pc: Pc)
      requires pc.DeviceCheck?
      requires At(before, r, q, env, i, pc)
      modifies this`sys, this`states, this`trace
      ensures Went(before, r, q, env, i + 1, old(sys),
                   AfterDeviceCheck(pc, Authenticate(cfg, old(sys), env[i], pc.username, pc.password)))
    {
      assert Act(cfg, sys, r, env[i]) == DeviceCheckStep(cfg, sys, r, env[i], pc);
      DeviceCheckShape(cfg, sys, r, env[i], pc);
      Advance(before, r, q, env, i, sys,
              AfterDeviceCheck(pc, Authenticate(cfg, sys, env[i], pc.username, pc.password)));
    }

    ghost method StepDeviceApprove(before: seq<Event>, r: nat, q: Request, env: seq<Choice>, i: nat,
                                   userCode: string, userId: string)
      requires At(before, r, q, env, i, DeviceApprove(userCode, userId))
      modifies this`sys, this`states, this`trace
      ensures Went(before, r, q, env, i + 1,
                   old(sys).(dev := Devices.Authorize(old(sys).dev, userCode, userId, env[i].t1)),
                   Done(Other))
    {
      assert Act(cfg, sys, r, env[i]) == DeviceApproveStep(sys, r, env[i], userCode, userId);
      Advance(before, r, q, env, i, sys.(dev := Devices.Authorize(sys.dev, userCode, userId, env[i].t1)), Done(Other));
    }

    ghost method StepDeviceLookup(before: seq<Event>, r: nat, q: Request, env: seq<Choice>, i: nat, device: string)
      requires At(before, r, q, env, i, DeviceLookup(device))
      modifies this`sys, this`states, this`trace
      ensures Went(before, r, q, env, i + 1, old(sys).(dev := Devices.Clean(old(sys).dev, env[i].t1)),
                   if Devices.Found(Devices.Clean(old(sys).dev, env[i].t1), device, env[i].t2)
                   then DeviceDenied(device)
                   else Done(Refused))
    {
      assert Act(cfg, sys, r, env[i]) == DeviceLookupStep(sys, r, env[i], device);
      Advance(before, r, q, env, i, sys.(dev := Devices.Clean(sys.dev, env[i].t1)),
              if Devices.Found(Devices.Clean(sys.dev, env[i].t1), device, env[i].t2)
              then DeviceDenied(device)
              else Done(Refused));
    }

    ghost method StepDeviceDenied(before: seq<Event>, r: nat, q: Request, env: seq<Choice>, i: nat, device: string)
      requires At(before, r, q, env, i, DeviceDenied(device))
      modifies this`sys, this`states, this`trace
      ensures Went(before, r, q, env, i + 1, old(sys),
                   if device in old(sys).dev.recs && !old(sys).dev.recs[device].denied
                   then DeviceAuthorized(device)
                   else Done(Refused))
    {
      assert Act(cfg, sys, r, env[i]) == DeviceDeniedStep(sys, r, env[i], device);
      Advance(before, r, q, env, i, sys,
              if device in sys.dev.recs && !sys.dev.recs[device].denied
              then DeviceAuthorized(device)
              else Done(Refused));
    }

    ghost method StepDeviceAuthorized(before: seq<Event>, r: nat, q: Request, env: seq<Choice>, i: nat, device: string)
      requires At(before, r, q, env, i, DeviceAuthorized(device))
      modifies this`sys, this`states, this`trace
      ensures Went(before, r, q, env, i + 1, old(sys),
                   if device in old(sys).dev.recs && old(sys).dev.recs[device].authorized
                   then DeviceConsume(device)
                   else Done(Refused))
    {
      assert Act(cfg, sys, r, env[i]) == DeviceAuthorizedStep(sys, r, env[i], device);
      Advance(before, r, q, env, i, sys,
              if device in sys.dev.recs && sys.dev.recs[device].authorized
              then DeviceConsume(device)
              else Done(Refused));
    }

    ghost method StepDeviceConsume(before: seq<Event>, r: nat, q: Request, env: seq<Choice>, i: nat, device: string)
      requires At(before, r, q, env, i, DeviceConsume(device))
      modifies this`sys, this`states, this`trace
      ensures Went(before, r, q, env, i + 1, old(sys).(dev := Devices.Consume(old(sys).dev, device, env[i].t1)),
                   if Devices.Consumable(old(sys).dev, device, env[i].t1) then DeviceUser(device) else Done(Refused))
    {
      assert Act(cfg, sys, r, env[i]) == DeviceConsumeStep(sys, r, env[i], device);
      Advance(before, r, q, env, i, sys.(dev := Devices.Consume(sys.dev, device, env[i].t1)),
              if Devices.Consumable(sys.dev, device, env[i].t1) then DeviceUser(device) else Done(Refused));
    }

    ghost method StepDeviceUser(before: seq<Event>, r: nat, q: Request, env: seq<Choice>, i: nat, device: string)
      requires At(before, r, q, env, i, DeviceUser(device))
      modifies this`sys, this`states, this`trace
      ensures Went(before, r, q, env, i + 1, old(sys),
                   if device in old(sys).dev.recs && UserExists(old(sys), env[i], old(sys).dev.recs[device].userId)
                   then DeviceMint(device)
                   else Done(Refused))
    {
      assert Act(cfg, sys, r, env[i]) == DeviceUserStep(sys, r, env[i], device);
      Advance(before, r, q, env, i, sys,
              if device in sys.dev.recs && UserExists(sys, env[i], sys.dev.recs[device].userId)
              then DeviceMint(device)
              else Done(Refused));
    }

    ghost method StepDeviceMint(before: seq<Event>, r: nat, q: Request, env: seq<Choice>, i: nat, device: string)
      requires device in sys.dev.recs
      requires At(before, r, q, env, i, DeviceMint(device))
      modifies this`sys, this`states, this`trace
      ensures Went(before, r, q, env, i + 1, old(sys),
                   Done(DeviceReply(device, old(sys).dev.recs[device].scope, env[i])))
    {
      assert Act(cfg, sys, r, env[i]) == DeviceMintStep(sys, r, env[i], device);
      DeviceTokenShape(sys, r, env[i], device);
      Advance(before, r, q, env, i, sys, Done(DeviceReply(device, sys.dev.recs[device].scope, env[i])));
    }

    ghost method StepLoginCheck(before: seq<Event>, r: nat, q: Request, env: seq<Choice>, i: nat, pc: Pc)
      requires pc.LoginCheck?
      requires At(before, r, q, env, i, pc)
      modifies this`sys, this`states, this`trace
      ensures Went(before, r, q, env, i + 1, old(sys),
                   AfterLogin(cfg, pc, Authenticate(cfg, old(sys), env[i], pc.username, pc.password), old(sys).users))
    {
      assert Act(cfg, sys, r, env[i]) == LoginCheckStep(cfg, sys, r, env[i], pc);
      LoginCheckShape(cfg, sys, r, env[i], pc);
      Advance(before, r, q, env, i, sys,
              AfterLogin(cfg, pc, Authenticate(cfg, sys, env[i], pc.username, pc.password), sys.users));
    }

    ghost method StepLoginSession(before: seq<Event>, r: nat, q: Request, env: seq<Choice>, i: nat,
                                  f: Front, userId: string, email: string)
      requires At(before, r, q, env, i, LoginSession(f, userId, email))
      modifies this`sys, this`states, this`trace
      ensures Went(before, r, q, env, i + 1, old(sys).(sessions := SessionAdded(old(sys), cfg, env[i], userId, email)),
                   AfterSession(f, userId))
    {
      assert Act(cfg, sys, r, env[i]) == LoginSessionStep(cfg, sys, r, env[i], f, userId, email);
      Advance(before, r, q, env, i, sys.(sessions := SessionAdded(sys, cfg, env[i], userId, email)),
              AfterSession(f, userId));
    }

    ghost method StepCookieGet(before: seq<Event>, r: nat, q: Request, env: seq<Choice>, i: nat,
                               f: Front, cookie: string)
      requires At(before, r, q, env, i, CookieGet(f, cookie))
      modifies this`sys, this`states, this`trace
      ensures Went(before, r, q, env, i + 1,
                   old(sys).(sessions := Sessions.Touch(old(sys).sessions, cookie, env[i].t1, env[i].t2, env[i].t3,
                                                        cfg.sessionTTL)),
                   if Sessions.Present(old(sys).sessions, cookie, env[i].t1, env[i].t2)
                   then CookieUser(f, old(sys).sessions[cookie].userId)
                   else Done(Other))
    {
      assert Act(cfg, sys, r, env[i]) == CookieGetStep(cfg, sys, r, env[i], f, cookie);
      Advance(before, r, q, env, i,
              sys.(sessions := Sessions.Touch(sys.sessions, cookie, env[i].t1, env[i].t2, env[i].t3, cfg.sessionTTL)),
              if Sessions.Present(sys.sessions, cookie, env[i].t1, env[i].t2)
              then CookieUser(f, sys.sessions[cookie].userId)
              else Done(Other));
    }

    ghost method StepCookieUser(before: seq<Event>, r: nat, q: Request, env: seq<Choice>, i: nat,
                                f: Front, userId: string)
      requires At(before, r, q, env, i, CookieUser(f, userId))
      modifies this`sys, this`states, this`trace
      ensures Went(before, r, q, env, i + 1, old(sys),
                   if UserExists(old(sys), env[i], userId) then SaveCode(f, userId) else Done(Other))
    {
      assert Act(cfg, sys, r, env[i]) == CookieUserStep(sys, r, env[i], f, userId);
      Advance(before, r, q, env, i, sys, if UserExists(sys, env[i], userId) then SaveCode(f, userId) else Done(Other));
    }

    ghost method StepSaveCode(before: seq<Event>, r: nat, q: Request, env: seq<Choice>, i: nat,
                              f: Front, userId: string)
      requires At(before, r, q, env, i, SaveCode(f, userId))
      modifies this`sys, this`states, this`trace
      ensures Went(before, r, q, env, i + 1, CodeAdded(old(sys), cfg, env[i], f, userId), Done(Other))
    {
      assert Act(cfg, sys, r, env[i]) == SaveCodeStep(cfg, sys, r, env[i], f, userId);
      Advance(before, r, q, env, i, CodeAdded(sys, cfg, env[i], f, userId), Done(Other));
    }

    ghost method StepImplicitMint(before: seq<Event>, r: nat, q: Request, env: seq<Choice>, i: nat,
                                  f: Front, userId: string)
      requires At(before, r, q, env, i, ImplicitMint(f, userId))
      modifies this`sys, this`states, this`trace
      ensures Went(before, r, q, env, i + 1, old(sys), Done(FrontReply(f, env[i])))
    {
      assert Act(cfg, sys, r, env[i]) == ImplicitMintStep(sys, r, env[i], f, userId);
      ImplicitTokenShape(sys, r, env[i], f, userId);
      Advance(before, r, q, env, i, sys, Done(FrontReply(f, env[i])));
    }

    ghost method StepLogout(before: seq<Event>, r: nat, q: Request, env: seq<Choice>, i: nat, cookie: string)
      requires At(before, r, q, env, i, Logout(cookie))
      modifies this`sys, this`states, this`trace
      ensures Went(before, r, q, env, i + 1, old(sys).(sessions := old(sys).sessions - {cookie}), Done(Other))
    {
      assert Act(cfg, sys, r, env[i]) == LogoutStep(sys, r, env[i], cookie);
      Advance(before, r, q, env, i, sys.(sessions := sys.sessions - {cookie}), Done(Other));
    }

    /** The request is answered. */
    ghost method Finish(before: seq<Event>, r: nat, q: Request, env: seq<Choice>, taken: nat, response: Response)
      requires Serving(before, r, q, env, taken) && sys.reqs[r].Done? && Shown(sys.reqs[r].reply) == response
      ensures Served(before, r, q, env, response)
    {
    }

    // ----- calls of the stores, each one step -----

    method ConsumeCode(ghost before: seq<Event>, ghost r: nat, ghost q: Request, env: seq<Choice>, i: nat,
                       cq: CodeQuery)
      returns (ac: Option<Grants.AuthCode>)
      requires At(before, r, q, env, i, CodeConsume(cq)) && CodesLinked()
      modifies this`sys, this`states, this`trace, grants`codes, grants`codeLog
      ensures CodesLinked() && ac == TtlTable.Find(old(sys.codes), cq.code, env[i].t1)
      ensures Went(before, r, q, env, i + 1, old(sys).(codes := sys.codes), AfterConsume(cfg, ac, cq))
    {
      StepConsumeCode(before, r, q, env, i, cq);
      ac := grants.ConsumeCode(cq.code, env[i].t1);
    }

    method SaveAuthCode(ghost before: seq<Event>, ghost r: nat, ghost q: Request, env: seq<Choice>, i: nat, f: Front,
                        userId: string)
      requires At(before, r, q, env, i, SaveCode(f, userId)) && CodesLinked()
      modifies this`sys, this`states, this`trace, grants`codes, grants`codeLog
      ensures CodesLinked()
      ensures Went(before, r, q, env, i + 1, old(sys).(codes := sys.codes), Done(Other))
    {
      StepSaveCode(before, r, q, env, i, f, userId);
      var code, sessionId := "ac_" + env[i].uuid, "sid_" + env[i].uuid;
      grants.SaveCode(code, Grants.AuthCode(userId, f.clientId, f.redirectURI, f.scope, f.audience, f.nonce, sessionId,
                                            f.codeChallenge, f.codeChallengeMethod), env[i].stamp, env[i].t1);
    }

    method LoadReplay(ghost before: seq<Event>, ghost r: nat, ghost q: Request, env: seq<Choice>, i: nat, code: string)
      returns (entry: Option<Replay.Entry<Tokens>>)
      requires At(before, r, q, env, i, CodeReplay(code)) && ReplayLinked()
      modifies this`sys, this`states, this`trace
      ensures Went(before, r, q, env, i + 1, old(sys), CodeReplayCheck(code, entry))
    {
      StepCodeReplay(before, r, q, env, i, code);
      entry := replay.Load(code);
    }

    method StoreReplay(ghost before: seq<Event>, ghost r: nat, ghost q: Request, env: seq<Choice>, i: nat,
                       code: string, tokens: Tokens)
      requires At(before, r, q, env, i, Cache(code, tokens)) && ReplayLinked()
      modifies this`sys, this`states, this`trace, replay
      ensures ReplayLinked()
      ensures Went(before, r, q, env, i + 1, old(sys).(replay := sys.replay),
                   Done(Granted(FromCode(code), false, tokens)))
    {
      StepCache(before, r, q, env, i, code, tokens);
      replay.Store(code, tokens, env[i].t1, env[i].t2);
    }

    method ConsumeRefreshToken(ghost before: seq<Event>, ghost r: nat, ghost q: Request, env: seq<Choice>, i: nat,
                               token: string, ghost clientId: string)
      returns (rg: Option<Grants.RefreshGrant>)
      requires At(before, r, q, env, i, RefreshConsume(token, clientId)) && RefreshLinked()
      modifies this`sys, this`states, this`trace, grants`refresh, grants`refreshLog
      ensures RefreshLinked() && rg == TtlTable.Find(old(sys.refresh), token, env[i].t1)
      ensures Went(before, r, q, env, i + 1, old(sys).(refresh := sys.refresh),
                   AfterRefresh(rg, token, Family(old(sys), token), clientId, env[i]))
    {
      StepConsumeRefresh(before, r, q, env, i, token, clientId);
      rg := grants.ConsumeRefreshToken(token, env[i].t1);
    }

    method SaveRefreshToken(ghost before: seq<Event>, ghost r: nat, ghost q: Request, env: seq<Choice>, i: nat,
                            ghost g: Grantee,
                            rg: Grants.RefreshGrant, ghost tokens: Tokens)
      returns (token: string)
      requires At(before, r, q, env, i, SaveRefresh(g, tokens)) && RefreshLinked()
      requires rg == Grants.RefreshGrant(g.sub, g.client, g.scope, "", g.sid)
      modifies this`sys, this`states, this`trace, grants`refresh, grants`refreshLog
      ensures RefreshLinked()
      ensures token in grants.refresh && grants.refresh[token] == TtlTable.Entry(rg, env[i].stamp + cfg.refreshTTL)
      ensures Went(before, r, q, env, i + 1, old(sys).(refresh := sys.refresh),
                   Delivered(g, tokens.(refresh := Some(token))))
    {
      StepSaveRefresh(before, r, q, env, i, g, tokens);
      token := "rt_" + env[i].uuid;
      grants.SaveRefreshToken(token, rg, env[i].stamp, env[i].t1);
    }

    method RevokeRefreshToken(ghost before: seq<Event>, ghost r: nat, ghost q: Request, env: seq<Choice>, i: nat,
                              token: string)
      requires At(before, r, q, env, i, Revoke(token)) && RefreshLinked()
      modifies this`sys, this`states, this`trace, grants`refresh, grants`refreshLog
      ensures RefreshLinked() && grants.refresh == old(grants.refresh) - {token}
      ensures Went(before, r, q, env, i + 1, old(sys).(refresh := sys.refresh), Done(Other))
    {
      StepRevoke(before, r, q, env, i, token);
      var _ := grants.RevokeRefreshToken(token);
    }

    /** The tokens hold a refresh token exactly when the scope asks for offline access, and the store holds
        that token, for what it was issued for and for its full time. */
    ghost predicate Backed(tokens: Tokens, rg: Grants.RefreshGrant, env: seq<Choice>, i: nat)
      requires i < |env|
      reads grants`refresh
    {
      && (tokens.refresh.Some? <==> Contains(rg.scope, "offline_access"))
      && (tokens.refresh.Some? ==>
            && tokens.refresh.value in grants.refresh
            && grants.refresh[tokens.refresh.value] == TtlTable.Entry(rg, env[i].stamp + cfg.refreshTTL))
    }

    /** Issues the tokens of a grant, with a refresh token if its scope asks for one; `next` counts the
        steps taken. */
    method IssueTokens(ghost before: seq<Event>, ghost r: nat, ghost q: Request, env: seq<Choice>, i: nat,
                       ghost g: Grantee,
                       userId: string, clientId: string, scope: string, sessionId: string)
      returns (resp: Option<Tokens>, next: nat)
      requires At(before, r, q, env, i, Mint(g)) && RefreshLinked() && i + 1 < |env|
      requires g.sub == userId && g.client == clientId && g.scope == scope && g.sid == sessionId
      modifies this`sys, this`states, this`trace, grants`refresh, grants`refreshLog
      ensures RefreshLinked() && next <= i + 2
      ensures resp.Some? <==> env[i].access.Some?
      ensures resp.Some? ==>
                && resp.value.access == env[i].access.value
                && resp.value.id == (if Contains(scope, "openid") then env[i].id else None)
                && Backed(resp.value, Grants.RefreshGrant(userId, clientId, scope, "", sessionId), env, i + 1)
      ensures Went(before, r, q, env, next, old(sys).(refresh := sys.refresh),
                   if resp == None then Done(Refused) else Delivered(g, resp.value))
    {
      StepMint(before, r, q, env, i, g);
      next := i + 1;
      if env[i].access == None {
        return None, next;
      }
      var tokens := Tokens(env[i].access.value, None, None);
      if Contains(scope, "openid") {
        tokens := tokens.(id := env[i].id);
      }
      if Contains(scope, OFFLINE) {
        var token := SaveRefreshToken(before, r, q, env, i + 1, g,
                                      Grants.RefreshGrant(userId, clientId, scope, "", sessionId), tokens);
        tokens := tokens.(refresh := Some(token));
        next := i + 2;
      }
      resp := Some(tokens);
    }

    // What the steps of a request leave alone stays linked.

    twostate lemma DevicesStay()
      requires old(DevicesLinked()) && old(sys).now <= sys.now && sys.dev == old(sys).dev
      requires unchanged(grants`devices, grants`userCodes, grants`tables, grants`deviceLog)
      requires unchanged(old(grants.devices.Values))
      ensures DevicesLinked()
    {
    }

    twostate lemma SessionsStay()
      requires old(SessionsLinked()) && old(sys).now <= sys.now && sys.sessions == old(sys).sessions
      requires unchanged(sess) && unchanged(old(sess.sessions.Values))
      ensures SessionsLinked()
    {
    }

    twostate lemma CodesStay()
      requires old(CodesLinked()) && old(sys).now <= sys.now && sys.codes == old(sys).codes
      requires unchanged(grants`codes, grants`codeLog)
      ensures CodesLinked()
    {
    }

    twostate lemma RefreshStay()
      requires old(RefreshLinked()) && old(sys).now <= sys.now && sys.refresh == old(sys).refresh
      requires unchanged(grants`refresh, grants`refreshLog)
      ensures RefreshLinked()
    {
    }

    twostate lemma ReplayStay()
      requires old(ReplayLinked()) && old(sys).now <= sys.now && sys.replay == old(sys).replay && unchanged(replay)
      ensures ReplayLinked()
    {
    }

    // ----- the token endpoint -----

    method HandleClientCredentials(ghost r: nat, q: Request, env: seq<Choice>) returns (response: Response)
      requires Traced() && r !in sys.reqs && Timely(sys.now, sys.names, env, 0) && |env| >= 1
      requires q.TokenClient?
      modifies this`sys, this`states, this`trace
      ensures Traced() && Served(old(trace), r, q, env, response)
      ensures response == if env[0].access == None then Failure
                          else Success(Tokens(env[0].access.value, None, None))
      ensures old(sys).now <= sys.now && SameTables(old(sys), sys)
    {
      Begin(r, q, env);
      var clientId := OrElse(q.clientId, DEFAULT_CLIENT);
      StepClientMint(old(trace), r, q, env, 0, clientId);
      response := if env[0].access == None then Failure else Success(Tokens(env[0].access.value, None, None));
      Finish(old(trace), r, q, env, 1, response);
    }

    /** The user with this email and password, if the look-up succeeds. */
    method GetByEmail(c: Choice, username: string, password: string) returns (user: Option<string>)
      requires users == sys.users
      ensures user == Authenticate(cfg, sys, c, username, password)
    {
      if c.row == None || c.row.value !in users || users[c.row.value].email != username {
        return None;
      }
      if !cfg.verifyPassword(users[c.row.value].passwordHash, password) {
        return None;
      }
      user := c.row;
    }

    method HandlePasswordGrant(ghost r: nat, q: Request, env: seq<Choice>) returns (response: Response)
      requires Traced() && users == sys.users && RefreshLinked()
      requires r !in sys.reqs && Timely(sys.now, sys.names, env, 0) && |env| >= 3
      requires q.TokenPassword?
      modifies this`sys, this`states, this`trace, grants`refresh, grants`refreshLog
      ensures Traced() && RefreshLinked() && Served(old(trace), r, q, env, response)
      ensures response.Success? <==>
                && env[0].row.Some? && env[0].row.value in users && users[env[0].row.value].email == q.username
                && cfg.verifyPassword(users[env[0].row.value].passwordHash, q.password) && env[1].access.Some?
                && q.username != "" && q.password != ""
      ensures response.Success? ==>
                var clientId := if q.clientId == "" then "e2e-test" else q.clientId;
                && response.tokens.access == env[1].access.value
                && Backed(response.tokens,
                          Grants.RefreshGrant(env[0].row.value, clientId, q.scope, "", "sid_" + env[0].uuid), env, 2)
      ensures old(sys).now <= sys.now && SameTables(old(sys).(refresh := sys.refresh), sys)
    {
      Begin(r, q, env);
      if q.username == "" || q.password == "" {
        response := Failure;
        Finish(old(trace), r, q, env, 0, response);
      } else {
        var clientId := OrElse(q.clientId, DEFAULT_CLIENT);
        response := PasswordTokens(old(trace), r, q, env, q.username, q.password, clientId, q.scope);
      }
    }

    method PasswordTokens(ghost before: seq<Event>, ghost r: nat, ghost q: Request, env: seq<Choice>,
                          username: string, password: string, clientId: string, scope: string)
      returns (response: Response)
      requires r in sys.reqs && At(before, r, q, env, 0, sys.reqs[r]) && |env| >= 3
      requires sys.reqs[r].PasswordCheck? && sys.reqs[r].username == username && sys.reqs[r].password == password
      requires sys.reqs[r].clientId == clientId && sys.reqs[r].scope == scope && users == sys.users && RefreshLinked()
      modifies this`sys, this`states, this`trace, grants`refresh, grants`refreshLog
      ensures Traced() && RefreshLinked() && Served(before, r, q, env, response)
      ensures response.Success? <==>
                && env[0].row.Some? && env[0].row.value in users && users[env[0].row.value].email == username
                && cfg.verifyPassword(users[env[0].row.value].passwordHash, password) && env[1].access.Some?
      ensures response.Success? ==>
                && response.tokens.access == env[1].access.value
                && Backed(response.tokens,
                          Grants.RefreshGrant(env[0].row.value, clientId, scope, "", "sid_" + env[0].uuid), env, 2)
      ensures old(sys).now <= sys.now && SameTables(old(sys).(refresh := sys.refresh), sys)
    {
      var user := GetByEmail(env[0], username, password);
      StepPassword(before, r, q, env, 0, sys.reqs[r]);
      if user == None {
        response := Failure;
        Finish(before, r, q, env, 1, response);
      } else {
        var sessionId := "sid_" + env[0].uuid;
        response := TokensOrFailure(before, r, q, env, sys.reqs[r].g, user.value, clientId, scope, sessionId);
      }
    }

    method TokensOrFailure(ghost before: seq<Event>, ghost r: nat, ghost q: Request, env: seq<Choice>, ghost g: Grantee,
                           userId: string, clientId: string, scope: string, sessionId: string)
      returns (response: Response)
      requires At(before, r, q, env, 1, Mint(g)) && RefreshLinked() && |env| >= 3 && !g.src.FromCode?
      requires g.sub == userId && g.client == clientId && g.scope == scope && g.sid == sessionId
      modifies this`sys, this`states, this`trace, grants`refresh, grants`refreshLog
      ensures Traced() && RefreshLinked() && Served(before, r, q, env, response)
      ensures response.Success? <==> env[1].access.Some?
      ensures response.Success? ==>
                && response.tokens.access == env[1].access.value
                && Backed(response.tokens, Grants.RefreshGrant(userId, clientId, scope, "", sessionId), env, 2)
      ensures old(sys).now <= sys.now && SameTables(old(sys).(refresh := sys.refresh), sys)
    {
      var resp, taken := IssueTokens(before, r, q, env, 1, g, userId, clientId, scope, sessionId);
      response := if resp == None then Failure else Success(resp.value);
      Finish(before, r, q, env, taken, response);
    }

    method HandleAuthorizationCode(ghost r: nat, q: Request, env: seq<Choice>) returns (response: Response)
      requires Traced() && users == sys.users && CodesLinked() && RefreshLinked() && ReplayLinked()
      requires r !in sys.reqs && Timely(sys.now, sys.names, env, 0) && |env| >= 5
      requires q.TokenCode? && RegistryLinked()
      modifies this`sys, this`states, this`trace
      modifies grants`codes, grants`codeLog, grants`refresh, grants`refreshLog, replay
      ensures Traced() && CodesLinked() && RefreshLinked() && ReplayLinked()
      ensures Served(old(trace), r, q, env, response)
      ensures q.q.code != "" && q.q.code in old(grants.codes) && env[0].t1 <= old(grants.codes)[q.q.code].expiresAt ==>
                ExchangedWell(old(grants.codes)[q.q.code].grant, q.q, env, response)
      ensures old(sys).now <= sys.now
      ensures SameTables(old(sys).(codes := sys.codes, refresh := sys.refresh, replay := sys.replay), sys)
      ensures response.Success? ==> Exchanged(r, q.q.code, response.tokens)
    {
      Begin(r, q, env);
      var cq := q.q;
      if cq.code == "" {
        Finish(old(trace), r, q, env, 0, Failure);
        return Failure;
      }
      response := ConsumeAndExchange(old(trace), r, q, env, cq);
    }

    /** The exchange of a live code succeeds exactly if it passes the gates, the user is there and the issuer
        works; its tokens are for what was saved with the code. */
    ghost predicate ExchangedWell(ac: Grants.AuthCode, cq: CodeQuery, env: seq<Choice>, response: Response)
      requires |env| >= 5
      reads this`users, grants`refresh
    {
      && (response.Success? <==> Gates(cfg, ac, cq) && env[1].dbOk && ac.userId in users && env[2].access.Some?)
      && (response.Success? ==>
            && response.tokens.access == env[2].access.value
            && Backed(response.tokens,
                      Grants.RefreshGrant(ac.userId, ac.clientId, ac.scope, "",
                                          OrElse(ac.sessionId, "sid_" + env[1].uuid)), env, 3))
    }

    method ConsumeAndExchange(ghost before: seq<Event>, ghost r: nat, ghost q: Request, env: seq<Choice>, cq: CodeQuery)
      returns (response: Response)
      requires At(before, r, q, env, 0, CodeConsume(cq)) && |env| >= 5
      requires users == sys.users && RegistryLinked() && CodesLinked() && RefreshLinked() && ReplayLinked()
      modifies this`sys, this`states, this`trace
      modifies grants`codes, grants`codeLog, grants`refresh, grants`refreshLog, replay
      ensures Traced() && CodesLinked() && RefreshLinked() && ReplayLinked()
      ensures Served(before, r, q, env, response)
      ensures TtlTable.Find(old(grants.codes), cq.code, env[0].t1).Some? ==>
                ExchangedWell(TtlTable.Find(old(grants.codes), cq.code, env[0].t1).value, cq, env, response)
      ensures old(sys).now <= sys.now
      ensures SameTables(old(sys).(codes := sys.codes, refresh := sys.refresh, replay := sys.replay), sys)
      ensures response.Success? ==> Exchanged(r, cq.code, response.tokens)
    {
      var ac := ConsumeCode(before, r, q, env, 0, cq);
      if ac == None {
        response := ReplayExchange(before, r, q, env, cq.code);
        return;
      }
      response := ExchangeIfPassed(before, r, q, env, cq, ac.value);
    }

    method ExchangeIfPassed(ghost before: seq<Event>, ghost r: nat, ghost q: Request, env: seq<Choice>, cq: CodeQuery,
                            ac: Grants.AuthCode)
      returns (response: Response)
      requires At(before, r, q, env, 1, AfterConsume(cfg, Some(ac), cq))
      requires users == sys.users && RegistryLinked() && RefreshLinked() && ReplayLinked() && |env| >= 5
      modifies this`sys, this`states, this`trace, grants`refresh, grants`refreshLog, replay
      ensures Traced() && RefreshLinked() && ReplayLinked() && Served(before, r, q, env, response)
      ensures ExchangedWell(ac, cq, env, response)
      ensures old(sys).now <= sys.now
      ensures SameTables(old(sys).(refresh := sys.refresh, replay := sys.replay), sys)
      ensures response.Success? ==> Exchanged(r, cq.code, response.tokens)
    {
      var passed := PassesGates(ac, cq);
      if passed {
        response := ExchangeCode(before, r, q, env, cq, ac);
      } else {
        response := Failure;
        Finish(before, r, q, env, 1, response);
      }
    }

    /** The code is not held any more: the response of an earlier exchange may still be in the cache. */
    method ReplayExchange(ghost before: seq<Event>, ghost r: nat, ghost q: Request, env: seq<Choice>, code: string)
      returns (response: Response)
      requires At(before, r, q, env, 1, CodeReplay(code)) && ReplayLinked() && |env| >= 3
      modifies this`sys, this`states, this`trace
      ensures Traced() && Served(before, r, q, env, response)
      ensures old(sys).now <= sys.now && SameTables(old(sys), sys)
      ensures response.Success? ==> Exchanged(r, code, response.tokens)
    {
      var entry := LoadReplay(before, r, q, env, 1, code);
      StepCodeReplayCheck(before, r, q, env, 2, code, entry);
      response := if entry.Some? && env[2].t1 < entry.value.expires then Success(entry.value.body) else Failure;
      Finish(before, r, q, env, 3, response);
    }

    /** The gates in the order in which they are tried. */
    method PassesGates(ac: Grants.AuthCode, cq: CodeQuery) returns (passed: bool)
      requires RegistryLinked()
      ensures passed <==> Gates(cfg, ac, cq)
      ensures passed <==>
                && (cq.clientId == "" || cq.clientId == ac.clientId)
                && (cq.redirectURI == "" || cfg.normalizeURI(cq.redirectURI) == cfg.normalizeURI(ac.redirectUri))
                && (ac.codeChallenge == "" ||
                    (cq.codeVerifier != ""
                     && Pkce.Transform(cfg.hash, cq.codeVerifier, ac.codeChallengeMethod) == Some(ac.codeChallenge)))
                && (cfg.hasRegistry && registry.requireSecretForCodes && ac.clientId in registry.clients
                    && registry.clients[ac.clientId].clientSecret != "" ==>
                      cq.clientSecret == registry.clients[ac.clientId].clientSecret)
    {
      GatesSpelledOut(cfg, ac, cq);
      if cq.clientId != "" && ac.clientId != cq.clientId {
        return false;
      }
      if cq.redirectURI != "" && cfg.normalizeURI(ac.redirectUri) != cfg.normalizeURI(cq.redirectURI) {
        return false;
      }
      if ac.codeChallenge != "" {
        if Pkce.Verify(cfg.hash, cq.codeVerifier, ac.codeChallenge, ac.codeChallengeMethod) != None {
          return false;
        }
      }
      if cfg.hasRegistry && registry.requireSecretForCodes {
        var confidential := registry.IsConfidential(ac.clientId);
        if confidential {
          var accepted := registry.ValidateSecret(ac.clientId, cq.clientSecret);
          if !accepted {
            return false;
          }
        }
      }
      passed := true;
    }

    method ExchangeCode(ghost before: seq<Event>, ghost r: nat, ghost q: Request, env: seq<Choice>, cq: CodeQuery,
                        ac: Grants.AuthCode)
      returns (response: Response)
      requires At(before, r, q, env, 1, CodeUser(cq.code, ac, OrElse(cq.clientId, ac.clientId)))
      requires users == sys.users && RefreshLinked() && ReplayLinked() && |env| >= 5
      modifies this`sys, this`states, this`trace, grants`refresh, grants`refreshLog, replay
      ensures Traced() && RefreshLinked() && ReplayLinked() && Served(before, r, q, env, response)
      ensures response.Success? <==> env[1].dbOk && ac.userId in users && env[2].access.Some?
      ensures response.Success? ==>
                && response.tokens.access == env[2].access.value
                && Backed(response.tokens,
                          Grants.RefreshGrant(ac.userId, OrElse(cq.clientId, ac.clientId), ac.scope, "",
                                              OrElse(ac.sessionId, "sid_" + env[1].uuid)), env, 3)
      ensures old(sys).now <= sys.now
      ensures SameTables(old(sys).(refresh := sys.refresh, replay := sys.replay), sys)
      ensures response.Success? ==> Exchanged(r, cq.code, response.tokens)
    {
      var clientId := if cq.clientId != "" then cq.clientId else ac.clientId;
      StepCodeUser(before, r, q, env, 1, cq.code, ac, clientId);
      if !env[1].dbOk || ac.userId !in users {
        Finish(before, r, q, env, 2, Failure);
        return Failure;
      }
      var sessionId := if ac.sessionId == "" then "sid_" + env[1].uuid else ac.sessionId;
      response := IssueForCode(before, r, q, env, cq.code, sys.reqs[r].g, ac.userId, clientId, ac.scope, sessionId);
    }

    /** The tokens of a first exchange are cached before they are returned. */
    method IssueForCode(ghost before: seq<Event>, ghost r: nat, ghost q: Request, env: seq<Choice>, code: string,
                        ghost g: Grantee,
                        userId: string, clientId: string, scope: string, sessionId: string)
      returns (response: Response)
      requires At(before, r, q, env, 2, Mint(g)) && RefreshLinked() && ReplayLinked() && |env| >= 5
      requires g.src == FromCode(code) && g.sub == userId && g.client == clientId && g.scope == scope
      requires g.sid == sessionId
      modifies this`sys, this`states, this`trace, grants`refresh, grants`refreshLog, replay
      ensures Traced() && RefreshLinked() && ReplayLinked() && Served(before, r, q, env, response)
      ensures response.Success? <==> env[2].access.Some?
      ensures response.Success? ==>
                && response.tokens.access == env[2].access.value
                && Backed(response.tokens, Grants.RefreshGrant(userId, clientId, scope, "", sessionId), env, 3)
      ensures old(sys).now <= sys.now
      ensures SameTables(old(sys).(refresh := sys.refresh, replay := sys.replay), sys)
      ensures response.Success? ==> Exchanged(r, code, response.tokens)
    {
      var resp, taken := IssueTokens(before, r, q, env, 2, g, userId, clientId, scope, sessionId);
      if resp == None {
        Finish(before, r, q, env, taken, Failure);
        return Failure;
      }
      response := CacheAndAnswer(before, r, q, env, taken, code, resp.value);
    }

    method CacheAndAnswer(ghost before: seq<Event>, ghost r: nat, ghost q: Request, env: seq<Choice>, i: nat,
                          code: string, tokens: Tokens)
      returns (response: Response)
      requires At(before, r, q, env, i, Cache(code, tokens)) && ReplayLinked()
      modifies this`sys, this`states, this`trace, replay
      ensures Traced() && ReplayLinked() && Served(before, r, q, env, response)
      ensures response == Success(tokens)
      ensures old(sys).now <= sys.now && SameTables(old(sys).(replay := sys.replay), sys)
      ensures response.Success? ==> Exchanged(r, code, response.tokens)
    {
      StoreReplay(before, r, q, env, i, code, tokens);
      response := Success(tokens);
      Finish(before, r, q, env, i + 1, response);
    }

    method HandleRefreshToken(ghost r: nat, q: Request, env: seq<Choice>) returns (response: Response)
      requires Traced() && RefreshLinked()
      requires r !in sys.reqs && Timely(sys.now, sys.names, env, 0) && |env| >= 3
      requires q.TokenRefresh?
      modifies this`sys, this`states, this`trace, grants`refresh, grants`refreshLog
      ensures Traced() && RefreshLinked() && Served(old(trace), r, q, env, response)
      ensures response.Success? <==>
                && q.token != "" && q.token in old(grants.refresh)
                && env[0].t1 <= old(grants.refresh)[q.token].expiresAt
                && (q.clientId == "" || q.clientId == old(grants.refresh)[q.token].grant.clientId)
                && env[1].access.Some?
      ensures response.Success? ==>
                var rg := old(grants.refresh)[q.token].grant;
                && response.tokens.access == env[1].access.value
                && Backed(response.tokens, rg.(audience := "", sessionId := OrElse(rg.sessionId, "sid_" + env[0].uuid)),
                          env, 2)
      ensures old(sys).now <= sys.now && SameTables(old(sys).(refresh := sys.refresh), sys)
    {
      Begin(r, q, env);
      if q.token == "" {
        response := Failure;
        Finish(old(trace), r, q, env, 0, response);
      } else {
        response := ConsumeAndRotate(old(trace), r, q, env, q.token, q.clientId);
      }
    }

    method ConsumeAndRotate(ghost before: seq<Event>, ghost r: nat, ghost q: Request, env: seq<Choice>,
                            token: string, clientId: string)
      returns (response: Response)
      requires At(before, r, q, env, 0, RefreshConsume(token, clientId)) && RefreshLinked() && |env| >= 3
      modifies this`sys, this`states, this`trace, grants`refresh, grants`refreshLog
      ensures Traced() && RefreshLinked() && Served(before, r, q, env, response)
      ensures response.Success? <==> Refreshable(old(grants.refresh), token, clientId, env[0].t1) && env[1].access.Some?
      ensures response.Success? ==>
                var rg := old(grants.refresh)[token].grant;
                && response.tokens.access == env[1].access.value
                && Backed(response.tokens, rg.(audience := "", sessionId := OrElse(rg.sessionId, "sid_" + env[0].uuid)),
                          env, 2)
      ensures old(sys).now <= sys.now && SameTables(old(sys).(refresh := sys.refresh), sys)
    {
      var rg := ConsumeRefreshToken(before, r, q, env, 0, token, clientId);
      if rg == None || (clientId != "" && rg.value.clientId != clientId) {
        response := Failure;
        Finish(before, r, q, env, 1, response);
      } else {
        var sessionId := if rg.value.sessionId == "" then "sid_" + env[0].uuid else rg.value.sessionId;
        response := TokensOrFailure(before, r, q, env, sys.reqs[r].g, rg.value.userId, rg.value.clientId,
                                    rg.value.scope,
                                    sessionId);
      }
    }

    // ----- the device endpoints -----

    method HandleDeviceCodeToken(ghost r: nat, q: Request, env: seq<Choice>) returns (response: Response)
      requires Traced() && users == sys.users && DevicesLinked()
      requires r !in sys.reqs && Timely(sys.now, sys.names, env, 0) && |env| >= 6
      requires q.TokenDevice?
      modifies this`sys, this`states, this`trace, grants`devices, grants`userCodes, grants`tables, grants`deviceLog
      ensures Traced() && DevicesLinked() && Served(old(trace), r, q, env, response)
      ensures response.Success? <==> q.device != "" && Pollable(old(grants.tables), q.device, env, users)
      ensures old(sys).now <= sys.now && SameTables(old(sys).(dev := sys.dev), sys)
    {
      Begin(r, q, env);
      if q.device == "" {
        Finish(old(trace), r, q, env, 0, Failure);
        return Failure;
      }
      response := PollDevice(old(trace), r, q, env, q.device);
    }

    method PollDevice(ghost before: seq<Event>, ghost r: nat, ghost q: Request, env: seq<Choice>, device: string)
      returns (response: Response)
      requires At(before, r, q, env, 0, DeviceLookup(device)) && users == sys.users && DevicesLinked() && |env| >= 6
      modifies this`sys, this`states, this`trace, grants`devices, grants`userCodes, grants`tables, grants`deviceLog
      ensures Traced() && DevicesLinked() && Served(before, r, q, env, response)
      ensures response.Success? <==> Pollable(old(sys).dev, device, env, users)
      ensures old(sys).now <= sys.now && SameTables(old(sys).(dev := sys.dev), sys)
    {
      ghost var held := sys.dev;
      var dc := GetDeviceCode(before, r, q, env, 0, device);
      assert Usable(sys.now, sys.names, env, 1);
      response := PollFound(before, r, q, env, device, dc, held);
    }

    method PollFound(ghost before: seq<Event>, ghost r: nat, ghost q: Request, env: seq<Choice>, device: string,
                     dc: Grants.DeviceCode?, ghost held: Devices.Tables)
      returns (response: Response)
      requires At(before, r, q, env, 1, if dc == null then Done(Refused) else DeviceDenied(device))
      requires users == sys.users && DevicesLinked() && |env| >= 6
      requires dc != null ==> device in sys.dev.live && device in sys.dev.recs && dc.Value() == sys.dev.recs[device]
      requires held.recs == sys.dev.recs && (dc != null <==> Devices.Found(held, device, env[0].t2))
      modifies this`sys, this`states, this`trace, grants`devices, grants`userCodes, grants`tables, grants`deviceLog
      ensures Traced() && DevicesLinked() && Served(before, r, q, env, response)
      ensures response.Success? <==> Pollable(held, device, env, users)
      ensures old(sys).now <= sys.now && SameTables(old(sys).(dev := sys.dev), sys)
    {
      if dc == null {
        response := Failure;
        Finish(before, r, q, env, 1, response);
      } else {
        response := RedeemIfReady(before, r, q, env, device, dc);
      }
    }

    method RedeemIfReady(ghost before: seq<Event>, ghost r: nat, ghost q: Request, env: seq<Choice>, device: string,
                         dc: Grants.DeviceCode)
      returns (response: Response)
      requires At(before, r, q, env, 1, DeviceDenied(device)) && users == sys.users && DevicesLinked() && |env| >= 6
      requires device in sys.dev.recs && dc.Value() == sys.dev.recs[device]
      modifies this`sys, this`states, this`trace, grants`devices, grants`userCodes, grants`tables, grants`deviceLog
      ensures Traced() && DevicesLinked() && Served(before, r, q, env, response)
      ensures response.Success? <==> !old(sys).dev.recs[device].denied && Redeemable(old(sys).dev, device, env, users)
      ensures old(sys).now <= sys.now && SameTables(old(sys).(dev := sys.dev), sys)
    {
      var ready := TestFlags(before, r, q, env, device, dc);
      if ready {
        response := RedeemDevice(before, r, q, env, device);
      } else {
        response := Failure;
      }
    }

    method TestFlags(ghost before: seq<Event>, ghost r: nat, ghost q: Request, env: seq<Choice>,
                     ghost device: string, dc: Grants.DeviceCode)
      returns (ready: bool)
      requires At(before, r, q, env, 1, DeviceDenied(device)) && DevicesLinked() && |env| >= 6
      requires device in sys.dev.recs && dc.Value() == sys.dev.recs[device]
      modifies this`sys, this`states, this`trace
      ensures Traced() && DevicesLinked() && old(sys).now <= sys.now && SameTables(old(sys), sys)
      ensures ready <==> !old(sys).dev.recs[device].denied && old(sys).dev.recs[device].authorized
      ensures if ready then At(before, r, q, env, 3, DeviceConsume(device)) else Served(before, r, q, env, Failure)
    {
      ready := ReadFlags(before, r, q, env, device, dc);
      DevicesStay();
    }

    /** The flags are read from the shared object, without a lock: one step each. */
    method ReadFlags(ghost before: seq<Event>, ghost r: nat, ghost q: Request, env: seq<Choice>,
                     ghost device: string, dc: Grants.DeviceCode)
      returns (ready: bool)
      requires At(before, r, q, env, 1, DeviceDenied(device)) && |env| >= 6
      requires device in sys.dev.recs && dc.Value() == sys.dev.recs[device]
      modifies this`sys, this`states, this`trace
      ensures Traced() && old(sys).now <= sys.now && SameTables(old(sys), sys)
      ensures ready <==> !old(sys).dev.recs[device].denied && old(sys).dev.recs[device].authorized
      ensures if ready then At(before, r, q, env, 3, DeviceConsume(device)) else Served(before, r, q, env, Failure)
    {
      StepDeviceDenied(before, r, q, env, 1, device);
      if dc.accessDenied {
        Finish(before, r, q, env, 2, Failure);
        return false;
      }
      StepDeviceAuthorized(before, r, q, env, 2, device);
      if !dc.userAuthorized {
        Finish(before, r, q, env, 3, Failure);
        return false;
      }
      ready := true;
    }

    method RedeemDevice(ghost before: seq<Event>, ghost r: nat, ghost q: Request, env: seq<Choice>, device: string)
      returns (response: Response)
      requires At(before, r, q, env, 3, DeviceConsume(device)) && users == sys.users && DevicesLinked() && |env| >= 6
      modifies this`sys, this`states, this`trace, grants`devices, grants`userCodes, grants`tables, grants`deviceLog
      ensures Traced() && DevicesLinked() && Served(before, r, q, env, response)
      ensures response.Success? <==> Redeemable(old(sys).dev, device, env, users)
      ensures old(sys).now <= sys.now && SameTables(old(sys).(dev := sys.dev), sys)
    {
      ghost var held := sys.dev;
      var grant := ConsumeDeviceCode(before, r, q, env, 3, device);
      response := IssueForDevice(before, r, q, env, device, grant, held);
    }

    method GetDeviceCode(ghost before: seq<Event>, ghost r: nat, ghost q: Request, env: seq<Choice>, i: nat,
                         device: string)
      returns (dc: Grants.DeviceCode?)
      requires At(before, r, q, env, i, DeviceLookup(device)) && DevicesLinked()
      modifies this`sys, this`states, this`trace, grants`devices, grants`userCodes, grants`tables, grants`deviceLog
      ensures DevicesLinked() && sys.dev.recs == old(sys).dev.recs
      ensures dc != null <==> Devices.Found(old(sys).dev, device, env[i].t2)
      ensures Went(before, r, q, env, i + 1, old(sys).(dev := sys.dev),
                   if dc == null then Done(Refused) else DeviceDenied(device))
      ensures dc != null ==> device in sys.dev.live && device in sys.dev.recs && dc.Value() == sys.dev.recs[device]
    {
      StepDeviceLookup(before, r, q, env, i, device);
      dc := grants.GetDeviceCode(device, env[i].t1, env[i].t2);
    }

    method ConsumeDeviceCode(ghost before: seq<Event>, ghost r: nat, ghost q: Request, env: seq<Choice>, i: nat,
                             device: string)
      returns (dc: Grants.DeviceCode?)
      requires At(before, r, q, env, i, DeviceConsume(device)) && DevicesLinked()
      modifies this`sys, this`states, this`trace, grants`devices, grants`userCodes, grants`tables, grants`deviceLog
      ensures DevicesLinked() && sys.dev.recs == old(sys).dev.recs
      ensures dc != null <==> Devices.Consumable(old(sys).dev, device, env[i].t1)
      ensures Went(before, r, q, env, i + 1, old(sys).(dev := sys.dev),
                   if dc == null then Done(Refused) else DeviceUser(device))
      ensures dc != null ==> device in sys.dev.recs && dc.Value() == sys.dev.recs[device]
    {
      StepDeviceConsume(before, r, q, env, i, device);
      dc := grants.ConsumeDeviceCode(device, env[i].t1);
    }

    /** The consumed object is no longer in the store, and still says whom the tokens are for. */
    method IssueForDevice(ghost before: seq<Event>, ghost r: nat, ghost q: Request, env: seq<Choice>,
                          ghost device: string, dc: Grants.DeviceCode?, ghost held: Devices.Tables)
      returns (response: Response)
      requires At(before, r, q, env, 4, if dc == null then Done(Refused) else DeviceUser(device))
      requires users == sys.users && DevicesLinked() && |env| >= 6
      requires dc != null ==> device in sys.dev.recs && dc.Value() == sys.dev.recs[device]
      requires held.recs == sys.dev.recs && (dc != null <==> Devices.Consumable(held, device, env[3].t1))
      modifies this`sys, this`states, this`trace
      ensures Traced() && DevicesLinked() && Served(before, r, q, env, response)
      ensures response.Success? <==> Redeemable(held, device, env, users)
      ensures old(sys).now <= sys.now && SameTables(old(sys), sys)
    {
      if dc == null {
        response := Failure;
        Finish(before, r, q, env, 4, response);
      } else {
        response := TokensForUser(before, r, q, env, device, dc.userId, dc.scope);
        DevicesStay();
      }
    }

    method TokensForUser(ghost before: seq<Event>, ghost r: nat, ghost q: Request, env: seq<Choice>,
                         ghost device: string,
                         userId: string, scope: string)
      returns (response: Response)
      requires At(before, r, q, env, 4, DeviceUser(device)) && users == sys.users && |env| >= 6
      requires device in sys.dev.recs && sys.dev.recs[device].userId == userId && sys.dev.recs[device].scope == scope
      modifies this`sys, this`states, this`trace
      ensures Traced() && Served(before, r, q, env, response)
      ensures response.Success? <==> env[4].dbOk && userId in users && env[5].access.Some?
      ensures old(sys).now <= sys.now && SameTables(old(sys), sys)
    {
      StepDeviceUser(before, r, q, env, 4, device);
      if env[4].dbOk && userId in users {
        response := MintForDevice(before, r, q, env, device, scope);
      } else {
        response := Failure;
        Finish(before, r, q, env, 5, response);
      }
    }

    method MintForDevice(ghost before: seq<Event>, ghost r: nat, ghost q: Request, env: seq<Choice>,
                         ghost device: string, scope: string)
      returns (response: Response)
      requires At(before, r, q, env, 5, DeviceMint(device)) && |env| >= 6
      requires device in sys.dev.recs && sys.dev.recs[device].scope == scope
      modifies this`sys, this`states, this`trace
      ensures Traced() && Served(before, r, q, env, response)
      ensures response.Success? <==> env[5].access.Some?
      ensures old(sys).now <= sys.now && SameTables(old(sys), sys)
    {
      StepDeviceMint(before, r, q, env, 5, device);
      if env[5].access == None {
        response := Failure;
      } else {
        var tokens := Tokens(env[5].access.value, None, None);
        if Contains(scope, "openid") {
          tokens := tokens.(id := env[5].id);
        }
        response := Success(tokens);
      }
      Finish(before, r, q, env, 6, response);
    }

    /** The grant types that touch no more than refresh tokens. */
    method HandleSimpleToken(ghost r: nat, q: Request, env: seq<Choice>) returns (response: Response)
      requires Linked() && r !in sys.reqs && Timely(sys.now, sys.names, env, 0) && |env| >= 3
      requires q.TokenClient? || q.TokenPassword? || q.TokenRefresh?
      modifies this`sys, this`states, this`trace, grants`refresh, grants`refreshLog
      ensures Linked() && Served(old(trace), r, q, env, response)
    {
      if q.TokenClient? {
        response := HandleClientCredentials(r, q, env);
        RefreshStay();
      } else if q.TokenPassword? {
        response := HandlePasswordGrant(r, q, env);
      } else {
        response := HandleRefreshToken(r, q, env);
      }
      CodesStay();
      ReplayStay();
      DevicesStay();
      SessionsStay();
    }

    method HandleToken(ghost r: nat, q: Request, env: seq<Choice>) returns (response: Response)
      requires Linked() && r !in sys.reqs && Timely(sys.now, sys.names, env, 0) && |env| >= 6
      requires q.TokenClient? || q.TokenPassword? || q.TokenCode? || q.TokenRefresh? || q.TokenDevice?
      modifies this`sys, this`states, this`trace, replay
      modifies grants`codes, grants`codeLog, grants`refresh, grants`refreshLog
      modifies grants`devices, grants`userCodes, grants`tables, grants`deviceLog
      ensures Linked() && Served(old(trace), r, q, env, response)
      ensures q.TokenCode? && response.Success? ==> Exchanged(r, q.q.code, response.tokens)
    {
      if q.TokenDevice? {
        response := HandleDeviceCodeToken(r, q, env);
        CodesStay();
        RefreshStay();
        ReplayStay();
        SessionsStay();
      } else if q.TokenCode? {
        response := HandleAuthorizationCode(r, q, env);
        DevicesStay();
        SessionsStay();
      } else {
        response := HandleSimpleToken(r, q, env);
      }
    }

    method HandleRevoke(ghost r: nat, q: Request, env: seq<Choice>) returns (response: Response)
      requires Traced() && RefreshLinked()
      requires r !in sys.reqs && Timely(sys.now, sys.names, env, 0) && |env| >= 1
      requires q.RevokeRequest?
      modifies this`sys, this`states, this`trace, grants`refresh, grants`refreshLog
      ensures Traced() && RefreshLinked() && Served(old(trace), r, q, env, response)
      ensures old(sys).now <= sys.now && SameTables(old(sys).(refresh := sys.refresh), sys)
      ensures response == Page
      ensures grants.refresh == if q.token != "" && (q.hint == "refresh_token" || "rt_" <= q.token)
                                then old(grants.refresh) - {q.token} else old(grants.refresh)
    {
      Begin(r, q, env);
      response := Page;
      if q.token == "" {
        Finish(old(trace), r, q, env, 0, Page);
        return;
      }
      if q.hint == "refresh_token" || "rt_" <= q.token {
        RevokeRefreshToken(old(trace), r, q, env, 0, q.token);
        Finish(old(trace), r, q, env, 1, Page);
        return;
      }
      Finish(old(trace), r, q, env, 0, Page);
    }

    method HandleDeviceCodeRequest(ghost r: nat, q: Request, env: seq<Choice>) returns (response: Response)
      requires Traced() && DevicesLinked()
      requires r !in sys.reqs && Timely(sys.now, sys.names, env, 0) && |env| >= 1
      requires q.DeviceRequest?
      modifies this`sys, this`states, this`trace, grants`devices, grants`userCodes, grants`tables, grants`deviceLog
      ensures Traced() && DevicesLinked() && Served(old(trace), r, q, env, response)
      ensures response == Page
      ensures var device := "dc_" + env[0].uuid;
              && device in grants.devices && device in grants.tables.recs
              && grants.tables.recs[device] ==
                   Devices.Record(device, env[0].userCode, "", if q.clientId == "" then "e2e-test" else q.clientId,
                                  if q.scope == "" then "openid" else q.scope, q.audience,
                                  env[0].stamp + cfg.deviceTTL, 5, false, false, false)
              && Devices.Norm(env[0].userCode) in grants.tables.index
              && grants.tables.index[Devices.Norm(env[0].userCode)] == device
      ensures old(sys).now <= sys.now && SameTables(old(sys).(dev := sys.dev), sys)
    {
      Begin(r, q, env);
      DevicesStay();
      response := AnswerDeviceRequest(old(trace), r, q, env, OrElse(q.clientId, DEFAULT_CLIENT),
                                      OrElse(q.scope, "openid"),
                                      q.audience);
    }

    method AnswerDeviceRequest(ghost before: seq<Event>, ghost r: nat, ghost q: Request, env: seq<Choice>,
                               clientId: string, scope: string, audience: string)
      returns (response: Response)
      requires At(before, r, q, env, 0, DeviceSave(clientId, scope, audience)) && DevicesLinked()
      modifies this`sys, this`states, this`trace, grants`devices, grants`userCodes, grants`tables, grants`deviceLog
      ensures Traced() && DevicesLinked() && Served(before, r, q, env, response)
      ensures response == Page
      ensures var device := "dc_" + env[0].uuid;
              && device in grants.devices && device in grants.tables.recs
              && grants.tables.recs[device] ==
                   Devices.Record(device, env[0].userCode, "", clientId, scope, audience,
                                  env[0].stamp + cfg.deviceTTL, 5, false, false, false)
              && Devices.Norm(env[0].userCode) in grants.tables.index
              && grants.tables.index[Devices.Norm(env[0].userCode)] == device
      ensures old(sys).now <= sys.now && SameTables(old(sys).(dev := sys.dev), sys)
    {
      SaveDeviceCode(before, r, q, env, 0, clientId, scope, audience);
      response := Page;
      Finish(before, r, q, env, 1, response);
    }

    method SaveDeviceCode(ghost before: seq<Event>, ghost r: nat, ghost q: Request, env: seq<Choice>, i: nat,
                          clientId: string, scope: string, audience: string)
      requires At(before, r, q, env, i, DeviceSave(clientId, scope, audience)) && DevicesLinked()
      modifies this`sys, this`states, this`trace, grants`devices, grants`userCodes, grants`tables, grants`deviceLog
      ensures DevicesLinked()
      ensures var device := "dc_" + env[i].uuid;
              && device in grants.devices && device in grants.tables.recs
              && grants.tables.recs[device] ==
                   Devices.Record(device, env[i].userCode, "", clientId, scope, audience,
                                  env[i].stamp + cfg.deviceTTL, 5, false, false, false)
              && Devices.Norm(env[i].userCode) in grants.tables.index
              && grants.tables.index[Devices.Norm(env[i].userCode)] == device
      ensures Went(before, r, q, env, i + 1, old(sys).(dev := sys.dev), Done(Other))
    {
      StepDeviceSave(before, r, q, env, i, DeviceSave(clientId, scope, audience));
      var deviceCode, userCode := "dc_" + env[i].uuid, env[i].userCode;
      var dc := new Grants.DeviceCode(deviceCode, userCode, clientId, scope, audience);
      grants.SaveDeviceCode(deviceCode, userCode, dc, env[i].stamp, env[i].t1);
    }

    method HandleDeviceAuthorize(ghost r: nat, q: Request, env: seq<Choice>) returns (response: Response)
      requires Traced() && users == sys.users && DevicesLinked()
      requires r !in sys.reqs && Timely(sys.now, sys.names, env, 0) && |env| >= 2
      requires q.DeviceForm?
      modifies this`sys, this`states, this`trace
      modifies grants`tables, grants`deviceLog, grants.devices.Values`userAuthorized, grants.devices.Values`userId
      modifies grants.devices.Values`accessDenied
      ensures Traced() && DevicesLinked() && Served(old(trace), r, q, env, response)
      ensures old(sys).now <= sys.now && SameTables(old(sys).(dev := sys.dev), sys)
    {
      Begin(r, q, env);
      DevicesStay();
      response := AnswerDeviceForm(old(trace), r, q, env);
    }

    method AnswerDeviceForm(ghost before: seq<Event>, ghost r: nat, q: Request,
                            env: seq<Choice>) returns (response: Response)
      requires Traced() && users == sys.users && DevicesLinked() && |env| >= 2
      requires q.DeviceForm? && Serving(before, r, q, env, 0) && sys.reqs[r] == Admit(cfg, q)
      modifies this`sys, this`states, this`trace
      modifies grants`tables, grants`deviceLog, grants.devices.Values`userAuthorized, grants.devices.Values`userId
      modifies grants.devices.Values`accessDenied
      ensures Traced() && DevicesLinked() && Served(before, r, q, env, response)
      ensures old(sys).now <= sys.now && SameTables(old(sys).(dev := sys.dev), sys)
    {
      if q.userCode == "" || (!q.deny && (q.username == "" || q.password == "")) {
        Finish(before, r, q, env, 0, Failure);
        return Failure;
      }
      if q.deny {
        response := DenyDevice(before, r, q, env, q.userCode);
      } else {
        response := ApproveDevice(before, r, q, env, q.userCode, q.username, q.password);
      }
    }

    method DenyDevice(ghost before: seq<Event>, ghost r: nat, ghost q: Request, env: seq<Choice>, userCode: string)
      returns (response: Response)
      requires At(before, r, q, env, 0, DeviceDeny(userCode)) && DevicesLinked()
      modifies this`sys, this`states, this`trace, grants`tables, grants`deviceLog, grants.devices.Values`accessDenied
      ensures Traced() && DevicesLinked() && Served(before, r, q, env, response)
      ensures old(sys).now <= sys.now && SameTables(old(sys).(dev := sys.dev), sys)
    {
      DenyDeviceCode(before, r, q, env, 0, userCode);
      response := Page;
      Finish(before, r, q, env, 1, response);
    }

    method DenyDeviceCode(ghost before: seq<Event>, ghost r: nat, ghost q: Request, env: seq<Choice>, i: nat,
                          userCode: string)
      requires At(before, r, q, env, i, DeviceDeny(userCode)) && DevicesLinked()
      modifies this`sys, this`states, this`trace, grants`tables, grants`deviceLog, grants.devices.Values`accessDenied
      ensures DevicesLinked()
      ensures Went(before, r, q, env, i + 1, old(sys).(dev := sys.dev), Done(Other))
    {
      StepDeviceDeny(before, r, q, env, i, userCode);
      var _ := grants.DenyDeviceCode(userCode);
    }

    method ApproveDevice(ghost before: seq<Event>, ghost r: nat, ghost q: Request, env: seq<Choice>,
                         userCode: string, username: string, password: string)
      returns (response: Response)
      requires At(before, r, q, env, 0, DeviceCheck(userCode, username, password)) && users == sys.users
      requires DevicesLinked()
      requires |env| >= 2
      modifies this`sys, this`states, this`trace
      modifies grants`tables, grants`deviceLog, grants.devices.Values`userAuthorized, grants.devices.Values`userId
      ensures Traced() && DevicesLinked() && Served(before, r, q, env, response)
      ensures old(sys).now <= sys.now && SameTables(old(sys).(dev := sys.dev), sys)
    {
      var user := CheckApprover(before, r, q, env, userCode, username, password);
      if user == None {
        response := Failure;
        Finish(before, r, q, env, 1, response);
      } else {
        response := ApproveBy(before, r, q, env, userCode, user.value);
      }
    }

    method CheckApprover(ghost before: seq<Event>, ghost r: nat, ghost q: Request, env: seq<Choice>,
                         ghost userCode: string, username: string, password: string)
      returns (user: Option<string>)
      requires At(before, r, q, env, 0, DeviceCheck(userCode, username, password)) && users == sys.users
      requires DevicesLinked()
      modifies this`sys, this`states, this`trace
      ensures DevicesLinked()
      ensures Went(before, r, q, env, 1, old(sys),
                   if user == None then Done(Refused) else DeviceApprove(userCode, user.value))
    {
      user := GetByEmail(env[0], username, password);
      StepDeviceCheck(before, r, q, env, 0, DeviceCheck(userCode, username, password));
      DevicesStay();
    }

    method ApproveBy(ghost before: seq<Event>, ghost r: nat, ghost q: Request, env: seq<Choice>,
                     userCode: string, userId: string)
      returns (response: Response)
      requires At(before, r, q, env, 1, DeviceApprove(userCode, userId)) && DevicesLinked()
      modifies this`sys, this`states, this`trace, grants`tables, grants`deviceLog
      modifies grants.devices.Values`userAuthorized, grants.devices.Values`userId
      ensures Traced() && DevicesLinked() && Served(before, r, q, env, response)
      ensures old(sys).now <= sys.now && SameTables(old(sys).(dev := sys.dev), sys)
    {
      AuthorizeDeviceCode(before, r, q, env, 1, userCode, userId);
      response := Page;
      Finish(before, r, q, env, 2, response);
    }

    method AuthorizeDeviceCode(ghost before: seq<Event>, ghost r: nat, ghost q: Request, env: seq<Choice>, i: nat,
                               userCode: string, userId: string)
      requires At(before, r, q, env, i, DeviceApprove(userCode, userId)) && DevicesLinked()
      modifies this`sys, this`states, this`trace
      modifies grants`tables, grants`deviceLog, grants.devices.Values`userAuthorized, grants.devices.Values`userId
      ensures DevicesLinked()
      ensures Went(before, r, q, env, i + 1, old(sys).(dev := sys.dev), Done(Other))
    {
      StepDeviceApprove(before, r, q, env, i, userCode, userId);
      var _ := grants.AuthorizeDeviceCode(userCode, userId, env[i].t1);
    }

    // ----- the front channel -----

    method IssueImplicit(ghost before: seq<Event>, ghost r: nat, ghost q: Request, env: seq<Choice>, i: nat,
                         f: Front, ghost userId: string)
      returns (response: Response)
      requires At(before, r, q, env, i, ImplicitMint(f, userId))
      modifies this`sys, this`states, this`trace
      ensures Traced() && Served(before, r, q, env, response)
      ensures old(sys).now <= sys.now && SameTables(old(sys), sys)
    {
      StepImplicitMint(before, r, q, env, i, f, userId);
      if env[i].access == None || (f.wantIdToken && env[i].id == None) {
        response := Failure;
      } else {
        response := Success(Tokens(env[i].access.value, if f.wantIdToken then env[i].id else None, None));
      }
      Finish(before, r, q, env, i + 1, response);
    }

    method CreateSession(ghost before: seq<Event>, ghost r: nat, ghost q: Request, env: seq<Choice>, i: nat,
                         f: Front, userId: string, email: string)
      requires At(before, r, q, env, i, LoginSession(f, userId, email)) && SessionsLinked()
      modifies this`sys, this`states, this`trace, sess
      ensures SessionsLinked()
      ensures Went(before, r, q, env, i + 1, old(sys).(sessions := sys.sessions), AfterSession(f, userId))
    {
      StepLoginSession(before, r, q, env, i, f, userId, email);
      var _, _ := sess.Create(userId, email, env[i].random, env[i].stamp, env[i].t1);
    }

    method GetSession(ghost before: seq<Event>, ghost r: nat, ghost q: Request, env: seq<Choice>, i: nat, f: Front,
                      cookie: string)
      returns (userId: Option<string>)
      requires At(before, r, q, env, i, CookieGet(f, cookie)) && SessionsLinked()
      modifies this`sys, this`states, this`trace, sess, sess.sessions.Values`expiresAt
      ensures SessionsLinked()
      ensures Went(before, r, q, env, i + 1, old(sys).(sessions := sys.sessions),
                   if userId == None then Done(Other) else CookieUser(f, userId.value))
    {
      StepCookieGet(before, r, q, env, i, f, cookie);
      var s, ok := sess.Get(cookie, env[i].t1, env[i].t2, env[i].t3);
      userId := if ok then Some(s.userId) else None;
    }

    method RevokeSession(ghost before: seq<Event>, ghost r: nat, ghost q: Request, env: seq<Choice>, i: nat,
                         cookie: string)
      requires At(before, r, q, env, i, Logout(cookie)) && SessionsLinked()
      modifies this`sys, this`states, this`trace, sess
      ensures SessionsLinked()
      ensures Went(before, r, q, env, i + 1, old(sys).(sessions := sys.sessions), Done(Other))
    {
      StepLogout(before, r, q, env, i, cookie);
      sess.Revoke(cookie);
    }

    /** A new session for the user if there is a session store, then a code or tokens. */
    method FinishLogin(ghost before: seq<Event>, ghost r: nat, ghost q: Request, env: seq<Choice>, f: Front,
                       userId: string)
      returns (response: Response)
      requires userId in users && users == sys.users && |env| >= 3 && CodesLinked() && SessionsLinked()
      requires At(before, r, q, env, 1,
                  if cfg.hasSessions then LoginSession(f, userId, users[userId].email) else AfterSession(f, userId))
      modifies this`sys, this`states, this`trace, grants`codes, grants`codeLog, sess
      ensures Traced() && CodesLinked() && SessionsLinked() && Served(before, r, q, env, response)
      ensures old(sys).now <= sys.now && SameTables(old(sys).(codes := sys.codes, sessions := sys.sessions), sys)
    {
      var i := 1;
      if cfg.hasSessions {
        CreateSession(before, r, q, env, 1, f, userId, users[userId].email);
        i := 2;
      }
      label Created:
      response := CodeOrTokens(before, r, q, env, i, f, userId);
      SessionsStay@Created();
    }

    method CodeOrTokens(ghost before: seq<Event>, ghost r: nat, ghost q: Request, env: seq<Choice>, i: nat, f: Front,
                        userId: string)
      returns (response: Response)
      requires At(before, r, q, env, i, AfterSession(f, userId)) && CodesLinked()
      modifies this`sys, this`states, this`trace, grants`codes, grants`codeLog
      ensures Traced() && CodesLinked() && Served(before, r, q, env, response)
      ensures old(sys).now <= sys.now && SameTables(old(sys).(codes := sys.codes), sys)
    {
      if f.implicit {
        response := IssueImplicit(before, r, q, env, i, f, userId);
        CodesStay();
      } else {
        SaveAuthCode(before, r, q, env, i, f, userId);
        response := Page;
        Finish(before, r, q, env, i + 1, response);
      }
    }

    method LogIn(ghost before: seq<Event>, ghost r: nat, ghost q: Request, env: seq<Choice>, f: Front,
                 username: string, password: string)
      returns (response: Response)
      requires At(before, r, q, env, 0, LoginCheck(f, username, password))
      requires users == sys.users && |env| >= 3 && CodesLinked() && SessionsLinked()
      modifies this`sys, this`states, this`trace, grants`codes, grants`codeLog, sess
      ensures Traced() && CodesLinked() && SessionsLinked() && Served(before, r, q, env, response)
      ensures old(sys).now <= sys.now && SameTables(old(sys).(codes := sys.codes, sessions := sys.sessions), sys)
    {
      var user := GetByEmail(env[0], username, password);
      StepLoginCheck(before, r, q, env, 0, LoginCheck(f, username, password));
      SessionsStay();
      if user == None {
        response := Failure;
        Finish(before, r, q, env, 1, response);
      } else {
        response := AdmitUser(before, r, q, env, f, user.value);
      }
    }

    /** The authorize endpoint starts no session in the implicit flow; the login form always does. */
    method AdmitUser(ghost before: seq<Event>, ghost r: nat, ghost q: Request, env: seq<Choice>, f: Front,
                     userId: string)
      returns (response: Response)
      requires userId in users && users == sys.users && |env| >= 3 && CodesLinked() && SessionsLinked()
      requires At(before, r, q, env, 1,
                  if f.via == Authorize && f.implicit then ImplicitMint(f, userId)
                  else if cfg.hasSessions then LoginSession(f, userId, users[userId].email)
                  else AfterSession(f, userId))
      modifies this`sys, this`states, this`trace, grants`codes, grants`codeLog, sess
      ensures Traced() && CodesLinked() && SessionsLinked() && Served(before, r, q, env, response)
      ensures old(sys).now <= sys.now && SameTables(old(sys).(codes := sys.codes, sessions := sys.sessions), sys)
    {
      if f.via == Authorize && f.implicit {
        response := IssueImplicit(before, r, q, env, 1, f, userId);
        SessionsStay();
      } else {
        response := FinishLogin(before, r, q, env, f, userId);
      }
    }

    method AuthorizeByCookie(ghost before: seq<Event>, ghost r: nat, ghost q: Request, env: seq<Choice>, f: Front,
                             cookie: string)
      returns (response: Response)
      requires At(before, r, q, env, 0, CookieGet(f, cookie))
      requires users == sys.users && |env| >= 3 && CodesLinked() && SessionsLinked()
      modifies this`sys, this`states, this`trace, grants`codes, grants`codeLog, sess, sess.sessions.Values`expiresAt
      ensures Traced() && CodesLinked() && SessionsLinked() && Served(before, r, q, env, response)
      ensures old(sys).now <= sys.now && SameTables(old(sys).(codes := sys.codes, sessions := sys.sessions), sys)
    {
      var userId := GetSession(before, r, q, env, 0, f, cookie);
      CodeForSession(before, r, q, env, f, userId);
      response := Page;
    }

    method CodeForSession(ghost before: seq<Event>, ghost r: nat, ghost q: Request, env: seq<Choice>, f: Front,
                          user: Option<string>)
      requires At(before, r, q, env, 1, if user == None then Done(Other) else CookieUser(f, user.value))
      requires users == sys.users && |env| >= 3 && CodesLinked() && SessionsLinked()
      modifies this`sys, this`states, this`trace, grants`codes, grants`codeLog
      ensures Traced() && CodesLinked() && SessionsLinked() && Served(before, r, q, env, Page)
      ensures old(sys).now <= sys.now && SameTables(old(sys).(codes := sys.codes), sys)
    {
      if user == None {
        Finish(before, r, q, env, 1, Page);
      } else {
        CodeIfUserExists(before, r, q, env, f, user.value);
        SessionsStay();
      }
    }

    method CodeIfUserExists(ghost before: seq<Event>, ghost r: nat, ghost q: Request, env: seq<Choice>, f: Front,
                            userId: string)
      requires At(before, r, q, env, 1, CookieUser(f, userId))
      requires users == sys.users && |env| >= 3 && CodesLinked()
      modifies this`sys, this`states, this`trace, grants`codes, grants`codeLog
      ensures Traced() && CodesLinked() && Served(before, r, q, env, Page)
      ensures old(sys).now <= sys.now && SameTables(old(sys).(codes := sys.codes), sys)
    {
      StepCookieUser(before, r, q, env, 1, f, userId);
      if env[1].dbOk && userId in users {
        SaveAuthCode(before, r, q, env, 2, f, userId);
        Finish(before, r, q, env, 3, Page);
      } else {
        Finish(before, r, q, env, 2, Page);
      }
    }

    /** Validates an authorization request and decides how it goes on. */
    method RouteAuthorize(q: Request) returns (route: Pc)
      requires q.AuthorizeRequest? && RegistryLinked()
      ensures route == AdmitAuthorize(cfg, q)
      ensures route.Done? || route.LoginCheck? || route.CookieGet?
    {
      var clientId, scope := q.clientId, q.scope;
      if q.redirectURI == "" {
        return Done(Refused);
      }
      if cfg.hasRegistry {
        var allowed := registry.ValidateRedirectURI(clientId, q.redirectURI);
        if !allowed {
          return Done(Refused);
        }
      }
      if clientId == "" {
        clientId := DEFAULT_CLIENT;
      }
      if scope == "" {
        scope := "openid";
      }
      if cfg.hasRegistry {
        var allowed := registry.ValidateScope(clientId, scope);
        if !allowed {
          return Done(Refused);
        }
      }
      if !q.redirectParses {
        return Done(Refused);
      }
      var f := Front(Authorize, clientId, q.redirectURI, scope, q.audience, q.nonce, q.codeChallenge,
                     if q.codeChallengeMethod == "" then "S256" else q.codeChallengeMethod,
                     Contains(q.responseType, "token"), Contains(q.responseType, "id_token"));
      if f.implicit {
        return if q.username == "" || q.password == "" then Done(Other) else LoginCheck(f, q.username, q.password);
      }
      if q.responseType != "code" {
        return Done(Refused);
      }
      if q.username != "" && q.password != "" {
        return LoginCheck(f, q.username, q.password);
      }
      if q.promptNone && q.username == "" && q.password == "" {
        return Done(Other);
      }
      if cfg.hasSessions && q.username == "" && q.password == "" {
        if q.cookie != "" {
          return CookieGet(f, q.cookie);
        }
      }
      route := Done(Other);
    }

    method HandleAuthorize(ghost r: nat, q: Request, env: seq<Choice>) returns (response: Response)
      requires Traced() && users == sys.users && CodesLinked() && SessionsLinked()
      requires r !in sys.reqs && Timely(sys.now, sys.names, env, 0) && |env| >= 3
      requires q.AuthorizeRequest? && RegistryLinked()
      modifies this`sys, this`states, this`trace, grants`codes, grants`codeLog, sess, sess.sessions.Values`expiresAt
      ensures Traced() && CodesLinked() && SessionsLinked() && Served(old(trace), r, q, env, response)
      ensures old(sys).now <= sys.now && SameTables(old(sys).(codes := sys.codes, sessions := sys.sessions), sys)
    {
      var route := RouteAuthorize(q);
      Begin(r, q, env);
      SessionsStay();
      response := FollowRoute(old(trace), r, q, env, route);
    }

    method FollowRoute(ghost before: seq<Event>, ghost r: nat, ghost q: Request, env: seq<Choice>, route: Pc)
      returns (response: Response)
      requires Traced() && users == sys.users && CodesLinked() && SessionsLinked() && |env| >= 3
      requires Serving(before, r, q, env, 0) && sys.reqs[r] == route
      requires (route.Done? || route.LoginCheck? || route.CookieGet?)
      modifies this`sys, this`states, this`trace, grants`codes, grants`codeLog, sess, sess.sessions.Values`expiresAt
      ensures Traced() && CodesLinked() && SessionsLinked() && Served(before, r, q, env, response)
      ensures old(sys).now <= sys.now && SameTables(old(sys).(codes := sys.codes, sessions := sys.sessions), sys)
    {
      if route.Done? {
        response := Shown(route.reply);
        Finish(before, r, q, env, 0, response);
      } else if route.LoginCheck? {
        response := LogIn(before, r, q, env, route.f, route.username, route.password);
      } else {
        response := AuthorizeByCookie(before, r, q, env, route.f, route.cookie);
      }
    }

    method RouteLogin(q: Request) returns (route: Pc)
      requires q.LoginForm?
      ensures route == Admit(cfg, q) && (route.Done? || route.LoginCheck?)
    {
      if q.redirectURI == "" || q.username == "" || q.password == "" {
        return Done(Refused);
      }
      var method_ := if q.codeChallengeMethod == "" then "S256" else q.codeChallengeMethod;
      var scope := if q.scope == "" then "openid" else q.scope;
      var f := Front(Login, q.clientId, q.redirectURI, scope, q.audience, q.nonce, q.codeChallenge, method_,
                     Contains(q.responseType, "token"), Contains(q.responseType, "id_token"));
      route := LoginCheck(f, q.username, q.password);
    }

    method HandleLogin(ghost r: nat, q: Request, env: seq<Choice>) returns (response: Response)
      requires Traced() && users == sys.users && CodesLinked() && SessionsLinked()
      requires r !in sys.reqs && Timely(sys.now, sys.names, env, 0) && |env| >= 3
      requires q.LoginForm?
      modifies this`sys, this`states, this`trace, grants`codes, grants`codeLog, sess
      ensures Traced() && CodesLinked() && SessionsLinked() && Served(old(trace), r, q, env, response)
      ensures old(sys).now <= sys.now && SameTables(old(sys).(codes := sys.codes, sessions := sys.sessions), sys)
    {
      var route := RouteLogin(q);
      Begin(r, q, env);
      SessionsStay();
      if route.Done? {
        response := Shown(route.reply);
        Finish(old(trace), r, q, env, 0, response);
      } else {
        response := LogIn(old(trace), r, q, env, route.f, route.username, route.password);
      }
    }

    method HandleLogout(ghost r: nat, q: Request, env: seq<Choice>) returns (response: Response)
      requires Traced() && SessionsLinked()
      requires r !in sys.reqs && Timely(sys.now, sys.names, env, 0) && |env| >= 1
      requires q.LogoutRequest?
      modifies this`sys, this`states, this`trace, sess
      ensures Traced() && SessionsLinked() && Served(old(trace), r, q, env, response)
      ensures old(sys).now <= sys.now && SameTables(old(sys).(sessions := sys.sessions), sys)
    {
      Begin(r, q, env);
      SessionsStay();
      response := Page;
      if cfg.hasSessions && q.cookie != "" {
        EndSession(old(trace), r, q, env, q.cookie);
      } else {
        Finish(old(trace), r, q, env, 0, response);
      }
    }

    method EndSession(ghost before: seq<Event>, ghost r: nat, ghost q: Request, env: seq<Choice>, cookie: string)
      requires At(before, r, q, env, 0, Logout(cookie)) && SessionsLinked()
      modifies this`sys, this`states, this`trace, sess
      ensures Traced() && SessionsLinked() && Served(before, r, q, env, Page)
      ensures old(sys).now <= sys.now && SameTables(old(sys).(sessions := sys.sessions), sys)
    {
      RevokeSession(before, r, q, env, 0, cookie);
      Finish(before, r, q, env, 1, Page);
    }

    // ----- every request -----

    method HandleDeviceForm(ghost r: nat, q: Request, env: seq<Choice>) returns (response: Response)
      requires Linked() && r !in sys.reqs && Timely(sys.now, sys.names, env, 0) && |env| >= 2
      requires q.DeviceForm?
      modifies this`sys, this`states, this`trace, grants`tables, grants`deviceLog
      modifies grants.devices.Values`userAuthorized, grants.devices.Values`userId, grants.devices.Values`accessDenied
      ensures Linked() && Served(old(trace), r, q, env, response)
    {
      response := HandleDeviceAuthorize(r, q, env);
      CodesStay();
      RefreshStay();
      ReplayStay();
      SessionsStay();
    }

    method HandleDeviceRequest(ghost r: nat, q: Request, env: seq<Choice>) returns (response: Response)
      requires Linked() && r !in sys.reqs && Timely(sys.now, sys.names, env, 0) && |env| >= 1
      requires q.DeviceRequest?
      modifies this`sys, this`states, this`trace, grants`devices, grants`userCodes, grants`tables, grants`deviceLog
      ensures Linked() && Served(old(trace), r, q, env, response)
    {
      response := HandleDeviceCodeRequest(r, q, env);
      CodesStay();
      RefreshStay();
      ReplayStay();
      SessionsStay();
    }

    method HandleAuthorizeRequest(ghost r: nat, q: Request, env: seq<Choice>) returns (response: Response)
      requires Linked() && r !in sys.reqs && Timely(sys.now, sys.names, env, 0) && |env| >= 3
      requires q.AuthorizeRequest?
      modifies this`sys, this`states, this`trace, grants`codes, grants`codeLog, sess, sess.sessions.Values`expiresAt
      ensures Linked() && Served(old(trace), r, q, env, response)
    {
      response := HandleAuthorize(r, q, env);
      RefreshStay();
      ReplayStay();
      DevicesStay();
    }

    method HandleLoginForm(ghost r: nat, q: Request, env: seq<Choice>) returns (response: Response)
      requires Linked() && r !in sys.reqs && Timely(sys.now, sys.names, env, 0) && |env| >= 3
      requires q.LoginForm?
      modifies this`sys, this`states, this`trace, grants`codes, grants`codeLog, sess
      ensures Linked() && Served(old(trace), r, q, env, response)
    {
      response := HandleLogin(r, q, env);
      RefreshStay();
      ReplayStay();
      DevicesStay();
    }

    method HandleLogoutRequest(ghost r: nat, q: Request, env: seq<Choice>) returns (response: Response)
      requires Linked() && r !in sys.reqs && Timely(sys.now, sys.names, env, 0) && |env| >= 1
      requires q.LogoutRequest?
      modifies this`sys, this`states, this`trace, sess
      ensures Linked() && Served(old(trace), r, q, env, response)
    {
      response := HandleLogout(r, q, env);
      CodesStay();
      RefreshStay();
      ReplayStay();
      DevicesStay();
    }

    method HandleRevokeRequest(ghost r: nat, q: Request, env: seq<Choice>) returns (response: Response)
      requires Linked() && r !in sys.reqs && Timely(sys.now, sys.names, env, 0) && |env| >= 1
      requires q.RevokeRequest?
      modifies this`sys, this`states, this`trace, grants`refresh, grants`refreshLog
      ensures Linked() && Served(old(trace), r, q, env, response)
    {
      response := HandleRevoke(r, q, env);
      CodesStay();
      ReplayStay();
      DevicesStay();
      SessionsStay();
    }

    /** Any request at all: the stores stay linked to the protocol, which took exactly the steps of that
        request with the choices of `env`, and the response is the one the protocol gives. */
    method Handle(ghost r: nat, q: Request, env: seq<Choice>) returns (response: Response)
      requires Linked() && r !in sys.reqs && Timely(sys.now, sys.names, env, 0) && |env| >= 6
      modifies this`sys, this`states, this`trace, replay, grants, grants.devices.Values, sess,
          sess.sessions.Values`expiresAt
      ensures Linked() && Served(old(trace), r, q, env, response)
      ensures q.TokenCode? && response.Success? ==> Exchanged(r, q.q.code, response.tokens)
    {
      match q
      case RevokeRequest(_, _) => response := HandleRevokeRequest(r, q, env);
      case DeviceRequest(_, _, _) => response := HandleDeviceRequest(r, q, env);
      case DeviceForm(_, _, _, _) => response := HandleDeviceForm(r, q, env);
      case AuthorizeRequest(_, _, _, _, _, _, _, _, _, _, _, _, _) => response := HandleAuthorizeRequest(r, q, env);
      case LoginForm(_, _, _, _, _, _, _, _, _, _) => response := HandleLoginForm(r, q, env);
      case LogoutRequest(_) => response := HandleLogoutRequest(r, q, env);
      case _ => response := HandleToken(r, q, env);
    }

    /** Users come, change and go without the handlers. */
    method ChangeUsers(newUsers: map<string, User>)
      requires Linked()
      modifies this
      ensures Linked() && users == newUsers && trace == old(trace) + [SetUsers(newUsers)]
    {
      ChainSnoc(cfg, states, trace, SetUsers(newUsers));
      users := newUsers;
      sys := Next(cfg, sys, SetUsers(newUsers));
      trace, states := trace + [SetUsers(newUsers)], states + [sys];
    }
  }
}
