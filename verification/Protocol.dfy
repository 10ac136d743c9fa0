/** The token-issuing protocol as a transition system. Every request in flight is a program counter;
    every call that takes one of the locks, every database read and every other access to shared
    state is one atomic step; any number of requests interleave. */
module Protocol {
  import opened Wrappers
  import opened Text
  import opened Durations
  import opened Grants
  import TtlTable
  import Devices
  import Sessions
  import Replay
  import Clients
  import Pkce

  // ----- configuration, fixed while the server runs -----

  datatype Config = Config(
    codeTTL: int, refreshTTL: int, deviceTTL: int, sessionTTL: int,
    hasSessions: bool,
    hasRegistry: bool,
    clients: Clients.Configs,
    requireSecretForCodes: bool,
    normalizeURI: string -> string,
    hash: Pkce.Hash,
    verifyPassword: (string, string) -> bool)

  const DEFAULT_AUDIENCE := "https://api.example.com"
  const DEFAULT_CLIENT := "e2e-test"
  const OFFLINE := "offline_access"

  // ----- values -----

  datatype User = User(email: string, passwordHash: string)

  datatype Tokens = Tokens(access: string, id: Option<string>, refresh: Option<string>)

  /** What a mint is made from. `family` numbers the root issuance a refresh token descends from. */
  datatype Source =
    | FromClient
    | FromPassword
    | FromCode(code: string)
    | FromRefresh(token: string, family: nat)
    | FromDevice(device: string)
    | FromFront

  /** The arguments with which tokens are minted. */
  datatype Grantee = Grantee(src: Source, sub: string, client: string, aud: string, scope: string, sid: string)

  datatype Reply =
    | Granted(src: Source, replayed: bool, tokens: Tokens)
    | Refused
    | Other  // a page, a redirect, an acknowledgement

  datatype CodeQuery = CodeQuery(code: string, redirectURI: string, clientId: string, clientSecret: string,
                                 codeVerifier: string)

  datatype Via = Authorize | Login

  /** A front-channel request for a code or, with the implicit flow, for tokens. */
  datatype Front = Front(
    via: Via, clientId: string, redirectURI: string, scope: string, audience: string, nonce: string,
    codeChallenge: string, codeChallengeMethod: string, implicit: bool, wantIdToken: bool)

  /** Where a request is: the next shared access it will make. */
  datatype Pc =
    | Done(reply: Reply)
    | ClientCredentials(clientId: string)
    | PasswordCheck(username: string, password: string, clientId: string, scope: string, audience: string)
    | CodeConsume(q: CodeQuery)
    | CodeReplay(code: string)
    | CodeReplayCheck(code: string, entry: Option<Replay.Entry<Tokens>>)
    | CodeUser(code: string, ac: AuthCode, clientId: string)
    | RefreshConsume(token: string, clientId: string)
    | Mint(g: Grantee)
    | SaveRefresh(g: Grantee, tokens: Tokens)
    | Cache(code: string, tokens: Tokens)
    | Revoke(token: string)
    | DeviceSave(clientId: string, scope: string, audience: string)
    | DeviceDeny(userCode: string)
    | DeviceCheck(userCode: string, username: string, password: string)
    | DeviceApprove(userCode: string, userId: string)
    | DeviceLookup(device: string)
    | DeviceDenied(device: string)
    | DeviceAuthorized(device: string)
    | DeviceConsume(device: string)
    | DeviceUser(device: string)
    | DeviceMint(device: string)
    | LoginCheck(f: Front, username: string, password: string)
    | LoginSession(f: Front, userId: string, email: string)
    | CookieGet(f: Front, cookie: string)
    | CookieUser(f: Front, userId: string)
    | SaveCode(f: Front, userId: string)
    | ImplicitMint(f: Front, userId: string)
    | Logout(cookie: string)

  // ----- history, which the handlers never read -----

  datatype Exchange = Exchange(req: nat, ac: AuthCode, q: CodeQuery, passed: bool)
  datatype Root = Root(sub: string, client: string, scope: string, sid: string)
  datatype Approval = Approval(device: string, userId: string)
  datatype DeviceUse = DeviceUse(req: nat, approvals: nat)
  datatype MintEvent = MintEvent(req: nat, g: Grantee, access: string, id: Option<string>)

  datatype History = History(
    verified: set<string>,             // users whose password was verified
    viaAuthorize: set<string>,         // codes saved by the authorize handler
    consumed: map<string, Exchange>,   // the exchange that consumed each code
    issued: map<string, Tokens>,       // the tokens issued for each code
    cached: map<string, int>,          // when the cached response of each code expires
    refreshed: map<string, nat>,       // the request that consumed each refresh token
    roots: seq<Root>,                  // refresh tokens issued other than by rotation, in order
    familyOf: map<string, nat>,        // the root each refresh token descends from
    approvals: seq<Approval>,          // successful device authorizations, in order
    used: map<string, DeviceUse>,      // the poll that consumed each device, and the approvals before it
    mints: seq<MintEvent>)

  datatype State = State(
    now: int,
    users: map<string, User>,
    codes: TtlTable.Table<AuthCode>,
    refresh: TtlTable.Table<RefreshGrant>,
    dev: Devices.Tables,
    sessions: Sessions.Table,
    replay: Replay.Cache<Tokens>,
    reqs: map<nat, Pc>,
    names: set<string>,                // every name handed out so far
    h: History)

  function Init(users: map<string, User>): State {
    State(0, users, map[], map[], Devices.Tables(map[], {}, map[]), map[], map[], map[], {},
          History({}, {}, map[], map[], map[], map[], [], map[], [], map[], []))
  }

  // ----- requests and what the handlers do before their first shared access -----

  datatype Request =
    | TokenClient(clientId: string)
    | TokenPassword(username: string, password: string, clientId: string, scope: string, audience: string)
    | TokenCode(q: CodeQuery)
    | TokenRefresh(token: string, clientId: string)
    | TokenDevice(device: string)
    | RevokeRequest(token: string, hint: string)
    | DeviceRequest(clientId: string, scope: string, audience: string)
    | DeviceForm(userCode: string, deny: bool, username: string, password: string)
    | AuthorizeRequest(
        responseType: string, clientId: string, redirectURI: string, scope: string, username: string, password: string,
        promptNone: bool, nonce: string, audience: string, codeChallenge: string, codeChallengeMethod: string,
        redirectParses: bool, cookie: string)
    | LoginForm(
        responseType: string, clientId: string, redirectURI: string, scope: string, username: string, password: string,
        nonce: string, audience: string, codeChallenge: string, codeChallengeMethod: string)
    | LogoutRequest(cookie: string)

  function OrElse(s: string, default: string): string {
    if s == "" then default else s
  }

  function Admit(cfg: Config, q: Request): Pc {
    match q
    case TokenClient(clientId) => ClientCredentials(OrElse(clientId, DEFAULT_CLIENT))
    case TokenPassword(username, password, clientId, scope, audience) =>
      if username == "" || password == "" then Done(Refused)
      else PasswordCheck(username, password, OrElse(clientId, DEFAULT_CLIENT), scope, audience)
    case TokenCode(cq) => if cq.code == "" then Done(Refused) else CodeConsume(cq)
    case TokenRefresh(token, clientId) => if token == "" then Done(Refused) else RefreshConsume(token, clientId)
    case TokenDevice(device) => if device == "" then Done(Refused) else DeviceLookup(device)
    case RevokeRequest(token, hint) =>
      if token != "" && (hint == "refresh_token" || "rt_" <= token) then Revoke(token) else Done(Other)
    case DeviceRequest(clientId, scope, audience) =>
      DeviceSave(OrElse(clientId, DEFAULT_CLIENT), OrElse(scope, "openid"), audience)
    case DeviceForm(userCode, deny, username, password) =>
      if userCode == "" then Done(Refused)
      else if deny then DeviceDeny(userCode)
      else if username == "" || password == "" then Done(Refused)
      else DeviceCheck(userCode, username, password)
    case AuthorizeRequest(_, _, _, _, _, _, _, _, _, _, _, _, _) => AdmitAuthorize(cfg, q)
    case LoginForm(responseType, clientId, redirectURI, scope, username, password, nonce, audience, challenge,
                   method_) =>
      if redirectURI == "" || username == "" || password == "" then Done(Refused)
      else LoginCheck(Front(Login, clientId, redirectURI, OrElse(scope, "openid"), audience, nonce, challenge,
                            OrElse(method_, "S256"), Contains(responseType, "token"),
                                Contains(responseType, "id_token")),
                      username, password)
    case LogoutRequest(cookie) => if cfg.hasSessions && cookie != "" then Logout(cookie) else Done(Other)
  }

  function AdmitAuthorize(cfg: Config, q: Request): Pc
    requires q.AuthorizeRequest?
  {
    var clientId, scope := OrElse(q.clientId, DEFAULT_CLIENT), OrElse(q.scope, "openid");
    var f := Front(Authorize, clientId, q.redirectURI, scope, q.audience, q.nonce, q.codeChallenge,
                   OrElse(q.codeChallengeMethod, "S256"), Contains(q.responseType, "token"),
                       Contains(q.responseType, "id_token"));
    if q.redirectURI == "" then Done(Refused)
    else if cfg.hasRegistry && !Clients.RedirectAllowed(cfg.clients, q.clientId, q.redirectURI) then Done(Refused)
    else if cfg.hasRegistry && !Clients.ScopeAllowed(cfg.clients, clientId, scope) then Done(Refused)
    else if !q.redirectParses then Done(Refused)
    else if f.implicit then
      if q.username == "" || q.password == "" then Done(Other) else LoginCheck(f, q.username, q.password)
    else if q.responseType != "code" then Done(Refused)
    else if q.username != "" && q.password != "" then LoginCheck(f, q.username, q.password)
    else if q.promptNone && q.username == "" && q.password == "" then Done(Other)
    else if cfg.hasSessions && q.username == "" && q.password == "" && q.cookie != "" then CookieGet(f, q.cookie)
    else Done(Other)
  }

  // ----- the choices a step leaves open -----

  /** Clock readings in the order they are taken, a reading taken before the lock, the text of a fresh
      unique identifier, and the answers of the database, the issuer and the random source. */
  datatype Choice = Choice(
    stamp: int, t1: int, t2: int, t3: int, uuid: string,
    row: Option<string>, dbOk: bool, access: Option<string>, id: Option<string>, random: Option<string>,
        userCode: string)

  predicate FreshName(names: set<string>, uuid: string) {
    "ac_" + uuid !in names && "rt_" + uuid !in names && "dc_" + uuid !in names
  }

  predicate Enabled(s: State, r: nat, c: Choice) {
    && r in s.reqs && !s.reqs[r].Done?
    && s.now <= c.t1 <= c.t2 <= c.t3 && c.stamp <= c.t1
    && FreshName(s.names, c.uuid)
  }

  /** The user row a look-up by email returns, none when it fails, when the password does not match it
      or when no row has that email. */
  function Authenticate(cfg: Config, s: State, c: Choice, username: string, password: string): (user: Option<string>)
    ensures user.Some? ==> user.value in s.users
  {
    if c.row.Some? && c.row.value in s.users && s.users[c.row.value].email == username
       && cfg.verifyPassword(s.users[c.row.value].passwordHash, password)
    then c.row else None
  }

  predicate UserExists(s: State, c: Choice, userId: string) {
    c.dbOk && userId in s.users
  }

  /** The gates of the code exchange: client, redirect URI, proof key, client secret. */
  predicate Gates(cfg: Config, ac: AuthCode, q: CodeQuery) {
    && (q.clientId != "" ==> ac.clientId == q.clientId)
    && (q.redirectURI != "" ==> cfg.normalizeURI(ac.redirectUri) == cfg.normalizeURI(q.redirectURI))
    && (ac.codeChallenge != "" ==>
        Pkce.Verify(cfg.hash, q.codeVerifier, ac.codeChallenge, ac.codeChallengeMethod) == None)
    && (cfg.hasRegistry && cfg.requireSecretForCodes && Clients.Confidential(cfg.clients, ac.clientId) ==>
          Clients.SecretAccepted(cfg.clients, ac.clientId, q.clientSecret))
  }

  // ----- steps -----

  /** A step of `r` moves the clock and the counter of `r`, no other counter, and mints for `r` only. */
  predicate Local(s: State, r: nat, c: Choice, s': State) {
    && s'.now == c.t3
    && r in s'.reqs && s'.reqs == s.reqs[r := s'.reqs[r]]
    && s'.users == s.users
    && s.h.mints <= s'.h.mints
    && forall i :: |s.h.mints| <= i < |s'.h.mints| ==> s'.h.mints[i].req == r
  }

  /** The step changes no device record. */
  predicate SameRecords(s: State, s': State) {
    s'.dev.recs == s.dev.recs
  }

  /** The step leaves the devices alone altogether. */
  predicate SameDevices(s: State, s': State) {
    s'.dev == s.dev
  }

  /** The step saves and consumes no code. */
  predicate SameCodes(s: State, s': State) {
    s'.codes == s.codes && s'.h.consumed == s.h.consumed
  }

  /** The step saves, consumes and revokes no refresh token. */
  predicate SameRefresh(s: State, s': State) {
    s'.refresh == s.refresh
  }

  /** The step approves no device. */
  predicate SameApprovals(s: State, s': State) {
    s'.h.approvals == s.h.approvals
  }

  /** The step mints nothing. */
  predicate SameMints(s: State, s': State) {
    s'.h.mints == s.h.mints
  }

  /** A poll that has read the denial flag of its device and has not been answered yet. */
  predicate PastFlag(pc: Pc) {
    pc.DeviceAuthorized? || pc.DeviceConsume? || pc.DeviceUser? || pc.DeviceMint?
  }

  predicate BeforeFlag(r: nat, s': State) {
    r in s'.reqs && !PastFlag(s'.reqs[r])
  }

  /** The step verifies no password. */
  predicate SameVerified(s: State, s': State) {
    s'.h.verified == s.h.verified
  }

  /** The refresh-token family a request holds between consuming a token and saving its successor. */
  function Rotating(pc: Pc): Option<nat> {
    if (pc.Mint? || pc.SaveRefresh?) && pc.g.src.FromRefresh? then Some(pc.g.src.family) else None
  }

  /** The step adds no refresh token, and leaves no rotation in the hands of `r`. */
  predicate Steady(s: State, r: nat, s': State) {
    && (forall t :: t in s'.refresh ==> t in s.refresh && s'.refresh[t] == s.refresh[t])
    && s'.h.familyOf == s.h.familyOf && s'.h.roots == s.h.roots
    && r in s'.reqs && Rotating(s'.reqs[r]) == None
  }

  function Go(s: State, r: nat, c: Choice, pc: Pc): (s': State)
    ensures Local(s, r, c, s')
    ensures SameApprovals(s, s')
    ensures SameCodes(s, s')
    ensures SameRefresh(s, s')
    ensures SameMints(s, s')
    ensures SameDevices(s, s')
    ensures SameVerified(s, s')
  {
    s.(now := c.t3, reqs := s.reqs[r := pc])
  }

  function Verified(s: State, userId: string): State {
    s.(h := s.h.(verified := s.h.verified + {userId}))
  }

  function Minted(s: State, r: nat, g: Grantee, c: Choice): State
    requires c.access.Some?
  {
    s.(h := s.h.(mints := s.h.mints + [MintEvent(r, g, c.access.value, c.id)]))
  }

  /** The tokens are complete: a code's are cached first, the others are returned at once. */
  function Deliver(s: State, r: nat, c: Choice, g: Grantee, tokens: Tokens): (s': State)
    ensures Local(s, r, c, s')
    ensures SameApprovals(s, s')
    ensures SameCodes(s, s')
    ensures SameRefresh(s, s')
    ensures SameMints(s, s')
    ensures BeforeFlag(r, s')
    ensures SameDevices(s, s')
    ensures SameVerified(s, s')
    ensures Steady(s, r, s') && s'.refresh == s.refresh
  {
    if g.src.FromCode? then
      Go(s.(h := s.h.(issued := s.h.issued[g.src.code := tokens])), r, c, Cache(g.src.code, tokens))
    else
      Go(s, r, c, Done(Granted(g.src, false, tokens)))
  }

  function ClientMintStep(s: State, r: nat, c: Choice, clientId: string): (s': State)
    ensures Local(s, r, c, s')
    ensures SameApprovals(s, s')
    ensures SameCodes(s, s')
    ensures SameRefresh(s, s')
    ensures BeforeFlag(r, s')
    ensures SameDevices(s, s')
    ensures SameVerified(s, s')
    ensures Steady(s, r, s')
  {
    if c.access == None then Go(s, r, c, Done(Refused))
    else
      var g := Grantee(FromClient, "client|" + clientId, clientId, DEFAULT_AUDIENCE, "", "");
      Deliver(Minted(s, r, g, c.(id := None)), r, c, g, Tokens(c.access.value, None, None))
  }

  function PasswordStep(cfg: Config, s: State, r: nat, c: Choice, pc: Pc): (s': State)
    requires pc.PasswordCheck?
    ensures Local(s, r, c, s')
    ensures SameApprovals(s, s')
    ensures SameCodes(s, s')
    ensures SameRefresh(s, s')
    ensures SameMints(s, s')
    ensures BeforeFlag(r, s')
    ensures SameDevices(s, s')
    ensures Steady(s, r, s')
  {
    match Authenticate(cfg, s, c, pc.username, pc.password)
    case None => Go(s, r, c, Done(Refused))
    case Some(userId) =>
      Go(Verified(s, userId), r, c,
         Mint(Grantee(FromPassword, userId, pc.clientId, OrElse(pc.audience, DEFAULT_AUDIENCE), pc.scope,
                      "sid_" + c.uuid)))
  }

  function CodeConsumeStep(cfg: Config, s: State, r: nat, c: Choice, q: CodeQuery): (s': State)
    ensures Local(s, r, c, s')
    ensures SameApprovals(s, s')
    ensures SameRefresh(s, s')
    ensures SameMints(s, s')
    ensures BeforeFlag(r, s')
    ensures SameDevices(s, s')
    ensures SameVerified(s, s')
    ensures Steady(s, r, s')
  {
    var left := s.(codes := TtlTable.Drop(s.codes, q.code));
    match TtlTable.Find(s.codes, q.code, c.t1)
    case None => Go(left, r, c, CodeReplay(q.code))
    case Some(ac) =>
      var passed := Gates(cfg, ac, q);
      Go(left.(h := s.h.(consumed := s.h.consumed[q.code := Exchange(r, ac, q, passed)])), r, c,
         if passed then CodeUser(q.code, ac, OrElse(q.clientId, ac.clientId)) else Done(Refused))
  }

  function CodeReplayStep(s: State, r: nat, c: Choice, code: string): (s': State)
    ensures Local(s, r, c, s')
    ensures SameApprovals(s, s')
    ensures SameCodes(s, s')
    ensures SameRefresh(s, s')
    ensures SameMints(s, s')
    ensures BeforeFlag(r, s')
    ensures SameDevices(s, s')
    ensures SameVerified(s, s')
    ensures Steady(s, r, s')
  {
    Go(s, r, c, CodeReplayCheck(code, if code in s.replay then Some(s.replay[code]) else None))
  }

  function CodeReplayCheckStep(s: State, r: nat, c: Choice, code: string,
                               entry: Option<Replay.Entry<Tokens>>): (s': State)
    ensures Local(s, r, c, s')
    ensures SameApprovals(s, s')
    ensures SameCodes(s, s')
    ensures SameRefresh(s, s')
    ensures SameMints(s, s')
    ensures BeforeFlag(r, s')
    ensures SameDevices(s, s')
    ensures SameVerified(s, s')
    ensures Steady(s, r, s')
  {
    Go(s, r, c, Done(if entry.Some? && c.t1 < entry.value.expires then Granted(FromCode(code), true, entry.value.body)
                     else Refused))
  }

  function CodeUserStep(s: State, r: nat, c: Choice, code: string, ac: AuthCode, clientId: string): (s': State)
    ensures Local(s, r, c, s')
    ensures SameApprovals(s, s')
    ensures SameCodes(s, s')
    ensures SameRefresh(s, s')
    ensures SameMints(s, s')
    ensures BeforeFlag(r, s')
    ensures SameDevices(s, s')
    ensures SameVerified(s, s')
    ensures Steady(s, r, s')
  {
    Go(s, r, c,
       if UserExists(s, c, ac.userId) then
         Mint(Grantee(FromCode(code), ac.userId, clientId, OrElse(ac.audience, DEFAULT_AUDIENCE), ac.scope,
                      OrElse(ac.sessionId, "sid_" + c.uuid)))
       else Done(Refused))
  }

  function Family(s: State, token: string): nat {
    if token in s.h.familyOf then s.h.familyOf[token] else 0
  }

  function RefreshConsumeStep(s: State, r: nat, c: Choice, token: string, clientId: string): (s': State)
    ensures Local(s, r, c, s')
    ensures SameApprovals(s, s')
    ensures SameCodes(s, s')
    ensures SameMints(s, s')
    ensures BeforeFlag(r, s')
    ensures SameDevices(s, s')
    ensures SameVerified(s, s')
  {
    var left := s.(refresh := TtlTable.Drop(s.refresh, token));
    match TtlTable.Find(s.refresh, token, c.t1)
    case None => Go(left, r, c, Done(Refused))
    case Some(rg) =>
      Go(left.(h := s.h.(refreshed := s.h.refreshed[token := r])), r, c,
         if clientId != "" && rg.clientId != clientId then Done(Refused)
         else Mint(Grantee(FromRefresh(token, Family(s, token)), rg.userId, rg.clientId,
                           OrElse(rg.clientId, DEFAULT_AUDIENCE),
                           rg.scope, OrElse(rg.sessionId, "sid_" + c.uuid))))
  }

  function MintStep(s: State, r: nat, c: Choice, g: Grantee): (s': State)
    ensures Local(s, r, c, s')
    ensures SameApprovals(s, s')
    ensures SameCodes(s, s')
    ensures SameRefresh(s, s')
    ensures BeforeFlag(r, s')
    ensures SameDevices(s, s')
    ensures SameVerified(s, s')
  {
    if c.access == None then Go(s, r, c, Done(Refused))
    else
      var id := if Contains(g.scope, "openid") then c.id else None;
      var tokens := Tokens(c.access.value, id, None);
      var minted := Minted(s, r, g, c.(id := id));
      if Contains(g.scope, OFFLINE) then Go(minted, r, c, SaveRefresh(g, tokens)) else Deliver(minted, r, c, g, tokens)
  }

  function SaveRefreshStep(cfg: Config, s: State, r: nat, c: Choice, g: Grantee, tokens: Tokens): (s': State)
    ensures Local(s, r, c, s')
    ensures SameApprovals(s, s')
    ensures SameCodes(s, s')
    ensures SameMints(s, s')
    ensures BeforeFlag(r, s')
    ensures SameDevices(s, s')
    ensures SameVerified(s, s')
  {
    var token := "rt_" + c.uuid;
    var rotation := g.src.FromRefresh?;
    var saved := s.(
      refresh := TtlTable.Save(s.refresh, token, RefreshGrant(g.sub, g.client, g.scope, "", g.sid), c.stamp,
                               cfg.refreshTTL, c.t1),
      names := s.names + {token},
      h := s.h.(
        roots := if rotation then s.h.roots else s.h.roots + [Root(g.sub, g.client, g.scope, g.sid)],
        familyOf := s.h.familyOf[token := if rotation then g.src.family else |s.h.roots|]));
    Deliver(saved, r, c, g, tokens.(refresh := Some(token)))
  }

  function CacheStep(s: State, r: nat, c: Choice, code: string, tokens: Tokens): (s': State)
    ensures Local(s, r, c, s')
    ensures SameApprovals(s, s')
    ensures SameCodes(s, s')
    ensures SameRefresh(s, s')
    ensures SameMints(s, s')
    ensures BeforeFlag(r, s')
    ensures SameDevices(s, s')
    ensures SameVerified(s, s')
    ensures Steady(s, r, s')
  {
    Go(s.(replay := Replay.Put(s.replay, code, tokens, c.t1, c.t2),
          h := s.h.(cached := s.h.cached[code := c.t1 + Replay.CODE_REPLAY_TTL])),
       r, c, Done(Granted(FromCode(code), false, tokens)))
  }

  function RevokeStep(s: State, r: nat, c: Choice, token: string): (s': State)
    ensures Local(s, r, c, s')
    ensures SameApprovals(s, s')
    ensures SameCodes(s, s')
    ensures SameMints(s, s')
    ensures BeforeFlag(r, s')
    ensures SameDevices(s, s')
    ensures SameVerified(s, s')
    ensures Steady(s, r, s')
  {
    Go(s.(refresh := TtlTable.Drop(s.refresh, token)), r, c, Done(Other))
  }

  function DeviceSaveStep(cfg: Config, s: State, r: nat, c: Choice, pc: Pc): (s': State)
    requires pc.DeviceSave?
    ensures Local(s, r, c, s')
    ensures SameApprovals(s, s')
    ensures SameCodes(s, s')
    ensures SameRefresh(s, s')
    ensures SameMints(s, s')
    ensures BeforeFlag(r, s')
    ensures SameVerified(s, s')
    ensures Steady(s, r, s')
  {
    var device := "dc_" + c.uuid;
    var rec := Devices.Record(device, c.userCode, "", pc.clientId, pc.scope, pc.audience, 0, 0, false, false, false);
    Go(s.(dev := Devices.Save(s.dev, device, c.userCode, rec, c.stamp, cfg.deviceTTL, c.t1),
          names := s.names + {device}),
       r, c, Done(Other))
  }

  function DeviceDenyStep(s: State, r: nat, c: Choice, userCode: string): (s': State)
    ensures Local(s, r, c, s')
    ensures SameApprovals(s, s')
    ensures SameCodes(s, s')
    ensures SameRefresh(s, s')
    ensures SameMints(s, s')
    ensures BeforeFlag(r, s')
    ensures SameVerified(s, s')
    ensures Steady(s, r, s')
  {
    Go(s.(dev := Devices.Deny(s.dev, userCode)), r, c, Done(Other))
  }

  function DeviceCheckStep(cfg: Config, s: State, r: nat, c: Choice, pc: Pc): (s': State)
    requires pc.DeviceCheck?
    ensures Local(s, r, c, s')
    ensures SameApprovals(s, s')
    ensures SameCodes(s, s')
    ensures SameRefresh(s, s')
    ensures SameMints(s, s')
    ensures BeforeFlag(r, s')
    ensures SameDevices(s, s')
    ensures Steady(s, r, s')
  {
    match Authenticate(cfg, s, c, pc.username, pc.password)
    case None => Go(s, r, c, Done(Refused))
    case Some(userId) => Go(Verified(s, userId), r, c, DeviceApprove(pc.userCode, userId))
  }

  function DeviceApproveStep(s: State, r: nat, c: Choice, userCode: string, userId: string): (s': State)
    ensures Local(s, r, c, s')
    ensures SameCodes(s, s')
    ensures SameRefresh(s, s')
    ensures SameMints(s, s')
    ensures BeforeFlag(r, s')
    ensures SameVerified(s, s')
    ensures Steady(s, r, s')
  {
    var found := Devices.Lookup(s.dev, userCode, c.t1);
    Go(s.(dev := Devices.Authorize(s.dev, userCode, userId, c.t1),
          h := if found == None then s.h else s.h.(approvals := s.h.approvals + [Approval(found.value, userId)])),
       r, c, Done(Other))
  }

  function DeviceLookupStep(s: State, r: nat, c: Choice, device: string): (s': State)
    ensures Local(s, r, c, s')
    ensures SameApprovals(s, s')
    ensures SameCodes(s, s')
    ensures SameRefresh(s, s')
    ensures SameMints(s, s')
    ensures BeforeFlag(r, s')
    ensures SameRecords(s, s')
    ensures SameVerified(s, s')
    ensures Steady(s, r, s')
  {
    var d := Devices.Clean(s.dev, c.t1);
    Go(s.(dev := d), r, c, if Devices.Found(d, device, c.t2) then DeviceDenied(device) else Done(Refused))
  }

  /** The two flags are read from the shared record after the lock is released. */
  function DeviceDeniedStep(s: State, r: nat, c: Choice, device: string): (s': State)
    ensures Local(s, r, c, s')
    ensures SameApprovals(s, s')
    ensures SameCodes(s, s')
    ensures SameRefresh(s, s')
    ensures SameMints(s, s')
    ensures SameDevices(s, s')
    ensures SameVerified(s, s')
    ensures Steady(s, r, s')
  {
    Go(s, r, c, if device in s.dev.recs && !s.dev.recs[device].denied then DeviceAuthorized(device) else Done(Refused))
  }

  function DeviceAuthorizedStep(s: State, r: nat, c: Choice, device: string): (s': State)
    ensures Local(s, r, c, s')
    ensures SameApprovals(s, s')
    ensures SameCodes(s, s')
    ensures SameRefresh(s, s')
    ensures SameMints(s, s')
    ensures SameDevices(s, s')
    ensures SameVerified(s, s')
    ensures Steady(s, r, s')
  {
    Go(s, r, c, if device in s.dev.recs && s.dev.recs[device].authorized then DeviceConsume(device) else Done(Refused))
  }

  function DeviceConsumeStep(s: State, r: nat, c: Choice, device: string): (s': State)
    ensures Local(s, r, c, s')
    ensures SameApprovals(s, s')
    ensures SameCodes(s, s')
    ensures SameRefresh(s, s')
    ensures SameMints(s, s')
    ensures SameRecords(s, s')
    ensures SameVerified(s, s')
    ensures Steady(s, r, s')
  {
    if Devices.Consumable(s.dev, device, c.t1) then
      Go(s.(dev := Devices.Consume(s.dev, device, c.t1),
            h := s.h.(used := s.h.used[device := DeviceUse(r, |s.h.approvals|)])),
         r, c, DeviceUser(device))
    else Go(s, r, c, Done(Refused))
  }

  /** The consumed record is still read, through the object the store handed out and without a lock. */
  function DeviceUserStep(s: State, r: nat, c: Choice, device: string): (s': State)
    ensures Local(s, r, c, s')
    ensures SameApprovals(s, s')
    ensures SameCodes(s, s')
    ensures SameRefresh(s, s')
    ensures SameMints(s, s')
    ensures SameDevices(s, s')
    ensures SameVerified(s, s')
    ensures Steady(s, r, s')
  {
    Go(s, r, c,
       if device in s.dev.recs && UserExists(s, c, s.dev.recs[device].userId) then DeviceMint(device)
           else Done(Refused))
  }

  function DeviceMintStep(s: State, r: nat, c: Choice, device: string): (s': State)
    ensures Local(s, r, c, s')
    ensures SameApprovals(s, s')
    ensures SameCodes(s, s')
    ensures SameRefresh(s, s')
    ensures BeforeFlag(r, s')
    ensures SameDevices(s, s')
    ensures SameVerified(s, s')
    ensures Steady(s, r, s')
  {
    if c.access == None || device !in s.dev.recs then Go(s, r, c, Done(Refused))
    else
      var rec := s.dev.recs[device];
      var g := Grantee(FromDevice(device), rec.userId, rec.clientId,
                       OrElse(rec.audience, OrElse(rec.clientId, DEFAULT_AUDIENCE)), rec.scope, "sid_" + c.uuid);
      var id := if Contains(rec.scope, "openid") then c.id else None;
      Deliver(Minted(s, r, g, c.(id := id)), r, c, g, Tokens(c.access.value, id, None))
  }

  function LoginCheckStep(cfg: Config, s: State, r: nat, c: Choice, pc: Pc): (s': State)
    requires pc.LoginCheck?
    ensures Local(s, r, c, s')
    ensures SameApprovals(s, s')
    ensures SameCodes(s, s')
    ensures SameRefresh(s, s')
    ensures SameMints(s, s')
    ensures BeforeFlag(r, s')
    ensures SameDevices(s, s')
    ensures Steady(s, r, s')
  {
    match Authenticate(cfg, s, c, pc.username, pc.password)
    case None => Go(s, r, c, Done(Refused))
    case Some(userId) =>
      Go(Verified(s, userId), r, c,
         if pc.f.via == Authorize && pc.f.implicit then ImplicitMint(pc.f, userId)
         else if cfg.hasSessions then LoginSession(pc.f, userId, s.users[userId].email)
         else AfterSession(pc.f, userId))
  }

  function AfterSession(f: Front, userId: string): Pc {
    if f.implicit then ImplicitMint(f, userId) else SaveCode(f, userId)
  }

  function LoginSessionStep(cfg: Config, s: State, r: nat, c: Choice, f: Front, userId: string,
                            email: string): (s': State)
    ensures Local(s, r, c, s')
    ensures SameApprovals(s, s')
    ensures SameCodes(s, s')
    ensures SameRefresh(s, s')
    ensures SameMints(s, s')
    ensures BeforeFlag(r, s')
    ensures SameDevices(s, s')
    ensures SameVerified(s, s')
    ensures Steady(s, r, s')
  {
    Go(if c.random == None then s
       else s.(sessions := Sessions.Begin(s.sessions, "sid_" + c.random.value, userId, email, c.stamp, cfg.sessionTTL,
                                          c.t1)),
       r, c, AfterSession(f, userId))
  }

  function CookieGetStep(cfg: Config, s: State, r: nat, c: Choice, f: Front, cookie: string): (s': State)
    ensures Local(s, r, c, s')
    ensures SameApprovals(s, s')
    ensures SameCodes(s, s')
    ensures SameRefresh(s, s')
    ensures SameMints(s, s')
    ensures BeforeFlag(r, s')
    ensures SameDevices(s, s')
    ensures SameVerified(s, s')
    ensures Steady(s, r, s')
  {
    Go(s.(sessions := Sessions.Touch(s.sessions, cookie, c.t1, c.t2, c.t3, cfg.sessionTTL)), r, c,
       if Sessions.Present(s.sessions, cookie, c.t1, c.t2) then CookieUser(f, s.sessions[cookie].userId)
           else Done(Other))
  }

  function CookieUserStep(s: State, r: nat, c: Choice, f: Front, userId: string): (s': State)
    ensures Local(s, r, c, s')
    ensures SameApprovals(s, s')
    ensures SameCodes(s, s')
    ensures SameRefresh(s, s')
    ensures SameMints(s, s')
    ensures BeforeFlag(r, s')
    ensures SameDevices(s, s')
    ensures SameVerified(s, s')
    ensures Steady(s, r, s')
  {
    Go(s, r, c, if UserExists(s, c, userId) then SaveCode(f, userId) else Done(Other))
  }

  function SaveCodeStep(cfg: Config, s: State, r: nat, c: Choice, f: Front, userId: string): (s': State)
    ensures Local(s, r, c, s')
    ensures SameApprovals(s, s')
    ensures SameRefresh(s, s')
    ensures SameMints(s, s')
    ensures BeforeFlag(r, s')
    ensures SameDevices(s, s')
    ensures SameVerified(s, s')
    ensures Steady(s, r, s')
  {
    var code := "ac_" + c.uuid;
    var ac := AuthCode(userId, f.clientId, f.redirectURI, f.scope, f.audience, f.nonce, "sid_" + c.uuid,
                       f.codeChallenge, f.codeChallengeMethod);
    Go(s.(codes := TtlTable.Save(s.codes, code, ac, c.stamp, cfg.codeTTL, c.t1),
          names := s.names + {code},
          h := if f.via == Authorize then s.h.(viaAuthorize := s.h.viaAuthorize + {code}) else s.h),
       r, c, Done(Other))
  }

  function ImplicitGrantee(f: Front, userId: string): Grantee {
    Grantee(FromFront, userId, f.clientId, OrElse(f.audience, OrElse(f.clientId, DEFAULT_AUDIENCE)), f.scope, "")
  }

  /** An access token is always wanted here, since `id_token` contains `token`. */
  function ImplicitReply(f: Front, c: Choice): Reply
    requires c.access.Some?
  {
    if !f.wantIdToken then Granted(FromFront, false, Tokens(c.access.value, None, None))
    else if c.id.Some? then Granted(FromFront, false, Tokens(c.access.value, c.id, None))
    else Refused
  }

  function ImplicitMintStep(s: State, r: nat, c: Choice, f: Front, userId: string): (s': State)
    ensures Local(s, r, c, s')
    ensures SameApprovals(s, s')
    ensures SameCodes(s, s')
    ensures SameRefresh(s, s')
    ensures BeforeFlag(r, s')
    ensures SameDevices(s, s')
    ensures SameVerified(s, s')
    ensures Steady(s, r, s')
  {
    if c.access == None then Go(s, r, c, Done(Refused))
    else
      Go(Minted(s, r, ImplicitGrantee(f, userId), c.(id := if f.wantIdToken then c.id else None)), r, c,
         Done(ImplicitReply(f, c)))
  }

  function LogoutStep(s: State, r: nat, c: Choice, cookie: string): (s': State)
    ensures Local(s, r, c, s')
    ensures SameApprovals(s, s')
    ensures SameCodes(s, s')
    ensures SameRefresh(s, s')
    ensures SameMints(s, s')
    ensures BeforeFlag(r, s')
    ensures SameDevices(s, s')
    ensures SameVerified(s, s')
    ensures Steady(s, r, s')
  {
    Go(s.(sessions := s.sessions - {cookie}), r, c, Done(Other))
  }

  predicate Mints(pc: Pc) {
    pc.ClientCredentials? || pc.Mint? || pc.DeviceMint? || pc.ImplicitMint?
  }

  predicate TouchesDevices(pc: Pc) {
    pc.DeviceSave? || pc.DeviceDeny? || pc.DeviceApprove? || pc.DeviceLookup? || pc.DeviceConsume?
  }

  /** One step of request `r`. */
  function Act(cfg: Config, s: State, r: nat, c: Choice): (s': State)
    requires Enabled(s, r, c)
    ensures Local(s, r, c, s')
    ensures s.reqs[r].Mint? || s.reqs[r].RefreshConsume? || s.reqs[r].SaveRefresh? || Steady(s, r, s')
    ensures s.reqs[r].DeviceSave? || s.reqs[r].DeviceDeny? || s.reqs[r].DeviceApprove? || SameRecords(s, s')
    ensures TouchesDevices(s.reqs[r]) || SameDevices(s, s')
    ensures Mints(s.reqs[r]) || SameMints(s, s')
    ensures s.reqs[r].DeviceApprove? || SameApprovals(s, s')
    ensures s.reqs[r].CodeConsume? || s.reqs[r].SaveCode? || SameCodes(s, s')
    ensures s.reqs[r].RefreshConsume? || s.reqs[r].SaveRefresh? || s.reqs[r].Revoke? || SameRefresh(s, s')
    ensures s.reqs[r].DeviceDenied? || PastFlag(s.reqs[r]) || BeforeFlag(r, s')
    ensures s.reqs[r].PasswordCheck? || s.reqs[r].DeviceCheck? || s.reqs[r].LoginCheck? || SameVerified(s, s')
  {
    var pc := s.reqs[r];
    match pc
    case ClientCredentials(clientId) => ClientMintStep(s, r, c, clientId)
    case PasswordCheck(_, _, _, _, _) => PasswordStep(cfg, s, r, c, pc)
    case CodeConsume(q) => CodeConsumeStep(cfg, s, r, c, q)
    case CodeReplay(code) => CodeReplayStep(s, r, c, code)
    case CodeReplayCheck(code, entry) => CodeReplayCheckStep(s, r, c, code, entry)
    case CodeUser(code, ac, clientId) => CodeUserStep(s, r, c, code, ac, clientId)
    case RefreshConsume(token, clientId) => RefreshConsumeStep(s, r, c, token, clientId)
    case Mint(g) => MintStep(s, r, c, g)
    case SaveRefresh(g, tokens) => SaveRefreshStep(cfg, s, r, c, g, tokens)
    case Cache(code, tokens) => CacheStep(s, r, c, code, tokens)
    case Revoke(token) => RevokeStep(s, r, c, token)
    case DeviceSave(_, _, _) => DeviceSaveStep(cfg, s, r, c, pc)
    case DeviceDeny(userCode) => DeviceDenyStep(s, r, c, userCode)
    case DeviceCheck(_, _, _) => DeviceCheckStep(cfg, s, r, c, pc)
    case DeviceApprove(userCode, userId) => DeviceApproveStep(s, r, c, userCode, userId)
    case DeviceLookup(device) => DeviceLookupStep(s, r, c, device)
    case DeviceDenied(device) => DeviceDeniedStep(s, r, c, device)
    case DeviceAuthorized(device) => DeviceAuthorizedStep(s, r, c, device)
    case DeviceConsume(device) => DeviceConsumeStep(s, r, c, device)
    case DeviceUser(device) => DeviceUserStep(s, r, c, device)
    case DeviceMint(device) => DeviceMintStep(s, r, c, device)
    case LoginCheck(_, _, _) => LoginCheckStep(cfg, s, r, c, pc)
    case LoginSession(f, userId, email) => LoginSessionStep(cfg, s, r, c, f, userId, email)
    case CookieGet(f, cookie) => CookieGetStep(cfg, s, r, c, f, cookie)
    case CookieUser(f, userId) => CookieUserStep(s, r, c, f, userId)
    case SaveCode(f, userId) => SaveCodeStep(cfg, s, r, c, f, userId)
    case ImplicitMint(f, userId) => ImplicitMintStep(s, r, c, f, userId)
    case Logout(cookie) => LogoutStep(s, r, c, cookie)
  }

  // ----- runs -----

  /** A new request, a step of a request in flight, or any change of the users table. */
  datatype Event =
    | Arrive(r: nat, q: Request)
    | Step(r: nat, c: Choice)
    | SetUsers(users: map<string, User>)

  predicate Allowed(s: State, e: Event) {
    match e
    case Arrive(r, _) => r !in s.reqs
    case Step(r, c) => Enabled(s, r, c)
    case SetUsers(_) => true
  }

  function Next(cfg: Config, s: State, e: Event): State
    requires Allowed(s, e)
  {
    match e
    case Arrive(r, q) => s.(reqs := s.reqs[r := Admit(cfg, q)])
    case Step(r, c) => Act(cfg, s, r, c)
    case SetUsers(users) => s.(users := users)
  }

  predicate Legal(cfg: Config, s: State, run: seq<Event>)
    decreases |run|
  {
    run == [] || (Allowed(s, run[0]) && Legal(cfg, Next(cfg, s, run[0]), run[1..]))
  }

  function After(cfg: Config, s: State, run: seq<Event>): State
    requires Legal(cfg, s, run)
    decreases |run|
  {
    if run == [] then s else After(cfg, Next(cfg, s, run[0]), run[1..])
  }

  ghost predicate Reachable(cfg: Config, s: State) {
    exists users, run :: Legal(cfg, Init(users), run) && After(cfg, Init(users), run) == s
  }

  lemma {:induction false} RunAppend(cfg: Config, s: State, a: seq<Event>, b: seq<Event>)
    requires Legal(cfg, s, a)
    ensures Legal(cfg, s, a + b) <==> Legal(cfg, After(cfg, s, a), b)
    ensures Legal(cfg, s, a + b) ==> After(cfg, s, a + b) == After(cfg, After(cfg, s, a), b)
    decreases |a|
  {
    if a == [] {
      assert a + b == b;
    } else {
      assert (a + b)[1..] == a[1..] + b;
      RunAppend(cfg, Next(cfg, s, a[0]), a[1..], b);
    }
  }
}
