/** Where codes, device records, refresh-token families and mints come from: the requests that asked
    for them, read off the run. What a request asked for is what it carried when it arrived. */
module ProtocolOrigins {
  import opened Wrappers
  import opened Text
  import opened Grants
  import opened Protocol
  import opened ProtocolInvariant
  import opened ProtocolSteps
  import opened ProtocolGrowth
  import TtlTable
  import Devices
  import Sessions
  import Pkce
  import Clients

  // ----- what a run tells of its requests -----

  /** What each request asked for, the users that requests turned out to come from, and the request for
      which each authorization code and each device code was made. */
  datatype Trail = Trail(asked: map<nat, Request>, known: set<(nat, string)>, made: map<string, nat>)

  const START := Trail(map[], {}, map[])

  predicate NamesPassword(q: Request) {
    q.TokenPassword? || q.DeviceForm? || q.AuthorizeRequest? || q.LoginForm?
  }

  predicate ChecksPassword(pc: Pc) {
    pc.PasswordCheck? || pc.DeviceCheck? || pc.LoginCheck?
  }

  /** Whose the request `q` is, when this step of it shows that: the look-up returns a row with the
      email it gives, and the row's hash accepts the password it gives; or a session that has not
      expired is held under its cookie. */
  function Whose(cfg: Config, s: State, q: Request, r: nat, c: Choice): Option<string>
    requires Enabled(s, r, c)
  {
    if ChecksPassword(s.reqs[r]) && NamesPassword(q) then
      if c.row.Some? && c.row.value in s.users && s.users[c.row.value].email == q.username
         && cfg.verifyPassword(s.users[c.row.value].passwordHash, q.password)
      then c.row else None
    else if s.reqs[r].CookieGet? && q.AuthorizeRequest? && q.cookie in s.sessions
            && c.t2 <= s.sessions[q.cookie].expiresAt
    then Some(s.sessions[q.cookie].userId)
    else None
  }

  function Note(cfg: Config, s: State, t: Trail, e: Event): Trail
    requires Allowed(s, e)
  {
    match e
    case Arrive(r, q) => t.(asked := t.asked[r := q])
    case Step(r, c) =>
      if s.reqs[r].SaveCode? then t.(made := t.made["ac_" + c.uuid := r])
      else if s.reqs[r].DeviceSave? then t.(made := t.made["dc_" + c.uuid := r])
      else if r in t.asked && Whose(cfg, s, t.asked[r], r, c).Some? then
        t.(known := t.known + {(r, Whose(cfg, s, t.asked[r], r, c).value)})
      else t
    case SetUsers(_) => t
  }

  function TrailAfter(cfg: Config, s: State, t: Trail, run: seq<Event>): Trail
    requires Legal(cfg, s, run)
    decreases |run|
  {
    if run == [] then t else TrailAfter(cfg, Next(cfg, s, run[0]), Note(cfg, s, t, run[0]), run[1..])
  }

  /** Some run from the start leads to `s` and leaves this trail. */
  ghost predicate Traced(cfg: Config, s: State, t: Trail) {
    exists users, run ::
      && Legal(cfg, Init(users), run) && After(cfg, Init(users), run) == s
      && TrailAfter(cfg, Init(users), START, run) == t
  }

  // ----- what a request asks for -----

  /** The redirect URI is registered for the client, if any is. */
  predicate Registered(cfg: Config, clientId: string, redirectURI: string) {
    clientId in cfg.clients && cfg.clients[clientId].redirectURIs != [] ==>
      redirectURI in cfg.clients[clientId].redirectURIs
  }

  /** Every word of the scope is allowed for the client, if its scopes are restricted. */
  predicate WordsAllowed(cfg: Config, clientId: string, scope: string) {
    clientId in cfg.clients && cfg.clients[clientId].allowedScopes != [] ==>
      forall w :: w in Fields(scope) ==> w in cfg.clients[clientId].allowedScopes
  }

  /** The code `ac` is what the authorize request or login form `q` asks for. */
  predicate AsksForCode(cfg: Config, q: Request, ac: AuthCode) {
    && (q.AuthorizeRequest? || q.LoginForm?)
    && ac.clientId == (if q.AuthorizeRequest? && q.clientId == "" then "e2e-test" else q.clientId)
    && ac.redirectUri == q.redirectURI && q.redirectURI != ""
    && ac.scope == (if q.scope == "" then "openid" else q.scope)
    && ac.audience == q.audience
    && ac.nonce == q.nonce
    && ac.codeChallenge == q.codeChallenge
    && ac.codeChallengeMethod == (if q.codeChallengeMethod == "" then "S256" else q.codeChallengeMethod)
    && (q.AuthorizeRequest? ==> q.responseType == "code")
    && !Contains(q.responseType, "token")
    && (q.AuthorizeRequest? && cfg.hasRegistry ==>
        Registered(cfg, q.clientId, q.redirectURI) && WordsAllowed(cfg, ac.clientId, ac.scope))
  }

  /** The code was made for a request that asks for what `ac` says and comes from its user. */
  predicate CodeOf(cfg: Config, t: Trail, code: string, ac: AuthCode) {
    code in t.made && t.made[code] in t.asked &&
    var p := t.made[code];
    AsksForCode(cfg, t.asked[p], ac) && (p, ac.userId) in t.known && ac.sessionId != ""
  }

  /** The device record is what the device request `q` asks for. */
  predicate AsksForDevice(q: Request, clientId: string, scope: string, audience: string) {
    && q.DeviceRequest?
    && clientId == (if q.clientId == "" then "e2e-test" else q.clientId)
    && scope == (if q.scope == "" then "openid" else q.scope)
    && audience == q.audience
  }

  predicate DeviceOf(t: Trail, device: string, rec: Devices.Record) {
    && device in t.made && t.made[device] in t.asked
    && AsksForDevice(t.asked[t.made[device]], rec.clientId, rec.scope, rec.audience)
  }

  /** The client and scope are those of the request that the device code was made for, and the audience is
      the one it asked for, or else the client. */
  predicate DeviceGrant(t: Trail, device: string, g: Grantee) {
    device in t.made && t.made[device] in t.asked &&
    var p := t.asked[t.made[device]];
    && p.DeviceRequest?
    && g.client == (if p.clientId == "" then "e2e-test" else p.clientId)
    && g.aud == (if p.audience == "" then g.client else p.audience)
    && g.scope == (if p.scope == "" then "openid" else p.scope)
  }

  /** What request `r` may be minted tokens for, by what it asked for. */
  predicate GranteeFrom(cfg: Config, t: Trail, h: History, r: nat, g: Grantee) {
    r in t.asked &&
    var q := t.asked[r];
    match g.src
    case FromClient =>
      && q.TokenClient?
      && g.client == (if q.clientId == "" then "e2e-test" else q.clientId)
      && g.sub == "client|" + g.client && g.aud == "https://api.example.com" && g.scope == "" && g.sid == ""
    case FromPassword =>
      && q.TokenPassword? && (r, g.sub) in t.known
      && g.client == (if q.clientId == "" then "e2e-test" else q.clientId)
      && g.aud == (if q.audience == "" then "https://api.example.com" else q.audience)
      && g.scope == q.scope && g.sid != ""
    case FromCode(code) =>
      && q.TokenCode? && q.q.code == code && code in h.consumed && h.consumed[code].req == r
      && var ac := h.consumed[code].ac;
         && g.sub == ac.userId && g.client == ac.clientId && g.scope == ac.scope && g.sid == ac.sessionId
         && g.aud == (if ac.audience == "" then "https://api.example.com" else ac.audience)
    case FromRefresh(token, _) =>
      && q.TokenRefresh? && q.token == token && (q.clientId == "" || q.clientId == g.client)
      && g.aud == (if g.client == "" then "https://api.example.com" else g.client)
    case FromDevice(device) =>
      q.TokenDevice? && q.device == device && DeviceGrant(t, device, g)
    case FromFront =>
      && (q.AuthorizeRequest? || q.LoginForm?) && (r, g.sub) in t.known
      && Contains(q.responseType, "token")
      && g.client == (if q.AuthorizeRequest? && q.clientId == "" then "e2e-test" else q.clientId)
      && g.aud == (if q.audience != "" then q.audience
                   else if g.client == "" then "https://api.example.com" else g.client)
      && g.scope == (if q.scope == "" then "openid" else q.scope) && g.sid == ""
      && (q.AuthorizeRequest? && cfg.hasRegistry ==>
          Registered(cfg, q.clientId, q.redirectURI) && WordsAllowed(cfg, g.client, g.scope))
  }

  // ----- where each request is, by what it asked for -----

  predicate FrontFrom(cfg: Config, q: Request, f: Front) {
    && (q.AuthorizeRequest? || q.LoginForm?)
    && (f.via == Authorize <==> q.AuthorizeRequest?)
    && f.implicit == Contains(q.responseType, "token")
    && f.wantIdToken == Contains(q.responseType, "id_token")
    && (f.implicit || q.LoginForm? || q.responseType == "code")
    && f.redirectURI == q.redirectURI && q.redirectURI != ""
    && f.clientId == (if q.AuthorizeRequest? && q.clientId == "" then "e2e-test" else q.clientId)
    && f.scope == (if q.scope == "" then "openid" else q.scope)
    && f.audience == q.audience && f.nonce == q.nonce && f.codeChallenge == q.codeChallenge
    && f.codeChallengeMethod == (if q.codeChallengeMethod == "" then "S256" else q.codeChallengeMethod)
    && (q.AuthorizeRequest? && cfg.hasRegistry ==>
        Registered(cfg, q.clientId, q.redirectURI) && WordsAllowed(cfg, f.clientId, f.scope))
  }

  predicate MintedFor(h: History, g: Grantee) {
    exists i :: 0 <= i < |h.mints| && h.mints[i].g == g
  }

  ghost predicate PcFrom(cfg: Config, t: Trail, h: History, r: nat, pc: Pc) {
    r in t.asked && IsAt(cfg, t, h, r, t.asked[r], pc) == true
  }

  /** The place `pc` fits what `q` asks for. `PcFrom` compares it with `true`, so that it is proved whole
      and not case by case wherever a request moves. */
  ghost predicate IsAt(cfg: Config, t: Trail, h: History, r: nat, q: Request, pc: Pc) {
    match pc
    case Done(_) => true
    case ClientCredentials(clientId) =>
      q.TokenClient? && clientId == (if q.clientId == "" then "e2e-test" else q.clientId)
    case PasswordCheck(username, password, clientId, scope, audience) =>
      && q.TokenPassword? && username == q.username && password == q.password
      && clientId == (if q.clientId == "" then "e2e-test" else q.clientId)
      && scope == q.scope && audience == q.audience
    case CodeConsume(cq) => q == TokenCode(cq)
    case CodeReplay(code) => q.TokenCode? && q.q.code == code
    case CodeReplayCheck(code, _) => q.TokenCode? && q.q.code == code
    case CodeUser(code, ac, clientId) =>
      && q.TokenCode? && q.q.code == code && clientId == ac.clientId && ac.sessionId != ""
      && code in h.consumed && h.consumed[code].req == r && h.consumed[code].ac == ac
    case RefreshConsume(token, clientId) => q == TokenRefresh(token, clientId)
    case Mint(g) => GranteeFrom(cfg, t, h, r, g)
    case SaveRefresh(g, _) => GranteeFrom(cfg, t, h, r, g) && MintedFor(h, g)
    case Cache(code, _) => q.TokenCode? && q.q.code == code
    case Revoke(token) => q.RevokeRequest? && q.token == token && (q.hint == "refresh_token" || "rt_" <= token)
    case DeviceSave(clientId, scope, audience) => AsksForDevice(q, clientId, scope, audience)
    case DeviceDeny(userCode) => q.DeviceForm? && q.deny && q.userCode == userCode
    case DeviceCheck(userCode, username, password) => q == DeviceForm(userCode, false, username, password)
    case DeviceApprove(userCode, userId) =>
      q.DeviceForm? && !q.deny && q.userCode == userCode && (r, userId) in t.known
    case DeviceLookup(device) => q == TokenDevice(device)
    case DeviceDenied(device) => q == TokenDevice(device)
    case DeviceAuthorized(device) => q == TokenDevice(device)
    case DeviceConsume(device) => q == TokenDevice(device)
    case DeviceUser(device) => q == TokenDevice(device)
    case DeviceMint(device) => q == TokenDevice(device)
    case LoginCheck(f, username, password) => FrontFrom(cfg, q, f) && username == q.username && password == q.password
    case LoginSession(f, userId, _) => FrontFrom(cfg, q, f) && (r, userId) in t.known
    case CookieGet(f, cookie) => FrontFrom(cfg, q, f) && !f.implicit && q.AuthorizeRequest? && cookie == q.cookie
    case CookieUser(f, userId) => FrontFrom(cfg, q, f) && !f.implicit && (r, userId) in t.known
    case SaveCode(f, userId) => FrontFrom(cfg, q, f) && !f.implicit && (r, userId) in t.known
    case ImplicitMint(f, userId) => FrontFrom(cfg, q, f) && f.implicit && (r, userId) in t.known
    case Logout(cookie) => q == LogoutRequest(cookie)
  }

  ghost predicate PcsFrom(cfg: Config, s: State, t: Trail) {
    s.reqs.Keys == t.asked.Keys && forall r :: r in s.reqs ==> PcFrom(cfg, t, s.h, r, s.reqs[r])
  }

  ghost predicate CodesFrom(cfg: Config, s: State, t: Trail) {
    && (forall c :: c in s.codes ==> CodeOf(cfg, t, c, s.codes[c].grant))
    && (forall c :: c in s.h.consumed ==>
          && CodeOf(cfg, t, c, s.h.consumed[c].ac)
          && s.h.consumed[c].req in t.asked && t.asked[s.h.consumed[c].req] == TokenCode(s.h.consumed[c].q))
  }

  ghost predicate DevicesFrom(s: State, t: Trail) {
    forall d :: d in s.dev.recs ==> DeviceOf(t, d, s.dev.recs[d])
  }

  ghost predicate MintsFrom(cfg: Config, s: State, t: Trail) {
    forall i :: 0 <= i < |s.h.mints| ==> GranteeFrom(cfg, t, s.h, s.h.mints[i].req, s.h.mints[i].g)
  }

  predicate Founds(m: MintEvent, root: Root) {
    (m.g.src.FromPassword? || m.g.src.FromCode?) && root == Root(m.g.sub, m.g.client, m.g.scope, m.g.sid)
  }

  predicate Founded(mints: seq<MintEvent>, root: Root) {
    exists i :: 0 <= i < |mints| && Founds(mints[i], root)
  }

  ghost predicate RootsFrom(s: State) {
    forall f :: 0 <= f < |s.h.roots| ==> Founded(s.h.mints, s.h.roots[f])
  }

  ghost predicate Origins(cfg: Config, s: State, t: Trail) {
    && t.made.Keys <= s.names
    && PcsFrom(cfg, s, t) && CodesFrom(cfg, s, t) && DevicesFrom(s, t) && MintsFrom(cfg, s, t) && RootsFrom(s)
  }

  // ----- what was asked stays asked -----

  ghost predicate Later(t: Trail, t': Trail) {
    Extends(t.asked, t'.asked) && t.known <= t'.known && Extends(t.made, t'.made)
  }

  lemma GranteeLater(cfg: Config, t: Trail, h: History, t': Trail, h': History, r: nat, g: Grantee)
    requires GranteeFrom(cfg, t, h, r, g) && Later(t, t') && Extends(h.consumed, h'.consumed)
    ensures GranteeFrom(cfg, t', h', r, g)
  {
  }

  lemma MintedForLater(h: History, h': History, g: Grantee)
    requires MintedFor(h, g) && h.mints <= h'.mints
    ensures MintedFor(h', g)
  {
    var i :| 0 <= i < |h.mints| && h.mints[i].g == g;
    assert h'.mints[i].g == g;
  }

  /** Where a request is depends on minting only while it is minting or saves a refresh token. */
  lemma PlaceLater(cfg: Config, t: Trail, h: History, t': Trail, h': History, r: nat, q: Request, pc: Pc)
    requires IsAt(cfg, t, h, r, q, pc) && Later(t, t') && Extends(h.consumed, h'.consumed)
    requires !pc.Mint? && !pc.SaveRefresh?
    ensures IsAt(cfg, t', h', r, q, pc)
  {
  }

  lemma PcLater(cfg: Config, t: Trail, h: History, t': Trail, h': History, r: nat, pc: Pc)
    requires PcFrom(cfg, t, h, r, pc) && Later(t, t') && Extends(h.consumed, h'.consumed) && h.mints <= h'.mints
    ensures PcFrom(cfg, t', h', r, pc)
  {
    if pc.Mint? || pc.SaveRefresh? {
      GranteeLater(cfg, t, h, t', h', r, pc.g);
      if pc.SaveRefresh? {
        MintedForLater(h, h', pc.g);
      }
    } else {
      PlaceLater(cfg, t, h, t', h', r, t.asked[r], pc);
    }
  }

  // ----- each step of a request leads where it asked to go -----

  /** The step took `r` where it asked to go. */
  ghost predicate Stays(cfg: Config, t: Trail, r: nat, s': State) {
    r in s'.reqs && PcFrom(cfg, t, s'.h, r, s'.reqs[r])
  }

  /** The trail after a step. */
  function Noted(cfg: Config, s: State, t: Trail, r: nat, c: Choice): Trail
    requires Enabled(s, r, c)
  {
    Note(cfg, s, t, Step(r, c))
  }

  lemma NoteAsks(cfg: Config, s: State, t: Trail, e: Event)
    requires Allowed(s, e)
    ensures Note(cfg, s, t, e).asked == if e.Arrive? then t.asked[e.r := e.q] else t.asked
    ensures Next(cfg, s, e).reqs.Keys == if e.Arrive? then s.reqs.Keys + {e.r} else s.reqs.Keys
  {
  }

  lemma ClientFrom(cfg: Config, s: State, t: Trail, r: nat, c: Choice, clientId: string)
    requires PcFrom(cfg, t, s.h, r, ClientCredentials(clientId))
    ensures var s' := ClientMintStep(s, r, c, clientId); Stays(cfg, t, r, s')
  {
  }

  lemma ClientMintsFrom(cfg: Config, s: State, t: Trail, r: nat, c: Choice, clientId: string)
    requires PcFrom(cfg, t, s.h, r, ClientCredentials(clientId))
    ensures var s' := ClientMintStep(s, r, c, clientId);
            forall i :: |s.h.mints| <= i < |s'.h.mints| ==> GranteeFrom(cfg, t, s'.h, r, s'.h.mints[i].g)
  {
  }

  lemma PasswordFrom(cfg: Config, s: State, t: Trail, r: nat, c: Choice, pc: Pc)
    requires Enabled(s, r, c) && s.reqs[r] == pc && pc.PasswordCheck? && PcFrom(cfg, t, s.h, r, pc)
    ensures var s' := PasswordStep(cfg, s, r, c, pc); Stays(cfg, Noted(cfg, s, t, r, c), r, s')
  {
  }

  lemma CodeConsumeFrom(cfg: Config, s: State, t: Trail, r: nat, c: Choice, q: CodeQuery)
    requires PcFrom(cfg, t, s.h, r, CodeConsume(q))
    requires q.code in s.codes ==> s.codes[q.code].grant.sessionId != ""
    ensures var s' := CodeConsumeStep(cfg, s, r, c, q); Stays(cfg, t, r, s')
  {
  }

  lemma CodeUserFrom(cfg: Config, s: State, t: Trail, r: nat, c: Choice, code: string, ac: AuthCode, clientId: string)
    requires PcFrom(cfg, t, s.h, r, CodeUser(code, ac, clientId))
    ensures var s' := CodeUserStep(s, r, c, code, ac, clientId); Stays(cfg, t, r, s')
  {
  }

  lemma RefreshConsumeFrom(cfg: Config, s: State, t: Trail, r: nat, c: Choice, token: string, clientId: string)
    requires PcFrom(cfg, t, s.h, r, RefreshConsume(token, clientId))
    ensures var s' := RefreshConsumeStep(s, r, c, token, clientId); Stays(cfg, t, r, s')
  {
  }

  lemma DeliveredFrom(cfg: Config, t: Trail, h: History, r: nat, g: Grantee, tokens: Tokens)
    requires GranteeFrom(cfg, t, h, r, g)
    ensures PcFrom(cfg, t, h, r, Delivered(g, tokens))
  {
  }

  lemma MintGoes(s: State, r: nat, c: Choice, g: Grantee)
    ensures var s' := MintStep(s, r, c, g);
            && s'.h.consumed == s.h.consumed
            && (c.access == None ==> s'.reqs[r] == Done(Refused) && s'.h.mints == s.h.mints)
            && (c.access.Some? ==>
                s'.h.mints == s.h.mints + [MintMade(r, g, c)]
                && s'.reqs[r] == if Contains(g.scope, OFFLINE) then SaveRefresh(g, MintTokens(g, c))
                                 else Delivered(g, MintTokens(g, c)))
  {
    if c.access.Some? {
      MintShape(s, r, c, g);
    }
  }

  lemma MintFrom(cfg: Config, s: State, t: Trail, r: nat, c: Choice, g: Grantee)
    requires GranteeFrom(cfg, t, s.h, r, g)
    ensures var s' := MintStep(s, r, c, g); Stays(cfg, t, r, s')
  {
    MintGoes(s, r, c, g);
    if c.access.Some? {
      var s' := MintStep(s, r, c, g);
      GranteeLater(cfg, t, s.h, t, s'.h, r, g);
      DeliveredFrom(cfg, t, s'.h, r, g, MintTokens(g, c));
      assert s'.h.mints[|s.h.mints|].g == g;
    }
  }

  lemma MintMintsFrom(cfg: Config, s: State, t: Trail, r: nat, c: Choice, g: Grantee)
    requires GranteeFrom(cfg, t, s.h, r, g)
    ensures var s' := MintStep(s, r, c, g);
            forall i :: |s.h.mints| <= i < |s'.h.mints| ==> GranteeFrom(cfg, t, s'.h, r, s'.h.mints[i].g)
  {
    MintGoes(s, r, c, g);
    GranteeLater(cfg, t, s.h, t, MintStep(s, r, c, g).h, r, g);
  }

  lemma SaveRefreshGoes(cfg: Config, s: State, r: nat, c: Choice, g: Grantee, tokens: Tokens)
    ensures var s' := SaveRefreshStep(cfg, s, r, c, g, tokens);
            && s'.reqs[r] == Delivered(g, tokens.(refresh := Some("rt_" + c.uuid)))
            && s'.h.consumed == s.h.consumed && s'.h.mints == s.h.mints
            && s'.h.roots == if g.src.FromRefresh? then s.h.roots
                             else s.h.roots + [Root(g.sub, g.client, g.scope, g.sid)]
  {
  }

  lemma SaveRefreshFrom(cfg: Config, s: State, t: Trail, r: nat, c: Choice, g: Grantee, tokens: Tokens)
    requires GranteeFrom(cfg, t, s.h, r, g)
    ensures var s' := SaveRefreshStep(cfg, s, r, c, g, tokens); Stays(cfg, t, r, s')
  {
    SaveRefreshGoes(cfg, s, r, c, g, tokens);
    GranteeLater(cfg, t, s.h, t, SaveRefreshStep(cfg, s, r, c, g, tokens).h, r, g);
    DeliveredFrom(cfg, t, SaveRefreshStep(cfg, s, r, c, g, tokens).h, r, g,
                  tokens.(refresh := Some("rt_" + c.uuid)));
  }

  lemma RootsFromSave(cfg: Config, s: State, r: nat, c: Choice, g: Grantee, tokens: Tokens)
    requires MintedFor(s.h, g) && RootsFrom(s) && (g.src.FromPassword? || g.src.FromCode? || g.src.FromRefresh?)
    ensures RootsFrom(SaveRefreshStep(cfg, s, r, c, g, tokens))
  {
    var s' := SaveRefreshStep(cfg, s, r, c, g, tokens);
    SaveRefreshGoes(cfg, s, r, c, g, tokens);
    var i :| 0 <= i < |s.h.mints| && s.h.mints[i].g == g;
    assert !g.src.FromRefresh? ==> Founds(s'.h.mints[i], Root(g.sub, g.client, g.scope, g.sid));
  }

  lemma ReplayFrom(cfg: Config, s: State, t: Trail, r: nat, c: Choice)
    requires Enabled(s, r, c) && PcFrom(cfg, t, s.h, r, s.reqs[r])
    requires s.reqs[r].CodeReplay? || s.reqs[r].CodeReplayCheck? || s.reqs[r].Cache? || s.reqs[r].Revoke?
    ensures var s' := Act(cfg, s, r, c); Stays(cfg, t, r, s')
  {
    TokenActs(cfg, s, r, c);
  }

  lemma NothingNoted(cfg: Config, s: State, t: Trail, r: nat, c: Choice)
    requires Enabled(s, r, c) && !ChecksPassword(s.reqs[r]) && !s.reqs[r].CookieGet?
    requires !s.reqs[r].SaveCode? && !s.reqs[r].DeviceSave?
    ensures Noted(cfg, s, t, r, c) == t
  {
  }

  lemma MintingFrom(cfg: Config, s: State, t: Trail, r: nat, c: Choice)
    requires Enabled(s, r, c) && PcFrom(cfg, t, s.h, r, s.reqs[r])
    requires s.reqs[r].ClientCredentials? || s.reqs[r].Mint? || s.reqs[r].SaveRefresh?
    ensures Stays(cfg, t, r, Act(cfg, s, r, c))
  {
    TokenActs(cfg, s, r, c);
    match s.reqs[r]
    case ClientCredentials(clientId) => ClientFrom(cfg, s, t, r, c, clientId);
    case Mint(g) => MintFrom(cfg, s, t, r, c, g);
    case SaveRefresh(g, tokens) => SaveRefreshFrom(cfg, s, t, r, c, g, tokens);
  }

  lemma ConsumingFrom(cfg: Config, s: State, t: Trail, r: nat, c: Choice)
    requires Enabled(s, r, c) && PcFrom(cfg, t, s.h, r, s.reqs[r])
    requires s.reqs[r].CodeConsume? || s.reqs[r].CodeUser? || s.reqs[r].RefreshConsume?
    requires s.reqs[r].CodeConsume? && s.reqs[r].q.code in s.codes ==>
               s.codes[s.reqs[r].q.code].grant.sessionId != ""
    ensures Stays(cfg, t, r, Act(cfg, s, r, c))
  {
    TokenActs(cfg, s, r, c);
    match s.reqs[r]
    case CodeConsume(q) => CodeConsumeFrom(cfg, s, t, r, c, q);
    case CodeUser(code, ac, clientId) => CodeUserFrom(cfg, s, t, r, c, code, ac, clientId);
    case RefreshConsume(token, clientId) => RefreshConsumeFrom(cfg, s, t, r, c, token, clientId);
  }

  lemma TokenFrom(cfg: Config, s: State, t: Trail, r: nat, c: Choice)
    requires Enabled(s, r, c) && TokenPc(s.reqs[r]) && !s.reqs[r].PasswordCheck? && PcFrom(cfg, t, s.h, r, s.reqs[r])
    requires s.reqs[r].CodeConsume? && s.reqs[r].q.code in s.codes ==>
               s.codes[s.reqs[r].q.code].grant.sessionId != ""
    ensures Stays(cfg, t, r, Act(cfg, s, r, c))
  {
    var pc := s.reqs[r];
    if pc.ClientCredentials? || pc.Mint? || pc.SaveRefresh? {
      MintingFrom(cfg, s, t, r, c);
    } else if pc.CodeConsume? || pc.CodeUser? || pc.RefreshConsume? {
      ConsumingFrom(cfg, s, t, r, c);
    } else {
      ReplayFrom(cfg, s, t, r, c);
    }
  }

  lemma DeviceCheckFrom(cfg: Config, s: State, t: Trail, r: nat, c: Choice, pc: Pc)
    requires Enabled(s, r, c) && s.reqs[r] == pc && pc.DeviceCheck? && PcFrom(cfg, t, s.h, r, pc)
    ensures Stays(cfg, Noted(cfg, s, t, r, c), r, DeviceCheckStep(cfg, s, r, c, pc))
  {
    PasswordTells(cfg, s, t, r, c);
  }

  lemma ApprovalsDone(cfg: Config, s: State, r: nat, c: Choice)
    requires Enabled(s, r, c) && ApprovalPc(s.reqs[r]) && !s.reqs[r].DeviceCheck?
    ensures Act(cfg, s, r, c).reqs[r] == Done(Other)
  {
    ApprovalAct(cfg, s, r, c);
  }

  lemma ApprovalFrom(cfg: Config, s: State, t: Trail, r: nat, c: Choice)
    requires Enabled(s, r, c) && ApprovalPc(s.reqs[r]) && PcFrom(cfg, t, s.h, r, s.reqs[r])
    ensures Stays(cfg, Noted(cfg, s, t, r, c), r, Act(cfg, s, r, c))
  {
    if s.reqs[r].DeviceCheck? {
      ApprovalAct(cfg, s, r, c);
      DeviceCheckFrom(cfg, s, t, r, c, s.reqs[r]);
    } else {
      NoteAsks(cfg, s, t, Step(r, c));
      ApprovalsDone(cfg, s, r, c);
    }
  }

  lemma DeviceMintFrom(cfg: Config, s: State, t: Trail, r: nat, c: Choice, device: string)
    requires r in t.asked && t.asked[r] == TokenDevice(device) && DevicesFrom(s, t)
    ensures var s' := DeviceMintStep(s, r, c, device);
            forall i :: |s.h.mints| <= i < |s'.h.mints| ==> GranteeFrom(cfg, t, s'.h, r, s'.h.mints[i].g)
  {
    var s' := DeviceMintStep(s, r, c, device);
    if c.access.Some? && device in s.dev.recs {
      assert DeviceOf(t, device, s.dev.recs[device]);
      assert |s'.h.mints| == |s.h.mints| + 1;
      assert DeviceGrant(t, device, s'.h.mints[|s.h.mints|].g);
    }
  }

  /** A poll stays with the device it asked for. */
  predicate Polls(pc: Pc, device: string) {
    || pc.Done? || pc == DeviceLookup(device) || pc == DeviceDenied(device) || pc == DeviceAuthorized(device)
    || pc == DeviceConsume(device) || pc == DeviceUser(device) || pc == DeviceMint(device)
  }

  lemma PollGoes(s: State, r: nat, c: Choice, device: string)
    ensures Polls(DeviceLookupStep(s, r, c, device).reqs[r], device)
    ensures Polls(DeviceDeniedStep(s, r, c, device).reqs[r], device)
    ensures Polls(DeviceAuthorizedStep(s, r, c, device).reqs[r], device)
    ensures Polls(DeviceUserStep(s, r, c, device).reqs[r], device)
  {
  }

  lemma PollConsumeGoes(s: State, r: nat, c: Choice, device: string)
    ensures Polls(DeviceConsumeStep(s, r, c, device).reqs[r], device)
  {
  }

  lemma PollMintGoes(s: State, r: nat, c: Choice, device: string)
    ensures DeviceMintStep(s, r, c, device).reqs[r].Done?
  {
  }

  lemma PollActGoes(cfg: Config, s: State, r: nat, c: Choice, device: string)
    requires Enabled(s, r, c) && PollPc(s.reqs[r]) && Polls(s.reqs[r], device)
    ensures Polls(Act(cfg, s, r, c).reqs[r], device)
  {
    var pc := s.reqs[r];
    PollGoes(s, r, c, device);
    PollConsumeGoes(s, r, c, device);
    PollMintGoes(s, r, c, device);
    match pc
    case DeviceLookup(_) => DeviceLookupAct(cfg, s, r, c, device);
    case DeviceDenied(_) => DeviceDeniedAct(cfg, s, r, c, device);
    case DeviceAuthorized(_) => DeviceAuthorizedAct(cfg, s, r, c, device);
    case DeviceConsume(_) => DeviceConsumeAct(cfg, s, r, c, device);
    case DeviceUser(_) => DeviceUserAct(cfg, s, r, c, device);
    case DeviceMint(_) => DeviceMintAct(cfg, s, r, c, device);
  }

  lemma PollsFrom(cfg: Config, t: Trail, h: History, r: nat, pc: Pc, device: string)
    requires r in t.asked
    ensures t.asked[r] == TokenDevice(device) && Polls(pc, device) ==> PcFrom(cfg, t, h, r, pc)
  {
  }

  lemma PollAsked(cfg: Config, t: Trail, h: History, r: nat, pc: Pc)
    requires PollPc(pc) && PcFrom(cfg, t, h, r, pc)
    ensures Polls(pc, pc.device) && t.asked[r] == TokenDevice(pc.device)
  {
  }

  lemma PollFrom(cfg: Config, s: State, t: Trail, r: nat, c: Choice)
    requires Enabled(s, r, c) && PollPc(s.reqs[r]) && PcFrom(cfg, t, s.h, r, s.reqs[r])
    ensures var s' := Act(cfg, s, r, c); Stays(cfg, t, r, s')
  {
    var s', device := Act(cfg, s, r, c), s.reqs[r].device;
    PollAsked(cfg, t, s.h, r, s.reqs[r]);
    PollActGoes(cfg, s, r, c, device);
    PollsFrom(cfg, t, s'.h, r, s'.reqs[r], device);
  }

  /** A checked password identifies the request. */
  lemma PasswordTells(cfg: Config, s: State, t: Trail, r: nat, c: Choice)
    requires Enabled(s, r, c) && ChecksPassword(s.reqs[r]) && r in t.asked && NamesPassword(t.asked[r])
    requires s.reqs[r].username == t.asked[r].username && s.reqs[r].password == t.asked[r].password
    ensures var user := Authenticate(cfg, s, c, s.reqs[r].username, s.reqs[r].password);
            user.Some? ==> (r, user.value) in Noted(cfg, s, t, r, c).known
    ensures Noted(cfg, s, t, r, c).asked == t.asked
  {
  }

  lemma LoginCheckGoes(cfg: Config, s: State, r: nat, c: Choice, pc: Pc)
    requires pc.LoginCheck?
    ensures var s', user := LoginCheckStep(cfg, s, r, c, pc), Authenticate(cfg, s, c, pc.username, pc.password);
            s'.reqs[r] ==
              if user == None then Done(Refused)
              else if pc.f.via == Authorize && pc.f.implicit then ImplicitMint(pc.f, user.value)
              else if cfg.hasSessions then LoginSession(pc.f, user.value, s.users[user.value].email)
              else AfterSession(pc.f, user.value)
  {
  }

  lemma LoginCheckFrom(cfg: Config, s: State, t: Trail, r: nat, c: Choice, pc: Pc)
    requires Enabled(s, r, c) && s.reqs[r] == pc && pc.LoginCheck? && PcFrom(cfg, t, s.h, r, pc)
    ensures var s' := LoginCheckStep(cfg, s, r, c, pc); Stays(cfg, Noted(cfg, s, t, r, c), r, s')
  {
    PasswordTells(cfg, s, t, r, c);
    LoginCheckGoes(cfg, s, r, c, pc);
  }

  lemma SessionFrom(cfg: Config, s: State, t: Trail, r: nat, c: Choice)
    requires Enabled(s, r, c) && PcFrom(cfg, t, s.h, r, s.reqs[r])
    requires s.reqs[r].LoginSession? || s.reqs[r].CookieUser? || s.reqs[r].Logout?
    ensures var s' := Act(cfg, s, r, c); Stays(cfg, t, r, s')
  {
    FrontActs(cfg, s, r, c);
  }

  lemma CookieGetFrom(cfg: Config, s: State, t: Trail, r: nat, c: Choice, f: Front, cookie: string)
    requires Enabled(s, r, c) && s.reqs[r] == CookieGet(f, cookie) && PcFrom(cfg, t, s.h, r, s.reqs[r])
    ensures var s' := CookieGetStep(cfg, s, r, c, f, cookie); Stays(cfg, Noted(cfg, s, t, r, c), r, s')
  {
  }

  lemma ImplicitMintsFrom(cfg: Config, s: State, t: Trail, r: nat, c: Choice, f: Front, userId: string)
    requires PcFrom(cfg, t, s.h, r, ImplicitMint(f, userId))
    ensures var s' := ImplicitMintStep(s, r, c, f, userId);
            forall i :: |s.h.mints| <= i < |s'.h.mints| ==> GranteeFrom(cfg, t, s'.h, r, s'.h.mints[i].g)
  {
    if c.access.Some? {
      ImplicitMintShape(s, r, c, f, userId);
    }
  }

  lemma ImplicitFrom(cfg: Config, s: State, t: Trail, r: nat, c: Choice, f: Front, userId: string)
    requires r in t.asked
    ensures var s' := ImplicitMintStep(s, r, c, f, userId); Stays(cfg, t, r, s')
  {
  }

  lemma SavedThenDone(cfg: Config, s: State, r: nat, c: Choice)
    requires Enabled(s, r, c) && s.reqs[r].SaveCode?
    ensures Act(cfg, s, r, c).reqs[r] == Done(Other)
  {
  }

  lemma FrontStepFrom(cfg: Config, s: State, t: Trail, r: nat, c: Choice)
    requires Enabled(s, r, c) && PcFrom(cfg, t, s.h, r, s.reqs[r])
    requires !ApprovalPc(s.reqs[r]) && !PollPc(s.reqs[r]) && !TokenPc(s.reqs[r])
    ensures Stays(cfg, Noted(cfg, s, t, r, c), r, Act(cfg, s, r, c))
  {
    var pc := s.reqs[r];
    FrontActs(cfg, s, r, c);
    if pc.LoginCheck? {
      LoginCheckFrom(cfg, s, t, r, c, pc);
    } else if pc.CookieGet? {
      CookieGetFrom(cfg, s, t, r, c, pc.f, pc.cookie);
    } else if pc.SaveCode? {
      SavedThenDone(cfg, s, r, c);
    } else {
      NothingNoted(cfg, s, t, r, c);
      if pc.ImplicitMint? {
        ImplicitFrom(cfg, s, t, r, c, pc.f, pc.userId);
      } else {
        SessionFrom(cfg, s, t, r, c);
      }
    }
  }

  // ----- and so does every event of a run -----

  lemma OwnStepFrom(cfg: Config, s: State, t: Trail, r: nat, c: Choice)
    requires Enabled(s, r, c) && PcsFrom(cfg, s, t) && CodesFrom(cfg, s, t)
    ensures Stays(cfg, Noted(cfg, s, t, r, c), r, Act(cfg, s, r, c))
  {
    var pc := s.reqs[r];
    assert PcFrom(cfg, t, s.h, r, pc);
    if pc.PasswordCheck? {
      TokenActs(cfg, s, r, c);
      PasswordFrom(cfg, s, t, r, c, pc);
    } else if TokenPc(pc) {
      NothingNoted(cfg, s, t, r, c);
      TokenFrom(cfg, s, t, r, c);
    } else if ApprovalPc(pc) {
      ApprovalFrom(cfg, s, t, r, c);
    } else if PollPc(pc) {
      NothingNoted(cfg, s, t, r, c);
      PollFrom(cfg, s, t, r, c);
    } else {
      FrontStepFrom(cfg, s, t, r, c);
    }
  }

  /** A new code is made under a name not drawn before, so the step leaves the rest of the trail as it was. */
  lemma NotedLater(cfg: Config, s: State, t: Trail, r: nat, c: Choice)
    requires Enabled(s, r, c) && t.made.Keys <= s.names
    ensures Later(t, Noted(cfg, s, t, r, c))
    ensures s.reqs[r].SaveCode? ==> Noted(cfg, s, t, r, c) == t.(made := t.made["ac_" + c.uuid := r])
    ensures s.reqs[r].DeviceSave? ==> Noted(cfg, s, t, r, c) == t.(made := t.made["dc_" + c.uuid := r])
    ensures !s.reqs[r].SaveCode? && !s.reqs[r].DeviceSave? ==> Noted(cfg, s, t, r, c).made == t.made
  {
  }

  lemma MadeAreNames(cfg: Config, s: State, t: Trail, r: nat, c: Choice)
    requires Enabled(s, r, c) && t.made.Keys <= s.names && s.names <= Act(cfg, s, r, c).names
    ensures Noted(cfg, s, t, r, c).made.Keys <= Act(cfg, s, r, c).names
  {
    NotedLater(cfg, s, t, r, c);
    if s.reqs[r].DeviceSave? {
      ApprovalAct(cfg, s, r, c);
    } else if s.reqs[r].SaveCode? {
      FrontActs(cfg, s, r, c);
    }
  }

  lemma PcsFromStep(cfg: Config, s: State, t: Trail, r: nat, c: Choice)
    requires Enabled(s, r, c) && PcsFrom(cfg, s, t) && Grows(s, Act(cfg, s, r, c)) && t.made.Keys <= s.names
    requires Stays(cfg, Noted(cfg, s, t, r, c), r, Act(cfg, s, r, c))
    ensures PcsFrom(cfg, Act(cfg, s, r, c), Noted(cfg, s, t, r, c))
  {
    var s', t' := Act(cfg, s, r, c), Noted(cfg, s, t, r, c);
    NotedLater(cfg, s, t, r, c);
    forall q | q in s'.reqs
      ensures PcFrom(cfg, t', s'.h, q, s'.reqs[q])
    {
      if q != r {
        PcLater(cfg, t, s.h, t', s'.h, q, s.reqs[q]);
      }
    }
  }

  lemma SaveCodeGoes(cfg: Config, s: State, r: nat, c: Choice, f: Front, userId: string)
    ensures var s' := SaveCodeStep(cfg, s, r, c, f, userId);
            && s'.h.consumed == s.h.consumed
            && forall k :: k in s'.codes ==>
                 || (k in s.codes && s'.codes[k] == s.codes[k])
                 || (k == "ac_" + c.uuid
                     && s'.codes[k].grant == AuthCode(userId, f.clientId, f.redirectURI, f.scope, f.audience, f.nonce,
                                                      "sid_" + c.uuid, f.codeChallenge, f.codeChallengeMethod))
  {
  }

  lemma CodesLater(cfg: Config, s: State, t: Trail, s': State, t': Trail)
    requires CodesFrom(cfg, s, t) && Later(t, t')
    requires forall k :: k in s'.codes ==>
              (k in s.codes && s'.codes[k] == s.codes[k]) || CodeOf(cfg, t', k, s'.codes[k].grant)
    requires forall k :: k in s'.h.consumed ==>
              || (k in s.h.consumed && s'.h.consumed[k] == s.h.consumed[k])
              || (k in s.codes && s'.h.consumed[k].ac == s.codes[k].grant && s'.h.consumed[k].req in t'.asked
                  && t'.asked[s'.h.consumed[k].req] == TokenCode(s'.h.consumed[k].q))
    ensures CodesFrom(cfg, s', t')
  {
    forall k, ac | CodeOf(cfg, t, k, ac)
      ensures CodeOf(cfg, t', k, ac)
    {
    }
  }

  lemma CodesFromSave(cfg: Config, s: State, t: Trail, r: nat, c: Choice, f: Front, userId: string, t': Trail)
    requires CodesFrom(cfg, s, t) && PcFrom(cfg, t, s.h, r, SaveCode(f, userId))
    requires Later(t, t') && t' == t.(made := t.made["ac_" + c.uuid := r])
    ensures CodesFrom(cfg, SaveCodeStep(cfg, s, r, c, f, userId), t')
  {
    var s' := SaveCodeStep(cfg, s, r, c, f, userId);
    SaveCodeGoes(cfg, s, r, c, f, userId);
    forall k | k in s'.codes && !(k in s.codes && s'.codes[k] == s.codes[k])
      ensures CodeOf(cfg, t', k, s'.codes[k].grant)
    {
    }
    CodesLater(cfg, s, t, s', t');
  }

  lemma CodeConsumeGoes(cfg: Config, s: State, r: nat, c: Choice, q: CodeQuery)
    ensures var s' := CodeConsumeStep(cfg, s, r, c, q);
            && (forall k :: k in s'.codes ==> k in s.codes && s'.codes[k] == s.codes[k])
            && forall k :: k in s'.h.consumed ==>
                 || (k in s.h.consumed && s'.h.consumed[k] == s.h.consumed[k])
                 || (k in s.codes && s'.h.consumed[k].ac == s.codes[k].grant && s'.h.consumed[k].req == r
                     && s'.h.consumed[k].q == q)
  {
  }

  lemma CodesFromConsume(cfg: Config, s: State, t: Trail, r: nat, c: Choice, q: CodeQuery)
    requires CodesFrom(cfg, s, t) && PcFrom(cfg, t, s.h, r, CodeConsume(q))
    ensures CodesFrom(cfg, CodeConsumeStep(cfg, s, r, c, q), t)
  {
    CodeConsumeGoes(cfg, s, r, c, q);
    CodesLater(cfg, s, t, CodeConsumeStep(cfg, s, r, c, q), t);
  }

  lemma CodesFromStep(cfg: Config, s: State, t: Trail, r: nat, c: Choice)
    requires Enabled(s, r, c) && PcFrom(cfg, t, s.h, r, s.reqs[r]) && CodesFrom(cfg, s, t)
    requires t.made.Keys <= s.names
    ensures CodesFrom(cfg, Act(cfg, s, r, c), Noted(cfg, s, t, r, c))
  {
    var pc := s.reqs[r];
    NotedLater(cfg, s, t, r, c);
    if pc.SaveCode? {
      FrontActs(cfg, s, r, c);
      CodesFromSave(cfg, s, t, r, c, pc.f, pc.userId, Noted(cfg, s, t, r, c));
    } else if pc.CodeConsume? {
      NothingNoted(cfg, s, t, r, c);
      TokenActs(cfg, s, r, c);
      CodesFromConsume(cfg, s, t, r, c, pc.q);
    } else {
      CodesLater(cfg, s, t, Act(cfg, s, r, c), Noted(cfg, s, t, r, c));
    }
  }

  lemma DevicesLater(s: State, t: Trail, s': State, t': Trail)
    requires DevicesFrom(s, t) && Later(t, t')
    requires forall d :: d in s'.dev.recs ==>
              || DeviceOf(t', d, s'.dev.recs[d])
              || (d in s.dev.recs && s'.dev.recs[d].clientId == s.dev.recs[d].clientId
                  && s'.dev.recs[d].scope == s.dev.recs[d].scope && s'.dev.recs[d].audience == s.dev.recs[d].audience)
    ensures DevicesFrom(s', t')
  {
    forall d | d in s'.dev.recs
      ensures DeviceOf(t', d, s'.dev.recs[d])
    {
      assert d in s.dev.recs ==> DeviceOf(t, d, s.dev.recs[d]);
    }
  }

  lemma DevicesFromSave(cfg: Config, s: State, t: Trail, r: nat, c: Choice, pc: Pc, t': Trail)
    requires pc.DeviceSave? && PcFrom(cfg, t, s.h, r, pc) && DevicesFrom(s, t)
    requires Later(t, t') && t' == t.(made := t.made["dc_" + c.uuid := r])
    ensures DevicesFrom(DeviceSaveStep(cfg, s, r, c, pc), t')
  {
    var s', device := DeviceSaveStep(cfg, s, r, c, pc), "dc_" + c.uuid;
    assert DeviceOf(t', device, s'.dev.recs[device]);
    assert forall d :: d in s'.dev.recs && d != device ==> d in s.dev.recs && s'.dev.recs[d] == s.dev.recs[d];
    DevicesLater(s, t, s', t');
  }

  /** The records keep what the request for the device asked for. */
  predicate SameAsked(a: Devices.Tables, b: Devices.Tables) {
    forall d :: d in b.recs ==>
      && d in a.recs && b.recs[d].clientId == a.recs[d].clientId && b.recs[d].scope == a.recs[d].scope
      && b.recs[d].audience == a.recs[d].audience && b.recs[d].userCode == a.recs[d].userCode
  }

  lemma MarksGo(dev: Devices.Tables, userCode: string, userId: string, now: int)
    ensures SameAsked(dev, Devices.Deny(dev, userCode)) && SameAsked(dev, Devices.Authorize(dev, userCode, userId, now))
  {
  }

  lemma MarkStepGoes(cfg: Config, s: State, r: nat, c: Choice)
    requires Enabled(s, r, c) && !s.reqs[r].DeviceSave?
    ensures SameAsked(s.dev, Act(cfg, s, r, c).dev)
  {
    var pc := s.reqs[r];
    if ApprovalPc(pc) {
      ApprovalAct(cfg, s, r, c);
    }
    if pc.DeviceDeny? {
      MarksGo(s.dev, pc.userCode, "", c.t1);
    } else if pc.DeviceApprove? {
      MarksGo(s.dev, pc.userCode, pc.userId, c.t1);
    } else {
      assert SameRecords(s, Act(cfg, s, r, c));
    }
  }

  lemma DevicesFromStep(cfg: Config, s: State, t: Trail, r: nat, c: Choice)
    requires Enabled(s, r, c) && PcFrom(cfg, t, s.h, r, s.reqs[r]) && DevicesFrom(s, t)
    requires t.made.Keys <= s.names
    ensures DevicesFrom(Act(cfg, s, r, c), Noted(cfg, s, t, r, c))
  {
    var pc := s.reqs[r];
    NotedLater(cfg, s, t, r, c);
    if pc.DeviceSave? {
      ApprovalAct(cfg, s, r, c);
      DevicesFromSave(cfg, s, t, r, c, pc, Noted(cfg, s, t, r, c));
    } else {
      MarkStepGoes(cfg, s, r, c);
      DevicesLater(s, t, Act(cfg, s, r, c), Noted(cfg, s, t, r, c));
    }
  }

  lemma NewMintsFrom(cfg: Config, s: State, t: Trail, r: nat, c: Choice, i: nat)
    requires Enabled(s, r, c) && PcFrom(cfg, t, s.h, r, s.reqs[r]) && DevicesFrom(s, t)
    requires |s.h.mints| <= i < |Act(cfg, s, r, c).h.mints|
    ensures GranteeFrom(cfg, t, Act(cfg, s, r, c).h, r, Act(cfg, s, r, c).h.mints[i].g)
  {
    var pc := s.reqs[r];
    TokenActs(cfg, s, r, c);
    FrontActs(cfg, s, r, c);
    if pc.ClientCredentials? {
      ClientMintsFrom(cfg, s, t, r, c, pc.clientId);
    } else if pc.Mint? {
      MintMintsFrom(cfg, s, t, r, c, pc.g);
    } else if pc.DeviceMint? {
      DeviceMintAct(cfg, s, r, c, pc.device);
      DeviceMintFrom(cfg, s, t, r, c, pc.device);
    } else if pc.ImplicitMint? {
      ImplicitMintsFrom(cfg, s, t, r, c, pc.f, pc.userId);
    }
  }

  lemma MintsFromStep(cfg: Config, s: State, t: Trail, r: nat, c: Choice)
    requires Enabled(s, r, c) && PcFrom(cfg, t, s.h, r, s.reqs[r]) && DevicesFrom(s, t) && MintsFrom(cfg, s, t)
    requires Grows(s, Act(cfg, s, r, c)) && t.made.Keys <= s.names
    ensures MintsFrom(cfg, Act(cfg, s, r, c), Noted(cfg, s, t, r, c))
  {
    var s', t' := Act(cfg, s, r, c), Noted(cfg, s, t, r, c);
    NotedLater(cfg, s, t, r, c);
    forall i | 0 <= i < |s'.h.mints|
      ensures GranteeFrom(cfg, t', s'.h, s'.h.mints[i].req, s'.h.mints[i].g)
    {
      if i < |s.h.mints| {
        GranteeLater(cfg, t, s.h, t', s'.h, s.h.mints[i].req, s.h.mints[i].g);
      } else {
        NewMintsFrom(cfg, s, t, r, c, i);
        GranteeLater(cfg, t, s'.h, t', s'.h, r, s'.h.mints[i].g);
      }
    }
  }

  lemma FoundedLater(mints: seq<MintEvent>, mints': seq<MintEvent>, root: Root)
    requires Founded(mints, root) && mints <= mints'
    ensures Founded(mints', root)
  {
    var i :| 0 <= i < |mints| && Founds(mints[i], root);
    assert mints'[i] == mints[i];
  }

  lemma RootsLater(s: State, s': State)
    requires RootsFrom(s) && s'.h.roots == s.h.roots && s.h.mints <= s'.h.mints
    ensures RootsFrom(s')
  {
    forall f | 0 <= f < |s'.h.roots|
      ensures Founded(s'.h.mints, s'.h.roots[f])
    {
      FoundedLater(s.h.mints, s'.h.mints, s.h.roots[f]);
    }
  }

  lemma RootsStay(s: State, r: nat, c: Choice, token: string, clientId: string, g: Grantee)
    ensures RefreshConsumeStep(s, r, c, token, clientId).h.roots == s.h.roots
    ensures MintStep(s, r, c, g).h.roots == s.h.roots
  {
    if c.access.Some? {
      MintShape(s, r, c, g);
    }
  }

  lemma RootsFromStep(cfg: Config, s: State, t: Trail, r: nat, c: Choice)
    requires Enabled(s, r, c) && PcFrom(cfg, t, s.h, r, s.reqs[r]) && RootsFrom(s)
    requires PcOk(cfg, s, r, s.reqs[r])
    ensures RootsFrom(Act(cfg, s, r, c))
  {
    var pc := s.reqs[r];
    TokenActs(cfg, s, r, c);
    if pc.SaveRefresh? {
      RootsFromSave(cfg, s, r, c, pc.g, pc.tokens);
    } else {
      if pc.Mint? {
        RootsStay(s, r, c, "", "", pc.g);
      } else if pc.RefreshConsume? {
        RootsStay(s, r, c, pc.token, pc.clientId, Grantee(FromFront, "", "", "", "", ""));
      }
      RootsLater(s, Act(cfg, s, r, c));
    }
  }

  lemma StepFrom(cfg: Config, s: State, t: Trail, r: nat, c: Choice)
    requires Enabled(s, r, c) && Origins(cfg, s, t) && Grows(s, Act(cfg, s, r, c)) && PcOk(cfg, s, r, s.reqs[r])
    ensures Origins(cfg, Act(cfg, s, r, c), Noted(cfg, s, t, r, c))
  {
    assert PcFrom(cfg, t, s.h, r, s.reqs[r]);
    MadeAreNames(cfg, s, t, r, c);
    OwnStepFrom(cfg, s, t, r, c);
    PcsFromStep(cfg, s, t, r, c);
    CodesFromStep(cfg, s, t, r, c);
    DevicesFromStep(cfg, s, t, r, c);
    MintsFromStep(cfg, s, t, r, c);
    RootsFromStep(cfg, s, t, r, c);
  }

  lemma AdmitFrom(cfg: Config, t: Trail, h: History, r: nat, q: Request)
    requires r in t.asked && t.asked[r] == q
    ensures PcFrom(cfg, t, h, r, Admit(cfg, q))
  {
  }

  lemma ArriveFrom(cfg: Config, s: State, t: Trail, r: nat, q: Request)
    requires Origins(cfg, s, t) && r !in s.reqs
    ensures Origins(cfg, Arrived(cfg, s, r, q), t.(asked := t.asked[r := q]))
  {
    var s', t' := Arrived(cfg, s, r, q), t.(asked := t.asked[r := q]);
    AdmitFrom(cfg, t', s.h, r, q);
    forall p | p in s'.reqs
      ensures PcFrom(cfg, t', s'.h, p, s'.reqs[p])
    {
      if p != r {
        PcLater(cfg, t, s.h, t', s'.h, p, s.reqs[p]);
      }
    }
    CodesLater(cfg, s, t, s', t');
    DevicesLater(s, t, s', t');
    forall i | 0 <= i < |s'.h.mints|
      ensures GranteeFrom(cfg, t', s'.h, s'.h.mints[i].req, s'.h.mints[i].g)
    {
      GranteeLater(cfg, t, s.h, t', s'.h, s.h.mints[i].req, s.h.mints[i].g);
    }
    RootsLater(s, s');
  }

  lemma NextFrom(cfg: Config, s: State, t: Trail, e: Event)
    requires Inv(cfg, s) && Origins(cfg, s, t) && Allowed(s, e)
    ensures Origins(cfg, Next(cfg, s, e), Note(cfg, s, t, e))
  {
    match e
    case Arrive(r, q) => ArriveFrom(cfg, s, t, r, q);
    case Step(r, c) =>
      ActGrows(cfg, s, r, c);
      Ready(cfg, s, r, c);
      StepFrom(cfg, s, t, r, c);
    case SetUsers(users) => RootsLater(s, s.(users := users));
  }

  lemma {:induction false} RunFrom(cfg: Config, s: State, t: Trail, run: seq<Event>)
    requires Inv(cfg, s) && Origins(cfg, s, t) && Legal(cfg, s, run)
    ensures Origins(cfg, After(cfg, s, run), TrailAfter(cfg, s, t, run))
    decreases |run|
  {
    if run == [] {
    } else {
      NextKeeps(cfg, s, run[0]);
      NextFrom(cfg, s, t, run[0]);
      RunFrom(cfg, Next(cfg, s, run[0]), Note(cfg, s, t, run[0]), run[1..]);
    }
  }

  lemma TracedFrom(cfg: Config, s: State, t: Trail)
    requires Traced(cfg, s, t)
    ensures Inv(cfg, s) && Origins(cfg, s, t)
  {
    var users, run :|
      && Legal(cfg, Init(users), run) && After(cfg, Init(users), run) == s
      && TrailAfter(cfg, Init(users), START, run) == t;
    InitInv(cfg, users);
    RunKeeps(cfg, Init(users), run);
    assert Origins(cfg, Init(users), START);
    RunFrom(cfg, Init(users), START, run);
  }

  // ----- what holds of every run -----

  /** What a trail says was asked is what arrived. */
  lemma {:induction false} AskedIsWhatArrived(cfg: Config, s: State, t: Trail, run: seq<Event>, r: nat)
    requires Legal(cfg, s, run) && t.asked.Keys == s.reqs.Keys
    ensures var t' := TrailAfter(cfg, s, t, run);
            && t'.asked.Keys == After(cfg, s, run).reqs.Keys
            && (r in t.asked ==> r in t'.asked && t'.asked[r] == t.asked[r])
            && (r !in t.asked && r in t'.asked ==> Arrive(r, t'.asked[r]) in run)
    decreases |run|
  {
    if run == [] {
    } else {
      var s1, t1 := Next(cfg, s, run[0]), Note(cfg, s, t, run[0]);
      NoteAsks(cfg, s, t, run[0]);
      AskedIsWhatArrived(cfg, s1, t1, run[1..], r);
      assert run == [run[0]] + run[1..];
    }
  }

  /** Every code held or consumed was made for a request to authorize or to log in: its client, redirect
      URI, scope, audience, nonce, challenge and method are what that request carried, with the defaults
      filled in, and its user is the one that request proved to come from. A code that is consumed was
      consumed by a token request that carried it. */
  lemma CodesAreAskedFor(cfg: Config, s: State, t: Trail, code: string)
    requires Traced(cfg, s, t)
    ensures code in s.codes ==> CodeOf(cfg, t, code, s.codes[code].grant)
    ensures code in s.h.consumed ==>
              var e := s.h.consumed[code];
              && CodeOf(cfg, t, code, e.ac)
              && e.req in t.asked && t.asked[e.req] == TokenCode(e.q) && e.q.code == code
  {
    TracedFrom(cfg, s, t);
  }

  /** Every mint is for what the minting request asked for, or for what the request behind its code or
      device code asked for. */
  lemma MintsAreAskedFor(cfg: Config, s: State, t: Trail, i: nat)
    requires Traced(cfg, s, t) && i < |s.h.mints|
    ensures GranteeFrom(cfg, t, s.h, s.h.mints[i].req, s.h.mints[i].g)
  {
    TracedFrom(cfg, s, t);
  }

  /** A mint for a device has the client and the scope of the device request that its code was made for, and
      the audience which that request asked for, or else the client. */
  lemma DeviceMintsAreAskedFor(cfg: Config, s: State, t: Trail, i: nat, device: string)
    requires Traced(cfg, s, t) && i < |s.h.mints| && s.h.mints[i].g.src == FromDevice(device)
    ensures s.h.mints[i].req in t.asked && t.asked[s.h.mints[i].req] == TokenDevice(device)
    ensures device in t.made && t.made[device] in t.asked && t.asked[t.made[device]].DeviceRequest?
    ensures var g, p := s.h.mints[i].g, t.asked[t.made[device]];
            && g.client == (if p.clientId == "" then "e2e-test" else p.clientId)
            && g.aud == (if p.audience == "" then g.client else p.audience)
            && g.scope == (if p.scope == "" then "openid" else p.scope)
  {
    MintsAreAskedFor(cfg, s, t, i);
  }

  /** Every refresh token held carries the user, client, scope and session of a mint for a password or
      for a code, however many rotations lie between. */
  lemma FamiliesAreAskedFor(cfg: Config, s: State, t: Trail, token: string)
    requires Traced(cfg, s, t) && token in s.refresh
    ensures var rg := s.refresh[token].grant;
            exists i ::
              && 0 <= i < |s.h.mints| && (s.h.mints[i].g.src.FromPassword? || s.h.mints[i].g.src.FromCode?)
              && s.h.mints[i].g.sub == rg.userId && s.h.mints[i].g.client == rg.clientId
              && s.h.mints[i].g.scope == rg.scope && s.h.mints[i].g.sid == rg.sessionId
  {
    TracedFrom(cfg, s, t);
    RefreshOfFamily(s, token);
    var i :| 0 <= i < |s.h.mints| && Founds(s.h.mints[i], s.h.roots[s.h.familyOf[token]]);
    assert s.h.mints[i].g.src.FromPassword? || s.h.mints[i].g.src.FromCode?;
  }

  /** The exchange `q` is for the client and the redirect URI of the request `p` for the code, as far as
      it names them, answers the challenge that `p` carried, and knows the secret where one is required. */
  predicate Meets(cfg: Config, p: Request, ac: AuthCode, q: CodeQuery)
    requires p.AuthorizeRequest? || p.LoginForm?
  {
    && (q.clientId == "" || q.clientId == ac.clientId)
    && (q.redirectURI == "" || cfg.normalizeURI(q.redirectURI) == cfg.normalizeURI(p.redirectURI))
    && (p.codeChallenge == "" ||
        (q.codeVerifier != ""
         && Pkce.Transform(cfg.hash, q.codeVerifier, p.codeChallengeMethod) == Some(p.codeChallenge)))
    && (cfg.hasRegistry && cfg.requireSecretForCodes && ac.clientId in cfg.clients
        && cfg.clients[ac.clientId].clientSecret != "" ==>
          q.clientSecret == cfg.clients[ac.clientId].clientSecret)
  }

  lemma GatesMeetTheRequest(cfg: Config, t: Trail, code: string, ac: AuthCode, q: CodeQuery)
    requires CodeOf(cfg, t, code, ac) && Gates(cfg, ac, q)
    ensures Meets(cfg, t.asked[t.made[code]], ac, q)
  {
    GatesSpelledOut(cfg, ac, q);
  }

  /** From end to end: behind every success response for a code, first or replayed, there are two
      requests, one that asked for the code and one that exchanged it, and the second meets the first. */
  lemma SuccessMeetsTheRequest(cfg: Config, s: State, t: Trail, r: nat, code: string, replayed: bool, tokens: Tokens)
    requires Traced(cfg, s, t) && r in s.reqs && s.reqs[r] == Done(Granted(FromCode(code), replayed, tokens))
    ensures code in s.h.consumed
    ensures var e := s.h.consumed[code];
            && e.req in t.asked && t.asked[e.req] == TokenCode(e.q) && e.q.code == code
            && CodeOf(cfg, t, code, e.ac) && Meets(cfg, t.asked[t.made[code]], e.ac, e.q)
  {
    TracedFrom(cfg, s, t);
    SuccessMeansPassed(cfg, s, r, code, replayed, tokens);
    CodesAreAskedFor(cfg, s, t, code);
    GatesMeetTheRequest(cfg, t, code, s.h.consumed[code].ac, s.h.consumed[code].q);
  }
}
