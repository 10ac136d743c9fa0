/** What every step of the protocol keeps. */
module ProtocolInvariant {
  import opened Wrappers
  import opened Text
  import opened Grants
  import opened Protocol
  import TtlTable
  import Devices
  import Sessions
  import Replay
  import Clients
  import Pkce

  // ----- stages of a request -----

  predicate PastMint(pc: Pc) {
    pc.SaveRefresh? || pc.Cache? || pc.Done?
  }

  predicate PastIssue(pc: Pc) {
    pc.Cache? || pc.Done?
  }

  /** The user of the last approval of a device. */
  function LastApproval(approvals: seq<Approval>, device: string): Option<string> {
    if approvals == [] then None
    else
      var a := approvals[|approvals| - 1];
      if a.device == device then Some(a.userId) else LastApproval(approvals[..|approvals| - 1], device)
  }

  /** The four gates of an exchange, written out. */
  lemma GatesSpelledOut(cfg: Config, ac: AuthCode, q: CodeQuery)
    ensures Gates(cfg, ac, q) <==>
              && (q.clientId == "" || q.clientId == ac.clientId)
              && (q.redirectURI == "" || cfg.normalizeURI(q.redirectURI) == cfg.normalizeURI(ac.redirectUri))
              && (ac.codeChallenge == "" ||
                  (q.codeVerifier != ""
                   && Pkce.Transform(cfg.hash, q.codeVerifier, ac.codeChallengeMethod) == Some(ac.codeChallenge)))
              && (cfg.hasRegistry && cfg.requireSecretForCodes && ac.clientId in cfg.clients
                  && cfg.clients[ac.clientId].clientSecret != "" ==>
                    q.clientSecret == cfg.clients[ac.clientId].clientSecret)
  {
    Pkce.VerifyMeetsTransform(cfg.hash, q.codeVerifier, ac.codeChallenge, ac.codeChallengeMethod);
  }

  // ----- the invariant, part by part -----

  predicate ScopeOk(cfg: Config, clientId: string, scope: string) {
    cfg.hasRegistry ==> Clients.ScopeAllowed(cfg.clients, clientId, scope)
  }

  predicate FrontOk(cfg: Config, f: Front) {
    f.via == Authorize ==> ScopeOk(cfg, f.clientId, f.scope)
  }

  predicate AuthCodeOk(cfg: Config, h: History, code: string, ac: AuthCode) {
    && ac.userId in h.verified
    && ac.sessionId != ""
    && (code in h.viaAuthorize ==> ScopeOk(cfg, ac.clientId, ac.scope))
  }

  ghost predicate NamesInv(s: State) {
    && s.codes.Keys <= s.names && s.refresh.Keys <= s.names && s.dev.recs.Keys <= s.names
    && s.h.consumed.Keys <= s.names && s.h.viaAuthorize <= s.names
    && s.h.familyOf.Keys <= s.names && s.h.refreshed.Keys <= s.names
    && s.h.issued.Keys <= s.h.consumed.Keys && s.h.cached.Keys <= s.h.issued.Keys && s.replay.Keys <= s.h.cached.Keys
  }

  ghost predicate CodesInv(cfg: Config, s: State) {
    && (forall c :: c in s.codes ==> c !in s.h.consumed && AuthCodeOk(cfg, s.h, c, s.codes[c].grant))
    && (forall c :: c in s.h.consumed ==>
          var e := s.h.consumed[c];
          && e.req in s.reqs && AuthCodeOk(cfg, s.h, c, e.ac)
          && e.q.code == c && e.passed == Gates(cfg, e.ac, e.q))
  }

  predicate IssuedOk(s: State, e: Exchange, tokens: Tokens) {
    && e.passed && e.req in s.reqs && PastIssue(s.reqs[e.req])
    && (tokens.refresh.Some? <==> Contains(e.ac.scope, OFFLINE))
  }

  ghost predicate IssuedInv(s: State) {
    && (forall c :: c in s.h.issued ==> c in s.h.consumed && IssuedOk(s, s.h.consumed[c], s.h.issued[c]))
    && (forall c :: c in s.h.cached ==>
        c in s.h.consumed && s.h.consumed[c].req in s.reqs && s.reqs[s.h.consumed[c].req].Done?)
  }

  ghost predicate ReplayInv(s: State) {
    && (forall c :: c in s.replay ==>
          c in s.h.cached && c in s.h.issued && s.replay[c] == Replay.Entry(s.h.issued[c], s.h.cached[c]))
    && (forall c :: c in s.h.cached && s.now <= s.h.cached[c] ==> c in s.replay)
  }

  predicate RootOk(h: History, root: Root) {
    root.sub in h.verified && root.sid != "" && Contains(root.scope, OFFLINE)
  }

  function RootOf(rg: RefreshGrant): Root {
    Root(rg.userId, rg.clientId, rg.scope, rg.sessionId)
  }

  ghost predicate RefreshInv(s: State) {
    && (forall f :: 0 <= f < |s.h.roots| ==> RootOk(s.h, s.h.roots[f]))
    && (forall t :: t in s.h.familyOf ==> s.h.familyOf[t] < |s.h.roots|)
    && (forall t :: t in s.refresh ==>
          && t in s.h.familyOf && t !in s.h.refreshed
          && RootOf(s.refresh[t].grant) == s.h.roots[s.h.familyOf[t]])
  }

  /** Each family is held at most once: by a live token, or by a request that is rotating it. */
  ghost predicate FamiliesInv(s: State) {
    && (forall t, u :: t in s.refresh && u in s.refresh && t != u && t in s.h.familyOf && u in s.h.familyOf ==>
          s.h.familyOf[t] != s.h.familyOf[u])
    && (forall r, t :: r in s.reqs && t in s.refresh && t in s.h.familyOf ==>
        Rotating(s.reqs[r]) != Some(s.h.familyOf[t]))
    && (forall r, q :: r in s.reqs && q in s.reqs && r != q && Rotating(s.reqs[r]).Some? ==>
          Rotating(s.reqs[r]) != Rotating(s.reqs[q]))
  }

  ghost predicate DevicesInv(s: State) {
    && (forall d :: d in s.dev.recs && s.dev.recs[d].authorized ==>
          && s.dev.recs[d].userId in s.h.verified
          && (d in s.dev.live ==> LastApproval(s.h.approvals, d) == Some(s.dev.recs[d].userId)))
    && (forall d :: d in s.h.used ==>
          && d in s.dev.recs && d !in s.dev.live && s.dev.recs[d].authorized
          && s.h.used[d].approvals <= |s.h.approvals|
          && LastApproval(s.h.approvals[..s.h.used[d].approvals], d) == Some(s.dev.recs[d].userId))
  }

  ghost predicate SessionsInv(s: State) {
    forall k :: k in s.sessions ==> s.sessions[k].userId in s.h.verified
  }

  predicate MintOk(s: State, m: MintEvent) {
    && m.req in s.reqs && PastMint(s.reqs[m.req])
    && (m.g.src != FromClient ==> m.g.sub in s.h.verified)
    && match m.g.src
       case FromCode(c) => c in s.h.consumed && s.h.consumed[c].req == m.req && s.h.consumed[c].passed
           && s.h.consumed[c].ac.userId == m.g.sub
       case FromRefresh(t, f) => t in s.h.refreshed && s.h.refreshed[t] == m.req && f < |s.h.roots|
           && s.h.roots[f] == Root(m.g.sub, m.g.client, m.g.scope, m.g.sid)
       case FromDevice(d) => d in s.h.used && s.h.used[d].req == m.req && d in s.dev.recs
           && s.dev.recs[d].userId == m.g.sub
       case _ => true
  }

  ghost predicate MintsInv(s: State) {
    && (forall i :: 0 <= i < |s.h.mints| ==> MintOk(s, s.h.mints[i]))
    && (forall i, j :: 0 <= i < j < |s.h.mints| ==> s.h.mints[i].req != s.h.mints[j].req)
  }

  /** The request `r` consumed `code` and passed every gate. */
  predicate Exchanging(h: History, r: nat, code: string) {
    code in h.consumed && h.consumed[code].req == r && h.consumed[code].passed
  }

  predicate GranteeOk(h: History, r: nat, g: Grantee) {
    && g.sub in h.verified && g.sid != ""
    && match g.src
       case FromPassword => true
       case FromCode(c) => Exchanging(h, r, c) && h.consumed[c].ac.userId == g.sub && h.consumed[c].ac.scope == g.scope
       case FromRefresh(t, f) => t in h.refreshed && h.refreshed[t] == r && f < |h.roots|
           && h.roots[f] == Root(g.sub, g.client, g.scope, g.sid)
       case _ => false
  }

  predicate PcOk(cfg: Config, s: State, r: nat, pc: Pc) {
    match pc
    case CodeReplayCheck(code, entry) =>
      entry.Some? ==>
        && code in s.h.cached && code in s.h.issued
        && entry.value == Replay.Entry(s.h.issued[code], s.h.cached[code])
    case CodeUser(code, ac, _) => Exchanging(s.h, r, code) && s.h.consumed[code].ac == ac
    case Mint(g) => GranteeOk(s.h, r, g)
    case SaveRefresh(g, tokens) => GranteeOk(s.h, r, g) && Contains(g.scope, OFFLINE) && tokens.refresh == None
    case Cache(code, tokens) => Exchanging(s.h, r, code) && code in s.h.issued && s.h.issued[code] == tokens
    case DeviceApprove(_, userId) => userId in s.h.verified
    case DeviceUser(d) => d in s.h.used && s.h.used[d].req == r
    case DeviceMint(d) => d in s.h.used && s.h.used[d].req == r
    case LoginCheck(f, _, _) => FrontOk(cfg, f)
    case LoginSession(f, userId, _) => FrontOk(cfg, f) && userId in s.h.verified
    case CookieGet(f, _) => FrontOk(cfg, f)
    case CookieUser(f, userId) => FrontOk(cfg, f) && userId in s.h.verified
    case SaveCode(f, userId) => FrontOk(cfg, f) && userId in s.h.verified
    case ImplicitMint(f, userId) => userId in s.h.verified
    case Done(Granted(src, _, tokens)) =>
      && (src.FromCode? ==> src.code in s.h.issued && s.h.issued[src.code] == tokens)
      && (src.FromRefresh? ==> tokens.refresh.Some?)
    case _ => true
  }

  ghost predicate PcsInv(cfg: Config, s: State) {
    forall r :: r in s.reqs ==> PcOk(cfg, s, r, s.reqs[r])
  }

  ghost predicate Inv(cfg: Config, s: State) {
    && NamesInv(s) && CodesInv(cfg, s) && IssuedInv(s) && ReplayInv(s)
    && RefreshInv(s) && FamiliesInv(s) && DevicesInv(s) && SessionsInv(s) && MintsInv(s) && PcsInv(cfg, s)
  }

  // ----- what only grows -----

  ghost predicate Extends<K, V>(a: map<K, V>, b: map<K, V>) {
    forall k :: k in a ==> k in b && b[k] == a[k]
  }

  /** `s'` remembers everything `s` does. */
  ghost predicate Grows(s: State, s': State) {
    && s.now <= s'.now
    && s.names <= s'.names
    && s.h.verified <= s'.h.verified
    && Extends(s.h.consumed, s'.h.consumed) && Extends(s.h.issued, s'.h.issued) && Extends(s.h.cached, s'.h.cached)
    && Extends(s.h.refreshed, s'.h.refreshed) && s.h.roots <= s'.h.roots && Extends(s.h.familyOf, s'.h.familyOf)
    && s.h.approvals <= s'.h.approvals && Extends(s.h.used, s'.h.used) && s.h.mints <= s'.h.mints
    && s.dev.recs.Keys <= s'.dev.recs.Keys
    && (forall d :: d in s.h.used && d in s.dev.recs ==> s'.dev.recs[d] == s.dev.recs[d])
  }

  lemma PcStable(cfg: Config, s: State, s': State, r: nat, pc: Pc)
    requires Grows(s, s') && PcOk(cfg, s, r, pc)
    ensures PcOk(cfg, s', r, pc)
  {
  }

  // ----- one change at a time -----

  /** The family `f` has no live token and no request other than `r` rotates it. */
  ghost predicate FamilyFree(s: State, r: nat, f: nat) {
    && (forall t :: t in s.refresh && t in s.h.familyOf ==> s.h.familyOf[t] != f)
    && (forall q :: q in s.reqs && q != r ==> Rotating(s.reqs[q]) != Some(f))
  }

  /** What allows a request to move on to `pc` while nothing else changes. */
  ghost predicate MayMove(cfg: Config, s: State, r: nat, pc: Pc) {
    && r in s.reqs && !s.reqs[r].Done?
    && PcOk(cfg, s, r, pc)
    && (PastMint(s.reqs[r]) ==> PastMint(pc))
    && (PastIssue(s.reqs[r]) ==> PastIssue(pc))
    && (Rotating(pc).Some? ==> Rotating(pc) == Rotating(s.reqs[r]) || FamilyFree(s, r, Rotating(pc).value))
  }

  function Moved(s: State, r: nat, now: int, pc: Pc): State {
    s.(now := now, reqs := s.reqs[r := pc])
  }

  lemma MovePcs(cfg: Config, s: State, r: nat, now: int, pc: Pc)
    requires PcsInv(cfg, s) && MayMove(cfg, s, r, pc) && s.now <= now
    ensures PcsInv(cfg, Moved(s, r, now, pc))
  {
    var s' := Moved(s, r, now, pc);
    forall q | q in s'.reqs
      ensures PcOk(cfg, s', q, s'.reqs[q])
    {
      PcStable(cfg, s, s', q, s'.reqs[q]);
    }
  }

  lemma MoveFamilies(cfg: Config, s: State, r: nat, now: int, pc: Pc)
    requires FamiliesInv(s) && MayMove(cfg, s, r, pc)
    ensures FamiliesInv(Moved(s, r, now, pc))
  {
  }

  lemma MoveCodes(cfg: Config, s: State, r: nat, now: int, pc: Pc)
    requires CodesInv(cfg, s) && IssuedInv(s) && MintsInv(s) && MayMove(cfg, s, r, pc)
    ensures CodesInv(cfg, Moved(s, r, now, pc)) && IssuedInv(Moved(s, r, now, pc)) && MintsInv(Moved(s, r, now, pc))
  {
  }

  lemma MoveRest(cfg: Config, s: State, r: nat, now: int, pc: Pc)
    requires NamesInv(s) && ReplayInv(s) && RefreshInv(s) && DevicesInv(s) && SessionsInv(s) && s.now <= now
    ensures var s' := Moved(s, r, now, pc);
            NamesInv(s') && ReplayInv(s') && RefreshInv(s') && DevicesInv(s') && SessionsInv(s')
  {
  }

  /** The request moves on, nothing else changes. */
  lemma Move(cfg: Config, s: State, r: nat, now: int, pc: Pc)
    requires Inv(cfg, s) && MayMove(cfg, s, r, pc) && s.now <= now
    ensures Inv(cfg, Moved(s, r, now, pc))
  {
    MovePcs(cfg, s, r, now, pc);
    MoveFamilies(cfg, s, r, now, pc);
    MoveCodes(cfg, s, r, now, pc);
    MoveRest(cfg, s, r, now, pc);
  }

  // ----- parts that a change leaves alone -----

  /** No request falls back behind a stage it has passed. */
  ghost predicate StagesKept(s: State, s': State) {
    forall r :: r in s.reqs ==>
      && r in s'.reqs
      && (PastMint(s.reqs[r]) ==> PastMint(s'.reqs[r]))
      && (PastIssue(s.reqs[r]) ==> PastIssue(s'.reqs[r]))
      && (s.reqs[r].Done? ==> s'.reqs[r].Done?)
  }

  lemma KeepCodes(cfg: Config, s: State, s': State)
    requires CodesInv(cfg, s) && Grows(s, s') && StagesKept(s, s')
    requires s'.h.consumed == s.h.consumed && s'.h.viaAuthorize == s.h.viaAuthorize
    requires Extends(s'.codes, s.codes)
    ensures CodesInv(cfg, s')
  {
  }

  lemma KeepIssued(s: State, s': State)
    requires IssuedInv(s) && Grows(s, s') && StagesKept(s, s')
    requires s'.h.issued == s.h.issued && s'.h.cached == s.h.cached
    ensures IssuedInv(s')
  {
  }

  lemma KeepRefresh(s: State, s': State)
    requires RefreshInv(s) && FamiliesInv(s) && Grows(s, s')
    requires Extends(s'.refresh, s.refresh) && s'.h.roots == s.h.roots && s'.h.familyOf == s.h.familyOf
    requires s'.h.refreshed == s.h.refreshed
    requires forall r :: r in s'.reqs && Rotating(s'.reqs[r]).Some? ==>
              r in s.reqs && Rotating(s'.reqs[r]) == Rotating(s.reqs[r])
    ensures RefreshInv(s') && FamiliesInv(s')
  {
  }

  lemma KeepDevices(s: State, s': State)
    requires DevicesInv(s) && Grows(s, s')
    requires s'.dev == s.dev && s'.h.approvals == s.h.approvals && s'.h.used == s.h.used
    ensures DevicesInv(s')
  {
  }

  lemma KeepMints(s: State, s': State)
    requires MintsInv(s) && Grows(s, s') && StagesKept(s, s')
    requires s'.h.mints == s.h.mints
    ensures MintsInv(s')
  {
    forall i | 0 <= i < |s'.h.mints|
      ensures MintOk(s', s'.h.mints[i])
    {
      assert MintOk(s, s.h.mints[i]);
    }
  }

  lemma KeepPcs(cfg: Config, s: State, s': State)
    requires PcsInv(cfg, s) && Grows(s, s') && s'.reqs == s.reqs
    ensures PcsInv(cfg, s')
  {
    forall q | q in s'.reqs
      ensures PcOk(cfg, s', q, s'.reqs[q])
    {
      PcStable(cfg, s, s', q, s.reqs[q]);
    }
  }

  // ----- users, mints, sessions -----

  lemma VerifyUser(cfg: Config, s: State, userId: string)
    requires Inv(cfg, s)
    ensures Inv(cfg, Verified(s, userId))
  {
    var s' := Verified(s, userId);
    KeepCodes(cfg, s, s');
    KeepIssued(s, s');
    KeepRefresh(s, s');
    KeepDevices(s, s');
    KeepMints(s, s');
    KeepPcs(cfg, s, s');
  }

  /** A request that has not minted yet has no mint in the history. */
  lemma NoMintYet(s: State, r: nat)
    requires MintsInv(s) && r in s.reqs && !PastMint(s.reqs[r])
    ensures forall i :: 0 <= i < |s.h.mints| ==> s.h.mints[i].req != r
  {
  }

  function WithMint(s: State, m: MintEvent): State {
    s.(h := s.h.(mints := s.h.mints + [m]))
  }

  lemma MintsWithMint(s: State, m: MintEvent)
    requires MintsInv(s) && MintOk(s, m)
    requires forall i :: 0 <= i < |s.h.mints| ==> s.h.mints[i].req != m.req
    ensures MintsInv(WithMint(s, m))
  {
    var s' := WithMint(s, m);
    forall i | 0 <= i < |s'.h.mints|
      ensures MintOk(s', s'.h.mints[i])
    {
      assert MintOk(s, s'.h.mints[i]);
    }
  }

  lemma AddMint(cfg: Config, s: State, m: MintEvent)
    requires Inv(cfg, s) && MintOk(s, m)
    requires forall i :: 0 <= i < |s.h.mints| ==> s.h.mints[i].req != m.req
    ensures Inv(cfg, WithMint(s, m))
  {
    var s' := WithMint(s, m);
    KeepCodes(cfg, s, s');
    KeepIssued(s, s');
    KeepRefresh(s, s');
    KeepDevices(s, s');
    MintsWithMint(s, m);
    KeepPcs(cfg, s, s');
  }

  lemma SetSessions(cfg: Config, s: State, sessions: Sessions.Table)
    requires Inv(cfg, s)
    requires forall k :: k in sessions ==> sessions[k].userId in s.h.verified
    ensures Inv(cfg, s.(sessions := sessions))
  {
    var s' := s.(sessions := sessions);
    KeepCodes(cfg, s, s');
    KeepIssued(s, s');
    KeepRefresh(s, s');
    KeepDevices(s, s');
    KeepMints(s, s');
    KeepPcs(cfg, s, s');
  }

  // ----- authorization codes -----

  lemma DropCode(cfg: Config, s: State, code: string)
    requires Inv(cfg, s)
    ensures Inv(cfg, s.(codes := TtlTable.Drop(s.codes, code)))
  {
    var s' := s.(codes := TtlTable.Drop(s.codes, code));
    KeepCodes(cfg, s, s');
    KeepIssued(s, s');
    KeepRefresh(s, s');
    KeepDevices(s, s');
    KeepMints(s, s');
    KeepPcs(cfg, s, s');
  }

  function WithConsumed(s: State, code: string, e: Exchange): State {
    s.(codes := TtlTable.Drop(s.codes, code), h := s.h.(consumed := s.h.consumed[code := e]))
  }

  lemma CodesWithConsumed(cfg: Config, s: State, code: string, e: Exchange)
    requires CodesInv(cfg, s) && code in s.codes
    requires e.req in s.reqs && e.ac == s.codes[code].grant && e.q.code == code && e.passed == Gates(cfg, e.ac, e.q)
    ensures CodesInv(cfg, WithConsumed(s, code, e))
  {
  }

  lemma NamesWithConsumed(s: State, code: string, e: Exchange)
    requires NamesInv(s) && code !in s.h.consumed && code in s.codes
    ensures var s' := WithConsumed(s, code, e); NamesInv(s') && Grows(s, s') && StagesKept(s, s')
  {
  }

  lemma ConsumeCode(cfg: Config, s: State, code: string, e: Exchange)
    requires Inv(cfg, s) && code in s.codes
    requires e.req in s.reqs && e.ac == s.codes[code].grant && e.q.code == code && e.passed == Gates(cfg, e.ac, e.q)
    ensures Inv(cfg, WithConsumed(s, code, e))
  {
    var s' := WithConsumed(s, code, e);
    assert code !in s.h.consumed;
    NamesWithConsumed(s, code, e);
    CodesWithConsumed(cfg, s, code, e);
    KeepIssued(s, s');
    KeepRefresh(s, s');
    KeepDevices(s, s');
    KeepMints(s, s');
    KeepPcs(cfg, s, s');
  }

  function WithCode(s: State, code: string, ac: AuthCode, viaAuthorize: bool, stamp: int, ttl: int, now: int): State {
    s.(codes := TtlTable.Save(s.codes, code, ac, stamp, ttl, now),
       names := s.names + {code},
       h := if viaAuthorize then s.h.(viaAuthorize := s.h.viaAuthorize + {code}) else s.h)
  }

  lemma CodesWithCode(cfg: Config, s: State, code: string, ac: AuthCode, viaAuthorize: bool, stamp: int, ttl: int,
                      now: int)
    requires CodesInv(cfg, s) && code !in s.h.consumed && code !in s.codes && code !in s.h.viaAuthorize
    requires ac.userId in s.h.verified && ac.sessionId != "" && (viaAuthorize ==> ScopeOk(cfg, ac.clientId, ac.scope))
    ensures CodesInv(cfg, WithCode(s, code, ac, viaAuthorize, stamp, ttl, now))
  {
  }

  lemma NamesWithCode(s: State, code: string, ac: AuthCode, viaAuthorize: bool, stamp: int, ttl: int, now: int)
    requires NamesInv(s)
    ensures var s' := WithCode(s, code, ac, viaAuthorize, stamp, ttl, now);
            NamesInv(s') && Grows(s, s') && StagesKept(s, s')
  {
  }

  lemma AddCode(cfg: Config, s: State, code: string, ac: AuthCode, viaAuthorize: bool, stamp: int, ttl: int, now: int)
    requires Inv(cfg, s) && code !in s.names
    requires ac.userId in s.h.verified && ac.sessionId != "" && (viaAuthorize ==> ScopeOk(cfg, ac.clientId, ac.scope))
    ensures Inv(cfg, WithCode(s, code, ac, viaAuthorize, stamp, ttl, now))
  {
    var s' := WithCode(s, code, ac, viaAuthorize, stamp, ttl, now);
    NamesWithCode(s, code, ac, viaAuthorize, stamp, ttl, now);
    CodesWithCode(cfg, s, code, ac, viaAuthorize, stamp, ttl, now);
    KeepIssued(s, s');
    KeepRefresh(s, s');
    KeepDevices(s, s');
    KeepMints(s, s');
    KeepPcs(cfg, s, s');
  }

  function WithIssued(s: State, r: nat, now: int, code: string, tokens: Tokens): State {
    s.(now := now, h := s.h.(issued := s.h.issued[code := tokens]), reqs := s.reqs[r := Cache(code, tokens)])
  }

  lemma IssuedWithIssued(s: State, r: nat, now: int, code: string, tokens: Tokens)
    requires IssuedInv(s) && r in s.reqs && !s.reqs[r].Done? && Exchanging(s.h, r, code)
    requires tokens.refresh.Some? <==> Contains(s.h.consumed[code].ac.scope, OFFLINE)
    ensures IssuedInv(WithIssued(s, r, now, code, tokens))
  {
  }

  lemma ReplayWithIssued(s: State, r: nat, now: int, code: string, tokens: Tokens)
    requires ReplayInv(s) && code !in s.h.cached && s.now <= now
    ensures ReplayInv(WithIssued(s, r, now, code, tokens))
  {
  }

  lemma PcsWithIssued(cfg: Config, s: State, r: nat, now: int, code: string, tokens: Tokens)
    requires PcsInv(cfg, s) && Grows(s, WithIssued(s, r, now, code, tokens)) && Exchanging(s.h, r, code)
    ensures PcsInv(cfg, WithIssued(s, r, now, code, tokens))
  {
    var s' := WithIssued(s, r, now, code, tokens);
    forall q | q in s'.reqs
      ensures PcOk(cfg, s', q, s'.reqs[q])
    {
      if q != r {
        PcStable(cfg, s, s', q, s.reqs[q]);
      }
    }
  }

  lemma NamesWithIssued(s: State, r: nat, now: int, code: string, tokens: Tokens)
    requires NamesInv(s) && r in s.reqs && s.now <= now && !PastIssue(s.reqs[r]) && code !in s.h.issued
    requires code in s.h.consumed
    ensures var s' := WithIssued(s, r, now, code, tokens); NamesInv(s') && Grows(s, s') && StagesKept(s, s')
  {
  }

  /** The tokens of a code are complete: the consumer of the code goes on to cache them. */
  lemma IssueCode(cfg: Config, s: State, r: nat, now: int, code: string, tokens: Tokens)
    requires Inv(cfg, s) && r in s.reqs && s.now <= now
    requires !PastIssue(s.reqs[r]) && Exchanging(s.h, r, code)
    requires tokens.refresh.Some? <==> Contains(s.h.consumed[code].ac.scope, OFFLINE)
    ensures Inv(cfg, WithIssued(s, r, now, code, tokens))
  {
    assert code !in s.h.issued;
    var s' := WithIssued(s, r, now, code, tokens);
    NamesWithIssued(s, r, now, code, tokens);
    KeepCodes(cfg, s, s');
    IssuedWithIssued(s, r, now, code, tokens);
    ReplayWithIssued(s, r, now, code, tokens);
    KeepRefresh(s, s');
    KeepDevices(s, s');
    KeepMints(s, s');
    PcsWithIssued(cfg, s, r, now, code, tokens);
  }

  lemma ReplayAfterCache(s: State, r: nat, c: Choice, code: string, tokens: Tokens)
    requires ReplayInv(s) && s.now <= c.t1 <= c.t2 <= c.t3
    requires code in s.h.issued && s.h.issued[code] == tokens && code !in s.h.cached
    ensures ReplayInv(CacheStep(s, r, c, code, tokens))
  {
  }

  lemma IssuedAfterCache(s: State, r: nat, c: Choice, code: string, tokens: Tokens)
    requires IssuedInv(s) && r in s.reqs && Exchanging(s.h, r, code)
    ensures IssuedInv(CacheStep(s, r, c, code, tokens))
  {
  }

  lemma PcsAfterCache(cfg: Config, s: State, r: nat, c: Choice, code: string, tokens: Tokens)
    requires PcsInv(cfg, s) && Grows(s, CacheStep(s, r, c, code, tokens))
    requires code in s.h.issued && s.h.issued[code] == tokens
    ensures PcsInv(cfg, CacheStep(s, r, c, code, tokens))
  {
    var s' := CacheStep(s, r, c, code, tokens);
    forall q | q in s'.reqs
      ensures PcOk(cfg, s', q, s'.reqs[q])
    {
      if q != r {
        PcStable(cfg, s, s', q, s.reqs[q]);
      }
    }
  }

  lemma NamesAfterCache(s: State, r: nat, c: Choice, code: string, tokens: Tokens)
    requires NamesInv(s) && Enabled(s, r, c) && s.reqs[r].Cache? && code in s.h.issued && code !in s.h.cached
    ensures var s' := CacheStep(s, r, c, code, tokens); NamesInv(s') && Grows(s, s') && StagesKept(s, s')
  {
  }

  lemma CacheFacts(cfg: Config, s: State, r: nat, code: string, tokens: Tokens)
    requires PcsInv(cfg, s) && IssuedInv(s) && r in s.reqs && s.reqs[r] == Cache(code, tokens)
    ensures Exchanging(s.h, r, code) && code in s.h.issued && s.h.issued[code] == tokens && code !in s.h.cached
  {
    assert PcOk(cfg, s, r, s.reqs[r]);
  }

  lemma RestAfterCache(s: State, r: nat, c: Choice, code: string, tokens: Tokens)
    requires RefreshInv(s) && FamiliesInv(s) && DevicesInv(s) && SessionsInv(s) && MintsInv(s)
    requires Grows(s, CacheStep(s, r, c, code, tokens)) && StagesKept(s, CacheStep(s, r, c, code, tokens))
    ensures var s' := CacheStep(s, r, c, code, tokens);
            RefreshInv(s') && FamiliesInv(s') && DevicesInv(s') && SessionsInv(s') && MintsInv(s')
  {
    var s' := CacheStep(s, r, c, code, tokens);
    KeepRefresh(s, s');
    KeepDevices(s, s');
    KeepMints(s, s');
  }

  /** The response is cached, entries past their expiry are evicted, and the request ends. */
  lemma CacheTokens(cfg: Config, s: State, r: nat, c: Choice, code: string, tokens: Tokens)
    requires Inv(cfg, s) && Enabled(s, r, c) && s.reqs[r] == Cache(code, tokens)
    ensures Inv(cfg, CacheStep(s, r, c, code, tokens))
  {
    CacheFacts(cfg, s, r, code, tokens);
    NamesAfterCache(s, r, c, code, tokens);
    KeepCodes(cfg, s, CacheStep(s, r, c, code, tokens));
    IssuedAfterCache(s, r, c, code, tokens);
    ReplayAfterCache(s, r, c, code, tokens);
    RestAfterCache(s, r, c, code, tokens);
    PcsAfterCache(cfg, s, r, c, code, tokens);
  }

  // ----- refresh tokens -----

  lemma DropRefresh(cfg: Config, s: State, token: string)
    requires Inv(cfg, s)
    ensures Inv(cfg, s.(refresh := TtlTable.Drop(s.refresh, token)))
  {
    var s' := s.(refresh := TtlTable.Drop(s.refresh, token));
    KeepCodes(cfg, s, s');
    KeepIssued(s, s');
    KeepRefresh(s, s');
    KeepDevices(s, s');
    KeepMints(s, s');
    KeepPcs(cfg, s, s');
  }

  function WithRefreshed(s: State, token: string, r: nat): State {
    s.(refresh := TtlTable.Drop(s.refresh, token), h := s.h.(refreshed := s.h.refreshed[token := r]))
  }

  lemma RefreshWithRefreshed(s: State, token: string, r: nat)
    requires RefreshInv(s) && FamiliesInv(s) && token in s.refresh
    ensures RefreshInv(WithRefreshed(s, token, r)) && FamiliesInv(WithRefreshed(s, token, r))
    ensures token in s.h.familyOf && FamilyFree(WithRefreshed(s, token, r), r, s.h.familyOf[token])
  {
  }

  lemma NamesWithRefreshed(s: State, token: string, r: nat)
    requires NamesInv(s) && token in s.refresh && token !in s.h.refreshed
    ensures var s' := WithRefreshed(s, token, r); NamesInv(s') && Grows(s, s') && StagesKept(s, s')
  {
  }

  /** Consuming a token leaves its family without a holder. */
  lemma ConsumeRefresh(cfg: Config, s: State, token: string, r: nat)
    requires Inv(cfg, s) && token in s.refresh
    ensures Inv(cfg, WithRefreshed(s, token, r))
    ensures token in s.h.familyOf && FamilyFree(WithRefreshed(s, token, r), r, s.h.familyOf[token])
  {
    var s' := WithRefreshed(s, token, r);
    NamesWithRefreshed(s, token, r);
    RefreshWithRefreshed(s, token, r);
    KeepCodes(cfg, s, s');
    KeepIssued(s, s');
    KeepDevices(s, s');
    KeepMints(s, s');
    KeepPcs(cfg, s, s');
  }

  function WithRefresh(s: State, token: string, rg: RefreshGrant, family: nat, roots: seq<Root>, stamp: int, ttl: int,
                       now: int): State {
    s.(refresh := TtlTable.Save(s.refresh, token, rg, stamp, ttl, now),
       names := s.names + {token},
       h := s.h.(roots := roots, familyOf := s.h.familyOf[token := family]))
  }

  lemma RefreshWithRefresh(s: State, token: string, rg: RefreshGrant, family: nat, roots: seq<Root>, stamp: int,
                           ttl: int, now: int)
    requires RefreshInv(s) && token !in s.h.familyOf && token !in s.h.refreshed && token !in s.refresh
    requires RootOk(s.h, RootOf(rg)) && (roots == s.h.roots || roots == s.h.roots + [RootOf(rg)])
    requires family < |roots| && roots[family] == RootOf(rg)
    ensures RefreshInv(WithRefresh(s, token, rg, family, roots, stamp, ttl, now))
  {
  }

  lemma FamiliesWithRefresh(s: State, token: string, rg: RefreshGrant, family: nat, roots: seq<Root>, stamp: int,
                            ttl: int, now: int)
    requires FamiliesInv(s) && RefreshInv(s) && token !in s.refresh
    requires forall t :: t in s.refresh && t in s.h.familyOf ==> s.h.familyOf[t] != family
    requires forall q :: q in s.reqs ==> Rotating(s.reqs[q]) != Some(family)
    ensures FamiliesInv(WithRefresh(s, token, rg, family, roots, stamp, ttl, now))
  {
  }

  lemma NamesWithRefresh(s: State, token: string, rg: RefreshGrant, family: nat, roots: seq<Root>, stamp: int,
                         ttl: int, now: int)
    requires NamesInv(s) && token !in s.names && s.h.roots <= roots
    ensures var s' := WithRefresh(s, token, rg, family, roots, stamp, ttl, now);
            NamesInv(s') && Grows(s, s') && StagesKept(s, s')
  {
  }

  /** A fresh token joins a family that nobody holds: an old one, or the one it founds. */
  lemma AddRefresh(cfg: Config, s: State, token: string, rg: RefreshGrant, family: nat, roots: seq<Root>, stamp: int,
                   ttl: int, now: int)
    requires Inv(cfg, s) && token !in s.names
    requires RootOk(s.h, RootOf(rg)) && (roots == s.h.roots || roots == s.h.roots + [RootOf(rg)])
    requires family < |roots| && roots[family] == RootOf(rg)
    requires forall t :: t in s.refresh && t in s.h.familyOf ==> s.h.familyOf[t] != family
    requires forall q :: q in s.reqs ==> Rotating(s.reqs[q]) != Some(family)
    ensures Inv(cfg, WithRefresh(s, token, rg, family, roots, stamp, ttl, now))
  {
    var s' := WithRefresh(s, token, rg, family, roots, stamp, ttl, now);
    NamesWithRefresh(s, token, rg, family, roots, stamp, ttl, now);
    RefreshWithRefresh(s, token, rg, family, roots, stamp, ttl, now);
    FamiliesWithRefresh(s, token, rg, family, roots, stamp, ttl, now);
    KeepCodes(cfg, s, s');
    KeepIssued(s, s');
    KeepDevices(s, s');
    KeepMints(s, s');
    KeepPcs(cfg, s, s');
  }

  /** No family is founded yet under the number of the next root. */
  lemma NextFamilyFree(cfg: Config, s: State)
    requires RefreshInv(s) && PcsInv(cfg, s)
    ensures forall t :: t in s.refresh && t in s.h.familyOf ==> s.h.familyOf[t] != |s.h.roots|
    ensures forall q :: q in s.reqs ==> Rotating(s.reqs[q]) != Some(|s.h.roots|)
  {
    forall q | q in s.reqs
      ensures Rotating(s.reqs[q]) != Some(|s.h.roots|)
    {
      assert PcOk(cfg, s, q, s.reqs[q]);
    }
  }

  // ----- devices -----

  ghost predicate Shrinks(s: State, dev: Devices.Tables) {
    && dev.live <= s.dev.live && dev.recs.Keys == s.dev.recs.Keys
    && (forall d :: d in dev.recs ==>
        dev.recs[d].authorized == s.dev.recs[d].authorized && dev.recs[d].userId == s.dev.recs[d].userId)
    && (forall d :: d in s.h.used && d in dev.recs ==> dev.recs[d] == s.dev.recs[d])
  }

  lemma DevicesShrink(s: State, dev: Devices.Tables)
    requires DevicesInv(s) && Shrinks(s, dev)
    ensures DevicesInv(s.(dev := dev))
  {
  }

  /** Live devices go, or change nothing but their denial. */
  lemma ShrinkDevices(cfg: Config, s: State, dev: Devices.Tables)
    requires Inv(cfg, s) && Shrinks(s, dev)
    ensures Inv(cfg, s.(dev := dev))
  {
    var s' := s.(dev := dev);
    DevicesShrink(s, dev);
    KeepCodes(cfg, s, s');
    KeepIssued(s, s');
    KeepRefresh(s, s');
    KeepMints(s, s');
    KeepPcs(cfg, s, s');
  }

  function WithDevice(s: State, device: string, userCode: string, rec: Devices.Record, stamp: int, ttl: int,
                      now: int): State {
    s.(dev := Devices.Save(s.dev, device, userCode, rec, stamp, ttl, now), names := s.names + {device})
  }

  lemma DevicesWithDevice(s: State, device: string, userCode: string, rec: Devices.Record, stamp: int, ttl: int,
                          now: int)
    requires DevicesInv(s) && device !in s.dev.recs && !rec.authorized
    ensures DevicesInv(WithDevice(s, device, userCode, rec, stamp, ttl, now))
  {
  }

  lemma NamesWithDevice(s: State, device: string, userCode: string, rec: Devices.Record, stamp: int, ttl: int, now: int)
    requires NamesInv(s) && device !in s.names && s.h.used.Keys <= s.dev.recs.Keys
    ensures var s' := WithDevice(s, device, userCode, rec, stamp, ttl, now);
            NamesInv(s') && Grows(s, s') && StagesKept(s, s')
  {
  }

  lemma AddDevice(cfg: Config, s: State, device: string, userCode: string, rec: Devices.Record, stamp: int, ttl: int,
                  now: int)
    requires Inv(cfg, s) && device !in s.names && !rec.authorized
    ensures Inv(cfg, WithDevice(s, device, userCode, rec, stamp, ttl, now))
  {
    var s' := WithDevice(s, device, userCode, rec, stamp, ttl, now);
    NamesWithDevice(s, device, userCode, rec, stamp, ttl, now);
    DevicesWithDevice(s, device, userCode, rec, stamp, ttl, now);
    KeepCodes(cfg, s, s');
    KeepIssued(s, s');
    KeepRefresh(s, s');
    KeepMints(s, s');
    KeepPcs(cfg, s, s');
  }

  lemma LastApprovalSnoc(approvals: seq<Approval>, a: Approval, device: string)
    ensures LastApproval(approvals + [a], device) == if a.device == device then Some(a.userId)
              else LastApproval(approvals, device)
  {
    assert (approvals + [a])[..|approvals|] == approvals;
  }

  function WithApproval(s: State, device: string, userId: string): State
    requires device in s.dev.live
  {
    s.(dev := s.dev.(recs := s.dev.recs[device := s.dev.recs[device].(authorized := true, userId := userId)]),
       h := s.h.(approvals := s.h.approvals + [Approval(device, userId)]))
  }

  lemma DevicesWithApproval(s: State, device: string, userId: string)
    requires DevicesInv(s) && device in s.dev.live && userId in s.h.verified
    ensures DevicesInv(WithApproval(s, device, userId))
  {
    var s' := WithApproval(s, device, userId);
    forall d
      ensures LastApproval(s'.h.approvals, d) == if device == d then Some(userId) else LastApproval(s.h.approvals, d)
    {
      LastApprovalSnoc(s.h.approvals, Approval(device, userId), d);
    }
    assert forall d :: d in s.h.used ==>
        s'.h.approvals[..s.h.used[d].approvals] == s.h.approvals[..s.h.used[d].approvals];
  }

  lemma NamesWithApproval(s: State, device: string, userId: string)
    requires NamesInv(s) && device in s.dev.live && device !in s.h.used
    ensures var s' := WithApproval(s, device, userId); NamesInv(s') && Grows(s, s') && StagesKept(s, s')
  {
  }

  lemma ApproveDevice(cfg: Config, s: State, device: string, userId: string)
    requires Inv(cfg, s) && device in s.dev.live && userId in s.h.verified
    ensures Inv(cfg, WithApproval(s, device, userId))
  {
    var s' := WithApproval(s, device, userId);
    NamesWithApproval(s, device, userId);
    DevicesWithApproval(s, device, userId);
    KeepCodes(cfg, s, s');
    KeepIssued(s, s');
    KeepRefresh(s, s');
    KeepMints(s, s');
    KeepPcs(cfg, s, s');
  }

  function WithUse(s: State, device: string, r: nat): State
    requires device in s.dev.live
  {
    s.(dev := Devices.Remove(s.dev, device), h := s.h.(used := s.h.used[device := DeviceUse(r, |s.h.approvals|)]))
  }

  lemma DevicesWithUse(s: State, device: string, r: nat)
    requires DevicesInv(s) && device in s.dev.live && s.dev.recs[device].authorized
    ensures DevicesInv(WithUse(s, device, r))
  {
    assert s.h.approvals[..|s.h.approvals|] == s.h.approvals;
  }

  lemma NamesWithUse(s: State, device: string, r: nat)
    requires NamesInv(s) && device in s.dev.live && device !in s.h.used
    ensures var s' := WithUse(s, device, r); NamesInv(s') && Grows(s, s') && StagesKept(s, s')
  {
  }

  lemma UseDevice(cfg: Config, s: State, device: string, r: nat)
    requires Inv(cfg, s) && device in s.dev.live && s.dev.recs[device].authorized
    ensures Inv(cfg, WithUse(s, device, r))
  {
    var s' := WithUse(s, device, r);
    assert device !in s.h.used;
    NamesWithUse(s, device, r);
    DevicesWithUse(s, device, r);
    KeepCodes(cfg, s, s');
    KeepIssued(s, s');
    KeepRefresh(s, s');
    KeepMints(s, s');
    KeepPcs(cfg, s, s');
  }
}
