# A model of the token-issuing protocol

These Dafny modules model the part of the identity server that issues tokens: the in-memory stores for
authorization codes, refresh tokens, device authorizations and login sessions, the replay cache of the
code exchange, the handlers that drive them, the checks made against a client's configuration, and the
operations of the SQLite store whose results are more than one table row.

There are three layers.

1. **Stores** (`TtlTable`, `Devices`, `Sessions`, `Replay`, `Grants`, `Clients`, `Pkce`). The stores are
   classes with the maps, lifetimes and clean-up loops of the source. Each is proved against a log of
   operations from which nothing is ever deleted, so what a call answers is explained by what was saved,
   consumed and revoked, and clean-up cannot be noticed. Clock readings are parameters; a method that
   reads the clock several times takes several.
2. **Protocol** (`Protocol` and the modules named after it). Every request in flight is a program counter,
   and every call under a lock, every database read and every unlocked read of shared state is one step.
   Any number of requests interleave, users come and go, time passes. An invariant is kept by every step;
   the theorems follow from it and speak of all reachable states and all runs. `ProtocolOrigins` and
   `ProtocolForms` say where everything comes from: which arriving request each code, device, approval and
   mint goes back to, and that it is what that request asked for. `ProtocolProgress`, `ProtocolAnswers` and
   `ProtocolLogins` say what each request gets: how many steps of its own it takes to be answered, and with
   what, whatever others do in between.
3. **Handlers** (`Handlers`, `ServerTheorems`). The handlers again, as methods that call the stores in the
   order of the source. Each is proved to take exactly the protocol's steps for its request and to answer
   with the protocol's reply, so the theorems hold of the stores after any sequence of requests.

`Roles`, `ClientLists`, `Pages` and `Seed` model the SQLite store over tables held as sets and maps.

Names from `uuid.New` are fresh texts, drawn so that no code, token or device code carries the same one
twice. Random user codes may be any text, and may collide. Hashing, password verification and URI
normalisation are opaque functions. A mint is an event that records the arguments of the issuer. Database
look-ups may fail at any step; the stamp that a save reads before it takes the lock is any earlier time.

## Where the code does not do what one might expect

- A save stamps its entry before it takes the lock, so the entry can be past its own expiry as it is stored
  (`TtlTable.StaleSave`, `Devices.LoneStaleSave`). Counted by their stamps, the saves of the last lifetime bound
  a map exactly for the saves that did not wait that long (`TtlTable.SizeInWindowIff`, `Devices.SizeInWindowIff`;
  `TtlTable.AllFreshIff`, `Devices.AllFreshIff` for the entries). Counted by when they took place they always do
  (`TtlTable.SizeBySaveTime`, `Devices.SizeBySaveTime`).
- `DeleteRole` throws away the errors of its first two statements. If the first one fails, permission rows
  stay behind for a role that is gone, and a user who is later given that role has the permission without
  the role. `Roles.UnnoticedFailure` is such a run; `Roles.AgreesAfterAssignmentsIff` says exactly when it
  cannot happen.
- The page offset is computed in 64 bits. Page 2^62 of size 100 is the first page again, so pages after the
  last are empty only while the offset, as it comes out, is beyond the list (`Pages.WrappedPageIsFirst`,
  `Pages.LaterPageIff`).
- A denial that arrives after the poll has read the flag does not stop the tokens
  (`ProtocolDevices.LateDenialDoesNotStopMint`, `ProtocolDevices.LateDenialDoesNotStopConsume`); it stops every
  other poll (`ProtocolDevices.DenialStopsAllButPollsPastFlag`).
- Seeding throws away the error of the statement that links a user to a role. A link that failed in one run is
  added by the next (`Seed.FailedLinkIsAddedLater`), so seeding twice is sure to change nothing only after a run
  without database faults; `Seed.NoChangeIff` says exactly when a run changes nothing.
- With a user code shared by two devices, consuming or cleaning up one makes the other impossible to find by it
  (`Devices.ConsumeOrphans`, `Devices.CollisionOrphans`).
- Two live devices can have one user code; then the newer one takes the index entry. `Devices.SaveKeepsExactIff`
  says exactly when one save keeps the two maps in correspondence, `Devices.ExactThroughoutIff` when all do.
- Replayed exchanges pass no gate. A repeated exchange returns the same tokens; the bytes differ, because
  only the first response ends in a newline.
- Writing a list whose only item is empty and reading it back gives the empty list
  (`ClientLists.WriteReadIff`).

## Model

| member | source | states |
|---|---|---|
| TtlTable.FindMeetsHistory | internal/grants/store.go:80-122 | a consume returns a grant exactly when the latest save under the key is neither consumed nor revoked since and the time is at most its expiry, for every log of saves, consumes and revocations and every clock |
| TtlTable.SingleUse | internal/grants/store.go:88-122 | after a consume the key is never found again unless it is saved anew |
| TtlTable.CleanIsInvisible | internal/grants/store.go:135-151 | clean-up at any earlier time changes no later answer |
| TtlTable.SizeBySaveTime | internal/grants/store.go:80-86 | right after any save the map is no larger than the number of saves that took place within the last lifetime before its clean-up, and every entry was put there by one of them |
| TtlTable.AllFreshIff | internal/grants/store.go:80-86 | right after a save every entry is within its lifetime if and only if the save did not wait for the lock past its own expiry |
| TtlTable.SizeInWindowIff | internal/grants/store.go:80-86 | the saves stamped within the last lifetime bound the map after every log exactly for those saves |
| TtlTable.StaleSave | internal/grants/store.go:80-86 | a save that waited too long leaves one entry in the map and no save in the window |
| TtlTable.SizeAfterSave | internal/grants/store.go:80-86 | besides the new entry the map holds only entries within their lifetime at the clean-up |
| Devices.NormInjective | internal/grants/store.go:162-163 | user codes of the issued shape are told apart by their look-up form, whatever case and hyphens |
| Devices.TypedFindsCode | internal/grants/store.go:179-190 | what is typed looks up an issued code if and only if it spells its eight letters, in either case and with hyphens or without |
| Devices.RandomUserCode | internal/handlers/handlers.go:620-628 | the code has the issued shape and spells the eight drawn letters |
| Devices.NoStaleEntryEver | internal/grants/store.go:154-236 | with fresh device codes no index entry is ever stale, even when user codes collide |
| Devices.SaveKeepsExactIff | internal/grants/store.go:154-164 | a save keeps records and index entries in exact correspondence if and only if no device left by the clean-up has that user code and the record carries the code it is saved under |
| Devices.ExactThroughoutIff | internal/grants/store.go:154-236 | for every log of operations with fresh device codes: the two maps correspond exactly after each of them if and only if every save brings a user code that no live device has |
| Devices.CollisionOrphans | internal/grants/store.go:227-236 | a concrete collision: when the older of two devices with one user code expires, the clean-up of a look-up takes the index entry of the live one with it |
| Devices.ConsumeOrphans | internal/grants/store.go:214-225 | consuming a device leaves every other good device with its user code impossible to find by it |
| Devices.TablesRefineHistory | internal/grants/store.go:154-236 | under unique live user codes the two maps refine the history keyed by device code |
| Devices.AnswersMeetHistory | internal/grants/store.go:167-225 | under unique live user codes Get, Authorize and Consume answer as the never-deleting history does, whenever clean-up runs |
| Devices.ConsumedIsFinal | internal/grants/store.go:214-225 | the record a consume returned is never changed and never found again by any later operations, unless its code is saved anew |
| Devices.SizeBySaveTime | internal/grants/store.go:154-164 | right after any save the device map is no larger than the number of saves that took place within the last lifetime before its clean-up |
| Devices.AllFreshIff | internal/grants/store.go:154-164 | right after a save every device held is within its lifetime if and only if the save did not wait for the lock past its own expiry |
| Devices.SizeInWindowIff | internal/grants/store.go:154-164 | the saves stamped within the last lifetime bound the device map after every log exactly for those saves |
| Devices.LoneStaleSave | internal/grants/store.go:154-164 | a save that waited too long leaves one device in the map and no save in the window |
| Devices.SizeAfterSave | internal/grants/store.go:154-164 | besides the new device the map holds only devices within their lifetime at the clean-up |
| Grants.Store.constructor | internal/grants/store.go:58-77 | lifetimes that are missing or not positive become the defaults |
| Grants.Store.SaveCode | internal/grants/store.go:80-86 | cleans up, stores the code with its expiry, keeps the store explained by its log and within the bound |
| Grants.Store.ConsumeCode | internal/grants/store.go:88-100 | returns the grant exactly when the log has a live save for it, and removes it |
| Grants.Store.CleanExpiredCodesLocked | internal/grants/store.go:135-142 | the loop keeps exactly the codes that have not expired |
| Grants.Store.SaveRefreshToken | internal/grants/store.go:102-108 | as SaveCode, for refresh tokens |
| Grants.Store.ConsumeRefreshToken | internal/grants/store.go:110-122 | as ConsumeCode, for refresh tokens |
| Grants.Store.RevokeRefreshToken | internal/grants/store.go:125-133 | removes the token; the answer says whether the map still held it |
| Grants.Store.CleanExpiredRefreshLocked | internal/grants/store.go:144-151 | the loop keeps exactly the tokens that have not expired |
| Grants.Store.SaveDeviceCode | internal/grants/store.go:154-164 | stamps the shared object, cleans up, stores it and points its user code to it |
| Grants.Store.GetDeviceCode | internal/grants/store.go:167-176 | cleans up and returns the very object the map holds if it is good; under unique live user codes, exactly when the history has a live device |
| Grants.Store.AuthorizeDeviceCode | internal/grants/store.go:179-194 | marks the object that the user code leads to, if it is live |
| Grants.Store.DenyDeviceCode | internal/grants/store.go:197-211 | marks the object that the user code leads to, if the map still holds it |
| Grants.Store.ConsumeDeviceCode | internal/grants/store.go:214-225 | removes and returns the object exactly when it is good and authorized, whether denied or not; under unique live user codes, exactly when the history has it so |
| Grants.Store.CleanExpiredDevicesLocked | internal/grants/store.go:227-236 | the loop removes the expired devices and the index entries of their user codes |
| Grants.Store.DeviceMapBound | internal/grants/store.go:154-164 | the bound on the device map by when the saves took place, for the class |
| Sessions.GetSucceedsExactly | internal/sessions/sessions.go:57-71 | Get succeeds exactly when the session was created, not revoked since, and the gap since its last successful access is at most the lifetime |
| Sessions.RunTracks | internal/sessions/sessions.go:37-87 | the table holds what creations, successful accesses and revocations say, whatever clean-up removed |
| Sessions.Store.constructor | internal/sessions/sessions.go:26-34 | a lifetime that is not positive becomes a day |
| Sessions.Store.Create | internal/sessions/sessions.go:37-54 | a new session under a random name, nothing when the random source fails |
| Sessions.Store.Get | internal/sessions/sessions.go:57-71 | succeeds exactly as the history says, returns the object of the map and moves its expiry |
| Sessions.Store.Revoke | internal/sessions/sessions.go:74-78 | the session is gone, every other is untouched |
| Sessions.Store.CleanExpiredLocked | internal/sessions/sessions.go:80-87 | the loop keeps exactly the sessions that have not expired |
| Replay.ServesExactly | internal/handlers/handlers.go:362-374 | a code is served exactly while its last write is less than thirty seconds old, with that write's body, whatever was evicted |
| Replay.CodeReplayCache.Store | internal/handlers/handlers.go:464-474 | writes the entry and evicts exactly the entries whose expiry has passed |
| Text.WordOccursInField | internal/clients/config.go:105-115 | a word without white space occurs in a text exactly when it occurs inside one of its fields |
| Text.FieldsAreWords | internal/clients/config.go:105-105 | fields are non-empty and hold no white space |
| Clients.WordPassesIff | internal/clients/config.go:100-116 | some accepted scope contains a given word if and only if an allowed entry that is a word contains it |
| Clients.Registry.ValidateScope | internal/clients/config.go:100-116 | with its set and its loop: every requested field is allowed, or nothing is restricted |
| Clients.Registry.ValidateRedirectURI | internal/clients/config.go:86-97 | the URI is listed, or nothing is restricted |
| Clients.Registry.LoadFromEnv | internal/clients/config.go:31-48 | nothing without a text, an error when it cannot be parsed, otherwise every entry that is not null is stored under its client and the others are kept |
| Clients.Registry.ValidateSecret | internal/clients/config.go:68-77 | no configuration, no secret, or the right secret |
| Protocol.Act | internal/handlers/handlers.go:227-1129 | one step of a request touches no other request, mints for none but it, and changes codes, refresh tokens, devices, approvals, passwords verified and refresh families only at the steps that may |
| ProtocolSteps.NextKeeps | internal/handlers/handlers.go:227-1129 | every event keeps the invariant |
| ProtocolSteps.ReachableInv | internal/handlers/handlers.go:227-1129 | the invariant holds in every reachable state |
| ProtocolGrowth.RunGrows | internal/handlers/handlers.go:227-1129 | no run takes back what the history has: consumed codes, issued tokens, families, approvals, mints, final device records |
| ProtocolTheorems.FamilyHeldOnce | internal/handlers/handlers.go:478-538 | live tokens of a family and rotations of it in flight are at most one |
| ProtocolTheorems.LiveTokensBounded | internal/handlers/handlers.go:456-460 | live refresh tokens never exceed the issuances that founded a family |
| ProtocolTheorems.FamilyGrantConstant | internal/handlers/handlers.go:502-534 | along a family the user, client, scope and session never change; the session is not empty and the scope has offline access |
| ProtocolTheorems.RotationEnds | internal/handlers/handlers.go:530-534 | a rotation ends with exactly one new token, of the same family and grant, which the reply carries |
| ProtocolTheorems.RefreshAnswered | internal/handlers/handlers.go:530-538 | every successful refresh is answered with a replacement token, as section 6 of RFC 6749 allows |
| ProtocolTheorems.WrongClientEndsFamily | internal/handlers/handlers.go:487-495 | a refresh token presented with the wrong client is burned and its family ends for all later runs |
| ProtocolProgress.RefreshIsAnswered | internal/handlers/handlers.go:478-538 | a live token presented by its client or by none is answered after exactly three steps, with others interleaved that do not take it, with tokens for the stored user, client, scope and session and a new refresh token of the same family; the old one is gone from the first step on |
| ProtocolAnswers.SavedIsHeld | internal/handlers/handlers.go:456-460 | the step that saves a refresh token leaves it in the store for what was minted and for its full time, and the reply carries it |
| ProtocolAnswers.TakenInTime | internal/grants/store.go:88-225 | no request goes on with a token, code or device whose time is over |
| ProtocolTheorems.RevocationEndsFamily | internal/handlers/handlers.go:540-554 | revoking the live token of a family ends the family for all later runs |
| ProtocolAnswers.RevocationIsAnswered | internal/handlers/handlers.go:540-554 | from the arrival of a revocation for a refresh token: it waits for one step, and that step answers it and takes the token and nothing else out of the store |
| ProtocolAnswers.OtherRevocationIsAnswered | internal/handlers/handlers.go:540-554 | any other revocation is answered at once and changes nothing |
| ProtocolAnswers.RevokedForGood | internal/handlers/handlers.go:540-554 | a token that was live when it was revoked is never live again and its family is ended, whatever runs after |
| ProtocolTheorems.EndedStaysEnded | internal/handlers/handlers.go:478-538 | a family without live token or rotation never gets one again |
| ProtocolTheorems.MintedOnce | internal/handlers/handlers.go:361-475 | a code, a refresh token and a device code each lead to at most one mint |
| ProtocolTheorems.SameTokens | internal/handlers/handlers.go:361-475 | any two success responses for a code carry the same tokens, however far apart |
| ProtocolTheorems.SuccessMeansGatesPassed | internal/handlers/handlers.go:375-397 | behind every success response there is an exchange of that code which names the code's client or none, its redirect URI up to normalisation or none, whose verifier transforms to the code's challenge as section 4.6 of RFC 7636 asks, and which knows the client's secret where one is required |
| ProtocolInvariant.GatesSpelledOut | internal/handlers/handlers.go:375-397 | the four gates hold exactly under the four written-out conditions |
| ProtocolOrigins.SuccessMeetsTheRequest | internal/handlers/handlers.go:361-397 | from end to end: behind every success response for a code there are the request the code was made for and the exchange, and the exchange is for the client and redirect URI of the first, answers the challenge the first carried, and knows the secret where one is required |
| ProtocolProgress.ExchangeIsAnswered | internal/handlers/handlers.go:352-476 | an exchange that meets the four conditions on a live code is answered, with others interleaved that do not present the code, after two steps and as many as minting takes, with tokens minted for what was saved with the code |
| ProtocolProgress.StaysOnCourse | internal/handlers/handlers.go:425-475 | from minting on, every step of a request brings it one nearer to its answer, and the answer carries the minted tokens and a new refresh token exactly when the scope has offline access |
| ProtocolTheorems.ConsumedForGood | internal/handlers/handlers.go:361-397 | a consumed code is never held again, and one whose exchange failed a gate never leads to tokens |
| ProtocolTheorems.CachedForThirtySeconds | internal/handlers/handlers.go:464-474 | a response is cached once, for thirty seconds |
| ProtocolTheorems.RepeatedExchange | internal/handlers/handlers.go:361-374 | a repeated exchange gets the same tokens strictly before the expiry and is refused from then on, whatever runs between its steps |
| ProtocolUsers.VerifiedHasCause | internal/handlers/handlers.go:260-270 | who counts as verified passed password verification at some step of the run |
| ProtocolUsers.MintsAreForVerifiedUsers | internal/handlers/handlers.go:255-1129 | every mint other than for client credentials has as subject a user whose password was verified earlier in the run, through any chain of sessions, codes, approvals and rotations |
| ProtocolUsers.MintsFollowVerification | internal/handlers/handlers.go:255-1129 | and the verification is an earlier step than the mint, whatever step mints |
| ProtocolOrigins.AskedIsWhatArrived | internal/handlers/handlers.go:105-192 | what the trail of a run says a request asked for is what arrived |
| ProtocolOrigins.CodesAreAskedFor | internal/handlers/handlers.go:833-1129 | every code held or consumed was made for a request to authorize or log in, with that request's client, redirect URI, scope, audience, nonce, challenge and method, the defaults written out, and for the user that request proved to come from |
| ProtocolOrigins.MintsAreAskedFor | internal/handlers/handlers.go:255-1129 | every mint, of whatever kind, has the user, client, audience, scope and session that the request for it, its code or its device asked for, the defaults written out |
| ProtocolOrigins.FamiliesAreAskedFor | internal/handlers/handlers.go:456-534 | every refresh token goes back to a mint for a password or a code, with the same user, client, scope and session |
| ProtocolProgress.PasswordIsAnswered | internal/handlers/handlers.go:255-321 | a right password is answered after one step and as many as minting takes, with tokens for its user |
| ProtocolAnswers.ClientIsAnswered | internal/handlers/handlers.go:323-337 | client credentials are answered in one step with an access token for the client or the default one |
| ProtocolLogins.LoginIsAnswered | internal/handlers/handlers.go:833-1129 | a request to authorize or log in with a right password is answered after two steps, or three where a session is begun; the last one saves a code with what was asked for, or the tokens are minted for the user |
| ProtocolLogins.LoginBeginsSession | internal/handlers/handlers.go:899-911 | where sessions are kept, the second step of a login for a code begins one for the user |
| ProtocolLogins.CookieIsAnswered | internal/handlers/handlers.go:952-1002 | the cookie of a live session stands for a password: three steps, the last of which saves a code for the user of the session |
| ProtocolAnswers.LogoutIsAnswered | internal/handlers/handlers.go:1796-1830 | a logout is answered in one step, which ends that session and no other |
| ProtocolDevices.DeviceMintedForLastApproval | internal/handlers/handlers.go:706-738 | tokens for a device are minted for the user of the last approval before it was consumed |
| ProtocolOrigins.DeviceMintsAreAskedFor | internal/handlers/handlers.go:711-738 | a mint for a device has the client and scope of the request its code was made for, and the audience that request asked for, or else the client |
| ProtocolForms.DeviceMintsFollowForms | internal/handlers/handlers.go:630-738 | whoever a device's tokens are minted for typed its user code into a form that was not a denial and proved to be that user |
| ProtocolForms.DenialsFollowForms | internal/handlers/handlers.go:630-682 | no device is denied but by a form that typed its user code and asked for denial |
| ProtocolAnswers.DeviceRequestIsAnswered | internal/handlers/handlers.go:586-618 | a device request is answered in one step, which leaves a live, unapproved device with what was asked for and its user code leading to it |
| ProtocolAnswers.ApprovalIsAnswered | internal/handlers/handlers.go:630-682 | a form with a right password is answered after two steps, the second of which approves the live device its user code leads to |
| ProtocolAnswers.DenialIsAnswered | internal/handlers/handlers.go:630-682 | a denial is answered in one step, which denies the device its user code leads to and no other |
| ProtocolAnswers.PollIsAnswered | internal/handlers/handlers.go:684-756 | a poll of an approved device is answered with tokens after exactly six steps, whatever runs between them, if each step finds what it needs |
| ProtocolDevices.ConsumedDeviceIsFinal | internal/grants/store.go:214-225 | a consumed device record stays as it is in every later run |
| ProtocolDevices.PollAfterDenialNeverMints | internal/handlers/handlers.go:693-705 | a poll that has not read the flag when a denial takes its step never mints, whatever runs between the denial and its look-up or flag read, approvals included, and whatever runs after |
| ProtocolDevices.DenialStopsAllButPollsPastFlag | internal/handlers/handlers.go:693-738 | whatever runs after a denial, tokens minted for the device are for a poll that had read the denial flag and not consumed the device yet when the denial took its step |
| ProtocolDevices.LateDenialDoesNotStopMint | internal/handlers/handlers.go:698-738 | a poll that has just read the denial flag can still mint after the denial |
| ProtocolDevices.LateDenialDoesNotStopConsume | internal/handlers/handlers.go:702-738 | so can a poll that is about to consume the device |
| ProtocolDevices.LateDenialHappens | internal/handlers/handlers.go:586-738 | some run from the start leads there, for every user with a password |
| ProtocolDevices.IndexNeverStale | internal/handlers/handlers.go:586-618 | in every interleaving no user code leads to a device that is gone or has another user code |
| ProtocolUsers.ScopeExcludes | internal/clients/config.go:100-116 | without an allowed entry containing it, no accepted scope contains `offline_access` |
| ProtocolUsers.NoOfflineNoRefresh | internal/handlers/handlers.go:866-929 | then no code saved by the authorize handler for the client ever yields a refresh token |
| Handlers.ChainIsRun | internal/handlers/handlers.go:227-1129 | the states the server goes through are a run of the protocol |
| Handlers.Server.constructor | internal/grants/store.go:58-77 | a new server is linked to the initial state of the protocol |
| Handlers.Server.HandleClientCredentials | internal/handlers/handlers.go:323-337 | takes the protocol's step for the grant; the reply is the access token, if the issuer works |
| Handlers.Server.HandlePasswordGrant | internal/handlers/handlers.go:255-321 | the protocol's steps; success exactly when the row has the email and its hash accepts the password and the issuer works; a refresh token in the reply is in the store for the user |
| Handlers.Server.IssueTokens | internal/handlers/handlers.go:425-460 | mints, and saves a refresh token exactly if the scope has offline access; the store then holds it for the grant and its full time |
| Handlers.Server.HandleAuthorizationCode | internal/handlers/handlers.go:352-476 | the protocol's steps: consume, replay, gates, user, mint, refresh token, cache; a live code succeeds exactly when it passes the gates, the user is there and the issuer works, with tokens for what was saved |
| Handlers.Server.ReplayExchange | internal/handlers/handlers.go:362-374 | the locked look-up and the later test of the expiry |
| Handlers.Server.PassesGates | internal/handlers/handlers.go:375-397 | the gates in the order of the handler accept exactly under the four written-out conditions: client, redirect URI, proof key, secret |
| Handlers.Server.HandleRefreshToken | internal/handlers/handlers.go:478-538 | the protocol's steps; success exactly when the token is live, the client its own or none, and the issuer works; the new token is in the store for the old grant |
| Handlers.Server.HandleRevoke | internal/handlers/handlers.go:540-554 | the protocol's steps; the token leaves the store exactly if the hint or its prefix says it is a refresh token, and nothing else changes |
| Handlers.Server.HandleDeviceCodeRequest | internal/handlers/handlers.go:586-618 | the protocol's steps; the store holds a new device with what was asked for, the defaults written out, and its user code leads to it |
| Handlers.Server.HandleDeviceAuthorize | internal/handlers/handlers.go:630-682 | the protocol's steps for the approval form |
| Handlers.Server.HandleDeviceCodeToken | internal/handlers/handlers.go:684-756 | the protocol's steps for a poll, with the flags read from the shared object; success exactly when the device is live, in time, approved and not denied, its user is there and the issuer works |
| Handlers.Server.RouteAuthorize | internal/handlers/handlers.go:833-952 | the validation of an authorization request, in its order, decides as the protocol does |
| Handlers.Server.HandleAuthorize | internal/handlers/handlers.go:833-1002 | the protocol's steps for the authorize endpoint, with password or cookie |
| Handlers.Server.HandleLogin | internal/handlers/handlers.go:1011-1129 | the protocol's steps for the login form |
| Handlers.Server.HandleLogout | internal/handlers/handlers.go:1796-1830 | the protocol's step for logout |
| Handlers.Server.HandleToken | internal/handlers/handlers.go:227-253 | every grant type keeps all the stores linked to the protocol and is answered by its reply |
| Handlers.Server.Handle | internal/handlers/handlers.go:105-192 | any request keeps the stores linked to the protocol and is answered by its reply |
| Handlers.Server.ChangeUsers | internal/handlers/handlers.go:1275-1340 | a change of the users table from outside is one event of the protocol and keeps everything linked |
| ServerTheorems.RefreshStoreBounded | internal/grants/store.go:102-122 | after any sequence of requests the store holds at most one token of each family |
| ServerTheorems.CacheHoldsIssuedTokens | internal/handlers/handlers.go:464-474 | the cache holds the issued tokens of codes whose exchange passed the gates and which are no longer in the store |
| ServerTheorems.ResponsesAgree | internal/handlers/handlers.go:361-475 | any two successful exchanges of a code that the server answered, however far apart, returned the same tokens |
| ServerTheorems.OneMintEach | internal/handlers/handlers.go:361-475 | the server has minted at most once for a code, a refresh token and a device code |
| ServerTheorems.HeldCodesAreAskedFor | internal/handlers/handlers.go:833-1129 | every code in the server's store was made for a request that arrived at it, with what that request asked for |
| ServerTheorems.HeldDevicesAreAskedFor | internal/handlers/handlers.go:586-618 | and so was every device |
| Roles.NoDanglingAgrees | internal/store/sqlite.go:311-357 | without dangling permission rows a user's permissions are those of the roles listed for the user |
| Roles.RowsLeft | internal/store/sqlite.go:522-527 | permission rows only ever disappear, by a successful first statement of DeleteRole |
| Roles.NoDanglingIff | internal/store/sqlite.go:522-527 | after any run, with any statements failing, no row dangles if and only if every seeded role still exists or had its permissions dropped |
| Roles.AgreesAfterAssignmentsIff | internal/store/sqlite.go:311-388 | the same condition is exactly what keeps the two answers in agreement under every assignment |
| Roles.PermissionsMatchRoles | internal/store/sqlite.go:113-124 | in every interleaving of statements from a fresh database in which that first statement does not fail, permissions are the union over the listed roles |
| Roles.UnnoticedFailure | internal/store/sqlite.go:522-527 | a run in which the unnoticed failure breaks the agreement |
| Roles.RunAloneIsRun | internal/store/sqlite.go:481-527 | an operation that runs alone is one of the interleavings |
| Roles.Store.DeleteRole | internal/store/sqlite.go:522-527 | the role, its permission rows and its users' links each go exactly if the statement for them runs; the first two errors are thrown away |
| Roles.Store.DeleteUser | internal/store/sqlite.go:481-492 | links, block and row go one after the other, up to the first error |
| Roles.Store.CreateUser | internal/store/sqlite.go:290-309 | the user is added and linked to `rol_admin` or `rol_default`; an error of the link is thrown away |
| Roles.Store.GetUserRoles | internal/store/sqlite.go:311-328 | exactly the user's existing roles, each once |
| Roles.Store.GetUserPermissions | internal/store/sqlite.go:330-357 | exactly the permissions the join finds, each once |
| Text.SplitJoin | internal/store/sqlite.go:613-618 | splitting the joined text of comma-free items gives the items |
| ClientLists.ReadGivesItems | internal/store/sqlite.go:590-601 | what is read is trimmed and free of commas |
| ClientLists.WriteReadIff | internal/store/sqlite.go:573-634 | write then read is the identity exactly for the empty list and for lists of comma-free trimmed items other than the single empty one |
| ClientLists.ReadWriteReadIff | internal/store/sqlite.go:573-634 | read, write, read equals read exactly unless the text is non-empty and blank |
| ClientLists.UpdateThenGet | internal/store/sqlite.go:573-634 | a client updated with proper items is read back with them, and other columns as before |
| ClientLists.Clients.ReadList | internal/store/sqlite.go:590-595 | splits, and trims the parts in place |
| ClientLists.Clients.GetClientByID | internal/store/sqlite.go:573-602 | the client as its row is read, nothing without a row |
| ClientLists.Clients.ListClients | internal/store/sqlite.go:537-571 | every client exactly once, as its row is read |
| ClientLists.Clients.UpdateClient | internal/store/sqlite.go:605-634 | changes exactly the given columns of the one row, and nothing when no column is given |
| ClientLists.Clients.Assignments | internal/store/sqlite.go:605-629 | the assignments, in the order they are collected, come to the update that is asked for |
| Pages.AllPages | internal/store/sqlite.go:396-448 | for any requested size the pages up to the last make up the list, in order, without omission or repetition |
| Pages.PagesPrefix | internal/store/sqlite.go:403-404 | the first pages are a prefix of the list |
| Pages.LaterPagesEmpty | internal/store/sqlite.go:403-404 | later pages are empty below the wrap-around |
| Pages.Rows | internal/store/sqlite.go:425-436 | the loop over the rows gives the window of the list |
| Pages.ListUsers | internal/store/sqlite.go:396-448 | the clamp to 50 and at most 100, the offset in 64 bits, the rows |
| Seed.SeedingTwice | internal/store/sqlite.go:137-187 | once a first run met no database fault, a second run changes no row, whatever the tables, collisions and hashes, and whatever faults the second run meets |
| Seed.NoChangeIff | internal/store/sqlite.go:137-187 | a faultless run changes nothing exactly if every entry it reaches is settled |
| Seed.RunOnlyAdds | internal/store/sqlite.go:177-184 | no run changes or removes a row |
| Seed.RunKeepsEmailsUnique | internal/store/sqlite.go:177-180 | email addresses stay unique |
| Seed.AddedIsFromEntries | internal/store/sqlite.go:160-184 | every row a run adds is an entry's, with its email for a missing display name and `user` for a missing role, and every link gives an administrator `rol_admin` and anyone else `rol_default` |
| Seed.EntriesArePresent | internal/store/sqlite.go:154-186 | a faultless run leaves every entry it reaches with its role linked and its id or email in the table |
| Seed.Store.SeedFromConfig | internal/store/sqlite.go:154-186 | the loop over the entries, and when it stops with an error |

## Left out

- HTTP parsing, headers, cookies as such, CORS, HTML pages, redirect URLs and the router: presentation.
- JSON encoding of responses; a response is its tokens.
- JWT signing, key sets, introspection and user information: library code around a mint event.
- The rules runner and claim merging: the mints use the store's user id whatever a rule returns.
- Metrics and audit logging.
- A handler without a grant store; every server here has one. A server without session store or client
  registry is covered.
- The audience along a refresh family, which the code does not keep.
- Non-ASCII user codes: case is the ASCII one.
- User codes as a source of randomness: how likely a collision is.
- Protocol.Act: takes `Issue` and `IssueIDToken` as one step; neither touches shared state, so no other
  request can tell them apart.
- ProtocolUsers.NoOfflineNoRefresh: speaks only of codes saved by the authorize handler, because the login
  form saves codes without checking their scope.
- Handlers.Server.HandleLogin: answers normally for a redirect URI that does not parse, where the source ignores the
  error and fails after the code has been saved or the session begun.
- Handlers.Server.Handle: runs one request at a time; interleavings are the protocol's.
- Roles.PermissionsMatchRoles: assumes that the first statement of DeleteRole does not fail, because the
  claim is false without that; Roles.AgreesAfterAssignmentsIff has the exact condition.
- Grants.Store.SaveDeviceCode: asks for an object that is not in the map yet and carries its own device code, as
  the only caller passes; other objects would be shared between keys.
- Pages.ListUsers: leaves out the total, which a second query counts, possibly of a changed table.
- Pages.LaterPagesEmpty: assumes an offset below 2^63; Pages.LaterPageIff has the exact condition.
- SQL text, `LIKE` matching and JSON columns: the search is any selection, in one fixed order. Rows with equal
  creation times have no fixed order in the database, so pages of different queries may then overlap.
- The `start` and `limit` that the handler reports with a page.
- Seeding roles again on restart, which can meet a role name that was taken in the meantime.
- Roles.Store.CreateUser: counts a taken email among the failures of its statement, as the tables of that
  module hold no emails.
- Blocked users, connections, logs and the remaining management endpoints: single-row operations.
