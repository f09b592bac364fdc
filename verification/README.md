# Verified model of the hosted issuer, the MCP query layer, the single-use stores and the codecs

The project models four parts of the system in Dafny and proves what they promise.

* **Hosted issuance (Go).** Administrators of a tenant approve key delegations and issuance requests by
  threshold; an approved request becomes one grant, the grant one access token, the token one credential
  record with its own status-list index (sections 6 to 8 of OpenID for Verifiable Credential Issuance 1.0).
  `HostedStore` says what every store call does to one tenant, `MemoryStores.MemoryStore` is the object with its
  nested maps, and `HostedInvariants` holds what every run keeps. `GovernanceRuns`, `Issuance`, `IssuanceSafety`
  and `IssuanceTheorems` treat each issuer call as a process with a program counter and the values it has read:
  each store call is one atomic step, any number of calls interleave, and any of them may stop for good after any
  step. `HostedEffects` and `IssuanceSteps` state what each store call and each step of an issuer call demands and does.
  `EndToEnd` puts all of these calls, for all tenants, into one machine and proves over every run of it that
  a credential record exists only for a request that its tenant's administrators duly approved.
  `PostgresDelegations` is the SQL form of the delegation life cycle.
* **Local MCP queries (Rust).** `Cursor`, `Paging`, `Queries`, `Murmurs`, `Like`, `Snippet`: tables are lists of rows,
  the SQL conditions are written out as functions, and each encoded or incremental form is proved equal to a
  simple one.
* **Expiring single-use stores (Go).** `Sessions`, `Otp`, `AdminCapabilities`: one call at one clock reading is a
  step; the results are about every run of timed calls, with cleanups anywhere.
* **Codecs and messenger (Rust).** `Base32`, `Cid`, `Messenger`.

Objects that the source updates in place are classes. Each of their methods is proved to compute a step function
on values, and the run theorems are proved about those functions. For each step function a further result says, in the
fields of rows and calls and not in the function's own terms, exactly when the call succeeds and what it changes
(`HostedEffects`, `IssuanceSteps` and the effect lemmas of the other modules). Clock readings, random draws, map iteration order,
hash values and cryptographic primitives are arguments; what is assumed of the primitives is stated in
`Messenger.Laws`.

## What the code does not promise

Three natural claims are false of the code. The model keeps the code as it is and proves when the claim holds.

* In the in-memory store "revoked" is not terminal. Exactly two calls end it: activating the delegation again with a
  threshold of approvals inside its validity period, and proposing another delegation under the same id with a
  higher sequence than any (`HostedInvariants.RevokedStaysIff` for every call, `RevokedForGoodIff` for every
  run, `RevokedReactivates` for the run activate, revoke, activate). In the SQL store nothing ends it
  (`PostgresDelegations.NeverActiveAgain`).
* `get_murmurs` filters visibility after reading a window of `3 * limit + 1` rows. Following its cursors yields every
  visible row if and only if, in positions of the sorted table, each full page has at most `2 * limit` invisible rows
  before the visible row that comes after it, and the last page begins at most `3 * limit` rows before the last
  visible row (`Murmurs.MurmursWalkExactIff`); at most `2 * limit` invisible rows in every window are enough (`SparseWalkIsExact`), and `HiddenFront` gives the failing family.
* A decision call checks the template first and decides later, so a template version that is superseded in between
  does not stop the approval: `GovernanceRace.SupersededYetApproved` is such a run from the empty store,
  `GovernanceRuns.CheckedCallStillApproves` the general case. `NewlyApprovedIff` says exactly which step approves a
  request, and `SupersededNeverApproved` that nothing else can once no open call is past its check.

Two more observations. `MemoryStateStore.ExchangeGrant` drops the forum host of the grant, so no token of that store can
pass the board check of `Issue` (`StateStore.MemoryTokensNeverBound`); the server uses the SQL store, which
keeps it (`StateStore.BoundIff`). And `PutCredentialTemplate` can fail after it has deactivated an older
version; the invariant is proved for that outcome too.

## Model

| member | source | states |
|---|---|---|
| `Base32.EncodeNoPad` | ansible_rust_core/src/atproto/mod.rs:7-28 | the accumulator loop outputs the encoding of section 6 of RFC 4648 for inputs of every length, although its 32-bit word drops high bits |
| `Base32.ByteIn` | ansible_rust_core/src/atproto/mod.rs:14-15 | shifting a byte in and losing the top byte keeps the pending low bits exact |
| `Base32.GroupOut` | ansible_rust_core/src/atproto/mod.rs:16-19 | each inner pass emits exactly the next digit of the RFC encoding |
| `Base32.LastOut` | ansible_rust_core/src/atproto/mod.rs:21-23 | the last short group is filled with zero bits |
| `Base32.EncodeShape` | ansible_rust_core/src/atproto/mod.rs:7-28 | ceil(8n/5) digits, all from the lower-case alphabet |
| `Base32.EncodeInvertible` | ansible_rust_core/src/atproto/mod.rs:7-28 | a reference decoder returns the input bytes |
| `Cid.WriteVarint` | ansible_rust_core/src/atproto/cid.rs:5-17 | the loop appends the varint of any 64-bit value, at most ten bytes |
| `Cid.VarintRoundTrip` | ansible_rust_core/src/atproto/cid.rs:5-17 | decoding returns the value and leaves the following bytes alone |
| `Cid.VarintLength` | ansible_rust_core/src/atproto/cid.rs:5-17 | the form is minimal: one byte per started group of seven bits |
| `Cid.CidLayout` | ansible_rust_core/src/atproto/cid.rs:25-35 | the 36 bytes parse back to version 1, codec 0x71, hash 0x12, length 0x20 and the digest |
| `Cid.ComputeCid` | ansible_rust_core/src/atproto/cid.rs:21-39 | the text has 59 characters and parses back, through multibase and base32, to those parts |
| `Cursor.CursorRoundTrip` | ansible_mcp/src/queries.rs:193-207 | every key survives printing and parsing: negative epochs, ids with colons, empty ids |
| `Cursor.ParseMeans` | ansible_mcp/src/queries.rs:193-207 | a cursor is refused exactly without a colon or without a 64-bit integer before the first one; otherwise it means that integer and the rest |
| `Cursor.ParseI64Means` | ansible_mcp/src/queries.rs:201-203 | an optional sign and digits mean their value, refused exactly when it does not fit 64 bits |
| `Cursor.LexMeans` | ansible_mcp/src/queries.rs:320 | ids compare at their first difference, a proper prefix first |
| `Paging.ClampLimit` | ansible_mcp/src/queries.rs:187-191 | 50 without a limit, 1 for zero, at most 200, otherwise the limit itself |
| `Paging.FillPage` | ansible_mcp/src/queries.rs:333-352 | the row loop returns the first `limit` rows, and a cursor to the last of them only if one more row was fetched |
| `Paging.SortAfter` | ansible_mcp/src/queries.rs:315-321 | filtering by the keyset condition before sorting equals cutting the sorted list |
| `Paging.PageStep` | ansible_mcp/src/queries.rs:315-353 | a page is a non-empty prefix of what remains and its cursor points at exactly the rest |
| `Paging.WalkIsExact` | ansible_mcp/src/queries.rs:307-353 | following cursors to their end, with any limit on each call, terminates and yields exactly the matching rows in order, none missing and none repeated |
| `Queries.ScopeFilterIsAllows` | ansible_mcp/src/queries.rs:142-155 | under three-valued logic the SQL filter, with `IN (NULL)` for an empty grant, keeps exactly the boards that `BoardScope::allows` lets through (ansible_mcp/src/grant.rs:50-57) |
| `Queries.RequireBoardInScope` | ansible_mcp/src/queries.rs:280-297 | no error exactly for a granted, existing, undeleted board; one and the same error otherwise |
| `Queries.ListThreadsRefuses` | ansible_mcp/src/queries.rs:285-308 | unknown exactly for a board that is not granted or has no undeleted row; a bad cursor is refused exactly otherwise |
| `Queries.GetThreadRefuses` | ansible_mcp/src/queries.rs:366-397 | unknown exactly for a thread with no undeleted row on a granted board; otherwise that thread's own head, or a bad cursor refused |
| `Queries.FollowFeedRefuses` | ansible_mcp/src/queries.rs:736-741 | refused exactly when the grant leaves the feed out or the cursor is malformed |
| `Queries.FeedsIff` | ansible_mcp/src/queries.rs:746-806 | the feed is made exactly of the undeleted posts on granted boards whose author or board is the undeleted target of an accepted outbound follow |
| `Queries.ListThreads` | ansible_mcp/src/queries.rs:299-354 | the call computes the specified answer, errors included |
| `Queries.ListThreadsWalk` | ansible_mcp/src/queries.rs:299-354 | walking it gathers exactly the live threads of the board with their fields, by update time descending and id |
| `Queries.ListThreadsScoped` | ansible_mcp/src/queries.rs:280-354 | databases that agree on granted boards give equal answers, whatever board is named |
| `Queries.GetThread` | ansible_mcp/src/queries.rs:358-461 | the call computes the specified answer, errors included |
| `Queries.GetThreadWalk` | ansible_mcp/src/queries.rs:396-459 | walking it gathers exactly the live posts of the thread, shown with contact and origin, by time ascending and id |
| `Queries.GetThreadScoped` | ansible_mcp/src/queries.rs:358-461 | databases that agree on granted boards give equal answers, whatever thread is named |
| `Queries.CollectFollows` | ansible_mcp/src/queries.rs:746-779 | the loop collects the followed authors and the followed boards still in scope |
| `Queries.GetFollowFeed` | ansible_mcp/src/queries.rs:730-858 | the call computes the specified answer, errors and the empty case included |
| `Queries.FollowFeedWalk` | ansible_mcp/src/queries.rs:781-857 | walking it gathers exactly the feed's posts, shown with contact and origin, by time descending and id |
| `Queries.FollowFeedScoped` | ansible_mcp/src/queries.rs:730-858 | databases that agree on granted boards and on the follow, contact and host tables give equal answers |
| `Murmurs.FillVisiblePage` | ansible_mcp/src/queries.rs:695-724 | the loop returns the first visible rows of the window, and a cursor only if one more visible row was in it |
| `Murmurs.GetMurmurs` | ansible_mcp/src/queries.rs:643-726 | the call computes the specified answer; whatever is on the page is an undeleted murmur or note that is the user's own or neither private nor local-only, with the author's display name |
| `Murmurs.OnlyShowable` | ansible_mcp/src/queries.rs:643-703 | the same for every table, cursor and limit |
| `Murmurs.HiddenContentIrrelevant` | ansible_mcp/src/queries.rs:662-725 | two tables with the same visible rows and hidden rows in the same places get the same answer to every call |
| `Murmurs.MurmursRefuses` | ansible_mcp/src/queries.rs:657-661 | refused exactly when the grant leaves murmurs out or the cursor is malformed |
| `Murmurs.MurmursWalkExactIff` | ansible_mcp/src/queries.rs:679-725 | the walk always ends, and is complete if and only if the visible row that comes after each page, or on the last page the last visible row, lies at most `3 * limit` rows after the page's beginning: a condition on positions in the sorted table |
| `Murmurs.SparseWalkIsExact` | ansible_mcp/src/queries.rs:679-725 | with at most `2 * limit` invisible rows in every window the walk yields every visible row once, in order |
| `Murmurs.SparseWalkLists` | ansible_mcp/src/queries.rs:643-725 | under that condition the walk lists exactly the items that may be shown, their fields written out, by time descending and id |
| `Murmurs.HiddenFront` | ansible_mcp/src/queries.rs:679-709 | with `3 * limit + 1` invisible rows in front, the first page is empty and has no cursor |
| `Like.EscapeIsOnePass` | ansible_mcp/src/queries.rs:157-161 | the three replacements equal one pass that puts a backslash before each special character |
| `Like.EscapedIsLiteral` | ansible_mcp/src/queries.rs:157-161 | under a LIKE matcher an escaped term matches only itself, up to case, whatever pattern follows |
| `Like.SearchIsContainment` | ansible_mcp/src/queries.rs:469-479 | the search pattern matches a text exactly when the text contains the term up to case |
| `Snippet.BoundaryNear` | ansible_mcp/src/queries.rs:167-175 | in valid UTF-8 a character boundary lies at most three bytes away on either side |
| `Snippet.ClampDown` | ansible_mcp/src/queries.rs:168-171 | the loop ends at the largest boundary not above the start, also for a start past the end |
| `Snippet.ClampUp` | ansible_mcp/src/queries.rs:172-175 | the loop ends at the least boundary not below the end |
| `Snippet.Cut` | ansible_mcp/src/queries.rs:163-185 | for every hit offset, even past the end: the ends are the nearest boundaries outside 160 bytes around the hit, in order and inside the text; valid UTF-8, at most 2 * 160 + term + 6 bytes, and the hit is inside if it lies in the text |
| `Sessions.MemorySessionStore.CreateAuthSession` | ansible_issuer/go/internal/provider/memory_session_store.go:29-37 | new store and reply of the step |
| `Sessions.MemorySessionStore.ConsumeAuthState` | ansible_issuer/go/internal/provider/memory_session_store.go:39-71 | new store and reply of the step, every error path in order |
| `Sessions.MemorySessionStore.MarkReplayIdConsumed` | ansible_issuer/go/internal/provider/memory_session_store.go:73-84 | new store and reply of the step |
| `Sessions.MemorySessionStore.StoreVerifiedSession` | ansible_issuer/go/internal/provider/memory_session_store.go:86-94 | new store and reply of the step |
| `Sessions.MemorySessionStore.GetVerifiedSession` | ansible_issuer/go/internal/provider/memory_session_store.go:96-100 | the live, unconsumed session or an error |
| `Sessions.MemorySessionStore.ConsumeVerifiedSession` | ansible_issuer/go/internal/provider/memory_session_store.go:102-112 | new store and reply of the step |
| `Sessions.MemorySessionStore.GetAuthSessionByOfferId` | ansible_issuer/go/internal/provider/memory_session_store.go:114-126 | an answer that some session with the offer id gives, for any iteration order |
| `Sessions.MemorySessionStore.CleanupExpired` | ansible_issuer/go/internal/provider/memory_session_store.go:128-149 | exactly the entries expired beyond retention are dropped from the three maps |
| `Sessions.DropStale` | ansible_issuer/go/internal/provider/memory_session_store.go:133-137 | deleting while iterating keeps exactly the entries not expired beyond retention, for any order |
| `Sessions.CleanupSimulation` | ansible_issuer/go/internal/provider/memory_session_store.go:39-157 | a store with cleanups simulates one without, from any pair that differs in expired entries only |
| `Sessions.CleanupUnobservable` | ansible_issuer/go/internal/provider/memory_session_store.go:39-157 | with a monotone clock, cleanups at arbitrary points change neither which calls succeed nor what they return |
| `Sessions.CleanupKeepsOfferLookup` | ansible_issuer/go/internal/provider/memory_session_store.go:114-149 | the same for the lookup by offer id, if offer ids are unique |
| `Sessions.AuthStateConsumedOnce` | ansible_issuer/go/internal/provider/memory_session_store.go:29-71 | in every run two consumptions of a state have a successful creation of it between them: each created auth state is consumed at most once |
| `Sessions.VerifiedSessionConsumedOnce` | ansible_issuer/go/internal/provider/memory_session_store.go:86-112 | in every run two consumptions for an offer have a successful store between them |
| `Sessions.ReplaySeparation` | ansible_issuer/go/internal/provider/memory_session_store.go:39-84 | two consumptions under one replay id: the second is no earlier than the first session's expiry |
| `Sessions.ConsumeAuthIff` | ansible_issuer/go/internal/provider/memory_session_store.go:29-149 | over every run, cleanups and marks included: a consumption succeeds if and only if the last session created under the state is unconsumed and unexpired and nothing recorded the replay id beyond now; it returns that session |
| `Sessions.VerifiedIff` | ansible_issuer/go/internal/provider/memory_session_store.go:86-157 | likewise for reading and consuming a verified session |
| `Sessions.FieldsDemanded` | ansible_issuer/go/internal/provider/memory_session_store.go:29-94 | which fields a create, store or mark call demands |
| `Sessions.CleanupDrops` | ansible_issuer/go/internal/provider/memory_session_store.go:128-149 | cleanup drops exactly what expired at least the retention ago, a negative retention counting as none |
| `Otp.OtpStore.IssueCode` | ansible_issuer/go/internal/otp/store.go:48-59 | new map of the step: sweep, then replace the code of the DID |
| `Otp.OtpStore.SweepLocked` | ansible_issuer/go/internal/otp/store.go:62-68 | exactly the expired entries are dropped, for any iteration order |
| `Otp.OtpStore.VerifyAndConsume` | ansible_issuer/go/internal/otp/store.go:74-100 | new map and outcome of the step, every path (what that is: `Otp.VerifyEffect`, `Otp.AcceptedIff`) |
| `Otp.VerifyEffect` | ansible_issuer/go/internal/otp/store.go:74-100 | each outcome exactly when, in email, code, expiry and attempts, and what it leaves of the entry |
| `Otp.AcceptedIff` | ansible_issuer/go/internal/otp/store.go:17-100 | over every run a verification is accepted if and only if the last code issued to the DID was for that email and is that code, has not expired, was not accepted since and met fewer than five wrong guesses |
| `Otp.CodeIsBounded` | ansible_issuer/go/internal/otp/store.go:17-100 | in every run an issued code meets at most five comparisons and at most one success |
| `Otp.SizeIsBounded` | ansible_issuer/go/internal/otp/store.go:41-68 | right after an `Issue` at time t the map is no larger than the number of `Issue` calls since t - ttl |
| `Otp.SweepUnobservable` | ansible_issuer/go/internal/otp/store.go:48-100 | sweeping never changes which verifications succeed, even with a clock read before the lock was taken |
| `AdminCapabilities.ValidateAdminScopes` | ansible_issuer/go/internal/hostedissuer/admin_capability.go:100-120 | refuses exactly the lists with an unknown scope; otherwise the same scopes, each once, sorted; unchanged on its own result |
| `AdminCapabilities.CanonicalUnique` | ansible_issuer/go/internal/hostedissuer/admin_capability.go:100-120 | the canonical form does not depend on order or repetition |
| `AdminCapabilities.MemoryAdminCapabilityStore.IssueCapability` | ansible_issuer/go/internal/hostedissuer/admin_capability.go:53-77 | new store and reply of the step |
| `AdminCapabilities.MemoryAdminCapabilityStore.AuthorizeCapability` | ansible_issuer/go/internal/hostedissuer/admin_capability.go:79-94 | the reply of the step, every error path |
| `AdminCapabilities.AuthorizeMeans` | ansible_issuer/go/internal/hostedissuer/admin_capability.go:79-94 | in any store: exactly with the prefix, for tenant, audience and scope of the capability, before its expiry and unrevoked |
| `AdminCapabilities.MemoryAdminCapabilityStore.RevokeAdminCapabilities` | ansible_issuer/go/internal/hostedissuer/admin_capability.go:153-163 | exactly the administrator's capabilities are revoked |
| `AdminCapabilities.AuthorizedIff` | ansible_issuer/go/internal/hostedissuer/admin_capability.go:53-98 | after any run of issues and revocations, authorization succeeds if and only if the last issue of that token was for that tenant and scope, has not expired (within five minutes) and its administrator was not revoked since |
| `Messenger.MessengerDevice.GenerateOneTimePreKeys` | ansible_rust_core/src/messenger.rs:145-171 | the loop adds one key per drawn secret and stops before the 32-bit counter would overflow, keeping the keys made so far |
| `Messenger.MessengerDevice.DecryptInboundMessage` | ansible_rust_core/src/messenger.rs:247-328 | new device and result of the step; every refusal leaves the device alone |
| `Messenger.RetainOthers` | ansible_rust_core/src/messenger.rs:310-312 | exactly the keys with the used id go |
| `Messenger.SameRoot` | ansible_rust_core/src/messenger.rs:283-336 | with commuting DH both ends derive the same root key (section 3.3 of the X3DH specification) |
| `Messenger.Agreement` | ansible_rust_core/src/messenger.rs:101-328 | a message made from a published bundle decrypts to the plaintext, both sides store the same derived key with mirrored ends, and the used pre-key goes |
| `Messenger.EncryptFollowsX3dh` | ansible_rust_core/src/messenger.rs:173-245 | the envelope names both ends and keys, and the body is sealed under a key derived from the four shares of section 3.3 of the X3DH specification, with the header as associated data |
| `Messenger.DecryptMeans` | ansible_rust_core/src/messenger.rs:247-328 | a message is accepted only for this device and a live pre-key, and opens with the recipient's four shares under the header as it stands |
| `Messenger.RootBindsShares` | ansible_rust_core/src/messenger.rs:330-344 | with a collision-free derivation the root key determines all four shares |
| `Messenger.HeaderBinds` | ansible_rust_core/src/messenger.rs:382-394 | the associated data determine both ends and both key ids if no name contains a bar |
| `Messenger.HeaderAmbiguous` | ansible_rust_core/src/messenger.rs:382-394 | with a bar in a name they do not |
| `Messenger.EncryptSucceeds` | ansible_rust_core/src/messenger.rs:173-245 | with a sealing cipher, encryption to a well-formed bundle fails exactly on an empty plaintext |
| `Messenger.CreateWellFormed` | ansible_rust_core/src/messenger.rs:115-143 | a created device is well-formed |
| `Messenger.CreateEffect` | ansible_rust_core/src/messenger.rs:115-143 | created exactly for a name that is not blank, with key pairs of the drawn secrets |
| `Messenger.GenerateEffect` | ansible_rust_core/src/messenger.rs:145-171 | succeeds exactly without overflow, and then hands out consecutive ids with key pairs of the drawn secrets |
| `Messenger.GenerateWellFormed` | ansible_rust_core/src/messenger.rs:145-171 | generating keys keeps it so |
| `Messenger.StepKeeps` | ansible_rust_core/src/messenger.rs:145-328 | every operation keeps live ids distinct and below the counter and brings no id back |
| `Messenger.RunKeeps` | ansible_rust_core/src/messenger.rs:145-328 | so does every run |
| `Messenger.DecryptSpends` | ansible_rust_core/src/messenger.rs:273-312 | a successful decryption found its pre-key live and removed it for good |
| `Messenger.PreKeyUsedOnce` | ansible_rust_core/src/messenger.rs:145-328 | over any run no one-time pre-key decrypts twice |
| `MemoryStores.MemoryStore.BootstrapTenant` | ansible_issuer/go/internal/hostedissuer/store.go:52-72 | new state of the tenant and reply; every other tenant untouched |
| `MemoryStores.MemoryStore.ReserveStatusIndex` | ansible_issuer/go/internal/hostedissuer/store.go:99-120 | the loop takes the first free one of at most 256 draws; every other tenant untouched |
| `HostedInvariants.ReserveFindsFree` | ansible_issuer/go/internal/hostedissuer/store.go:108-119 | succeeds exactly when one of the first 256 draws is free; the index was held by nobody |
| `MemoryStores.MemoryStore.PutCredentialRecord` | ansible_issuer/go/internal/hostedissuer/store.go:122-143 | new state and reply; an existing record is never rewritten; every other tenant untouched |
| `MemoryStores.MemoryStore.SetCredentialStatus` | ansible_issuer/go/internal/hostedissuer/store.go:145-158 | new state and reply; every other tenant untouched |
| `MemoryStores.MemoryStore.PutCredentialTemplate` | ansible_issuer/go/internal/hostedissuer/store.go:173-203 | new state and reply for any iteration order, also when it fails half-way; every other tenant untouched |
| `MemoryStores.SupersedeOlder` | ansible_issuer/go/internal/hostedissuer/store.go:189-199 | what the loop leaves behind, including the deactivations before an error |
| `MemoryStores.MemoryStore.ActiveCredentialTemplate` | ansible_issuer/go/internal/hostedissuer/store.go:205-214 | the first active version in iteration order |
| `MemoryStores.MemoryStore.PutIssuanceRequest` | ansible_issuer/go/internal/hostedissuer/store.go:232-252 | new state and reply; every other tenant untouched |
| `MemoryStores.MemoryStore.DecideIssuanceRequest` | ansible_issuer/go/internal/hostedissuer/store.go:288-326 | new state and reply (what that is: `HostedEffects.DecideEffect`, `DecideOutcome`); every other tenant untouched |
| `MemoryStores.CountApprovals` | ansible_issuer/go/internal/hostedissuer/store.go:314-319 | the loop counts the distinct approvers, for any iteration order |
| `MemoryStores.Settle` | ansible_issuer/go/internal/hostedissuer/store.go:311-323 | a denial denies at once; otherwise approved exactly when the threshold is reached |
| `MemoryStores.MemoryStore.ConsumeApprovedIssuanceRequest` | ansible_issuer/go/internal/hostedissuer/store.go:328-338 | new state and reply; every other tenant untouched |
| `MemoryStores.MemoryStore.PutSigningKey` | ansible_issuer/go/internal/hostedissuer/store.go:340-358 | new state and reply; every other tenant untouched |
| `MemoryStores.MemoryStore.CreateTenant` | ansible_issuer/go/internal/hostedissuer/store.go:370-384 | new state and reply; every other tenant untouched |
| `MemoryStores.MemoryStore.PutAdministrator` | ansible_issuer/go/internal/hostedissuer/store.go:396-416 | new state and reply; every other tenant untouched |
| `MemoryStores.MemoryStore.ProposeDelegation` | ansible_issuer/go/internal/hostedissuer/store.go:431-456 | refused unless its sequence exceeds all others, for any iteration order; every other tenant untouched |
| `MemoryStores.MemoryStore.ApproveDelegation` | ansible_issuer/go/internal/hostedissuer/store.go:458-472 | new state and reply; every other tenant untouched |
| `MemoryStores.MemoryStore.ActivateDelegation` | ansible_issuer/go/internal/hostedissuer/store.go:474-502 | new state and reply; every other tenant untouched |
| `MemoryStores.DemoteActive` | ansible_issuer/go/internal/hostedissuer/store.go:491-496 | rewriting while iterating supersedes exactly the active delegations |
| `MemoryStores.MemoryStore.RevokeDelegation` | ansible_issuer/go/internal/hostedissuer/store.go:504-526 | new state and reply; every other tenant untouched |
| `MemoryStores.MemoryStore.FindActiveDelegation` | ansible_issuer/go/internal/hostedissuer/store.go:528-540 | the first current delegation in iteration order |
| `MemoryStores.MemoryStore.AppendAuditEvent` | ansible_issuer/go/internal/hostedissuer/store.go:542-554 | new state and reply; every other tenant untouched |
| `MemoryStores.Perform` | ansible_issuer/go/internal/hostedissuer/store.go:21-50 | any call of the interface does to its tenant what the step function says and nothing to any other |
| `MemoryStores.TenantProjection` | ansible_issuer/go/internal/hostedissuer/store.go:21-563 | for every mixed run of the step functions, one tenant's replies and final state are those of the run with all other tenants' calls removed, whatever the other tenants held |
| `MemoryStores.PerformAll` | ansible_issuer/go/internal/hostedissuer/store.go:21-563 | a run of the nested-map store gives the replies and, tenant by tenant, the data of the run of the step functions |
| `MemoryStores.StoreProjection` | ansible_issuer/go/internal/hostedissuer/store.go:21-563 | two nested-map stores that hold the same for one tenant, one performing a mixed run and one only that tenant's calls: same replies to the tenant, same data in the end |
| `HostedEffects.BootstrapEffect` | ansible_issuer/go/internal/hostedissuer/store.go:52-72 | exactly when a tenant is bootstrapped, and what tenant and owner are filed |
| `HostedEffects.CreateEffect` | ansible_issuer/go/internal/hostedissuer/store.go:370-384 | exactly when a tenant is created, and as what |
| `HostedEffects.PutAdministratorEffect` | ansible_issuer/go/internal/hostedissuer/store.go:396-416 | filed exactly for an existing tenant with room or a registered DID; nobody else changes |
| `HostedEffects.PutSigningKeyEffect` | ansible_issuer/go/internal/hostedissuer/store.go:340-358 | a signing key is filed once and never replaced |
| `HostedEffects.PutRecordEffect` | ansible_issuer/go/internal/hostedissuer/store.go:122-143 | accepted exactly under a reserved index and, for a taken id, with the same hash; no record on file changes |
| `HostedEffects.SetStatusEffect` | ansible_issuer/go/internal/hostedissuer/store.go:145-158 | set exactly for a credential on file and a known status; it becomes that status, nothing else changes |
| `HostedEffects.PutTemplateAccepts` | ansible_issuer/go/internal/hostedissuer/store.go:173-193 | accepted exactly if well formed and newer than every version of its id |
| `HostedEffects.PutTemplateEffect` | ansible_issuer/go/internal/hostedissuer/store.go:186-202 | filed as given, deactivating older versions if active; a refusal by a version that is not older leaves exactly the versions met before it deactivated |
| `HostedEffects.ActiveTemplateIff` | ansible_issuer/go/internal/hostedissuer/store.go:205-214 | found exactly when an active version is on file |
| `HostedEffects.PutRequestEffect` | ansible_issuer/go/internal/hostedissuer/store.go:232-252 | filed, as pending, exactly if complete and new |
| `HostedEffects.DecideEffect` | ansible_issuer/go/internal/hostedissuer/store.go:288-326 | a decision is filed exactly if the request is pending, the approver registered and active, the decision known, the intent signed and no decision of that approver on file; a repetition returns the request; a refusal changes nothing |
| `HostedEffects.DecideOutcome` | ansible_issuer/go/internal/hostedissuer/store.go:311-323 | denied by a denial, approved by the approval that completes the threshold, pending otherwise |
| `HostedEffects.ConsumeRequestEffect` | ansible_issuer/go/internal/hostedissuer/store.go:328-338 | offered exactly if approved and unexpired |
| `HostedEffects.ProposeEffect` | ansible_issuer/go/internal/hostedissuer/store.go:431-456 | accepted exactly if complete and above every sequence on file; filed as proposed without approvals |
| `HostedEffects.ApproveEffect` | ansible_issuer/go/internal/hostedissuer/store.go:458-472 | counts exactly from a registered active administrator with a signature, which is stored under that DID |
| `HostedEffects.ActivateEffect` | ansible_issuer/go/internal/hostedissuer/store.go:474-502 | succeeds exactly with a threshold of approvals inside the period; that one alone is then active, and the tenant is |
| `HostedEffects.RevokeEffect` | ansible_issuer/go/internal/hostedissuer/store.go:504-526 | the delegation is then revoked, no other changes, and the tenant is paused exactly if it was active |
| `HostedEffects.ActiveDelegationIff` | ansible_issuer/go/internal/hostedissuer/store.go:528-540 | found exactly when one on file is active and inside its period |
| `HostedEffects.AppendAuditEffect` | ansible_issuer/go/internal/hostedissuer/store.go:542-554 | appended exactly for an existing tenant |
| `HostedInvariants.GovernanceStep` | ansible_issuer/go/internal/hostedissuer/store.go:52-526 | every call keeps: at most one active delegation, which has a threshold of approvals and an active tenant; approvals from registered administrators; administrators within a positive count |
| `HostedInvariants.GovernanceRun` | ansible_issuer/go/internal/hostedissuer/store.go:52-526 | the same after every run |
| `HostedInvariants.ActiveDelegationUnique` | ansible_issuer/go/internal/hostedissuer/store.go:528-540 | the lookup does not depend on the iteration order |
| `HostedInvariants.HighestSequence` | ansible_issuer/go/internal/hostedissuer/store.go:431-526 | each accepted proposal strictly raises the tenant's highest sequence and nothing else moves it, even when a proposal overwrites an id |
| `HostedInvariants.SequencesIncrease` | ansible_issuer/go/internal/hostedissuer/store.go:431-456 | over every run the sequences of accepted proposals strictly increase, and the last is the highest on file |
| `HostedInvariants.RevokedStaysIff` | ansible_issuer/go/internal/hostedissuer/store.go:431-526 | every call leaves a revoked delegation revoked, except exactly an activation with a threshold of approvals inside the validity period and an accepted proposal under the same id |
| `HostedInvariants.RevokedForGoodIff` | ansible_issuer/go/internal/hostedissuer/store.go:431-526 | over every run it stays revoked if and only if no call of the run is one of those two |
| `HostedInvariants.RevokedReactivatesIff` | ansible_issuer/go/internal/hostedissuer/store.go:474-502 | the activation call alone: it succeeds on a revoked delegation exactly with a threshold of approvals inside its validity period |
| `HostedInvariants.RevokedReactivates` | ansible_issuer/go/internal/hostedissuer/store.go:474-526 | activate, revoke, activate succeeds |
| `HostedInvariants.TemplateKeyInjective` | ansible_issuer/go/internal/hostedissuer/store.go:201 | the map key determines id and version although ids may contain colons and digits |
| `HostedInvariants.PutTemplateKeeps` | ansible_issuer/go/internal/hostedissuer/store.go:173-203 | for any iteration order at most one version stays active, even on failure; entries are only ever deactivated; an accepted version is higher than all others |
| `HostedInvariants.TemplateRun` | ansible_issuer/go/internal/hostedissuer/store.go:173-214 | over every run at most one active version per id, and a deactivated version never becomes active again |
| `HostedInvariants.TemplateVersionsIncrease` | ansible_issuer/go/internal/hostedissuer/store.go:189-201 | after every run an accepted version exceeds every earlier one of its id |
| `HostedInvariants.ActiveTemplateUnique` | ansible_issuer/go/internal/hostedissuer/store.go:205-214 | the lookup does not depend on the iteration order |
| `GovernanceRuns.PutRequestInv` | ansible_issuer/go/internal/oid4vci/issuer.go:106-142 | a filed request carries the threshold of its template version and keeps the request invariant |
| `GovernanceRuns.DecideInv` | ansible_issuer/go/internal/oid4vci/issuer.go:144-164 | a decision with the snapshotted threshold keeps it |
| `GovernanceRuns.NextKeeps` | ansible_issuer/go/internal/oid4vci/issuer.go:82-164 | every event of every interleaving keeps the invariant |
| `GovernanceRuns.RequestsInEveryRun` | ansible_issuer/go/internal/oid4vci/issuer.go:82-164 | in every interleaving: pending means fewer approvals than the snapshotted threshold and no denial, approved or offered at least that many distinct approvers and no denial; denied and offered are terminal |
| `GovernanceRuns.TemplateCallSteps` | ansible_issuer/go/internal/oid4vci/issuer.go:82-95 | goes on exactly for a tenant with a positive threshold, a positive version and 1 to 365 days, and puts the template with the tenant's threshold |
| `GovernanceRuns.RequestCallSteps` | ansible_issuer/go/internal/oid4vci/issuer.go:106-136 | goes on exactly with an active membership template, a did:jwk holder, a known class and named host and board, and files that for seven days |
| `GovernanceRuns.DecisionCallSteps` | ansible_issuer/go/internal/oid4vci/issuer.go:144-152 | goes on exactly if the request is on file and the active version of its template is the one it was made under |
| `GovernanceRuns.NewlyApprovedIff` | ansible_issuer/go/internal/oid4vci/issuer.go:144-164 | a request becomes approved exactly by the last step of a checked decision call: a signed approval of a registered active administrator who has not decided before and completes the snapshotted threshold |
| `GovernanceRuns.SupersededNeverApproved` | ansible_issuer/go/internal/oid4vci/issuer.go:144-156 | a request under a superseded template, with no open call past its check, is never newly approved |
| `GovernanceRuns.CheckedCallStillApproves` | ansible_issuer/go/internal/oid4vci/issuer.go:149-156 | the remaining race: in any state of the invariant with a call about to approve, superseding the version does not stop it |
| `GovernanceRace.SupersededYetApproved` | ansible_issuer/go/internal/oid4vci/issuer.go:82-164 | a run of fourteen events from the empty store to a request approved under version 1 after version 2 replaced it |
| `GovernanceRuns.MoveFollowsPolicy` | ansible_issuer/go/internal/oid4vci/issuer.go:82-164 | in every reachable state an issuer call files and decides requests with the snapshotted threshold |
| `StateStore.PostgresStateStore.InsertGrant` | ansible_issuer/go/internal/oid4vci/postgres_store.go:19-29 | new tables and result; no row is removed and nothing written once is rewritten |
| `StateStore.PostgresStateStore.Exchange` | ansible_issuer/go/internal/oid4vci/postgres_store.go:31-65 | new tables and result; a failed insert leaves the tables as they were, a successful exchange leaves the grant unredeemable |
| `StateStore.PostgresStateStore.Lookup` | ansible_issuer/go/internal/oid4vci/postgres_store.go:67-79 | the live token or an error |
| `StateStore.PostgresStateStore.Prepare` | ansible_issuer/go/internal/oid4vci/postgres_store.go:81-93 | index and issue time are written once and no other row changes; what is returned is what the row holds |
| `StateStore.PostgresStateStore.MarkConsumed` | ansible_issuer/go/internal/oid4vci/postgres_store.go:95-106 | new tables and result; the consumption time is written once |
| `StateStore.PostgresStateStore.InsertNonce` | ansible_issuer/go/internal/oid4vci/postgres_store.go:108-115 | new tables and result; a nonce on file is never replaced |
| `StateStore.PostgresStateStore.SpendNonce` | ansible_issuer/go/internal/oid4vci/postgres_store.go:117-128 | new tables and result; afterwards the nonce cannot be spent |
| `StateStore.PutGrantEffect` | ansible_issuer/go/internal/oid4vci/postgres_store.go:19-29 | stored exactly under a new code |
| `StateStore.ExchangeEffect` | ansible_issuer/go/internal/oid4vci/postgres_store.go:31-65 | exactly an unexpired unconsumed grant of the tenant becomes one token with its data; the grant is then consumed |
| `StateStore.AccessByHashIff` | ansible_issuer/go/internal/oid4vci/postgres_store.go:67-79 | found exactly while unexpired |
| `StateStore.PrepareEffect` | ansible_issuer/go/internal/oid4vci/postgres_store.go:81-93 | exactly for an unexpired token; fills in what is missing and changes nothing else |
| `StateStore.ConsumeAccessEffect` | ansible_issuer/go/internal/oid4vci/postgres_store.go:95-106 | exactly for an unexpired token; keeps the first time |
| `StateStore.PutNonceEffect` | ansible_issuer/go/internal/oid4vci/postgres_store.go:108-115 | stored exactly if new |
| `StateStore.ConsumeNonceEffect` | ansible_issuer/go/internal/oid4vci/postgres_store.go:117-128 | spent exactly if issued, unspent and unexpired |
| `StateStore.MemoryTokensNeverBound` | ansible_issuer/go/internal/oid4vci/state.go:178-239 | no token of the in-memory variant ever passes the board check |
| `StateStore.BoundIff` | ansible_issuer/go/internal/oid4vci/postgres_store.go:53-64 | a token is bound exactly when its grant names the holder, a forum host and a board |
| `IssuanceSafety.NextKeeps` | ansible_issuer/go/internal/oid4vci/issuer.go:187-279 | every event of every interleaving keeps the invariant of grants, tokens, indexes, records, nonces and processes |
| `IssuanceSafety.RunKeeps` | ansible_issuer/go/internal/oid4vci/issuer.go:187-279 | so does every run |
| `IssuanceTheorems.TokensInEveryRun` | ansible_issuer/go/internal/oid4vci/issuer.go:187-279 | in every interleaving a token's status index and issue time never change once set, and a consumed grant or nonce stays as it is |
| `IssuanceTheorems.IndexesUnique` | ansible_issuer/go/internal/oid4vci/issuer.go:239-248 | no two tokens of a tenant share a status index |
| `IssuanceTheorems.RecordCarriesToken` | ansible_issuer/go/internal/oid4vci/issuer.go:252-271 | every record carries the index and issue time of the token it was written for, and that token's claims |
| `IssuanceTheorems.TokenHasGrant` | ansible_issuer/go/internal/oid4vci/issuer.go:187-208 | every token comes from a consumed grant of an offered request and carries that request's data |
| `IssuanceTheorems.RecordMatchesRequest` | ansible_issuer/go/internal/oid4vci/issuer.go:187-279 | a record's holder, class, forum host and board are those of its offered request |
| `IssuanceTheorems.GrantHasRequest` | ansible_issuer/go/internal/oid4vci/issuer.go:187-200 | every grant was made for an offered request and carries its data |
| `IssuanceTheorems.OneGrantPerRequest` | ansible_issuer/go/internal/oid4vci/issuer.go:187-200 | each request yields at most one grant, exchanged or not |
| `IssuanceTheorems.OneTokenPerRequest` | ansible_issuer/go/internal/oid4vci/issuer.go:187-208 | each request yields at most one access token |
| `IssuanceTheorems.OneRecordPerToken` | ansible_issuer/go/internal/oid4vci/issuer.go:212-279 | each token yields at most one record |
| `IssuanceTheorems.OneRecordPerRequest` | ansible_issuer/go/internal/oid4vci/issuer.go:187-279 | each request yields at most one record, whatever delegations come and go |
| `IssuanceTheorems.NonceSpentOnce` | ansible_issuer/go/internal/oid4vci/issuer.go:228-230 | over a whole run, finished and failed calls included, at most one event takes an `Issue` call past the check of a given nonce |
| `IssuanceTheorems.RecordOnlyChangedByStatus` | ansible_issuer/go/internal/hostedissuer/store.go:122-158 | nothing but setting its status changes a record, so issuing again never resets a revoked or suspended one |
| `IssuanceTheorems.RetryFindsRecord` | ansible_issuer/go/internal/oid4vci/issuer.go:239-271 | a further call for the same token computes the same credential id and writes nothing; it gets past the write exactly when it signs to the same hash |
| `IssuanceSteps.PassesAccessIff` | ansible_issuer/go/internal/oid4vci/issuer.go:217-227 | over every run an event takes an `Issue` call past the access check if and only if the row of its token is unexpired, of this tenant, for the membership configuration, for this holder and with a forum host and a board |
| `IssuanceSteps.AccessStep` | ansible_issuer/go/internal/oid4vci/issuer.go:217-227 | the same in every state, with everything else unchanged |
| `IssuanceSteps.StartStep` | ansible_issuer/go/internal/oid4vci/issuer.go:187-217 | a call starts from its beginning, with nothing read |
| `IssuanceSteps.NonceStep` | ansible_issuer/go/internal/oid4vci/issuer.go:228-230 | goes on exactly with an issued, unspent, unexpired nonce, which is then spent |
| `IssuanceSteps.OrganizationStep` | ansible_issuer/go/internal/oid4vci/issuer.go:231-234 | goes on exactly for an existing tenant |
| `IssuanceSteps.DelegationStep` | ansible_issuer/go/internal/oid4vci/issuer.go:235-238 | goes on exactly with an active delegation inside its period, and with that one |
| `IssuanceSteps.KeyStep` | ansible_issuer/go/internal/oid4vci/issuer.go:235-251 | goes on exactly if the delegation's key is on file and it allows membership credentials |
| `IssuanceSteps.ReserveStep` | ansible_issuer/go/internal/oid4vci/issuer.go:239-243 | takes a drawn index that the tenant has not used, or ends |
| `IssuanceSteps.PrepareStep` | ansible_issuer/go/internal/oid4vci/issuer.go:244-247 | writes index and issue time into a live row that has none |
| `IssuanceSteps.RereadStep` | ansible_issuer/go/internal/oid4vci/issuer.go:244-251 | goes on exactly with a live row that has both |
| `IssuanceSteps.WriteStep` | ansible_issuer/go/internal/oid4vci/issuer.go:252-271 | writes the record made of the call's own data, exactly under a reserved index and, for a taken id, with the same hash |
| `IssuanceSteps.MarkStep` | ansible_issuer/go/internal/oid4vci/issuer.go:272-274 | marks a live row, keeping the first time |
| `IssuanceSteps.OfferSteps` | ansible_issuer/go/internal/oid4vci/issuer.go:187-195 | takes exactly an approved unexpired request, and makes a grant of its data |
| `IssuanceSteps.RecordHasCall` | ansible_issuer/go/internal/oid4vci/issuer.go:212-279 | over every run each record was written by a call whose proof is by the holder its claims name, signed with a key of the tenant named by an active delegation for membership credentials |
| `IssuanceSteps.RecordContents` | ansible_issuer/go/internal/oid4vci/issuer.go:252-270 | over every run each record is a membership credential for ninety days, from the tenant's organization, for the hash of its holder |
| `IssuanceProgress.LoneIssueSucceeds` | ansible_issuer/go/internal/oid4vci/issuer.go:212-279 | an undisturbed call with a live bound token that has no index, an unspent nonce, a current delegation and a free index writes the record and marks the token |
| `IssuanceProgress.ResumedIssueSucceeds` | ansible_issuer/go/internal/oid4vci/issuer.go:212-279 | an undisturbed call for a token that a call which died had prepared, before or after writing, ends with exactly one record of that token, under the earlier index and issue time |
| `EndToEnd.JointProjects` | ansible_issuer/go/internal/oid4vci/issuer.go:82-279 | a run of all calls of all tenants keeps the joint invariant and is, to the offers and issuances, a run in which requests are filed and decided with the snapshotted threshold |
| `EndToEnd.JointInvInEveryRun` | ansible_issuer/go/internal/oid4vci/issuer.go:82-164 | in every interleaving, for every tenant: requests carry the threshold of their template version, and open calls hold what the stores still say |
| `EndToEnd.GovernedInEveryRun` | ansible_issuer/go/internal/oid4vci/issuer.go:82-279 | in every interleaving of everybody's calls each request is in the state its decisions give it, by the threshold of its creation, and registered administrators made them |
| `EndToEnd.RecordMeansApproved` | ansible_issuer/go/internal/oid4vci/issuer.go:60-279 | over every run of everybody's calls, with no condition on the run: a credential record exists only for a well-made request with a threshold of distinct registered approvers and no denial, and says what that request says |
| `EndToEnd.WellMadeInEveryRun` | ansible_issuer/go/internal/oid4vci/issuer.go:106-136 | in every interleaving each request on file is of a did:jwk holder, for a known class, on a named host and board, for seven days |
| `PostgresDelegations.PostgresStore.ProposeDelegation` | ansible_issuer/go/internal/hostedissuer/postgres_store.go:494-510 | new rows and outcome of the statement; every row moves forward or not at all, and one per tenant stays active at most |
| `PostgresDelegations.PostgresStore.ApproveDelegation` | ansible_issuer/go/internal/hostedissuer/postgres_store.go:512-528 | new rows and outcome of the statement; every row moves forward or not at all, and one per tenant stays active at most |
| `PostgresDelegations.PostgresStore.ActivateDelegation` | ansible_issuer/go/internal/hostedissuer/postgres_store.go:530-559 | new rows and outcome of the transaction; every row moves forward or not at all, and one per tenant stays active at most |
| `PostgresDelegations.PostgresStore.RevokeDelegation` | ansible_issuer/go/internal/hostedissuer/postgres_store.go:561-585 | new rows and outcome of the transaction; every row moves forward or not at all, and one per tenant stays active at most |
| `PostgresDelegations.ProposeEffect` | ansible_issuer/go/internal/hostedissuer/postgres_store.go:494-510 | filed exactly if id, sequence and payload are new and tenant and key exist; as proposed and unsigned, nothing else changes |
| `PostgresDelegations.ApproveEffect` | ansible_issuer/go/internal/hostedissuer/postgres_store.go:512-528 | exactly for a proposed delegation and an active administrator; the signature is stored, nothing else changes |
| `PostgresDelegations.ActivateEffect` | ansible_issuer/go/internal/hostedissuer/postgres_store.go:530-559 | exactly for a proposed delegation inside its period with a threshold; it alone is then active, and the tenant is |
| `PostgresDelegations.RevokeEffect` | ansible_issuer/go/internal/hostedissuer/postgres_store.go:561-585 | the row is then revoked and otherwise unchanged, no other changes, and the tenant is paused exactly if it was active |
| `PostgresDelegations.StepForward` | ansible_issuer/go/internal/hostedissuer/postgres_store.go:494-585 | every transaction moves every row forward or not at all and keeps one active row per tenant |
| `PostgresDelegations.LifecycleInEveryRun` | ansible_issuer/go/internal/hostedissuer/postgres_store.go:494-585 | over every run states move only upward in proposed < active < superseded < revoked, signatures freeze after proposed, and at most one row per tenant is active |
| `PostgresDelegations.NeverActiveAgain` | ansible_issuer/go/internal/hostedissuer/postgres_store.go:530-585 | a superseded or revoked delegation is never active again |
| `PostgresDelegations.RevokedForGood` | ansible_issuer/go/internal/hostedissuer/postgres_store.go:561-585 | over every run a successful revocation leaves the delegation revoked at every later point |

## Left out

- HTTP handlers, JSON, routing, metrics, environment wiring and generated glue: plumbing.
- SQL and file I/O errors: a process may stop after any step instead. Transactions are atomic steps.
- Cryptography: DH, HKDF, AEAD, base64 and the message envelope are functions that satisfy `Messenger.Laws`; hashes and the credential builder are functions (`Issuance.Builder`). The format checks of `vc.IssueMembershipJWT` and its replacement of a zero issue time by the clock are not modelled.
- Issuance.Next: uses the steps of the in-memory hosted store. The SQL store differs only in granularity: a failed attempt of its `ReserveStatusIndex` loop changes nothing and the successful one is a step with a single draw; its `PutCredentialRecord` is one insert followed by a read of a hash that never changes; its extra unique constraints only add failures. The lifetimes of codes, tokens and nonces (10, 5 and 2 minutes) are arguments of the steps.
- The SQL forms of templates, requests, administrators and records: same decisions as the in-memory store, stated as SQL.
- `jsonb_object_length` (ansible_issuer/go/internal/hostedissuer/postgres_store.go:538) is read as the number of keys; PostgreSQL has no built-in function of that name.
- Aliasing: Go maps inside returned delegations are shared with the store; here values are copied.
- MemoryStores.MemoryStore: the listings `IssuanceRequests` and `ActiveCredentialTemplates` with their sorting are left out, as easy readers; `Administrators` and `CredentialRecords` return the map instead of a list in iteration order; fields that no rule looks at (claim allow-lists, key PEMs, audit times) are dropped.
- GovernanceRuns.Next and EndToEnd.NextJoint: filing and deciding requests belongs to the issuer's calls, which are the only callers. The audit entry that ends each issuer call is not a step there, as it touches neither requests nor templates. `strings.TrimSpace` knows ASCII white space only, as does `Messenger.Blank`.
- Queries.GetThreadScoped: assumes, as the only one of the query results, that each post is filed under the board of its thread; a post filed elsewhere is shown with its thread.
- Queries: text parameters compared with integer columns follow SQLite's column affinity, which is taken as given; contact ids are primary keys, so the join adds no rows; `board_host_map` is a map argument; time stamps are shown as epochs.
- `list_boards`, `get_author`, `search_content` beyond its LIKE pattern and its snippets: easy readers, or results whose limit is applied before the visibility filter.
- Like.SearchIsContainment: case folding is SQLite's, ASCII letters only.
- Snippet.Cut: takes the hit offset as an argument, since lower-casing is not modelled; UTF-8 is checked by lead and continuation bytes.
- The file-backed session store, passport challenges, WebAuthn ceremonies and the commitment peppers: easier members of the single-use family.
- The CRDT and DID wrappers: thin calls into libraries that are not part of this model.
