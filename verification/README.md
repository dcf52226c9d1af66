# Porchlight, modelled

Porchlight shares local tools with remote clients. A client asks for access to a link, the person at
the machine approves it by typing a code, and the client then calls the link's tools with tokens until
the access is revoked or its link changes. This project models the parts of the daemon where that can
go wrong over time, and proves what they keep.

- **Access** (`Store`, `Access`, `Auth`, `Reload`). The tables, the daemon's memory and every operation
  on them. `Auth.Auth` and `Reload.Reloader` are classes with the daemon's own fields; each method is
  proved to compute a function of the state in `Access` or `Reload`, for every outcome of every SQL
  statement. `Effects` summarises those functions. `Runs` runs them in any order beside a record of the
  past; `Flow`, `Tokens` and `Membership` are the invariants of runs, `Guarantees` what follows from
  them, `Journey` what must succeed and for how long, `Lifetimes` the same of requests, codes
  and grants, `Reloading` a reload with other operations between its steps, `Overlaps` whole runs of
  such reloads, and `Orphans` the one invariant that fails,
  with the exact condition.
- **Interleavings** (`Streams`, `Pool`, `Registry`). State machines whose steps are single statements,
  lock regions and atomic instructions: requests being served against revocations, the stdio session
  pool, and the registry under checks and rule changes.
- **Links** (`Names`, `Links`, `Apps`, `Policy`, `Projection`). How settings become apps and plans, how
  a plan is signed, which tools a rule allows, and what a link lets through.
- **Streams of bytes** (`Bytes`, `Sse`, `Lines`, `Logs`). The incremental event parser and its printer,
  the bounded line reader and the rotating log, for every way the bytes can be cut.
- **Small loops with real specifications** (`Template`, `Inputs`, `Windows`, `Downloads`,
  `Registrations`, `Throttles`, `Distance`).

## What the model takes for granted

- An operation of `Auth` is one step of a run and reads the clock once; the clock never goes back. For
  those that approve, exchange, refresh or revoke, the code lock makes it so among themselves; `begin`,
  `authorize`, `create_static_token` and the sweep take no lock, and are single steps by assumption.
  The interleavings that matter inside operations are in `Streams`, `Reloading`, `Overlaps`,
  `Journey.SweptRotationExactly` and `Orphans.TornStaticRefused`.
- `weather` says which SQL statements of an operation succeed; an entry past the end of it succeeds.
  Each statement is one atomic update, and locks are never poisoned.
- Random ids and tokens are fresh. SHA-256, the PKCE challenge, the normal form of a typed code, the
  comparison of a resource URL, the judgement of an announced tool, lossy UTF-8 decoding and JSON
  filtering are parameters; where a proof needs something of them it is a `requires`.
- A name of an app, a tool or a link is the sequence of its bytes; the texts in `Template`, `Inputs`,
  `Distance`, `Policy` and `Sse` are sequences of characters. A tool or app name that gets as far as a
  rule is ASCII, so there the two agree.

## Where the code does not do what one would expect

- A failure between the second and third statement of `revoke_server` leaves unrevoked tokens without a
  grant (`Orphans.StrandedExactly`). They are still refused, because every check looks for the grant.
- `take_download_slot` reads the clock before it takes the lock. A call that arrives late can overfill
  a minute (`Downloads.SafeExactly`, `Downloads.OverfilledLate`). `registration_try_record` reads the
  clock again under its lock and is safe.
- The audit throttle does the same. Once it has forgotten old keys, a call that arrives late can record
  a key twice within the interval (`Throttles.RightExactly`, `Throttles.RecordedTwice`).
- A closer removes its session, waits for the process to end, and only then gives its slot back. A
  request abandoned meanwhile leaks the slot for good (`Pool.CountExactly`, `Pool.LeakExample`), and
  enough of them shut the pool (`Pool.LeaksExhaust`).
- A request or static token stored after a link's `revoke_server` call and before the new plans take
  effect is later accepted for the new members (`Reloading.ChangedInLineExactly`,
  `Reloading.LateTokenAccepted`, `Reloading.LateRequestAccepted`, both with an example, and
  `Overlaps.AcceptedExactly`).
- A sweep that deletes a refresh token while it is being used, because it expires just then, makes
  the refresh look like a reuse and revokes the grant (`Journey.SweptRotationExactly`).
- A static token created between the listing and the deletion of `revoke_server` is deleted with the
  rest, but a stream already opened with it stays open (`Streams.ReturnExactly`,
  `Streams.EscapeExample`).
- A log file that can neither be renamed nor removed, but opens, is counted as empty and grows without
  bound; a write that fails partway is not counted either (`Logs.CountExactly`, `Logs.GrowsForever`), nor is
  what a file held whose size could not be read at the start (`Logs.Log.constructor`).
- A rotation that can neither rename the current file nor remove the previous one, but deletes the
  current one, leaves a gap in the log (`Logs.RotationExact`).

## Model

| member | source | states |
|---|---|---|
| Store.Database.WritePending | src/store.rs:531-595 | each statement over the pending table changes that table as the SQL says, or fails and changes nothing |
| Store.Database.WriteTokens | src/store.rs:597-671 | the same for the tokens table: insert under a fresh hash, claim, revoke by grant, by link or all, prune |
| Store.Database.WriteGrants | src/store.rs:673-727 | the same for the grants table |
| Auth.Auth.constructor | src/auth.rs:116-125 | a daemon starts with its tables and with no code, approval or stream in memory |
| Auth.Auth.CloseStreams | src/auth.rs:131-141 | the streams of these grants leave the registry and are cancelled; nothing else changes |
| Auth.Auth.OpenStream | src/auth.rs:143-152 | a stream with an id never used before is registered under its grant |
| Auth.Auth.DropStream | src/auth.rs:76-88 | exactly this stream leaves the registry, and an empty entry leaves with it |
| Access.OpenExactly | src/auth.rs:143-152 | opening a stream registers just that stream, under a new id, and cancels none |
| Access.DropExactly | src/auth.rs:76-88 | dropping a stream unregisters just that stream, cancels none and leaves no empty entry |
| Access.CloseExactly | src/auth.rs:131-141 | closing grants unregisters and cancels exactly the streams registered for them |
| Auth.Auth.Begin | src/auth.rs:207-240 | refines the state transformer Access.Begin for every outcome of every statement |
| Auth.Auth.Approve | src/auth.rs:164-205 | refines Access.Approve: expiry, cookie, removal of the request, pruning of codes and approvals, the new code |
| Auth.Auth.ApproveWithCode | src/auth.rs:246-276 | refines Access.ApproveWithCode: the attempt is counted before the comparison, and the fifth wrong code removes the request |
| Auth.Auth.Issue | src/auth.rs:154-162 | refines Access.IssueTokens: the access token and then the refresh token, stopping at the first failure |
| Auth.Auth.ExchangeCode | src/auth.rs:278-315 | refines Access.ExchangeCode: the code is used up by every attempt whose verifier is well formed |
| Auth.Auth.RevokeInner | src/auth.rs:371-376 | refines Access.RevokeGrantInner: tokens, then the grant, then the streams |
| Auth.Auth.Refresh | src/auth.rs:317-340 | refines Access.RefreshToken: rotation, expiry before reuse, and reuse revoking the grant |
| Auth.Auth.StillAllowed | src/auth.rs:342-359 | computes Access.StillAllowed and changes nothing |
| Auth.Auth.Authorize | src/auth.rs:361-369 | refines Access.Authorize: the check, and then the touch of the grant |
| Auth.Auth.Revoke | src/auth.rs:378-389 | refines Access.Revoke |
| Auth.Auth.RevokeGrant | src/auth.rs:412-421 | refines Access.RevokeGrant |
| Auth.Auth.RevokeServer | src/auth.rs:423-455 | refines the closed form Access.RevokeServers with as many statements as completed |
| Auth.Auth.RevokeAll | src/auth.rs:457-471 | refines Access.RevokeAll: pending requests stay |
| Auth.Auth.CreateStaticToken | src/auth.rs:402-410 | refines Access.CreateStaticToken |
| Auth.Auth.Sweep | src/serve.rs:311-318 | refines Access.Sweep: each prune goes ahead whatever happened to the others |
| Access.RevokeServersAdd | src/serve.rs:238-243 | one more `revoke_server` call, wherever it stops, gives the closed form for one more link, whatever the order |
| Reload.Reloader.Apply | src/serve.rs:207-265 | refines Reload.Applied: which links lose access, and that signatures, plans, rules and the applied settings change only after every earlier step succeeded |
| Reload.Reloader.RevokeEach | src/serve.rs:236-247 | the loop goes on after a failure, revokes every link as far as each call got, and reports whether all were clean |
| Reload.Reloader.ReloadWith | src/serve.rs:267-281 | a configuration is marked as seen exactly when it was applied |
| Flow.StepSound | src/auth.rs:207-315 | every operation keeps: rows and codes carry their request's data, a request mints at most one code, a code makes at most one grant, attempts are counted exactly |
| Tokens.StepKeeps | src/auth.rs:317-340 | every operation and every prune keeps: the refresh tokens of a grant form one chain with all but the last used up, and a used one stays in the table until it expires |
| Tokens.SweepWeakens | src/store.rs:643-681 | a sweep never drops an unexpired refresh token and never brings a token or grant back |
| Membership.StepKeeps | src/serve.rs:207-265 | every operation, a reload that fails partway included, keeps: each request, code and grant was begun under the signature now remembered for its link |
| Membership.ApplySucceeds | src/serve.rs:231-254 | after a successful apply every plan in force is the remembered one, and whatever was begun under another is gone |
| Guarantees.AcceptedForItsMembers | src/serve.rs:207-249 | in every run, with a reload as one step that may fail partway, a bearer accepted on a link with a plan in force is used for exactly the members in force when its request was begun or its static token created |
| Guarantees.AcceptedOnItsLink | src/auth.rs:342-369 | `authorize` returns only existing grants on the link that was asked for |
| Guarantees.OneLiveRefreshToken | src/auth.rs:317-340 | in every run a grant has at most one unrevoked refresh token |
| Guarantees.ReuseEndsGrant | src/auth.rs:325-337 | in every run a used, unexpired refresh token never yields tokens, and ends the grant, its tokens and its streams, whatever sweeps ran in between |
| Guarantees.OneGrantPerRequest | src/auth.rs:164-315 | in every run: one code per request, one grant per code, the grant has the request's client and link and was exchanged with its redirect URI and challenge, at most MAX_CODE_ATTEMPTS comparisons |
| Guarantees.ExchangeRecorded | src/auth.rs:278-315 | no exchange that answers with tokens escapes that record |
| Guarantees.ApprovalRecorded | src/auth.rs:164-205 | in every run an approval tells the browser the code minted for this very request, stored with the request's client, link, redirect URI and challenge for AUTHORIZATION_CODE_TTL, and the redirect URI and state the request was begun with; it removes the request, marks it approved and counts one comparison |
| Guarantees.RevokedStaysRevoked | src/auth.rs:423-455 | after `revoke_server` succeeds nobody is accepted on the link, through any run without a new request or static token for it |
| Reloading.ReloadAlone | src/serve.rs:207-251 | with nothing in between, the steps of a reload that works are the one step Applied |
| Reloading.KeptStaysInLine | src/serve.rs:207-251 | whatever runs between the steps of a reload, everything on a link that keeps its members was begun under the members it has at the end |
| Reloading.ChangedInLineExactly | src/serve.rs:238-251 | for a link that gets other members, once its own `revoke_server` call succeeded, that holds at the end if and only if nothing is on the link just before the new plans take effect |
| Reloading.ChangedInLine | src/serve.rs:238-251 | and so it holds when no request or static token for the link is stored between that call and the new plans |
| Reloading.LateAskOutOfLine | src/serve.rs:249-251 | in any reload of a running daemon that gives the link other members, after its call, a request or static token stored for it as the one operation between remembering the signatures and the new plans is out of line with them |
| Reloading.LateTokenAccepted | src/serve.rs:249-251 | such a static token is accepted under the new plans until it expires |
| Reloading.LateRequestAccepted | src/serve.rs:249-251 | such a request, approved and exchanged in good faith, leads to an access token that is accepted under the new plans until it expires |
| Reloading.LateTokenExample | src/serve.rs:249-251 | such a run from the start: settings that choose "a", then "b", and a token created for "a" that is accepted for "b" |
| Reloading.LateRequestExample | src/serve.rs:249-251 | the same run with any visit that begins then and goes on in good faith |
| Overlaps.AcceptedExactly | src/serve.rs:207-281 | in every run whose reloads go step by step between other operations, fail anywhere and are cut off by restarts, a bearer accepted on a link with a plan in force is used for the members in force when its request was begun or its static token created, if and only if that was not between a revocation of the link and the new plans of the same reload, or those plans are not in force yet |
| Overlaps.TurnKeeps | src/serve.rs:207-281 | every operation and every step of a reload keeps the invariant behind it: what was begun late was begun under another plan than the one remembered, everything else under the remembered one |
| Overlaps.ReloadAlone | src/serve.rs:207-251 | a reload that nothing interrupts gets through its steps and puts its plans in force |
| Orphans.StrandedExactly | src/auth.rs:432-435 | an operation leaves every unrevoked token with an existing grant if and only if none of its `revoke_server` calls stops between deleting the grants and revoking the tokens of a link with a live token |
| Orphans.StrandedExample | src/auth.rs:432-433 | a run of two operations that strands a token |
| Orphans.TornStaticRefused | src/auth.rs:402-410 | a static token whose link is revoked between its two inserts is stranded from its first moment, and refused at every time |
| Journey.FlowExactly | src/auth.rs:164-359 | request, approval and exchange of the code the browser came back with end with tokens if and only if the shown code was typed in the same browser and in time, and the same client exchanged with the redirect URI, verifier and resource in time; the browser is sent to the request's redirect URI with its state; then the grant is the client's on the link, the access token is accepted exactly on its own link until it expires and the refresh token never is, and otherwise grants and tokens are as before |
| Journey.ApproveRefuses | src/auth.rs:246-276 | an approval is refused for the first of: no such request in time, too many attempts, another code, another browser |
| Journey.ExchangeRefuses | src/auth.rs:278-315 | an exchange is refused for the first of: a malformed verifier, no such code in time for this client and redirect URI, another verifier, another resource |
| Journey.RefreshRefuses | src/auth.rs:317-340 | a refresh is refused for the first of: no refresh token, expired, no grant, already used |
| Journey.AcceptedExactly | src/auth.rs:342-359 | a bearer is accepted for a grant if and only if it is an unrevoked, unexpired access or static token of that existing grant on the link asked for |
| Journey.AuthorizeExactly | src/auth.rs:361-369 | authorizing marks the accepted grant as used now and changes nothing else |
| Journey.RevocationsAnswer | src/auth.rs:378-471 | a revocation answers with success exactly if every statement it gets to completes, and of a grant whether it existed; revoking an unknown token changes nothing |
| Journey.SuccessIsWhole | src/auth.rs:154-410 | whatever stores something answers with success only if every statement of it completed, the audit entry included |
| Journey.StaticExactly | src/auth.rs:402-410 | a static token is created exactly with fresh values, answered with its grant, and stored with it for its link until it expires |
| Journey.TokenEndsExactly | src/auth.rs:317-471 | an operation ends a token's row, a bearer's or a refresh token's, only if it is meant to, whatever fails in it, and always if it is meant to and completes; a use of a refresh token included |
| Journey.AccessEndsExactly | src/auth.rs:317-471 | when every statement completes, an operation ends an accepted token's access if and only if it is a revocation of its grant, token family, link or everything, a reuse of its refresh token, or a reload that changes its link |
| Journey.AccessLasts | src/auth.rs:342-359 | through any run without such an operation, failures, sweeps and restarts included, an accepted token stays accepted until its expiry and not after |
| Journey.RefreshLasts | src/auth.rs:317-340 | and a refresh token that can be used stays usable until its expiry through any run that neither uses it nor is meant to end it |
| Journey.RotationExactly | src/auth.rs:317-340 | a refresh succeeds if and only if the token is unused and unexpired and its grant exists; the new pair is for the same grant and link, and the old token can't be used again |
| Journey.SweptRotationExactly | src/serve.rs:311-318 | a usable refresh token is rotated despite a sweep before the lookup of its grant or before its claim if and only if it has not expired when the sweep prunes; otherwise its grant is revoked, although the token was never used |
| Journey.IssuedLasts | src/auth.rs:278-410 | in every run, whatever bearer an exchange, a refresh or a static token's creation answers with is accepted on its link until its expiry and not after, as long as nothing is meant to end it |
| Journey.ReloadRevokesExactly | src/serve.rs:220-234 | for a link with a plan in force, a reload revokes its access if and only if the file no longer names it or gives it other members |
| Journey.ReloadWorks | src/serve.rs:207-251 | a reload whose statements complete puts the file's plans in force and leaves grants and requests only on links that the file names, and codes too but for a link no table knows of |
| Journey.ReloadRemembers | src/serve.rs:224-250 | after it a named link is remembered with the signature of its plan, or without one as before, and no other link is remembered |
| Journey.ReloadFails | src/serve.rs:207-250 | a reload that fails to load, to read, to revoke or to remember leaves plans and remembered signatures as they were |
| Lifetimes.SweepExactly | src/serve.rs:311-318 | each prune that completes deletes exactly what is over: expired requests and tokens, revoked bearers, and grants an hour old that no token is left of; no other row changes, and a prune that fails deletes nothing |
| Lifetimes.RequestEndsExactly | src/auth.rs:246-276 | an operation ends an unexpired request only if it is meant to, whatever fails in it, and always if it is meant to and completes: the right code in the right browser, the fifth wrong code, a revocation of its link |
| Lifetimes.RequestLasts | src/store.rs:591-595 | a request stays approvable until its expiry and not after, through any run without such an operation, sweeps, failures and restarts included |
| Lifetimes.CodeEndsExactly | src/auth.rs:278-300 | an operation ends an unexpired code only if it uses it up, revokes its link or everything, or restarts the daemon |
| Lifetimes.CodeLasts | src/auth.rs:183-196 | a code stays exchangeable until its expiry and not after, through any run without such an operation, other approvals included |
| Lifetimes.GrantEndsExactly | src/store.rs:673-682 | an operation ends a grant only if it is meant to, or sweeps and finds it an hour old with no token left; its row changes only in its last use |
| Lifetimes.GrantLasts | src/store.rs:673-682 | and so a grant stays through any run without such an operation, with or without tokens |
| Lifetimes.BeginExactly | src/auth.rs:207-240 | a request is taken if and only if fewer than twenty unexpired ones wait |
| Lifetimes.NeverMoreThanTwenty | src/auth.rs:207-212 | in every run at most twenty unexpired requests wait at any time |
| Lifetimes.ApprovalLasts | src/auth.rs:242-244 | the waiting page is told of an approval only if a code was minted for the request, and then until a restart, at least as long as a request waits |
| Streams.RevocationReachesStreams | src/gateway.rs:469-498 | in every interleaving of serving requests with revocations of grants, links and everything, which list grants, change the tables, take streams out of the registry and cancel them one by one under the code lock, a stream that passed its second check is cancelled once a revocation that listed its grant has returned |
| Streams.ReturnExactly | src/auth.rs:423-471 | when a revocation returns, a held stream that was not cancelled before it began is cancelled if and only if its grant was listed at the start |
| Streams.EscapeExample | src/auth.rs:402-450 | a run in which a static token is created and used between the listing and the deletion of `revoke_server`: at the end its grant is gone and its stream still open |
| Streams.RevokeAlone | src/auth.rs:371-471 | without interference the actions of a revocation are `revoke_grant_inner`, `revoke_server` or `revoke_all`, by its kind |
| Streams.ServeAlone | src/gateway.rs:469-498 | without interference a request whose bearer is accepted is authorized and its stream opened and held, and any other ends at once and changes nothing |
| Pool.PoolBounded | src/sources/mcp_stdio.rs:146-206 | in every interleaving, abandoned requests included, the counter is the number of sessions plus the slots held by openers and closers plus the slots leaked; it never passes MAX_SESSIONS or drops below zero, and every insert is at an absent key |
| Pool.CountExactly | src/sources/mcp_stdio.rs:146-155 | the counter is the sessions plus the slots held if and only if no closer was dropped between removing its session and giving its slot back |
| Pool.LeakExample | src/sources/mcp_stdio.rs:470-476 | a run of eight actions that leaks a slot |
| Pool.LeaksExhaust | src/sources/mcp_stdio.rs:157-168 | after MAX_SESSIONS leaks no session is ever held again |
| Pool.ResumedElsewhere | src/sources/mcp_stdio.rs:336-367 | thanks to the resuming lock no second task is resuming the session that one is about to insert |
| Pool.NextKeeps | src/sources/mcp_stdio.rs:146-206 | each atomic action, and each abandoning of a task that waits, keeps the invariant behind PoolBounded |
| Pool.OpenAlone | src/sources/mcp_stdio.rs:186-206 | with room and nobody else busy a client that starts a session gets it, and one slot is taken |
| Pool.StartFails | src/sources/mcp_stdio.rs:193-199 | a process that doesn't start leaves everything as it was |
| Pool.EvictAlone | src/sources/mcp_stdio.rs:170-206 | at the limit the new session takes the place of the one evicted, and the counter stays |
| Pool.CloseAlone | src/sources/mcp_stdio.rs:146-155 | closing removes the session and gives its slot back; closing it again does nothing |
| Pool.ResumeAlone | src/sources/mcp_stdio.rs:336-367 | a saved session is resumed under its own id if the handshake succeeds, and leaves nothing behind if not; the resuming lock is free again either way |
| Names.ExposedNameInjective | src/core.rs:45-47 | two tools of apps with proper names have the same exposed name only if they are the same tool |
| Names.ResourceUriInjective | src/core.rs:49-51 | the same for resource addresses |
| Names.ExposedReads | src/core.rs:45-47 | an exposed name reads back: the app is before the first underscore and the tool after it, or both are the name |
| Names.UriReads | src/core.rs:49-51 | and so does an address |
| Links.SignatureExact | src/links.rs:76-89 | two plans have equal signatures if and only if they are the same kind over the same app or the same multiset of members, for arbitrary names |
| Links.DecimalWrites | src/links.rs:76-89 | the length in a signature is written in decimal digits without leading zeros |
| Links.SameSignatureSameMembers | src/links.rs:76-96 | equal signatures mean equal member sets |
| Apps.CompileApps | src/apps.rs:234-263 | the loop with its `seen` set gives one spec for each entry that is the first with a usable name and builds |
| Apps.SpecsExact | src/apps.rs:244-259 | a spec is compiled if and only if an accepted entry builds it |
| Apps.SpecsUnique | src/apps.rs:245-251 | compiled names are usable and unique |
| Apps.CompiledExactly | src/apps.rs:234-263 | compiled are exactly the enabled, resolving MCP servers and the apps of commands with tools that are the first of a usable name, each with its tools and trusted as its settings say |
| Apps.CompiledInOrder | src/apps.rs:234-263 | in the order of the file, MCP servers first |
| Apps.CompileLinks | src/apps.rs:265-314 | the loop gives the direct plans, then one plan for each usable link name that is not an MCP app |
| Apps.PlansSound | src/apps.rs:265-314 | plan names are unique and among the configured links, membership has no repeats, and a plan's apps are distinct, usable and contributing |
| Apps.PlansExactly | src/apps.rs:265-314 | the plans are exactly one over each compiled server app and one for each usable link name that no server app has, with all apps of commands or the chosen ones, each once and in order, and of those the compiled ones |
| Apps.PlansInOrder | src/apps.rs:265-314 | server apps first in the order they compiled, then the links in the order of the file |
| Registry.RulesInForce | src/registry.rs:103-141 | in every interleaving of checks, rule changes, downs, additions and removals: while `rules_lock` is free each live or refused app agrees with the current rules, and at every moment no live app allows a code-running tool unless trusted to |
| Registry.RulesFollowed | src/registry.rs:103-141 | while `rules_lock` is free, a live or refused app allows exactly the tools it listed that no last matching rule turns off, is live exactly when trusted or when no allowed tool runs code, and has new tools off exactly when the last rule for the whole app says so |
| Registry.ToolsListed | src/registry.rs:103-108 | in every run the tools of a live or refused app are exactly those, under valid names, that its source listed to a check of this slot |
| Registry.CheckExactly | src/registry.rs:213-228 | a check without an answer leaves the app waiting with what it had; one with tools leaves it with those validly named, following the rules it read; no other entry changes |
| Registry.UpdatedExactly | src/registry.rs:379-386 | changed rules reach exactly the live and refused apps, with the tools they had |
| Registry.CheckAlone | src/registry.rs:213-228 | a check with nobody else at the lock gets through, and ends with what its source answered under the rules in force |
| Registry.SetAlone | src/registry.rs:368-387 | so does a rule change, and ends with every live or refused app under the new rules |
| Registry.NextKeeps | src/registry.rs:213-228 | each atomic action of a check, a rule change or a down keeps the invariant behind it |
| Registry.UpdateKeeps | src/registry.rs:368-387 | the loop of `set_rules` over the slots, one slot at a time |
| Projection.AddTools | src/links.rs:146-155 | the inner loop records every tool of one app under its own name and adds exactly as many names as tools |
| Projection.ProjectCommands | src/links.rs:130-196 | for every app on the plan that exists and contributes commands, live or not, each of its tools is in the link's tools, origins, risks and, if it reads a resource, addresses, under its own name; nothing else is in them; their number is the sum over those apps; and allowed is exactly what the live ones allow |
| Projection.CommandsSafe | src/links.rs:157-159 | every allowed name is among the link's tools, and one that runs code comes from an app trusted to |
| Projection.DirectSafe | src/links.rs:98-124 | the same for a link of one app, with the risk kept for the last of equal tool names |
| Projection.DirectExactly | src/links.rs:98-124 | a link of one app has its state, tools and allowed names; each listed name comes from the app, and the last tool of a name says whether it runs code |
| Projection.Project | src/registry.rs:171-175 | a link shows exactly what the apps that were read have; and read at any moments of any registry run, the entry not before the slot, it lets no code-running tool through on an untrusted app |
| Policy.ConcatenationLanguage | src/policy.rs:140-153 | the texts that a concatenated pattern matches are exactly the concatenations of what its parts match |
| Policy.OneCharacterLanguage | src/policy.rs:140-153 | what one pattern character matches |
| Policy.MatchesStayInside | src/policy.rs:140-153 | no pattern matches a text with a slash |
| Policy.SplitExactly | src/policy.rs:130-172 | a rule pattern is an app and a tool around one slash, and gives the rule of just those |
| Policy.LastRuleDecides | src/policy.rs:174-176 | a tool is off if and only if the last rule that matches it says so |
| Policy.SettingDecides | src/policy.rs:162-176 | a tool is off if and only if the last entry of the tools section that is a pattern about it says so |
| Policy.DefaultDecides | src/policy.rs:162-180 | new tools of an app are off if and only if the last entry about the whole app says so |
| Policy.AllowedExactly | src/policy.rs:182-188 | a tool is allowed if and only if it is announced under a valid name and no deciding rule turns it off |
| Sse.SseParser.Line | src/rpc.rs:226-240 | the event after a line and the events it completes |
| Sse.SseParser.Feed | src/rpc.rs:242-254 | drains exactly the complete lines of what is buffered and fed |
| Sse.SseParser.Finish | src/rpc.rs:256-269 | gives the unfinished line and event, and leaves the parser empty |
| Sse.SseEvents | src/rpc.rs:272-287 | for every way to cut the stream into chunks, with errors anywhere between, the events are those of the whole byte stream, and every error is passed on between the events before it and after it |
| Sse.DrainedConcat | src/rpc.rs:242-254 | feeding bytes and then more is feeding them together |
| Sse.EventsClean | src/rpc.rs:226-269 | what the parser can produce: no empty event, no field that is empty, has a newline, ends in a carriage return or reads as data |
| Sse.WrittenParses | src/rpc.rs:226-269 | whatever well-written stream comes in, with or without the space after "data:" and with either line ending, the events are exactly the fields and data of its blocks of lines in order, an unfinished last one included |
| Sse.PrintedParses | src/rpc.rs:320-332 | parsing what the printer prints for the events of any stream gives them back in order, the fields unchanged and as data what the filter makes of the text whose lines the data were, without those left with nothing |
| Lines.Reader.Take | src/sources/process.rs:143-163 | one chunk: what is still to be sent is determined by the buffer and what comes |
| Lines.Reader.Emit | src/sources/process.rs:127-131 | a blank line is not sent, and the buffer is emptied |
| Lines.Reader.ReadLines | src/sources/process.rs:133-165 | for every way to cut the bytes, exactly the lines meant are sent, or as many as the receiver takes; the buffer never outgrows MAX_LINE_BYTES |
| Lines.LinesExact | src/sources/process.rs:144-162 | the lines meant: the trimmed, non-blank ones before the first line or fragment that is too long or not ended |
| Lines.ArrivedExactly | src/sources/process.rs:133-142 | every chunk before the first empty one arrives, whole and in order, and nothing after it |
| Logs.Log.constructor | src/sources/process.rs:50-60 | a log left by an earlier run is carried on; it is counted if and only if the size of its file could be read or is zero |
| Logs.Log.Turn | src/sources/process.rs:78-87 | refines Logs.Turned for every answer of the file system: rotation, write and count, and where a failure stops it |
| Logs.Log.Append | src/sources/process.rs:75-90 | refines Logs.Appended; a prefix of the bytes is written, all on success; with tidy rotations the files are the last bytes written; with turns that account the count and the cap hold; with renames and reopening the last MAX_LOG_BYTES stay |
| Logs.CountExactly | src/sources/process.rs:78-87 | a turn keeps the count of the current file if and only if a rotation that opens a file renames, drops or finds it empty, and the write is whole or leaves nothing |
| Logs.CapKept | src/sources/process.rs:78-87 | with the count kept, the current file never grows past the cap or what it was, and after a turn that works is within the cap |
| Logs.SteadyExactly | src/sources/process.rs:62-87 | a file system that always answers alike keeps every counted log counted if and only if it renames, drops or fails to open, and never leaves part of a write |
| Logs.GrowsForever | src/sources/process.rs:63-73 | in a directory that can't be changed the file opens and grows by everything appended, without bound |
| Logs.RotationExact | src/sources/process.rs:63-73 | a rotation keeps the files a suffix of everything written if and only if it doesn't delete the current file beside a previous one it could not remove |
| Logs.LastBytesKept | src/sources/process.rs:75-90 | what keeping them means for a reader of the log |
| Distance.Levenshtein | src/config.rs:289-308 | the two-row loop computes the recursive edit distance |
| Distance.DistanceIsShortest | src/config.rs:289-308 | that distance is the length of a shortest script of insertions, deletions and substitutions: one exists, and none is shorter |
| Distance.OneEdit | src/config.rs:289-308 | an edit anywhere changes the distance by at most one |
| Downloads.ClientMetadata.TakeDownloadSlot | src/client_metadata.rs:207-220 | prunes, decides and records as the functions HasRoom and Taken say |
| Downloads.Decides | src/client_metadata.rs:210-218 | with readings in order, a slot is granted exactly when the minute up to now has room, counted over all of history |
| Downloads.RunSound | src/client_metadata.rs:207-220 | with readings in order, no closed minute holds more slots than the limit |
| Downloads.SafeExactly | src/client_metadata.rs:208-210 | a call is safe after every orderly history if and only if its clock reading is not older than the latest used |
| Downloads.OverfilledLate | src/client_metadata.rs:208-210 | a history after which a late reading overfills a minute |
| Registrations.Store.RegistrationTryRecord | src/store.rs:729-747 | prunes, counts and records for every outcome of its four statements, and keeps both limits over every closed hour of all of history |
| Registrations.Store.AllowRegistration | src/auth.rs:398-400 | a registration is recorded only if the hour has room for its source and in all; when nobody asked in between, exactly then |
| Registrations.HitKeeps | src/store.rs:738-745 | a recorded hit keeps at most 5 registrations per source and 30 in all in every closed hour |
| Registrations.RoomMeans | src/store.rs:737-743 | room by the pruned table is room by all of history |
| Throttles.Throttle.ShouldRecord | src/gateway.rs:101-116 | refines Admits and Noted for every reading, late ones included |
| Throttles.RightExactly | src/gateway.rs:101-116 | after every orderly history a call decides as if nothing had been forgotten and keeps every key at gaps of at least the interval, if and only if its reading is not older than the latest used, or the readings are too close to zero for that to show |
| Throttles.RecordedTwice | src/gateway.rs:102-111 | otherwise 10,001 keys, a newer call and a late one record a key twice within the interval |
| Throttles.RunSound | src/gateway.rs:101-116 | with readings in order every key is recorded at gaps of at least the interval, and what is forgotten is an interval old |
| Throttles.SameDecision | src/gateway.rs:105-107 | deciding from what is held is deciding from everything ever recorded |
| Throttles.FreshHeld | src/gateway.rs:109-111 | dropping the old entries changes no later decision |
| Template.ParseWord | src/sources/commands/template.rs:54-90 | the loop builds the parts from the word's tokens |
| Template.ParsedSpells | src/sources/commands/template.rs:54-99 | parsing and then taking the literal gives the word back when lookups answer with their own references |
| Template.InputsIndependent | src/sources/commands/template.rs:54-90 | looked-up values never become inputs: any two lookups that succeed give the same inputs in the same order |
| Template.ParsedSound | src/sources/commands/template.rs:21-90 | no empty and no adjacent texts; it fails exactly when a reference isn't found; the parts read as the word with each reference replaced |
| Template.ReferenceExactly | src/sources/commands/template.rs:42-52 | braces hold a reference exactly around "env:" or "file:" and a name, or a word of letters, digits and underscores |
| Template.WrittenParses | src/sources/commands/template.rs:54-90 | a word parses as the texts and references that it is written from |
| Template.BraceStays | src/sources/commands/template.rs:54-90 | a brace that opens no reference stands for itself |
| Inputs.InputsOf | src/sources/commands/template.rs:101-113 | each input the words name, once, in the order they first appear |
| Inputs.Validate | src/sources/commands/inputs.rs:69-87 | accepts if and only if every named input is given and passes, or is missing and optional; keeps exactly the given values of named inputs |
| Inputs.SchemaAgrees | src/sources/commands/inputs.rs:89-129 | a value passes the check if and only if it meets the published schema and, for an open text, has no ".." segment |
| Inputs.PassesExactly | src/sources/commands/inputs.rs:36-87 | a value given for an input passes if and only if it meets the schema published for its place and has no ".." segment where any text is open; a missing one if and only if the input is optional |
| Inputs.OpenExactly | src/sources/commands/inputs.rs:89-129 | an input is open if and only if its schema is any text and it is no flag |
| Inputs.DotsExactly | src/sources/commands/inputs.rs:60-62 | a text has a ".." segment if and only if two dots stand in it between slashes, backslashes or its ends |
| Inputs.SchemaSuffices | src/sources/commands/inputs.rs:131-146 | arguments that follow the published object schema and hold no such segment are accepted |
| Inputs.FillWhole | src/sources/commands/template.rs:174-176 | at most one argument for each word, in the order of the words |
| Inputs.FillExactly | src/sources/commands/template.rs:126-172 | a word gives no argument if a value is missing, its flag exactly if the value is true, and else its texts and its values as they are written, one after the other |
| Inputs.DroppedExactly | src/sources/commands/template.rs:153-172 | after validation a word is dropped if and only if it names an omitted optional input or is an unset flag |
| Inputs.NeverAnOption | src/sources/commands/inputs.rs:56-58 | an argument whose word begins with an open text input is not empty and doesn't start with "-" |
| Inputs.NoWayUp | src/sources/commands/inputs.rs:60-62 | an argument of texts and open inputs bounded by separators or word ends has a ".." segment if and only if the template's own text has one |

## Left out

- Logs.Log.Append: two files and their bytes; a rename that succeeds on a file that is not there is one more answer the file system may give.
- Registry.RulesInForce: the registry is a state machine over its atomic actions rather than a class, because the claim is about their interleavings; `revision`, notices and the retry timer of a check are not modelled.
- Pool.PoolBounded: the pool is a state machine for the same reason; the bound is on the map and the counter, not on processes still terminating, and a late closer removes by id as the source does. Which session is evicted is any choice.
- Streams.RevocationReachesStreams: operations other than requests and revocations change tables in any way that stores rows under fresh keys.
- Guarantees.AcceptedForItsMembers: a reload is one step of a run; runs whose reloads are split are in `Overlaps`.
- Overlaps.AcceptedExactly: says nothing about a grant begun while its link had no plan in force, as before the first reload after a start.
- Guarantees.RevokedStaysRevoked: a `begin` whose insert lands after the revocation asks again, and the two inserts of a static token are one step; torn apart they are in Orphans.TornStaticRefused.
- Journey.AccessEndsExactly: refresh and sweep are single steps; a sweep inside a refresh is in Journey.SweptRotationExactly.
- Journey.RotationExactly: the same.
- Journey.SweptRotationExactly: one sweep inside the refresh, and the statements of the refresh and the prune of tokens complete.
- Sse.PrintedParses: JSON text is only known to be one line that doesn't end in a carriage return.
- Inputs.NeverAnOption: says nothing about numbers, where a negative zero passes, or about configured choices.
- Inputs.Validate: numbers are reals, and the messages of refusals are not modelled.
- Inputs.NoWayUp: takes a word without adjacent texts, which is what `parse_word` gives.
- Apps.CompileApps: what makes a single app compile is a boolean for an MCP server and the resulting tools for an app of commands; messages for problems are not modelled.
- Reload.Reloader.Apply: the list of problems and the audit entry for a changed configuration are not modelled.
- Journey.FlowExactly: the statements of its operations all complete; what a failure leaves is in `Access` and in the invariants of runs.
- Lifetimes.NeverMoreThanTwenty: holds because `begin` is one step; in the source it is checked and then inserted outside `code_lock`.
- Processes other than the daemon that open the same database: they have their own codes and streams.
- The audit, clients and stdio session tables: their statements only succeed or fail.
- Order in maps and sets that the source keeps in insertion order, except in plans, entries and rules.
- HTTP, HTML, cookies, CORS, sockets, tunnels, launch agents, notifications, the command line and the terminal interface.
- SQLite, serde, the JSONC editor, URL parsing, regular expressions and cryptography.
- `filter_message`, `call_outcomes`, `decode_batch`, `slugify`, `describe_changes`, the address tables and the risk word lists: short functions of one value.
- `run_value` and `split_run`, which are not inverse to each other in general.
