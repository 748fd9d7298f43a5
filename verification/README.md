# ACT gateway: model and proofs

The gateway lets an agent's runtime block one backend action until a phone decides on it. This project
models the gateway and its blocking client in Dafny and proves what they are for: a call that returns
"approved" was authorised, the logs tell the truth about the tables, and what was revoked, settled or used
up stays so.

## How it is built

Three layers, each resting on the one before, and a reading of their results.

- **Values and functions.** `Records` and `Tables` hold the rows, the two logs and the whole database
  as one value `Db`. One function per handler says what it does to that value and what it answers:
  `Signing`, `Capabilities`, `Approvals`, `Devices`, `Fleet`, `Handoffs`, `TerminalSessions`. `Decimal`,
  `Cursor`, `Base64Url` and `Canonical` are the text formats.
- **Runs.** `Machine` makes one state machine of all of it: every request, terminal frame, process event
  and restart is one `Step`, `Next` is its effect, and a `Run` is a finite history. `EndToEnd`,
  `Clearance`, `Ledger` (with `Journal`), `Paging`, `DeviceTrust`, `Projection`, `TerminalMirror`,
  `TerminalLifecycle`, `AttachTokens`, `Sockets`, `Expiry` and `AuditTrail` prove properties of every run or
  every reachable state; `TerminalSample` holds two runs.
- **Outcomes.** `ClearanceOutcomes`, `TrustOutcomes`, `DeskOutcomes`, `TerminalOutcomes`, `FleetOutcomes`,
  `StepOutcomes`, `LogRows` and `KnownText` say what each operation leaves and answers without the tables,
  constants and helpers it is written with: columns, states, codes and numbers stand in the statements.
- **The mutable program.** `Store` is a class with one mutable table per field, `TerminalManager` a class
  with the in-memory map of processes, `Handlers`, `HandoffHandlers` and `Gateway` are the handlers as
  sequences of reads, writes, loops and early returns, `Client` has the poll and retry loops. Each method
  is proved to do to the tables what the function of the first layer does to the value. `Gateway.Serve`
  is one step of the machine and `Gateway.ServeAll` makes a run, so the second layer speaks about the
  mutable program.

Two relations keep the invariants cheap: `Tables.Extends` (both logs only grow and stay well formed) and
`Tables.Quiet` (nothing journalled happened). Every handler function ensures one of them.

## Assumptions

- Each handler is one atomic step with one reading of the clock; so is one round of the terminal socket.
  The code reads and writes on separate connections (app.py:2292-2331, store.py:1859-1901). The expiry
  scans are finer: their clock is read anew for every row and may move, and their listing may have any
  order.
- Times are integers (microseconds in the gateway, seconds as reals in the client) and do not run back
  along a run.
- A log is no longer than the largest row number SQLite has, 2^63 - 1 (`Paging.Stored`); the statements on
  pages say so where they need it.
- `int()` has Python's default limit of 4300 digits.
- Generated ids and tokens are new (`Machine.Admissible`). Clearance ids start with `appr_`, as the id
  generator makes them, which keeps them apart from the seeded `approval_mock`.
- Hashes and Ed25519 are uninterpreted functions of the configuration. Nothing assumes an injective hash
  except where a statement says so.
- The ids, request ids and creation times that audit rows draw are an arbitrary function of the row's
  position.

## What the proofs found

Where the code does not do what one might expect, the code is modelled as it is, and the lemma named says
what it does or exactly when it does what is expected.

- The journal is exact except for one clearance: the sample events announce and deny `approval_mock`,
  which never has a row (`Journal.WithMock`). Start-up seeding keeps the journal if and only if the node
  has an agent or no event was ever written (`Ledger.SeedingKeepsJournalExactlyWhen`); starting a used
  database for another node breaks it (`Ledger.SeedingAnotherNodeBreaksTheJournal`).
- The client's "latest response" is the oldest one, the adapter's the newest; they agree exactly when there
  is at most one (`Client.LatestAgreesExactlyWhen`).
- The hash chain does not cover the agent, session and clearance ids of a row: an edit passes exactly when
  it leaves the hashed columns alone (`AuditTrail.UnhashedEditsGoUnnoticed`). `docs/data-model.md` asks for
  hash-chained audit events without saying which columns; the code decides.
- The shared operator row of a terminal is left behind by attaching, by a dropped socket, by the end of the
  process, by a shutdown and by the idle clean-up, exactly under the conditions of
  `TerminalMirror.NextMirror`; `TerminalSample.PartingIsReachable` is such a run. TUA, browser and voice
  sessions always agree with theirs (`Projection.FreshRunsAgree`).
- A response row of a deciding type is written before its transition and stays when that is refused; the
  verdict takes effect exactly on a pending clearance before its time (`Clearance.ResponseOutlivesRefusal`).
- A refresh adds tokens and leaves the old refresh token valid (`DeviceTrust.RefreshKeepsOldTokens`).
- Revocation stamps access and refresh tokens, not attach tokens, and no check of an attach token reads the
  device's status: a revoked device still attaches (`TerminalSample.RevokedDeviceAttaches`), exactly with an
  unexpired token for its own open, running session (`AttachTokens.ConnectsExactlyWhen`) that it was given
  before (`Sockets.RevokedAttachesBriefly`). Sockets open at the revocation stay
  open, as no signed step closes any (`Sockets.SignedLeavesSockets`).
- `docs/architecture/event-streaming.md` (line 119) speaks of a `cursor_expired` answer. The code has none:
  every cursor is read as a position, and the only ones refused, with 500, are those beyond the 64 bits that
  the database binds (`Paging.AnsweredExactlyWhen`, `Paging.DigitCursors`).
- A POST that is retried after a lost answer opens a second clearance (`EndToEnd.EachSendOpensItsOwn`);
  `EndToEnd.Approval` speaks of the clearance whose id the answered send returned.

## Model

The table cites files relative to the repository's root. Straight-line handlers and single SQL statements
have no rows of their own: each is a method of `Store`, `Handlers`, `HandoffHandlers`, `TerminalManager` or
`Gateway` with its effect in its contract, and `Gateway.Serve` stands for all of them.

| member | source | states |
|---|---|---|
| EndToEnd.ApprovedMeansAuthorised | gateway/src/hermes_gateway/app.py:2281-2364 | in every run, a result poll that reads "approved" for a clearance opened earlier was preceded by exactly such a step: a signed request at most 300 seconds old or early, of an active device with the permission to approve or a grant of it, with a nonce never accepted before, that said yes to this pending clearance before it expired (a decision to approve, the approve-once route, or a response of one of the three approving types) with the scope the poll reads |
| EndToEnd.ApprovingIsVouched | gateway/src/hermes_gateway/app.py:760-876 | the step that approves is such a request, route by route and scope by scope |
| EndToEnd.Approval | gateway/src/hermes_gateway/runtime_client.py:213-269 | the whole blocking client call: it sends the request, again after network errors, then waits for the given time, or for the life of the clearance when none is given (also for 0), on the id it was answered with; every poll but the last read the clearance as pending with no redirecting response, the last as ended or redirected, or too late; "approved" is returned only with the authorising step of the first row between the send that was answered and that poll |
| EndToEnd.AuthorisedMeansApproved | gateway/src/hermes_gateway/app.py:2299-2364 | the converse: after an accepted, authorised, timely request to approve, every later poll in the run reads "approved", with the scope that request carried |
| EndToEnd.WaitForApproval | gateway/src/hermes_gateway/runtime_client.py:246-269 | the waiting half: it returns the first poll that is not pending or whose oldest response is modified, needs_info or propose_policy, times out only on a pending one, and returns "approved" only if authorised |
| EndToEnd.WaitSeesApproval | gateway/src/hermes_gateway/runtime_client.py:480-500 | a wait that polls after such a request ends with that poll, "approved", and that scope |
| EndToEnd.WaitSeesSettlement | gateway/src/hermes_gateway/runtime_client.py:480-500 | a wait that polls behind any settlement, an approval, denial, expiry or cancellation, ends with that poll and that state |
| EndToEnd.EachSendOpensItsOwn | gateway/src/hermes_gateway/runtime_client.py:446-478 | two sends that reach the gateway open two clearances, both still there after the second: retrying a POST after a lost answer duplicates it |
| EndToEnd.ApprovedPollIsAuthorised | gateway/src/hermes_gateway/runtime_client.py:246-269 | the same guarantee for one poll, on what the client makes of the answer |
| EndToEnd.OpenedIsPending | gateway/src/hermes_gateway/runtime_adapter.py:553-612 | opening a clearance, by either route, leaves a pending row under its id |
| EndToEnd.PollShowsTheRow | gateway/src/hermes_gateway/runtime_adapter.py:614-633 | a result poll shows the row as it is after the poll's own expiry scan, and a scope only if approved |
| Clearance.FirstDecisionIsFinal | gateway/src/hermes_gateway/app.py:2296-2297 | between any two states of a run a clearance that is no longer pending keeps its whole row: state, scope, actor, metadata and time |
| Clearance.SomeoneApproved | gateway/src/hermes_gateway/app.py:1692-1751 | between a state where a clearance is pending and one where it is approved, some step approved it while authorised to |
| Clearance.NextAdvances | gateway/src/hermes_gateway/app.py:2281-2364 | one step of any kind moves a clearance only from pending to settled, and to approved only by an authorised signed request that names it |
| Clearance.AuthorisedDecisionTakesEffect | gateway/src/hermes_gateway/app.py:2299-2359 | the converse: an accepted, authorised request to approve or deny a pending clearance gives it exactly that verdict, scope and actor, or expires it when it comes at or after the expiry time, and changes no other clearance |
| Clearance.ClearanceRouteAdvances | gateway/src/hermes_gateway/app.py:760-876 | each signed clearance route approves nothing but the clearance it names, in time, with the capability, and with its own scope |
| Clearance.BackendRouteAdvances | gateway/src/hermes_gateway/runtime_adapter.py:614-699 | no route of the agent's side, polls, status reads and cancels included, ever approves a clearance |
| Clearance.RespondAdvances | gateway/src/hermes_gateway/app.py:1692-1785 | a response approves at most the clearance it names, only when its type carries an approving verdict, in time and with the capability, and then with the scope of that type |
| Clearance.ResponseOutlivesRefusal | gateway/src/hermes_gateway/app.py:1692-1751 | a response of a deciding type always stores its row; the clearance gets its verdict if and only if it was pending and not yet due, and the answer is 409 otherwise |
| ClearanceOutcomes.OpeningLeaves | gateway/src/hermes_gateway/runtime_adapter.py:553-612 | both opening routes: every column of the pending row, the expiry time asked for, audit row, event, agent status, and the answer with the id |
| ClearanceOutcomes.RouteLeaves | gateway/src/hermes_gateway/app.py:760-876 | each deciding route on a pending clearance in time: state, decision, scope, actor and time of the row, the audit row, the event and the answer, by constructor |
| ClearanceOutcomes.RouteRefuses | gateway/src/hermes_gateway/app.py:2281-2335 | and otherwise: 404 where there is none, 403 and the denial row without the capability, 409 where it is not pending, 409 and an expiry where it is too late |
| ClearanceOutcomes.ResponseLeaves | gateway/src/hermes_gateway/app.py:1692-1785 | each of the seven response types on a pending clearance in time: response and proposal row, decided row, audit rows, events, answer; a proposal without its phrase gets 400 |
| ClearanceOutcomes.ResponseDecides | gateway/src/hermes_gateway/app.py:1736-1751 | of the table: the three approving types leave it approved with once, session and agent, deny leaves it denied with once, the other three leave it alone |
| ClearanceOutcomes.LateResponseLeaves | gateway/src/hermes_gateway/app.py:1692-1751 | a deciding response that comes too late, or second, stays stored and gets 409 |
| ClearanceOutcomes.CancellingAnswersCancelled | gateway/src/hermes_gateway/runtime_adapter.py:635-671 | a cancelled pending clearance is cancelled for its reason, stays so through the scans of the call, and the answer says so |
| ClearanceOutcomes.ScanLeaves | gateway/src/hermes_gateway/app.py:2252-2278 | a scan ends what was due when it began, as expired, without scope or actor, for the scan's own reason and at a time not before its own |
| ClearanceOutcomes.ReadingScans | gateway/src/hermes_gateway/runtime_adapter.py:614-633 | which reason each reading route gives, and what it answers about the clearance |
| ClearanceOutcomes.NewestFirst | gateway/src/hermes_gateway/store.py:1527-1538 | responses of one clearance are listed newest first |
| Ledger.EveryRunIsJournalled | gateway/src/hermes_gateway/app.py:2104-2157 | in every state of every run from a fresh database both logs are well formed, folding the event log gives the state of every clearance, mission and agent (plus the one sample clearance that is seeded without a row), and each settled clearance has exactly one resolution event, with its state and scope, and exactly one ending audit row, which tells it whole: kind, node, agent, session, the verdict with its scope and state or the reason, and the device that decided; a pending one has neither |
| Ledger.NextKeeps | gateway/src/hermes_gateway/app.py:2252-2364 | one step of any kind keeps that agreement of logs and tables |
| Ledger.BoardStaysOk | gateway/src/hermes_gateway/app.py:2252-2364 | the agreement, once it holds, holds in every later state of a run |
| Ledger.FreshIsOk | gateway/src/hermes_gateway/store.py:2024-2073 | a freshly seeded database has it: six sample events, one agent row, no clearance row |
| Ledger.SeedingKeepsJournalExactlyWhen | gateway/src/hermes_gateway/store.py:2024-2061 | seeding at start-up keeps the journal if and only if the node already has an agent or no event was ever written; otherwise the sample agent gets a row that no event announces |
| Ledger.SeedingAnotherNodeBreaksTheJournal | gateway/src/hermes_gateway/store.py:2024-2061 | an input that breaks it: a fresh database started once more for any other node |
| Journal.RegisterContextKeeps | gateway/src/hermes_gateway/runtime_adapter.py:404-491 | a context report writes the agent first and announces it last, and the journal still agrees afterwards |
| Journal.RequestFromRuntimeKeeps | gateway/src/hermes_gateway/runtime_adapter.py:553-612 | so does a clearance request with its change of the agent's status in between |
| Journal.TransitionKeeps | gateway/src/hermes_gateway/app.py:2281-2364 | every outcome of a transition, the expiry at decision time included, is recorded once in both logs, with verdict, scope and device; the target is the one the decision asks for, as in every call |
| Journal.ScanKeeps | gateway/src/hermes_gateway/app.py:2252-2278 | so is every expiry of a scan, whatever order it visits the rows in |
| Journal.RespondKeeps | gateway/src/hermes_gateway/app.py:1692-1785 | so is the verdict of a response, also when its transition is refused after the response row was written |
| Journal.QuietKeeps | gateway/src/hermes_gateway/store.py:1843-1902 | neutral audit rows and events do not disturb the journal |
| LogRows.AuditRowStored | gateway/src/hermes_gateway/store.py:1843-1902 | every column of an appended audit row: the previous hash, the request's id or a fresh one, its own hash |
| LogRows.EventRowStored | gateway/src/hermes_gateway/store.py:1940-1980 | every column of an appended event |
| FleetOutcomes.StatusLeaves | gateway/src/hermes_gateway/runtime_adapter.py:910-947 | a status change keeps name, target and capabilities, and the tool unless a new one is named |
| FleetOutcomes.ReportLeaves | gateway/src/hermes_gateway/runtime_adapter.py:404-491 | a report: agent row, mission row, audit row and events in order |
| FleetOutcomes.NodeLeaves | gateway/src/hermes_gateway/app.py:159-192 | a node report: node row, audit row, event |
| FleetOutcomes.StartLeaves | gateway/src/hermes_gateway/store.py:2024-2073 | a start: node row, sample agent and sample events where they are missing, nothing left in memory |
| Paging.PagesHaveNoGaps | gateway/src/hermes_gateway/store.py:1991-2003 | for any limits, zero and negative included, and any appends between the polls, the joined pages are a prefix of what lies behind the start cursor, and the cursor in hand stands behind exactly what was read |
| Paging.PagesCountUp | gateway/src/hermes_gateway/store.py:1974-1979 | so the received sequences count up one by one: no repetition, no gap, no reordering |
| Paging.ClientSeesNoGaps | gateway/src/hermes_gateway/app.py:1969-1976 | the same inside a run, for accepted /v1/events requests that feed next_cursor back, with any other steps in between |
| Paging.BacklogDrains | gateway/src/hermes_gateway/store.py:1991-2003 | while nothing is appended the pages hold as many events as were asked for, up to the whole backlog |
| Paging.DrainsInCeilPolls | gateway/src/hermes_gateway/store.py:1991-2003 | with one positive limit the backlog is read exactly from the ceil(n / limit)-th poll on |
| Paging.CaughtUpClientKnowsTheTables | gateway/src/hermes_gateway/app.py:1969-1976 | a client that started from nothing and has caught up gets the server's tables by folding its pages |
| Paging.OnePage | gateway/src/hermes_gateway/store.py:1991-2022 | one page is the first rows behind the cursor, up to the limit, and its next cursor stands behind its last row |
| StepOutcomes.PageHolds | gateway/src/hermes_gateway/store.py:1991-2003 | a page is what lies behind the position, cut to a limit that is not negative |
| Paging.AnsweredExactlyWhen | gateway/src/hermes_gateway/store.py:1991-2022 | a page is answered exactly when the cursor reads as, and the limit is, a signed 64-bit integer, and the request fails with 500 otherwise; given a limit that allows it, it is the whole log exactly when the cursor reads as the start or there is no event |
| Paging.DigitCursors | gateway/src/hermes_gateway/store.py:2016-2022 | a cursor that ends in digits is refused exactly if they make a number beyond 64 bits and are at most 4300; more than that are unreadable and mean the start |
| Paging.FirstRefusedCursor | gateway/src/hermes_gateway/store.py:1991-2022 | the input: position 2^63 of any node is refused |
| Paging.AnsweringGoesOn | gateway/src/hermes_gateway/app.py:1969-1976 | a client that was once answered is answered whenever it asks on, for up to 64 bits of limit, with the cursor it was given |
| Paging.LogsGrow | gateway/src/hermes_gateway/store.py:1843-1902 | over any run both logs are only ever appended to |
| Cursor.PrintParse | gateway/src/hermes_gateway/store.py:1974-1979 | parsing a printed cursor gives the sequence back, for any node id, colons included, up to the 4300 digits that int() reads; a longer one reads as the start |
| Cursor.StringOrderIsEventOrder | gateway/src/hermes_gateway/store.py:1974-1979 | string order of one node's cursors is event order for all sequences below a bound if and only if the bound is at most 10^12, the padding's width |
| Decimal.ParseDigits | gateway/src/hermes_gateway/store.py:2016-2022 | the cursor parser's int() reads up to 4300 ASCII digits as their value, leading zeros included, and no more |
| AuditTrail.TamperingTakesCollision | gateway/src/hermes_gateway/store.py:1843-1909 | two well-formed logs with the same last hash agree row by row on every hashed column, or some row of the one and some row of the other have different hashed columns under one hash; nothing is assumed of the hash |
| AuditTrail.LastHashFixesLog | gateway/src/hermes_gateway/store.py:1843-1909 | with an injective hash two well-formed logs have the same last hash if and only if they have the same length and the same hashed columns |
| AuditTrail.UnhashedEditsGoUnnoticed | gateway/src/hermes_gateway/store.py:1861-1873 | replacing a row under its old hash keeps the chain well formed if and only if no hashed column changed; agent, session and clearance ids are not hashed |
| Tables.ChainGrows | gateway/src/hermes_gateway/store.py:1843-1909 | a row that hashes its own content and names the last hash extends a well-formed chain |
| DeviceTrust.AcceptedNoncesAreDistinct | gateway/src/hermes_gateway/signing.py:151-168 | over any run no two accepted requests have the same device and nonce |
| DeviceTrust.NextNonces | gateway/src/hermes_gateway/signing.py:68-175 | a nonce is recorded exactly by an accepted request and was unknown before; a rejected request changes nothing but the audit log, by exactly one auth_signature_failed row |
| Signing.Verify | gateway/src/hermes_gateway/signing.py:55-175 | the checks in the code's order accept a request exactly when the order-free definition of acceptance holds, the 300 second window included |
| Signing.VerifyOutcome | gateway/src/hermes_gateway/signing.py:68-175 | an accepted request leaves no row and is not acceptable a second time; a rejected one leaves one row that names its reason and uses up no nonce |
| TrustOutcomes.AcceptedExactlyWhen | gateway/src/hermes_gateway/signing.py:55-175 | a request is accepted if and only if its four headers are given, its device is known and active, the nonce unused by it, the signature one by the device's 32-byte key over the six lines, and the time stamp within 300 seconds |
| TrustOutcomes.WindowEdges | gateway/src/hermes_gateway/signing.py:110-130 | 300 seconds early or late is accepted, 301 is not |
| TrustOutcomes.AcceptedStepsAreRecent | gateway/src/hermes_gateway/signing.py:110-130 | so is every accepted step of a run |
| TrustOutcomes.RejectionAnswers | gateway/src/hermes_gateway/signing.py:68-175 | the reason, the audit row and the code, 401, 403 or 409, of every rejected request, and nothing else happens |
| TrustOutcomes.AcceptedRuns | gateway/src/hermes_gateway/signing.py:151-175 | an accepted request uses up its nonce and runs its route as the device of its header, with that device's permissions |
| TrustOutcomes.StrangersAreTurnedAway | gateway/src/hermes_gateway/app.py:129-134 | a caller that is not local gets 403 and one audit row |
| DeviceTrust.RevocationIsPermanent | gateway/src/hermes_gateway/store.py:771-832 | once a device is revoked it is revoked in every later state of the run, with every token of it stamped; no request of it is accepted and none of its access or refresh tokens, at any time |
| DeviceTrust.RevokedCredentialsFail | gateway/src/hermes_gateway/store.py:800-832 | no signed request, access token or refresh token of a revoked device is accepted |
| Sockets.RevokedAttachesBriefly | gateway/src/hermes_gateway/store.py:1144-1165 | a revoked device attaches to a terminal, if at all, with a token it was given before the revocation, and so before a token's life after it has passed |
| TerminalSample.RevokedDeviceAttaches | gateway/src/hermes_gateway/app.py:2020-2046 | and it can: a run of seven steps from a fresh gateway in which it does |
| DeviceTrust.RevokingRevokes | gateway/src/hermes_gateway/app.py:657-671 | the revocation route establishes this |
| DeviceTrust.NextKeepsRevoked | gateway/src/hermes_gateway/app.py:620-671 | no step brings a revoked device or a token of it back, refreshes and new pairings included |
| DeviceTrust.PairingIsConserved | gateway/src/hermes_gateway/app.py:542-618 | as many devices as completed pairing sessions, in every later state of a run once it holds |
| DeviceTrust.FreshRunsConservePairing | gateway/src/hermes_gateway/app.py:542-618 | so in every state of every run from a fresh gateway, with nothing assumed of the first state |
| DeviceTrust.PairingLeavesPendingOnce | gateway/src/hermes_gateway/app.py:2243-2249 | a pairing session that left pending never changes again |
| DeviceTrust.CompletionHadTheToken | gateway/src/hermes_gateway/app.py:555-571 | where a pairing became completed, that step brought the matching token before the session expired |
| DeviceTrust.NextKeepsBalance | gateway/src/hermes_gateway/app.py:542-618 | one step of any kind keeps the balance of devices and completed pairings |
| Devices.CompletePairing | gateway/src/hermes_gateway/app.py:543-618 | completing a pairing touches pairings, devices, tokens and the logs only, and journals nothing |
| DeviceTrust.PairingGrantsAccess | gateway/src/hermes_gateway/app.py:574-602 | a completed pairing leaves an active device with the permissions asked for, or the default ones, and two tokens that are accepted, each for its own purpose, until 15 minutes and 30 days later and not longer |
| DeviceTrust.RefreshKeepsOldTokens | gateway/src/hermes_gateway/app.py:621-648 | a refresh takes no token away: whatever was accepted before still is |
| TrustOutcomes.PairingBegins | gateway/src/hermes_gateway/app.py:508-532 | a pending session that stores the token's hash, the permissions asked for and its expiry |
| TrustOutcomes.PairingEnds | gateway/src/hermes_gateway/app.py:543-618 | every way to end a pairing, with the four default permissions, the two lifetimes as numbers, both logs and every refusal |
| TrustOutcomes.StreamOpensExactlyWhen | gateway/src/hermes_gateway/app.py:1979-1991 | the event socket opens if and only if the token is a stored, unrevoked, unexpired access token of an active device |
| TrustOutcomes.RefreshAnswersExactlyWhen | gateway/src/hermes_gateway/app.py:621-648 | a refresh is answered if and only if its token is such a refresh token of the signing device |
| TrustOutcomes.RevocationLeaves | gateway/src/hermes_gateway/app.py:657-671 | what a revocation stamps, records and answers, for a known and an unknown device |
| TrustOutcomes.RevokedTokensOpenNothing | gateway/src/hermes_gateway/app.py:621-648 | in a run, after a revocation no stream opens and no refresh is answered with a token of the device |
| Canonical.CanonicalStringBinds | gateway/src/hermes_gateway/signing.py:34-52 | for newline-free parts two canonical strings are equal if and only if upper-cased method, path, timestamp, nonce and body hash are |
| Canonical.CanonicalStringBindsBody | gateway/src/hermes_gateway/signing.py:34-52 | with an injective hash, if and only if the exact body bytes are equal too |
| Canonical.JoinIsInjective | gateway/src/hermes_gateway/signing.py:43-52 | joining newline-free lines loses nothing |
| Canonical.NewlineBreaksBinding | gateway/src/hermes_gateway/signing.py:43-52 | with newlines it does: two different requests with one canonical string |
| Base64Url.DecodeOfEncode | gateway/src/hermes_gateway/signing.py:185-187 | for every byte string, decoding its unpadded base64url encoding gives it back, so the padding is always the right one |
| Base64Url.DecodeSucceedsExactly | gateway/src/hermes_gateway/signing.py:185-187 | text over the alphabet is readable if and only if its length is not one more than a multiple of four |
| KnownText.Alphabet | gateway/src/hermes_gateway/signing.py:185-187 | the 64 letters of the URL alphabet in order |
| KnownText.Readable | gateway/src/hermes_gateway/signing.py:185-187 | both alphabets are read, and no other letter |
| KnownText.Padded | gateway/src/hermes_gateway/store.py:1974-1979 | a cursor as it is printed: node, colon, twelve digits |
| KnownText.Underscores | gateway/src/hermes_gateway/store.py:2016-2022 | what int() reads: single underscores between digits, and no more |
| Capabilities.AccessIsMonotone | gateway/src/hermes_gateway/capabilities.py:28-121 | a new grant never takes access away, the passing of time never gives any, for devices and runtimes alike |
| Capabilities.GrantsAreMonotone | gateway/src/hermes_gateway/store.py:1798-1822 | the same for one grant question, with what a new grant adds stated exactly |
| Capabilities.DenialRowExactlyOnRefusal | gateway/src/hermes_gateway/capabilities.py:46-58 | a check refuses exactly when no source of the capability holds, and exactly then appends one denial row |
| TrustOutcomes.DeviceCheck | gateway/src/hermes_gateway/capabilities.py:11-66 | a device passes a check if and only if it has the permission that stands for the capability, or a stored grant, granted, of its node, of its agent unless either names none, not run out; else one denial row |
| TrustOutcomes.PermissionAloneDecides | gateway/src/hermes_gateway/capabilities.py:11-40 | with no grants stored exactly the permission decides, for each of the six capabilities |
| TrustOutcomes.RuntimeCheck | gateway/src/hermes_gateway/capabilities.py:20-147 | a runtime passes for approvals and notifications, or if its node or agent offers the capability under its record name, or by a grant to runtime, agent or node |
| Store.SQLiteStore.HasActiveCapabilityGrant | gateway/src/hermes_gateway/store.py:1798-1822 | the scan with its skips and early return succeeds if and only if some stored grant matches and has not expired |
| Handlers.RecordHasCapability | gateway/src/hermes_gateway/capabilities.py:124-147 | the search of both records succeeds if and only if the node or the agent offers the capability |
| Store.SQLiteStore.VerifyAccessToken | gateway/src/hermes_gateway/store.py:800-821 | accepts exactly the stored, unrevoked, unexpired access tokens of active devices |
| Store.SQLiteStore.VerifyRefreshToken | gateway/src/hermes_gateway/store.py:823-832 | the same for refresh tokens, by another order of checks |
| Expiry.ScanMeaning | gateway/src/hermes_gateway/app.py:2252-2278 | after a scan started at t no clearance is pending with expires_at <= t, one not due by the end of the scan is untouched, and every change is a clock expiry |
| Expiry.ScanRow | gateway/src/hermes_gateway/app.py:2252-2278 | closed form of a scan, row by row, whatever order the listing has and however the clock moves in between |
| Expiry.ScanRecordsEach | gateway/src/hermes_gateway/app.py:2252-2278 | a scan appends, about each clearance it expires, exactly one event and exactly one audit row that tells the expiry whole, and about any other clearance nothing |
| Expiry.ScanAppendsOnePair | gateway/src/hermes_gateway/app.py:2252-2278 | in all, as many audit rows and as many events as newly expired clearances |
| Expiry.RescanIsNoOp | gateway/src/hermes_gateway/app.py:2252-2278 | repeating a scan at the same time changes nothing at all |
| Expiry.ScansAgree | gateway/src/hermes_gateway/runtime_adapter.py:672-699 | at one instant the gateway's scan and the adapter's, in whatever orders, give the same states and scopes |
| Projection.FreshRunsAgree | gateway/src/hermes_gateway/app.py:2438-2454 | in every state of every run from a fresh gateway every TUA, browser and voice session has an operator row of its kind with its state and summary, and no summary, return time or closing time once set becomes null again |
| Projection.ProjectionAgrees | gateway/src/hermes_gateway/app.py:2438-2454 | the same from any state in which it holds |
| Projection.NextKeepsProjection | gateway/src/hermes_gateway/app.py:1241-1462 | one step of any kind keeps this, terminal routes included, which write operator rows of their own ids only |
| Projection.UpdateSessionKeeps | gateway/src/hermes_gateway/store.py:1710-1730 | return, close and note routes move both rows together |
| DeskOutcomes.UpdateLeaves | gateway/src/hermes_gateway/app.py:1375-1462 | return, close and note routes: both rows, audit row, event, capability asked for and every refusal, by constructor |
| DeskOutcomes.UpdatesEndIn | gateway/src/hermes_gateway/app.py:1595-1685 | a returned session reads returned_to_agent with its summary and return time, a closed one closed with its closing time, a noted one user_controlling with the note, in both rows |
| DeskOutcomes.TuaRequestLeaves | gateway/src/hermes_gateway/runtime_adapter.py:701-752 | a request row in state requested, by both routes |
| DeskOutcomes.TakingUpLeaves | gateway/src/hermes_gateway/app.py:1241-1311 | taking up a request makes it active, with an active session and an operator row of the device |
| DeskOutcomes.BrowserRequestLeaves | gateway/src/hermes_gateway/runtime_adapter.py:768-830 | a requested browser session without owner, by both routes |
| DeskOutcomes.VoiceLeaves | gateway/src/hermes_gateway/app.py:1810-1862 | an active voice session of the device |
| DeskOutcomes.VoiceRequestLeaves | gateway/src/hermes_gateway/runtime_adapter.py:845-901 | an active voice session without owner |
| TerminalMirror.NextMirror | gateway/src/hermes_gateway/app.py:2487-2521 | for a terminal whose own row and operator row agree: after one step of any kind they agree if and only if the step is none of: an accepted attach to a row that is not active, a dropped socket of a running process whose row is not detached, the end of output of an exited process with an open row, a shutdown with the terminal in memory and not closed, a route that runs the idle clean-up when the terminal is idle |
| TerminalMirror.TerminalsAgreeExactlyUntil | gateway/src/hermes_gateway/tui.py:69-152 | the same at every step of every run from a fresh gateway |
| TerminalMirror.TerminalsAgreeFromStart | gateway/src/hermes_gateway/app.py:1008-1070 | in every run from a fresh gateway a terminal agrees with its operator row from its successful start until the first step that parts the two |
| TerminalSample.PartingIsReachable | gateway/src/hermes_gateway/app.py:2060-2078 | an input on which they part: seven steps from a fresh gateway, in which a phone pairs, starts a terminal, asks for a token, attaches and hangs up |
| TerminalMirror.EventMirror | gateway/src/hermes_gateway/tui.py:69-152 | the exact condition for each process and socket event |
| TerminalMirror.RouteMirror | gateway/src/hermes_gateway/tui.py:115-124 | the exact condition for each terminal route: only the idle clean-up parts the rows |
| AttachTokens.ConnectionsWereGranted | gateway/src/hermes_gateway/app.py:2020-2046 | in every run from a fresh gateway a socket that attached to a terminal brought a token, not yet expired, that an earlier step issued: an accepted signed request of the owner of that open session, who held the terminal capability |
| AttachTokens.ConnectsExactlyWhen | gateway/src/hermes_gateway/app.py:2020-2046 | a socket is accepted if and only if its token is unexpired and was given for this session, which is open, running and owned by the token's device; the device's status does not matter |
| AttachTokens.StoredTokensWereIssued | gateway/src/hermes_gateway/app.py:1076-1108 | every stored attach token was issued by such a step and changed since in its use stamp only |
| Sockets.SocketsWereGranted | gateway/src/hermes_gateway/app.py:2020-2078 | in every state of every run from a fresh gateway an open socket acts for the owner of its session, and was opened with an unexpired token that an earlier signed request of that owner was given |
| Sockets.FramesActForOwners | gateway/src/hermes_gateway/app.py:2524-2595 | in every such run a frame that has any effect came over such a socket; every audit row it writes names that device and that session, and no other terminal, process or operator row changes |
| TerminalLifecycle.FreshRunsStayInBounds | gateway/src/hermes_gateway/tui.py:35-152 | in every state of every run from a fresh gateway each session in the manager's map has an open row and open rows never exceed the cap; between any two states no row loses its owner and no closed or failed one is open again |
| TerminalLifecycle.TerminalsStayInBounds | gateway/src/hermes_gateway/tui.py:35-152 | the same from any state in which it holds |
| TerminalLifecycle.NextKeepsTerminals | gateway/src/hermes_gateway/app.py:1135-1171 | one step of any kind keeps this |
| TerminalLifecycle.CreateKeeps | gateway/src/hermes_gateway/app.py:974-1073 | a session is only started behind the idle clean-up and below the cap |
| TerminalLifecycle.FrameShrinks | gateway/src/hermes_gateway/app.py:2524-2595 | no frame of the terminal socket opens a row or adds a process |
| TerminalOutcomes.CapIsKept | gateway/src/hermes_gateway/app.py:985-991 | in every run from a fresh gateway at most the cap of sessions are requested, active or detached, and none that closed or failed is any of these again |
| TerminalOutcomes.StartIsReachedWhen | gateway/src/hermes_gateway/app.py:974-1000 | the ladder in front of a start, in order: capability, idle clean-up, cap, command, offer, with their codes |
| TerminalOutcomes.StartLeaves | gateway/src/hermes_gateway/app.py:1001-1073 | a successful start: row, process, operator row, audit row with its reference, event |
| TerminalOutcomes.FailedStartLeaves | gateway/src/hermes_gateway/app.py:1018-1035 | a failed start leaves a failed row and its code |
| TerminalOutcomes.ReadingLeaves | gateway/src/hermes_gateway/app.py:1110-1133 | listing and reading sweep idle sessions first |
| TerminalOutcomes.DetachRouteLeaves | gateway/src/hermes_gateway/app.py:1136-1152 | a detach ends in detached, in both rows, and the process runs on |
| TerminalOutcomes.CloseRouteLeaves | gateway/src/hermes_gateway/app.py:1155-1171 | a close ends in closed with its time, in both rows, and the process is gone; closing again does nothing |
| TerminalOutcomes.TokenRouteLeaves | gateway/src/hermes_gateway/app.py:1076-1108 | an attach token of the owner, for the attach lifetime |
| TerminalOutcomes.ConnectLeaves | gateway/src/hermes_gateway/app.py:2020-2046 | every outcome of a connection |
| TerminalOutcomes.InputLeaves | gateway/src/hermes_gateway/app.py:2560-2624 | typing and pasting touch the row and are audited by size in the device's name |
| TerminalOutcomes.QuietFramesLeave | gateway/src/hermes_gateway/app.py:2534-2545 | ping, resize, unreadable frames and a dropped socket |
| TerminalOutcomes.RoundLeaves | gateway/src/hermes_gateway/app.py:2060-2083 | a round acts for its socket, which ends with the last frame or with the process |
| TerminalOutcomes.ProcessesLeave | gateway/src/hermes_gateway/tui.py:90-152 | exit, end of output and shutdown |
| Client.Wait | gateway/src/hermes_gateway/runtime_client.py:480-500 | the poll loop ends with a done result, after the deadline with a last poll that was not done, or with an error, after only undone polls before the deadline |
| Client.WaitIsBounded | gateway/src/hermes_gateway/runtime_client.py:480-500 | with a positive interval that each sleep consumes it takes at most ceil(timeout / interval) + 1 polls |
| Client.RoundsCover | gateway/src/hermes_gateway/runtime_client.py:489-491 | the number of rounds in that bound is the least number of intervals that cover the timeout |
| Client.SendWithRetries | gateway/src/hermes_gateway/runtime_client.py:446-478 | the retry loop sends at most retry_attempts times (none when not positive), stops at the first answer or HTTP error, raises exhausted only after network errors throughout, and sleeps backoff times a triangular number |
| Client.Request | gateway/src/hermes_gateway/runtime_client.py:432-478 | an injected transport is called once and its outcome passed on; otherwise the retry loop runs |
| Client.BackoffIsBounded | gateway/src/hermes_gateway/runtime_client.py:459-477 | the total back-off is at most backoff * n * (n - 1) / 2 |
| Client.WhichResponseIsLatest | gateway/src/hermes_gateway/runtime_client.py:503-507 | of the newest-first list the client takes the oldest response as the latest, the adapter the newest |
| Client.LatestAgreesExactlyWhen | gateway/src/hermes_gateway/runtime_adapter.py:268-285 | both agree if and only if the clearance has at most one response |
| Client.DecisionReads | gateway/src/hermes_gateway/runtime_client.py:233-244 | the client reads state and scope as sent, and the type of the oldest response |
| Client.TimeoutMeant | gateway/src/hermes_gateway/runtime_client.py:229-232 | no timeout and a timeout of zero both mean the default |
| Machine.Next | gateway/src/hermes_gateway/app.py:89-2085 | every request, socket round and process event only appends to the logs and keeps them well formed |
| Machine.HandleDevice | gateway/src/hermes_gateway/app.py:620-1976 | of the device routes only clearance routes touch journalled state, and none touches the nonces |
| Machine.RunsContinue | gateway/src/hermes_gateway/app.py:89-2085 | every database starts a run and every admissible step, no earlier than the last, continues it |
| Gateway.Serve | gateway/src/hermes_gateway/app.py:89-2085 | serving one request or event on the mutable store and terminal manager is one step of the machine, with its answer |
| Gateway.ServeAll | gateway/src/hermes_gateway/app.py:89-2085 | serving admissible requests one after the other makes a run, so all theorems on runs hold of the mutable gateway |
| Gateway.Boot | gateway/src/hermes_gateway/app.py:89-101 | starting on an empty database gives the fresh state the run theorems start from |
| Handlers.VerifySignedRequest | gateway/src/hermes_gateway/signing.py:55-175 | sequential checks with early returns: same tables, same result and same reason as the specification, accepted exactly when acceptable |
| Handlers.TransitionApproval | gateway/src/hermes_gateway/app.py:2281-2364 | all branches of a transition: missing, not pending, past its time, decided |
| Handlers.ExpirePendingApprovals | gateway/src/hermes_gateway/app.py:2252-2278 | the loop over the rows listed at the start has the effect of the specified scan |
| Handlers.ExpireForResultPoll | gateway/src/hermes_gateway/runtime_adapter.py:672-699 | so has the adapter's loop with continue |
| Handlers.CreateApprovalResponse | gateway/src/hermes_gateway/app.py:1692-1785 | proposal, response row, transition, audit row and event in the code's order, stopping where the code raises |
| TerminalManager.LocalPtyManager.CleanupIdleSessions | gateway/src/hermes_gateway/tui.py:115-124 | the loop closes exactly the open sessions idle for the timeout, whatever order they come in |
| TerminalManager.LocalPtyManager.CloseAll | gateway/src/hermes_gateway/tui.py:90-92 | closes exactly the sessions in the map |
| TerminalManager.LocalPtyManager.CloseOneMore | gateway/src/hermes_gateway/tui.py:78-92 | closing sessions one by one is closing them all at once |

## Left out

- Atomicity is assumed, not proved: interleavings inside one handler (two connections between a read and its write) are not modelled.
- One clock reading per handler, except in the two expiry scans, where each row has its own.
- The websocket event stream after its first event: one page of 500, then heartbeats and pongs; only the token check and the events it writes are steps. Its first page is not an answer here, so its cursor is not either.
- `sessions` rows (their upserts in context reports and in seeding too), inventory, notifications, TUA and voice messages (the optional first one of a TUA session too), policy proposals as rows, audit and device lists: routes without journalled state; those that write logs are the `OtherDeviceRoute` and `OtherRuntimeRoute` steps with an arbitrary neutral row.
- Columns that no branch and no statement reads: titles, summaries, payloads, payload hashes, offered options, risk categories, event ids, event times and the agent and session of an event.
- An approved scope is not claimed to be among the offered options: the code never checks it.
- Single use of attach tokens is not claimed: `used_at` is written and never read.
- `closed` is not claimed to be final for TUA, browser and voice sessions: their updates are unguarded.
- Order of listings: SQL orderings are arbitrary orders here, except responses (newest first, by order of insertion) and events (by sequence).
- Unicode: non-ASCII digits, which `int()` also reads, are unreadable here; upper-casing beyond ASCII letters.
- TerminalManager.RecordInput: the audit payload keeps the number of characters; byte and line counts and risk warnings are left out.
- Gateway.ServeClearance: the listing route runs its scan and answers Done; the list it returns is not modelled, nor are those of the other listing routes.
- Store.SQLiteStore.SetPairingStatus: the `completed_at` column is dropped, which nothing reads.
- Store.SQLiteStore.VerifyTuiAttachToken: the filter on `revoked_at` is dropped; no statement ever sets that column.
- FastAPI routing, Pydantic parsing, SQL text, schema migration, JSON columns, CORS, configuration, the local binding check (its verdict is an input of `Local` steps), PTYs, processes and sockets.
- The answer of a completed pairing reads the node row; a missing node (an error after the writes) is not modelled.
- A restart with other settings: runs keep one configuration, so the case of `Ledger.SeedingKeepsJournalExactlyWhen` that breaks the journal lies between runs.
- A terminal socket whose process is gone ends by itself; here it ends with its next frame, which has no effect.
- `LocalPtyManager.create_runtime` under its lock is one write; the process it starts is known only to run or to have exited.
- Client.Wait: the loop is proved to end for clocks that reach the deadline; with a zero interval and a clock that stands still it would poll for ever.
- Planned features without code: teams, push dispatch, rate limits, policy activation, key rotation, cursor expiry.
