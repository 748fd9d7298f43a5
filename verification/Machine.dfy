/** The gateway as one state machine: every route, websocket round and process event is one step. */
module Machine {
  import opened Wrappers
  import opened Records
  import opened Tables
  import opened Approvals
  import Cursor
  import Fleet
  import Signing
  import Capabilities
  import Devices
  import Handoffs
  import TerminalSessions

  datatype ClearanceCall =
    | ListClearances(scan: Scan)
    | GetClearance(id: Id, scan: Scan)
    | Decide(id: Id, decision: Decision, scope: Scope)
    | ApproveOnceCall(id: Id)
    | DenyCall(id: Id)
    | ExpireCall(id: Id)
    | CancelCall(id: Id)
    | RespondCall(id: Id, response: Response)
  datatype TrustCall =
    | Refresh(token: string, access: string, refresh: string)
    | Revoke(deviceId: Id)
  datatype DeskCall =
    | TakeUpTua(requestId: Id, sessionId: Id)
    | StartVoice(opening: Handoffs.Opening)
    | UpdateHandoff(kind: HandoffKind, sessionId: Id, update: Handoffs.Update)
  datatype TerminalCall =
    | StartTerminal(request: TerminalSessions.TuiRequest)
    | AttachTerminal(sessionId: Id, token: string)
    | ListTerminals
    | GetTerminal(sessionId: Id)
    | DetachTerminal(sessionId: Id)
    | CloseTerminal(sessionId: Id)
  datatype DeviceCall =
    | OnClearances(clearanceCall: ClearanceCall)
    | OnTrust(trustCall: TrustCall)
    | OnDesk(deskCall: DeskCall)
    | OnTerminals(terminalCall: TerminalCall)
    | ReadEvents(after: Option<string>, limit: int)
    | OtherDeviceRoute(entry: Option<AuditEntry>, note: Option<string>)

  datatype ReportCall =
    | ReportContext(context: Fleet.Context)
    | ReportNode(nodeId: Option<Id>, displayName: string)
  datatype BackendCall =
    | RequestClearance(request: ClearanceRequest)
    | CreateClearance(request: ClearanceRequest)
    | ClearanceStatus(id: Id, scan: Scan)
    | ClearanceResult(id: Id, scan: Scan)
    | CancelClearance(id: Id, first: Scan, second: Scan)
  datatype AskCall =
    | AskTua(opening: Handoffs.Opening, checked: bool)
    | AskBrowser(opening: Handoffs.Opening, checked: bool)
    | AskVoice(opening: Handoffs.Opening)
  datatype RuntimeCall =
    | OnFleet(reportCall: ReportCall)
    | OnBackend(backendCall: BackendCall)
    | OnHandoff(askCall: AskCall)
    | OtherRuntimeRoute(entry: Option<AuditEntry>, note: Option<string>)

  datatype PairingCall =
    | BeginPairing(pairingId: Id, token: string, permissions: set<Permission>, ttl: Option<int>)
    | PollPairing(pairingId: Id)
    | EndPairing(completion: Devices.Completion)
  datatype TerminalEvent =
    | Connects(attachToken: Option<string>, sessionId: Id, socket: Id)
    | Sends(socket: Id, frame: TerminalSessions.Frame)
    | ProcessExits(sessionId: Id)
    | ReaderEnds(sessionId: Id)
    | ShutsDown

  datatype Action =
    | Signed(request: Signing.SignedRequest, deviceCall: DeviceCall)
    | Local(callerAllowed: bool, runtimeCall: RuntimeCall)
    | OnPairing(pairingCall: PairingCall)
    | StreamConnect(accessToken: string)
    | Heartbeat
    | GrantCapability(grant: GrantRow)
    | OnTerminalEvent(event: TerminalEvent)
    | Restart

  /** One request or event at one time; `header` is its X-Request-Id. */
  datatype Step = Step(now: Time, header: Option<string>, action: Action)

  // ----- routes of devices -----

  /** The five decision routes: the clearance must exist and the device must hold the capability. */
  function DecideByDevice(db: Db, device: VerifiedDevice, id: Id, target: ApprovalState, decision: Option<Decision>,
                          scope: Option<Scope>, header: Option<string>, now: Time): (r: (Db, Reply))
    ensures Extends(db, r.0) && r.0 == db.(log := r.0.log, board := db.board.(approvals := r.0.board.approvals))
  {
    if id !in db.board.approvals then (db, Refused(404))
    else
      var row := db.board.approvals[id];
      var (d1, ok) := Capabilities.RequireDevice(db, device, Approvals, header, Some(row.nodeId), Some(row.agentId),
                                                 now);
      if !ok then (d1, Refused(403)) else Transition(d1, id, target, device.deviceId, decision, scope, header, now)
  }

  function RespondByDevice(db: Db, device: VerifiedDevice, id: Id, p: Response, header: Option<string>,
                           now: Time): (r: (Db, Reply))
    ensures Extends(db, r.0) && r.0 == db.(log := r.0.log, board := r.0.board)
  {
    if id !in db.board.approvals then (db, Refused(404))
    else
      var row := db.board.approvals[id];
      var (d1, ok) := Capabilities.RequireDevice(db, device, Approvals, header, Some(row.nodeId), Some(row.agentId),
                                                 now);
      if !ok then (d1, Refused(403)) else Respond(d1, id, device.deviceId, p, header, now)
  }

  /** SQLite's LIMIT: a negative limit means no limit. */
  function Limited(rows: seq<EventRow>, limit: int): seq<EventRow> {
    if limit < 0 || |rows| <= limit then rows else rows[..limit]
  }

  function EventsAfter(rows: seq<EventRow>, sequence: int): seq<EventRow> {
    if rows == [] then []
    else
      var front := EventsAfter(rows[..|rows| - 1], sequence);
      if rows[|rows| - 1].sequence > sequence then front + [rows[|rows| - 1]] else front
  }

  function ListEventsAfter(rows: seq<EventRow>, after: Option<string>, limit: int): seq<EventRow> {
    Limited(EventsAfter(rows, Cursor.Sequence(after)), limit)
  }

  function NextCursor(page: seq<EventRow>, after: Option<string>): Option<string> {
    if page == [] then after else Some(page[|page| - 1].cursor)
  }

  const MAX_INTEGER := 0x7FFF_FFFF_FFFF_FFFF

  /** SQLite binds signed 64-bit integers only. */
  predicate Binds(n: int) {
    -MAX_INTEGER - 1 <= n <= MAX_INTEGER
  }

  /** A position or a limit that cannot be bound raises, and the request ends with status 500. */
  function ReadPage(db: Db, after: Option<string>, limit: int): Reply {
    if !Binds(Cursor.Sequence(after)) || !Binds(limit) then Refused(500)
    else
      var page := ListEventsAfter(db.log.events, after, limit);
      Page(page, NextCursor(page, after))
  }

  /** Routes left out of this model touch the logs only, and never with a settling row. */
  function OtherRoute(db: Db, entry: Option<AuditEntry>, note: Option<string>): (r: Db)
    requires entry.Some? ==> !entry.value.kind.Settles()
    ensures Quiet(db, r) && r == db.(log := r.log)
  {
    var d1 := if entry.Some? then AppendAudit(db, entry.value) else db;
    if note.Some? then CreateEvent(d1, db.config.nodeId, Note(note.value, "")) else d1
  }

  function HandleClearance(db: Db, device: VerifiedDevice, call: ClearanceCall, header: Option<string>,
                           now: Time): (r: (Db, Reply))
    ensures Extends(db, r.0) && r.0 == db.(log := r.0.log, board := r.0.board)
  {
    match call
    case ListClearances(scan) => (RunScan(db, scan, ExpiryScan), Done)
    case GetClearance(id, scan) => var d := RunScan(db, scan, ExpiryScan); (d, ReadStatus(d, id))
    case Decide(id, decision, scope) =>
      DecideByDevice(db, device, id, if decision == Approve then Approved else Denied, Some(decision), Some(scope),
                     header, now)
    case ApproveOnceCall(id) => DecideByDevice(db, device, id, Approved, Some(Approve), Some(Once), header, now)
    case DenyCall(id) => DecideByDevice(db, device, id, Denied, Some(Deny), Some(Once), header, now)
    case ExpireCall(id) => DecideByDevice(db, device, id, Expired, None, None, header, now)
    case CancelCall(id) => DecideByDevice(db, device, id, Cancelled, None, None, header, now)
    case RespondCall(id, p) => RespondByDevice(db, device, id, p, header, now)
  }

  function HandleTrust(db: Db, device: VerifiedDevice, call: TrustCall, header: Option<string>,
                       now: Time): (r: (Db, Reply))
    ensures Quiet(db, r.0)
    ensures r.0 == db.(log := r.0.log, trust := db.trust.(devices := r.0.trust.devices, tokens := r.0.trust.tokens))
  {
    match call
    case Refresh(token, access, refresh) => Devices.RefreshTokens(db, device.deviceId, token, access, refresh, now)
    case Revoke(id) => Devices.RevokeDevice(db, device.deviceId, id, header, now)
  }

  predicate DeskCallOk(call: DeskCall) {
    call.UpdateHandoff? ==> Handoffs.Offered(call.kind, call.update)
  }

  function HandleDesk(db: Db, device: VerifiedDevice, call: DeskCall, header: Option<string>,
                      now: Time): (r: (Db, Reply))
    requires DeskCallOk(call)
    ensures Quiet(db, r.0) && r.0 == db.(log := r.0.log, desk := r.0.desk)
  {
    match call
    case TakeUpTua(requestId, id) => Handoffs.OpenTua(db, device, requestId, id, header, now)
    case StartVoice(o) => Handoffs.OpenVoice(db, device, o, header, now)
    case UpdateHandoff(kind, id, u) => Handoffs.UpdateSession(db, device, kind, id, u, header, now)
  }

  function HandleTerminal(db: Db, device: VerifiedDevice, call: TerminalCall, header: Option<string>,
                          now: Time): (r: (Db, Reply))
    ensures Quiet(db, r.0) && r.0 == db.(log := r.0.log, desk := db.desk.(operators := r.0.desk.operators),
                                         tui := r.0.tui)
  {
    match call
    case StartTerminal(q) => TerminalSessions.CreateTui(db, device, q, header, now)
    case AttachTerminal(id, token) => TerminalSessions.CreateAttachToken(db, device, id, token, header, now)
    case ListTerminals => (TerminalSessions.CleanupIdle(db, now), Done)
    case GetTerminal(id) => TerminalSessions.ReadTui(db, device, id, now)
    case DetachTerminal(id) => TerminalSessions.DetachTui(db, device, id, header, now)
    case CloseTerminal(id) => TerminalSessions.CloseTui(db, device, id, header, now)
  }

  predicate CallOk(call: DeviceCall) {
    match call
    case OnDesk(c) => DeskCallOk(c)
    case OtherDeviceRoute(entry, _) => entry.Some? ==> !entry.value.kind.Settles()
    case _ => true
  }

  function HandleDevice(db: Db, device: VerifiedDevice, call: DeviceCall, header: Option<string>,
                        now: Time): (r: (Db, Reply))
    requires CallOk(call)
    ensures Extends(db, r.0)
    ensures !call.OnClearances? ==> Quiet(db, r.0)
    ensures r.0.trust.nonces == db.trust.nonces
  {
    match call
    case OnClearances(c) => HandleClearance(db, device, c, header, now)
    case OnTrust(c) => HandleTrust(db, device, c, header, now)
    case OnDesk(c) => HandleDesk(db, device, c, header, now)
    case OnTerminals(c) => HandleTerminal(db, device, c, header, now)
    case ReadEvents(after, limit) => (db, ReadPage(db, after, limit))
    case OtherDeviceRoute(entry, note) => (OtherRoute(db, entry, note), Done)
  }

  // ----- routes of the local runtime -----

  function HandleReport(db: Db, call: ReportCall, header: Option<string>): (r: (Db, Reply))
    ensures Extends(db, r.0) && r.0 == db.(log := r.0.log, fleet := r.0.fleet)
  {
    match call
    case ReportContext(c) => (Fleet.RegisterContext(db, c, header), Done)
    case ReportNode(nodeId, name) => (Fleet.RegisterNode(db, nodeId, name, header), Done)
  }

  function HandleBackend(db: Db, call: BackendCall, header: Option<string>, now: Time): (r: (Db, Reply))
    ensures Extends(db, r.0) && r.0 == db.(log := r.0.log, fleet := r.0.fleet, board := r.0.board)
  {
    match call
    case RequestClearance(q) => (RequestFromRuntime(db, q, header), Opened(q.approvalId))
    case CreateClearance(q) => (CreateRequest(db, q, header), Opened(q.approvalId))
    case ClearanceStatus(id, scan) => var d := RunScan(db, scan, ExpiryScan); (d, ReadStatus(d, id))
    case ClearanceResult(id, scan) => var d := RunScan(db, scan, RuntimeResultPoll); (d, ReadStatus(d, id))
    case CancelClearance(id, first, second) =>
      if id !in db.board.approvals then (db, Refused(404))
      else
        var d1 := CancelFromRuntime(db, id, "runtime", header, now);
        var d2 := RunScan(RunScan(d1, first, RuntimeResultPoll), second, RuntimeResultPoll);
        (d2, ReadStatus(d2, id))
  }

  function HandleAsk(db: Db, call: AskCall, header: Option<string>, now: Time): (r: (Db, Reply))
    ensures Extends(db, r.0) && r.0 == db.(log := r.0.log, fleet := r.0.fleet, desk := r.0.desk)
  {
    match call
    case AskTua(o, checked) =>
      if checked then Handoffs.RequestTuaFromRuntime(db, o, header, now) else (Handoffs.RequestTua(db, o, header), Done)
    case AskBrowser(o, checked) =>
      if checked then Handoffs.OpenBrowserFromRuntime(db, o, header, now)
          else (Handoffs.OpenBrowser(db, o, header), Done)
    case AskVoice(o) => Handoffs.OpenVoiceFromRuntime(db, o, header, now)
  }

  predicate RuntimeCallOk(call: RuntimeCall) {
    call.OtherRuntimeRoute? && call.entry.Some? ==> !call.entry.value.kind.Settles()
  }

  function HandleRuntime(db: Db, call: RuntimeCall, header: Option<string>, now: Time): (r: (Db, Reply))
    requires RuntimeCallOk(call)
    ensures Extends(db, r.0) && r.0.trust == db.trust && r.0.tui == db.tui
  {
    match call
    case OnFleet(c) => HandleReport(db, c, header)
    case OnBackend(c) => HandleBackend(db, c, header, now)
    case OnHandoff(c) => HandleAsk(db, c, header, now)
    case OtherRuntimeRoute(entry, note) => (OtherRoute(db, entry, note), Done)
  }

  // ----- unsigned steps -----

  function HandlePairing(db: Db, call: PairingCall, header: Option<string>, now: Time): (r: (Db, Reply))
    ensures Quiet(db, r.0)
    ensures r.0 == db.(log := r.0.log, trust := db.trust.(pairings := r.0.trust.pairings, devices := r.0.trust.devices,
                                                          tokens := r.0.trust.tokens))
  {
    match call
    case BeginPairing(id, token, permissions, ttl) =>
      (Devices.StartPairing(db, id, token, permissions, ttl, header, now), Done)
    case PollPairing(id) => Devices.ReadPairing(db, id, now)
    case EndPairing(c) => Devices.CompletePairing(db, c, header, now)
  }

  function HandleTerminalEvent(db: Db, event: TerminalEvent, now: Time): (r: (Db, Reply))
    ensures Quiet(db, r.0) && r.0 == db.(log := r.0.log, desk := db.desk.(operators := r.0.desk.operators),
                                         tui := r.0.tui)
  {
    match event
    case Connects(token, id, socket) => TerminalSessions.OpenSocket(db, token, id, socket, now)
    case Sends(socket, frame) => TerminalSessions.SocketRound(db, socket, frame, now)
    case ProcessExits(id) => (TerminalSessions.ProcessExit(db, id), Done)
    case ReaderEnds(id) => (TerminalSessions.ReaderEnd(db, id, now), Done)
    case ShutsDown => (TerminalSessions.Shutdown(db, now), Done)
  }

  // ----- one step -----

  function CallerEntry(db: Db, header: Option<string>): AuditEntry {
    AuditEntry(LocalCallerRejected, "gateway", "gateway", db.config.nodeId, header, Empty, NoRefs())
  }

  /** A device route runs only behind an accepted signature. */
  function NextSigned(db: Db, request: Signing.SignedRequest, call: DeviceCall, header: Option<string>,
                      now: Time): (r: (Db, Reply))
    requires CallOk(call)
    ensures Extends(db, r.0)
  {
    var (d1, verified) := Signing.Verify(db, request, header, now);
    match verified
    case Failure(reason) => (d1, Refused(Signing.Code(reason)))
    case Success(device) => HandleDevice(d1, device, call, header, now)
  }

  predicate StepOk(step: Step) {
    match step.action
    case Signed(_, call) => CallOk(call)
    case Local(_, call) => RuntimeCallOk(call)
    case _ => true
  }

  function StreamHello(db: Db, token: string, now: Time): (r: (Db, Reply))
    ensures Quiet(db, r.0) && r.0 == db.(log := r.0.log)
  {
    if token != "" && Devices.TokenAccepted(db, token, Access, now) then
      (CreateEvent(db, db.config.nodeId, Note("system.health", "websocket_connected")), Done)
    else (db, Refused(1008))
  }

  /** The process starts again on the same database. */
  function StartAgain(db: Db): (r: Db)
    ensures Extends(db, r)
    ensures r == db.(log := r.log, fleet := r.fleet, tui := db.tui.(runtimes := map[], sockets := map[]))
  {
    Fleet.SeedMockData(Fleet.EnsureNode(TerminalSessions.Forget(db), db.config.nodeId), db.config.nodeId)
  }

  function NextLocal(db: Db, allowed: bool, call: RuntimeCall, header: Option<string>, now: Time): (r: (Db, Reply))
    requires RuntimeCallOk(call)
    ensures Extends(db, r.0) && r.0.trust == db.trust && r.0.tui == db.tui
  {
    if allowed then HandleRuntime(db, call, header, now)
    else (AppendAudit(db, CallerEntry(db, header)), Refused(403))
  }

  function Next(db: Db, step: Step): (r: (Db, Reply))
    requires StepOk(step)
    ensures Extends(db, r.0)
  {
    match step.action
    case Signed(request, call) => NextSigned(db, request, call, step.header, step.now)
    case Local(allowed, call) => NextLocal(db, allowed, call, step.header, step.now)
    case OnPairing(call) => HandlePairing(db, call, step.header, step.now)
    case StreamConnect(token) => StreamHello(db, token, step.now)
    case Heartbeat => (CreateEvent(db, db.config.nodeId, Note("system.health", "heartbeat")), Done)
    case GrantCapability(g) => (Capabilities.AddGrant(db, g), Done)
    case OnTerminalEvent(event) => HandleTerminalEvent(db, event, step.now)
    case Restart => (StartAgain(db), Done)
  }

  // ----- what the environment guarantees -----

  predicate FreshClearance(db: Db, id: Id) {
    "appr_" <= id && id !in db.board.approvals
  }

  predicate FreshSession(db: Db, id: Id) {
    && id !in db.desk.operators
    && id !in db.desk.tua && id !in db.desk.browser && id !in db.desk.voice
    && id !in db.tui.rows && id !in db.tui.runtimes
  }

  predicate FreshTokens(db: Db, access: string, refresh: string) {
    && db.config.tokenHash(access) !in db.trust.tokens
    && db.config.tokenHash(refresh) !in db.trust.tokens
    && db.config.tokenHash(access) != db.config.tokenHash(refresh)
  }

  ghost predicate ScanOk(db: Db, scan: Scan, now: Time) {
    ListsPending(db, scan.listing) && Ticking(scan.clock, now)
  }

  ghost predicate ClearanceInputOk(db: Db, call: ClearanceCall, now: Time) {
    call.ListClearances? || call.GetClearance? ==> ScanOk(db, call.scan, now)
  }

  ghost predicate DeviceInputOk(db: Db, call: DeviceCall, now: Time) {
    match call
    case OnClearances(c) => ClearanceInputOk(db, c, now)
    case OnTrust(Refresh(_, access, refresh)) => FreshTokens(db, access, refresh)
    case OnDesk(TakeUpTua(_, id)) => FreshSession(db, id)
    case OnDesk(StartVoice(o)) => FreshSession(db, o.id)
    case OnTerminals(StartTerminal(q)) => FreshSession(db, q.id)
    case _ => CallOk(call)
  }

  ghost predicate BackendInputOk(db: Db, call: BackendCall, header: Option<string>, now: Time) {
    match call
    case RequestClearance(q) => FreshClearance(db, q.approvalId)
    case CreateClearance(q) => FreshClearance(db, q.approvalId)
    case ClearanceStatus(_, scan) => ScanOk(db, scan, now)
    case ClearanceResult(_, scan) => ScanOk(db, scan, now)
    case CancelClearance(id, first, second) =>
      var d1 := CancelFromRuntime(db, id, "runtime", header, now);
      ScanOk(d1, first, now) && ScanOk(RunScan(d1, first, RuntimeResultPoll), second, now)
  }

  predicate AskInputOk(db: Db, call: AskCall) {
    match call
    case AskTua(o, _) => o.id !in db.desk.requests
    case AskBrowser(o, _) => FreshSession(db, o.id)
    case AskVoice(o) => FreshSession(db, o.id)
  }

  ghost predicate RuntimeInputOk(db: Db, call: RuntimeCall, header: Option<string>, now: Time) {
    match call
    case OnBackend(c) => BackendInputOk(db, c, header, now)
    case OnHandoff(c) => AskInputOk(db, c)
    case _ => RuntimeCallOk(call)
  }

  predicate PairingInputOk(db: Db, call: PairingCall) {
    match call
    case BeginPairing(id, _, _, _) => id !in db.trust.pairings
    case PollPairing(_) => true
    case EndPairing(c) => c.deviceId !in db.trust.devices && FreshTokens(db, c.access, c.refresh)
  }

  /** Generated ids and tokens are fresh, no socket is two at once, scans list what is pending, clocks do
      not run back. */
  ghost predicate Admissible(db: Db, step: Step) {
    match step.action
    case Signed(_, call) => CallOk(call) && DeviceInputOk(db, call, step.now)
    case Local(_, call) => RuntimeCallOk(call) && RuntimeInputOk(db, call, step.header, step.now)
    case OnPairing(call) => PairingInputOk(db, call)
    case OnTerminalEvent(Connects(_, _, socket)) => socket !in db.tui.sockets
    case _ => true
  }

  // ----- runs -----

  /** A finite history of the gateway: n steps, the answer to each, and the n + 1 databases between. */
  datatype Run = Run(states: seq<Db>, steps: seq<Step>, replies: seq<Reply>)

  predicate Sized(run: Run) {
    |run.replies| == |run.steps| && |run.states| == |run.steps| + 1
  }

  ghost predicate Follows(run: Run, i: nat)
    requires Sized(run) && i < |run.steps|
  {
    && Admissible(run.states[i], run.steps[i])
    && Next(run.states[i], run.steps[i]) == (run.states[i + 1], run.replies[i])
    && (0 < i ==> run.steps[i - 1].now <= run.steps[i].now)
  }

  ghost predicate IsRun(run: Run) {
    Sized(run) && forall i | 0 <= i < |run.steps| :: Follows(run, i)
  }

  function Extended(run: Run, step: Step): Run
    requires run.states != [] && StepOk(step)
  {
    var (db, reply) := Next(run.states[|run.states| - 1], step);
    Run(run.states + [db], run.steps + [step], run.replies + [reply])
  }

  lemma StaysFollowed(run: Run, step: Step, i: nat)
    requires Sized(run) && i < |run.steps| && Follows(run, i) && StepOk(step)
    ensures Follows(Extended(run, step), i)
  {
  }

  lemma LastFollows(run: Run, step: Step)
    requires Sized(run) && Admissible(run.states[|run.steps|], step)
    requires run.steps != [] ==> run.steps[|run.steps| - 1].now <= step.now
    ensures Follows(Extended(run, step), |run.steps|)
  {
  }

  /** Every database starts a run, and any admissible step no earlier than the last continues it. */
  lemma RunsContinue(db: Db, run: Run, step: Step)
    requires IsRun(run) && Admissible(run.states[|run.steps|], step)
    requires run.steps != [] ==> run.steps[|run.steps| - 1].now <= step.now
    ensures IsRun(Run([db], [], [])) && IsRun(Extended(run, step))
  {
    forall i | 0 <= i < |run.steps|
      ensures Follows(Extended(run, step), i)
    {
      StaysFollowed(run, step, i);
    }
    LastFollows(run, step);
  }
}
