/** Where the shared operator row of a terminal agrees with the terminal's own row, and exactly which
    steps part the two. */
module TerminalMirror {
  import opened Wrappers
  import opened Records
  import opened Tables
  import opened TerminalSessions
  import opened Machine
  import Capabilities
  import Fleet
  import Handoffs
  import Projection
  import Signing

  ghost predicate Agrees(db: Db, id: Id) {
    id in db.tui.rows && id in db.desk.operators && db.tui.rows[id].state == db.desk.operators[id].state
  }

  // ----- the steps that part them -----

  /** The socket attaches to this session: token, owner, state and process all check out. */
  predicate Attaches(db: Db, token: Option<string>, id: Id, now: Time) {
    && AttachTokenAccepted(db, token, now)
    && var attach := db.tui.attach[db.config.tokenHash(token.value)];
    && attach.sessionId == id && id in db.tui.rows && db.tui.rows[id].deviceId == attach.deviceId
    && IsOpen(db.tui.rows[id].state) && Running(db, id)
  }

  /** The socket of this session drops while its process runs and its row is not detached already. */
  predicate DropsOut(db: Db, other: Id, frame: Frame, id: Id)
    requires id in db.tui.rows
  {
    other == id && frame == Disconnect && Running(db, id) && db.tui.rows[id].state != Detached
  }

  predicate EventParts(db: Db, event: TerminalEvent, id: Id, now: Time)
    requires id in db.tui.rows
  {
    var state := db.tui.rows[id].state;
    match event
    case Connects(token, other, _) => other == id && Attaches(db, token, id, now) && state != Active
    case Sends(socket, frame) => socket in db.tui.sockets && DropsOut(db, db.tui.sockets[socket].sessionId, frame, id)
    case ReaderEnds(other) => other == id && id in db.tui.runtimes && !db.tui.runtimes[id] && IsOpen(state)
    case ShutsDown => id in db.tui.runtimes && state != Closed
    case ProcessExits(_) => false
  }

  /** The route runs the idle clean-up: listing and reading do, starting does once the capability is granted. */
  predicate CleansUp(db: Db, device: VerifiedDevice, call: TerminalCall, now: Time) {
    match call
    case ListTerminals => true
    case GetTerminal(_) => true
    case StartTerminal(q) =>
      Capabilities.DeviceHolds(db, device, TuiAccess, Some(Or(q.nodeId, db.config.nodeId)), Some(q.agentId), now)
    case _ => false
  }

  function Signer(db: Db, request: Signing.SignedRequest): VerifiedDevice
    requires request.deviceId.Some? && request.deviceId.value in db.trust.devices
  {
    var key := request.deviceId.value;
    VerifiedDevice(key, db.trust.devices[key].nodeId, db.trust.devices[key].permissions)
  }

  predicate SignedParts(db: Db, request: Signing.SignedRequest, call: DeviceCall, id: Id, now: Time) {
    && Signing.Accepts(db, request, now) && call.OnTerminals?
    && CleansUp(db, Signer(db, request), call.terminalCall, now) && Idle(db, id, now)
  }

  /** Exactly these steps leave the operator row of an agreeing terminal behind. */
  predicate Parts(db: Db, step: Step, id: Id)
    requires id in db.tui.rows
  {
    match step.action
    case Signed(request, call) => SignedParts(db, request, call, id, step.now)
    case OnTerminalEvent(event) => EventParts(db, event, id, step.now)
    case _ => false
  }

  // ----- terminal events and routes -----

  lemma RecordMirror(db: Db, other: Id, closing: bool, deviceId: Id, header: Option<string>, now: Time, id: Id)
    requires other in db.tui.rows && id in db.tui.rows && id in db.desk.operators && (other != id ==> Agrees(db, id))
    ensures Agrees(RecordStateChange(db, other, closing, deviceId, header, now), id)
  {
  }

  lemma InputMirror(db: Db, other: Id, entry: AuditEntry, touched: bool, now: Time, id: Id)
    requires Agrees(db, id)
    ensures Agrees(AddAuditRef(AppendAudit(if touched then TouchTui(db, other, now) else db, entry), other), id)
  {
  }

  lemma TypingMirror(db: Db, other: Id, deviceId: Id, frame: Frame, id: Id, now: Time)
    requires Agrees(db, id) && (frame.Last() ==> frame.Unreadable?)
    ensures Agrees(HandleFrame(db, other, deviceId, frame, now).0, id)
  {
    if Running(db, other) && other in db.tui.rows {
      var row := db.tui.rows[other];
      match frame
      case Input(text) =>
        InputMirror(db, other, TuiEntry(row, other, "input_sent", deviceId, Size(|text|), None), text != "", now, id);
      case Paste(text) =>
        InputMirror(db, other, TuiEntry(row, other, "paste_sent", deviceId, Size(|text|), None), text != "", now, id);
      case _ =>
    }
  }

  lemma FrameMirror(db: Db, other: Id, deviceId: Id, frame: Frame, id: Id, now: Time)
    requires Agrees(db, id)
    ensures Agrees(HandleFrame(db, other, deviceId, frame, now).0, id) <==> !DropsOut(db, other, frame, id)
  {
    if Running(db, other) && other in db.tui.rows {
      match frame
      case DetachFrame => RecordMirror(UpdateTui(db, other, Detached, now), other, false, deviceId, None, now, id);
      case CloseFrame => RecordMirror(ManagerClose(db, other, now), other, true, deviceId, None, now, id);
      case Disconnect =>
      case _ => TypingMirror(db, other, deviceId, frame, id, now);
    }
  }

  lemma EventMirror(db: Db, event: TerminalEvent, id: Id, now: Time)
    requires Agrees(db, id)
    ensures Agrees(HandleTerminalEvent(db, event, now).0, id) <==> !EventParts(db, event, id, now)
  {
    match event
    case Sends(socket, frame) =>
      if socket in db.tui.sockets {
        FrameMirror(db, db.tui.sockets[socket].sessionId, db.tui.sockets[socket].deviceId, frame, id, now);
      }
    case _ =>
  }

  lemma CleanupMirror(db: Db, id: Id, now: Time)
    requires Agrees(db, id)
    ensures Agrees(CleanupIdle(db, now), id) <==> !Idle(db, id, now)
    ensures id in CleanupIdle(db, now).tui.rows && CleanupIdle(db, now).desk == db.desk
  {
  }

  lemma StartLeavesOthers(db: Db, deviceId: Id, nodeId: Id, q: TuiRequest, header: Option<string>, now: Time, id: Id)
    requires id in db.tui.rows && id in db.desk.operators && q.id != id
    ensures Agrees(StartTui(db, deviceId, nodeId, q, header, now).0, id) <==> Agrees(db, id)
  {
    var row := TuiRow(q.agentId, nodeId, deviceId, Requested, now, None, []);
    var d1, r := PutTui(db, q.id, row), StartTui(db, deviceId, nodeId, q, header, now).0;
    if q.failure.None? {
      var d3 := LaunchTui(d1, deviceId, row, q, header, now);
      var operator := OperatorRow(Terminal, q.agentId, Active, Some(deviceId), None);
      assert r.tui == d3.tui && r.desk == Handoffs.CreateOperator(d3, q.id, operator).desk;
    } else {
      assert r == UpdateTui(d1, q.id, Failed, now);
    }
  }

  /** A terminal that starts enters in agreement. */
  lemma StartAgrees(db: Db, deviceId: Id, nodeId: Id, q: TuiRequest, header: Option<string>, now: Time)
    requires FreshSession(db, q.id) && q.failure.None?
    ensures Agrees(StartTui(db, deviceId, nodeId, q, header, now).0, q.id)
  {
  }

  lemma CreateMirror(db: Db, device: VerifiedDevice, q: TuiRequest, header: Option<string>, now: Time, id: Id)
    requires Agrees(db, id) && FreshSession(db, q.id)
    ensures Agrees(CreateTui(db, device, q, header, now).0, id) <==>
            !(CleansUp(db, device, StartTerminal(q), now) && Idle(db, id, now))
  {
    var nodeId := Or(q.nodeId, db.config.nodeId);
    var r, d2 := CreateTui(db, device, q, header, now).0, CleanupIdle(db, now);
    CleanupMirror(db, id, now);
    StartLeavesOthers(d2, device.deviceId, nodeId, q, header, now, id);
    if CleansUp(db, device, StartTerminal(q), now) {
      assert r == d2 || r == StartTui(d2, device.deviceId, nodeId, q, header, now).0;
    } else {
      assert r.desk == db.desk && r.tui == db.tui;
    }
  }

  lemma DetachMirror(db: Db, device: VerifiedDevice, other: Id, header: Option<string>, now: Time, id: Id)
    requires Agrees(db, id)
    ensures Agrees(DetachTui(db, device, other, header, now).0, id)
  {
    if other in db.tui.rows {
      RecordMirror(UpdateTui(db, other, Detached, now), other, false, device.deviceId, header, now, id);
    }
  }

  lemma CloseMirror(db: Db, device: VerifiedDevice, other: Id, header: Option<string>, now: Time, id: Id)
    requires Agrees(db, id)
    ensures Agrees(CloseTui(db, device, other, header, now).0, id)
  {
    if other in db.tui.rows {
      RecordMirror(ManagerClose(db, other, now), other, true, device.deviceId, header, now, id);
    }
  }

  lemma RouteMirror(db: Db, device: VerifiedDevice, call: TerminalCall, header: Option<string>, now: Time, id: Id)
    requires Agrees(db, id) && (call.StartTerminal? ==> FreshSession(db, call.request.id))
    ensures Agrees(HandleTerminal(db, device, call, header, now).0, id) <==>
              !(CleansUp(db, device, call, now) && Idle(db, id, now))
  {
    match call
    case StartTerminal(q) => CreateMirror(db, device, q, header, now, id);
    case ListTerminals => CleanupMirror(db, id, now);
    case GetTerminal(_) => CleanupMirror(db, id, now);
    case AttachTerminal(_, _) =>
    case DetachTerminal(other) => DetachMirror(db, device, other, header, now, id);
    case CloseTerminal(other) => CloseMirror(db, device, other, header, now, id);
  }

  // ----- every step -----

  /** Steps of other kinds leave both rows of a terminal alone. */
  ghost predicate LeavesAlone(a: Db, b: Db, id: Id) {
    && b.tui.rows == a.tui.rows
    && (id in a.desk.operators && id in a.tui.rows
        ==> id in b.desk.operators && b.desk.operators[id] == a.desk.operators[id])
  }

  lemma UpdateLeavesAlone(db: Db, device: VerifiedDevice, kind: HandoffKind, other: Id, u: Handoffs.Update,
                          header: Option<string>, now: Time, id: Id)
    requires Projection.MirroredAt(db, kind, id) && id in db.tui.rows && Handoffs.Offered(kind, u)
    ensures LeavesAlone(db, Handoffs.UpdateSession(db, device, kind, other, u, header, now).0, id)
  {
  }

  lemma DeskLeavesAlone(db: Db, device: VerifiedDevice, call: DeskCall, header: Option<string>, now: Time, id: Id)
    requires Projection.Projected(db) && id in db.tui.rows && DeskCallOk(call) && DeviceInputOk(db, OnDesk(call), now)
    ensures LeavesAlone(db, HandleDesk(db, device, call, header, now).0, id)
  {
    if call.UpdateHandoff? {
      assert Projection.MirroredAt(db, call.kind, id);
      UpdateLeavesAlone(db, device, call.kind, call.sessionId, call.update, header, now, id);
    }
  }

  lemma AskLeavesAlone(db: Db, call: AskCall, header: Option<string>, now: Time, id: Id)
    requires id in db.tui.rows && AskInputOk(db, call)
    ensures LeavesAlone(db, HandleAsk(db, call, header, now).0, id) && HandleAsk(db, call, header, now).0.tui == db.tui
  {
  }

  lemma DeviceMirror(db: Db, device: VerifiedDevice, call: DeviceCall, header: Option<string>, now: Time, id: Id)
    requires Projection.Projected(db) && Agrees(db, id) && CallOk(call) && DeviceInputOk(db, call, now)
    ensures Agrees(HandleDevice(db, device, call, header, now).0, id) <==>
            !(call.OnTerminals? && CleansUp(db, device, call.terminalCall, now) && Idle(db, id, now))
  {
    match call
    case OnTerminals(c) => RouteMirror(db, device, c, header, now, id);
    case OnDesk(c) => DeskLeavesAlone(db, device, c, header, now, id);
    case _ =>
      var r := HandleDevice(db, device, call, header, now).0;
      assert r.desk == db.desk && r.tui == db.tui;
  }

  lemma SignedMirror(db: Db, step: Step, id: Id)
    requires step.action.Signed? && Admissible(db, step) && Projection.Projected(db) && Agrees(db, id)
    ensures Agrees(NextSigned(db, step.action.request, step.action.deviceCall, step.header, step.now).0, id) <==>
              !Parts(db, step, id)
  {
    var (d1, verified) := Signing.Verify(db, step.action.request, step.header, step.now);
    var call := step.action.deviceCall;
    if verified.Success? {
      Projection.FrameKeeps(db, d1);
      if call.OnDesk? || call.OnTerminals? {
        Projection.SameDeskInput(db, d1, call, step.now);
        DeviceMirror(d1, verified.value, call, step.header, step.now, id);
      } else {
        var r := HandleDevice(d1, verified.value, call, step.header, step.now).0;
        assert r.desk == db.desk && r.tui == db.tui;
      }
    }
  }

  /** For a terminal whose row and operator row agree: they agree after a step if and only if the step
      is none of those that part them. */
  lemma NextMirror(db: Db, step: Step, id: Id)
    requires Admissible(db, step) && Projection.Projected(db) && Agrees(db, id)
    ensures Agrees(Next(db, step).0, id) <==> !Parts(db, step, id)
  {
    match step.action
    case Signed(_, _) => SignedMirror(db, step, id);
    case Local(true, OnHandoff(call)) => AskLeavesAlone(db, call, step.header, step.now, id);
    case OnTerminalEvent(event) => EventMirror(db, event, id, step.now);
    case _ =>
      var r := Next(db, step).0;
      assert r.desk == db.desk && r.tui.rows == db.tui.rows;
  }

  /** In every run from a fresh gateway. */
  lemma TerminalsAgreeExactlyUntil(config: Config, run: Run, i: nat, id: Id)
    requires IsRun(run) && run.states[0] == Fleet.FreshDb(config) && i < |run.steps| && Agrees(run.states[i], id)
    ensures Agrees(run.states[i + 1], id) <==> !Parts(run.states[i], run.steps[i], id)
  {
    Projection.FreshRunsAgree(config, run, i, i);
    assert Follows(run, i);
    NextMirror(run.states[i], run.steps[i], id);
  }

  // ----- from the start of a terminal on -----

  /** The step starts this terminal, and succeeds. */
  ghost predicate Starts(run: Run, i: nat, id: Id)
    requires Sized(run)
  {
    && i < |run.steps| && run.replies[i] == Done
    && var action := run.steps[i].action;
    && action.Signed? && action.deviceCall.OnTerminals? && action.deviceCall.terminalCall.StartTerminal?
    && action.deviceCall.terminalCall.request.id == id
  }

  ghost predicate PartsAt(run: Run, j: nat, id: Id)
    requires Sized(run) && j < |run.steps|
  {
    id in run.states[j].tui.rows && Parts(run.states[j], run.steps[j], id)
  }

  lemma CreatedInAgreement(db: Db, device: VerifiedDevice, q: TuiRequest, header: Option<string>, now: Time)
    requires FreshSession(db, q.id) && CreateTui(db, device, q, header, now).1 == Done
    ensures Agrees(CreateTui(db, device, q, header, now).0, q.id)
  {
    var d2 := CleanupIdle(db, now);
    assert FreshSession(d2, q.id);
    StartAgrees(d2, device.deviceId, Or(q.nodeId, db.config.nodeId), q, header, now);
  }

  lemma StartedInAgreement(run: Run, i: nat, id: Id)
    requires IsRun(run) && Starts(run, i, id)
    ensures Agrees(run.states[i + 1], id)
  {
    assert Follows(run, i);
    var db, step := run.states[i], run.steps[i];
    var (d1, verified) := Signing.Verify(db, step.action.request, step.header, step.now);
    CreatedInAgreement(d1, verified.value, step.action.deviceCall.terminalCall.request, step.header, step.now);
  }

  /** In every run from a fresh gateway: a terminal agrees with its operator row from its start until the
      first step that parts the two. */
  lemma {:induction false} TerminalsAgreeFromStart(config: Config, run: Run, i: nat, k: nat, id: Id)
    requires IsRun(run) && run.states[0] == Fleet.FreshDb(config) && Starts(run, i, id) && i < k <= |run.steps|
    requires forall j | i < j < k :: !PartsAt(run, j, id)
    ensures Agrees(run.states[k], id)
    decreases k
  {
    if k == i + 1 {
      StartedInAgreement(run, i, id);
    } else {
      TerminalsAgreeFromStart(config, run, i, k - 1, id);
      assert !PartsAt(run, k - 1, id);
      TerminalsAgreeExactlyUntil(config, run, k - 1, id);
    }
  }
}
