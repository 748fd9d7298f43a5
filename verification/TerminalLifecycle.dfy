/** Terminal sessions in every reachable state: live processes have open rows, ended rows stay ended,
    and the cap on open sessions holds. */
module TerminalLifecycle {
  import opened Wrappers
  import opened Records
  import opened Tables
  import opened TerminalSessions
  import opened Machine
  import Signing
  import Fleet

  ghost predicate RuntimesOpen(t: Terminals) {
    forall id | id in t.runtimes :: id in t.rows && IsOpen(t.rows[id].state)
  }

  function Cap(config: Config): nat {
    if config.tuiMaxSessions < 0 then 0 else config.tuiMaxSessions
  }

  ghost predicate TerminalsOk(db: Db) {
    RuntimesOpen(db.tui) && |OpenIds(db.tui.rows)| <= Cap(db.config)
  }

  /** Rows stay, each with its owner, and none that was closed or failed is open again. */
  ghost predicate NoReopening(a: Terminals, b: Terminals) {
    forall id | id in a.rows ::
      && id in b.rows && b.rows[id].deviceId == a.rows[id].deviceId
      && (IsOpen(b.rows[id].state) ==> IsOpen(a.rows[id].state))
  }

  /** What every step but the start of a new session does. */
  ghost predicate Shrinks(a: Terminals, b: Terminals) {
    NoReopening(a, b) && a.rows.Keys == b.rows.Keys && (RuntimesOpen(a) ==> RuntimesOpen(b))
  }

  lemma {:induction false} SubsetSize<T>(a: set<T>, b: set<T>)
    requires a <= b
    ensures |a| <= |b|
  {
    if a != {} {
      var x :| x in a;
      SubsetSize(a - {x}, b - {x});
    }
  }

  lemma ShrinkingKeeps(a: Db, b: Db)
    requires TerminalsOk(a) && Shrinks(a.tui, b.tui) && a.config == b.config
    ensures TerminalsOk(b)
  {
    assert OpenIds(b.tui.rows) <= OpenIds(a.tui.rows);
    SubsetSize(OpenIds(b.tui.rows), OpenIds(a.tui.rows));
  }

  lemma CloseThemShrinks(db: Db, ids: set<Id>, now: Time)
    ensures Shrinks(db.tui, CloseThem(db, ids, now).tui)
  {
  }

  lemma ManagerCloseShrinks(db: Db, id: Id, now: Time)
    ensures Shrinks(db.tui, ManagerClose(db, id, now).tui)
  {
  }

  lemma UpdateOpenShrinks(db: Db, id: Id, state: SessionState, now: Time)
    requires id in db.tui.rows && IsOpen(db.tui.rows[id].state) && IsOpen(state)
    ensures Shrinks(db.tui, UpdateTui(db, id, state, now).tui)
  {
  }

  lemma RecordDetachedShrinks(db: Db, id: Id, deviceId: Id, header: Option<string>, now: Time)
    requires id in db.tui.rows && IsOpen(db.tui.rows[id].state)
    ensures Shrinks(db.tui, RecordStateChange(db, id, false, deviceId, header, now).tui)
  {
  }

  lemma RecordClosedShrinks(db: Db, id: Id, deviceId: Id, header: Option<string>, now: Time)
    requires id in db.tui.rows && id !in db.tui.runtimes
    ensures Shrinks(db.tui, RecordStateChange(db, id, true, deviceId, header, now).tui)
  {
  }

  lemma ShrinksTransitive(a: Terminals, b: Terminals, c: Terminals)
    requires Shrinks(a, b) && Shrinks(b, c)
    ensures Shrinks(a, c)
  {
  }

  lemma DetachTwiceShrinks(db: Db, id: Id, deviceId: Id, header: Option<string>, now: Time)
    requires id in db.tui.rows && IsOpen(db.tui.rows[id].state)
    ensures Shrinks(db.tui, RecordStateChange(UpdateTui(db, id, Detached, now), id, false, deviceId, header, now).tui)
  {
    var d1 := UpdateTui(db, id, Detached, now);
    UpdateOpenShrinks(db, id, Detached, now);
    RecordDetachedShrinks(d1, id, deviceId, header, now);
    ShrinksTransitive(db.tui, d1.tui, RecordStateChange(d1, id, false, deviceId, header, now).tui);
  }

  lemma CloseAndRecordShrinks(db: Db, id: Id, deviceId: Id, header: Option<string>, now: Time)
    requires id in db.tui.rows
    ensures Shrinks(db.tui, RecordStateChange(ManagerClose(db, id, now), id, true, deviceId, header, now).tui)
  {
    var d1 := ManagerClose(db, id, now);
    ManagerCloseShrinks(db, id, now);
    RecordClosedShrinks(d1, id, deviceId, header, now);
    ShrinksTransitive(db.tui, d1.tui, RecordStateChange(d1, id, true, deviceId, header, now).tui);
  }

  lemma SameStateShrinks(a: Terminals, id: Id, row: TuiRow)
    requires id in a.rows && row.state == a.rows[id].state && row.deviceId == a.rows[id].deviceId
    ensures Shrinks(a, a.(rows := a.rows[id := row]))
  {
  }

  lemma InputShrinks(db: Db, id: Id, entry: AuditEntry, touched: bool, now: Time)
    requires id in db.tui.rows
    ensures var d1 := if touched then TouchTui(db, id, now) else db;
            Shrinks(db.tui, AddAuditRef(AppendAudit(d1, entry), id).tui)
  {
    var d1 := if touched then TouchTui(db, id, now) else db;
    var t := AddAuditRef(AppendAudit(d1, entry), id).tui;
    assert t == db.tui.(rows := db.tui.rows[id := t.rows[id]]);
    SameStateShrinks(db.tui, id, t.rows[id]);
  }

  lemma TypingShrinks(db: Db, id: Id, deviceId: Id, frame: Frame, now: Time)
    requires Running(db, id) && id in db.tui.rows && (frame.Last() ==> frame.Unreadable?)
    ensures Shrinks(db.tui, HandleFrame(db, id, deviceId, frame, now).0.tui)
  {
    match frame
    case Input(text) => InputShrinks(db, id, TuiEntry(db.tui.rows[id], id, "input_sent", deviceId, Size(|text|), None),
                                     text != "", now);
    case Paste(text) => InputShrinks(db, id, TuiEntry(db.tui.rows[id], id, "paste_sent", deviceId, Size(|text|), None),
                                     text != "", now);
    case Resize(true) => SameStateShrinks(db.tui, id, db.tui.rows[id].(lastActivityAt := now));
    case _ =>
  }

  lemma FrameShrinks(db: Db, id: Id, deviceId: Id, frame: Frame, now: Time)
    requires RuntimesOpen(db.tui)
    ensures Shrinks(db.tui, HandleFrame(db, id, deviceId, frame, now).0.tui)
  {
    if Running(db, id) {
      match frame
      case DetachFrame => DetachTwiceShrinks(db, id, deviceId, None, now);
      case CloseFrame => CloseAndRecordShrinks(db, id, deviceId, None, now);
      case Disconnect => UpdateOpenShrinks(db, id, Detached, now);
      case _ => TypingShrinks(db, id, deviceId, frame, now);
    }
  }

  lemma EventShrinks(db: Db, event: TerminalEvent, now: Time)
    requires RuntimesOpen(db.tui)
    ensures Shrinks(db.tui, HandleTerminalEvent(db, event, now).0.tui)
  {
    match event
    case Connects(token, id, _) =>
    case Sends(socket, frame) =>
      if socket in db.tui.sockets {
        FrameShrinks(db, db.tui.sockets[socket].sessionId, db.tui.sockets[socket].deviceId, frame, now);
      }
    case ProcessExits(id) =>
    case ReaderEnds(id) =>
    case ShutsDown => CloseThemShrinks(db, db.tui.runtimes.Keys, now);
  }

  lemma LaunchedTerminal(db: Db, deviceId: Id, nodeId: Id, q: TuiRequest, header: Option<string>, now: Time)
    requires q.failure.None?
    ensures var row := TuiRow(q.agentId, nodeId, deviceId, Requested, now, None, []);
            StartTui(db, deviceId, nodeId, q, header, now).0.tui ==
            LaunchTui(PutTui(db, q.id, row), deviceId, row, q, header, now).tui
  {
  }

  lemma StartedTerminal(db: Db, deviceId: Id, nodeId: Id, q: TuiRequest, header: Option<string>, now: Time)
    requires q.id !in db.tui.rows && q.id !in db.tui.runtimes
    ensures var t := StartTui(db, deviceId, nodeId, q, header, now).0.tui;
            && q.id in t.rows && t.rows == db.tui.rows[q.id := t.rows[q.id]]
            && IsOpen(t.rows[q.id].state) == q.failure.None?
            && t.runtimes == if q.failure.None? then db.tui.runtimes[q.id := true] else db.tui.runtimes
  {
    if q.failure.None? {
      LaunchedTerminal(db, deviceId, nodeId, q, header, now);
      var row := TuiRow(q.agentId, nodeId, deviceId, Requested, now, None, []);
      NewRow(db.tui, PutTui(db, q.id, row).tui, LaunchTui(PutTui(db, q.id, row), deviceId, row, q, header, now).tui,
             q.id);
    }
  }

  lemma NewRow(a: Terminals, b: Terminals, c: Terminals, id: Id)
    requires id in b.rows && b == a.(rows := a.rows[id := b.rows[id]])
    requires id in c.rows && c.rows == b.rows[id := c.rows[id]]
    ensures c.rows == a.rows[id := c.rows[id]]
  {
  }

  /** One new row adds at most its own id to the open ones. */
  lemma NewTerminalKeeps(a: Terminals, b: Terminals, id: Id)
    requires RuntimesOpen(a) && id !in a.rows && id in b.rows && b.rows == a.rows[id := b.rows[id]]
    requires b.runtimes == if IsOpen(b.rows[id].state) then a.runtimes[id := true] else a.runtimes
    ensures RuntimesOpen(b) && NoReopening(a, b) && |OpenIds(b.rows)| <= |OpenIds(a.rows)| + 1
  {
    assert OpenIds(b.rows) <= OpenIds(a.rows) + {id};
    SubsetSize(OpenIds(b.rows), OpenIds(a.rows) + {id});
  }

  /** Starting a session below the cap keeps it. */
  lemma StartKeeps(db: Db, deviceId: Id, nodeId: Id, q: TuiRequest, header: Option<string>, now: Time)
    requires TerminalsOk(db) && |OpenIds(db.tui.rows)| < Cap(db.config) && q.id !in db.tui.rows
               && q.id !in db.tui.runtimes
    ensures var r := StartTui(db, deviceId, nodeId, q, header, now).0;
            TerminalsOk(r) && NoReopening(db.tui, r.tui)
  {
    StartedTerminal(db, deviceId, nodeId, q, header, now);
    NewTerminalKeeps(db.tui, StartTui(db, deviceId, nodeId, q, header, now).0.tui, q.id);
  }

  lemma CleanupKeeps(db: Db, now: Time)
    requires TerminalsOk(db)
    ensures var r := CleanupIdle(db, now);
            TerminalsOk(r) && NoReopening(db.tui, r.tui) && r.tui.rows.Keys == db.tui.rows.Keys
                && r.tui.runtimes.Keys <= db.tui.runtimes.Keys
  {
    CloseThemShrinks(db, (set id | id in db.tui.rows && Idle(db, id, now)), now);
    ShrinkingKeeps(db, CleanupIdle(db, now));
  }

  /** A new session is started only behind the clean-up and below the cap. */
  lemma CreateKeeps(db: Db, device: VerifiedDevice, q: TuiRequest, header: Option<string>, now: Time)
    requires TerminalsOk(db) && FreshSession(db, q.id)
    ensures var r := CreateTui(db, device, q, header, now).0;
            TerminalsOk(r) && NoReopening(db.tui, r.tui)
  {
    var nodeId := Or(q.nodeId, db.config.nodeId);
    var r, d2 := CreateTui(db, device, q, header, now).0, CleanupIdle(db, now);
    CleanupKeeps(db, now);
    if |OpenIds(d2.tui.rows)| < Cap(db.config) {
      var started := StartTui(d2, device.deviceId, nodeId, q, header, now).0;
      StartKeeps(d2, device.deviceId, nodeId, q, header, now);
      assert r.tui == db.tui || r.tui == d2.tui || r.tui == started.tui;
    } else {
      assert r.tui == db.tui || r.tui == d2.tui;
    }
  }

  lemma DetachRouteShrinks(db: Db, device: VerifiedDevice, id: Id, header: Option<string>, now: Time)
    ensures Shrinks(db.tui, DetachTui(db, device, id, header, now).0.tui)
  {
    if id in db.tui.rows && IsOpen(db.tui.rows[id].state) {
      DetachTwiceShrinks(db, id, device.deviceId, header, now);
    }
  }

  lemma CloseRouteShrinks(db: Db, device: VerifiedDevice, id: Id, header: Option<string>, now: Time)
    ensures Shrinks(db.tui, CloseTui(db, device, id, header, now).0.tui)
  {
    if id in db.tui.rows {
      CloseAndRecordShrinks(db, id, device.deviceId, header, now);
    }
  }

  lemma RouteKeeps(db: Db, device: VerifiedDevice, call: TerminalCall, header: Option<string>, now: Time)
    requires TerminalsOk(db) && (call.StartTerminal? ==> FreshSession(db, call.request.id))
    ensures var r := HandleTerminal(db, device, call, header, now).0;
            TerminalsOk(r) && NoReopening(db.tui, r.tui)
  {
    if call.StartTerminal? {
      CreateKeeps(db, device, call.request, header, now);
    } else {
      match call {
        case ListTerminals => CloseThemShrinks(db, (set id | id in db.tui.rows && Idle(db, id, now)), now);
        case GetTerminal(_) => CloseThemShrinks(db, (set id | id in db.tui.rows && Idle(db, id, now)), now);
        case DetachTerminal(id) => DetachRouteShrinks(db, device, id, header, now);
        case CloseTerminal(id) => CloseRouteShrinks(db, device, id, header, now);
        case _ =>
      }
      ShrinkingKeeps(db, HandleTerminal(db, device, call, header, now).0);
    }
  }

  lemma OtherRoutesKeep(db: Db, device: VerifiedDevice, call: DeviceCall, header: Option<string>, now: Time)
    requires CallOk(call) && !call.OnTerminals?
    ensures HandleDevice(db, device, call, header, now).0.tui == db.tui
  {
  }

  lemma SignedKeepsTerminals(db: Db, step: Step)
    requires step.action.Signed? && Admissible(db, step) && TerminalsOk(db)
    ensures var r := NextSigned(db, step.action.request, step.action.deviceCall, step.header, step.now).0;
            TerminalsOk(r) && NoReopening(db.tui, r.tui)
  {
    var (d1, verified) := Signing.Verify(db, step.action.request, step.header, step.now);
    var call := step.action.deviceCall;
    if verified.Success? {
      if call.OnTerminals? {
        RouteKeeps(d1, verified.value, call.terminalCall, step.header, step.now);
      } else {
        OtherRoutesKeep(d1, verified.value, call, step.header, step.now);
      }
    }
  }

  lemma NextKeepsTerminals(db: Db, step: Step)
    requires Admissible(db, step) && TerminalsOk(db)
    ensures TerminalsOk(Next(db, step).0) && NoReopening(db.tui, Next(db, step).0.tui)
  {
    match step.action
    case Signed(_, _) => SignedKeepsTerminals(db, step);
    case OnTerminalEvent(event) =>
      EventShrinks(db, event, step.now);
      ShrinkingKeeps(db, HandleTerminalEvent(db, event, step.now).0);
    case Restart => assert StartAgain(db).tui.rows == db.tui.rows;
    case _ => assert Next(db, step).0.tui == db.tui;
  }

  /** In every reachable state each process in memory has an open row and the cap holds; between any
      two states of a run no ended session is opened again. */
  lemma {:induction false} TerminalsStayInBounds(run: Run, i: nat, j: nat)
    requires IsRun(run) && TerminalsOk(run.states[0]) && i <= j <= |run.steps|
    ensures TerminalsOk(run.states[j])
    ensures NoReopening(run.states[i].tui, run.states[j].tui)
    decreases j
  {
    if j != 0 {
      TerminalsStayInBounds(run, if i < j then i else j - 1, j - 1);
      assert Follows(run, j - 1);
      NextKeepsTerminals(run.states[j - 1], run.steps[j - 1]);
    }
  }

  lemma FreshIsInBounds(config: Config)
    ensures TerminalsOk(Fleet.FreshDb(config))
  {
    assert OpenIds(Fleet.FreshDb(config).tui.rows) == {};
  }

  /** From a fresh gateway on, then, without any assumption on the first state. */
  lemma FreshRunsStayInBounds(config: Config, run: Run, i: nat, j: nat)
    requires IsRun(run) && run.states[0] == Fleet.FreshDb(config) && i <= j <= |run.steps|
    ensures TerminalsOk(run.states[j])
    ensures NoReopening(run.states[i].tui, run.states[j].tui)
  {
    FreshIsInBounds(config);
    TerminalsStayInBounds(run, i, j);
  }
}
