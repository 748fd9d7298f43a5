/** The shared operator_sessions table mirrors every TUA, browser and voice session. */
module Projection {
  import opened Wrappers
  import opened Records
  import opened Tables
  import opened Handoffs
  import opened Machine
  import TerminalSessions
  import Signing
  import Fleet

  ghost predicate Mirrors(row: HandoffRow, kind: HandoffKind, o: OperatorRow) {
    o.kind == Handoff(kind) && o.state == row.state && o.returnSummary == row.returnSummary
  }

  /** A session has an operator row of its own kind with its state and summary; terminal sessions
      use other ids. */
  ghost predicate MirroredAt(db: Db, kind: HandoffKind, id: Id) {
    id in Table(db, kind) ==>
      && id in db.desk.operators && Mirrors(Table(db, kind)[id], kind, db.desk.operators[id])
      && id !in db.tui.rows
  }

  ghost predicate Projected(db: Db) {
    forall kind, id :: MirroredAt(db, kind, id)
  }

  predicate Kept<T>(before: Option<T>, after: Option<T>) {
    before.Some? ==> after.Some?
  }

  predicate RowKept(before: HandoffRow, after: HandoffRow) {
    Kept(before.returnSummary, after.returnSummary) && Kept(before.returnedAt, after.returnedAt)
        && Kept(before.closedAt, after.closedAt)
  }

  ghost predicate StampsAt(a: Db, b: Db, kind: HandoffKind, id: Id) {
    id in Table(a, kind) ==> id in Table(b, kind) && RowKept(Table(a, kind)[id], Table(b, kind)[id])
  }

  /** Sessions stay, and a summary, return time or closing time once set is never null again. */
  ghost predicate StampsStay(a: Db, b: Db) {
    forall kind, id :: StampsAt(a, b, kind, id)
  }

  /** What every step does here. */
  ghost predicate Keeps(a: Db, b: Db) {
    Projected(b) && StampsStay(a, b)
  }

  /** Where the shared columns of desk and terminals are as before, nothing is to be shown. */
  lemma FrameKeeps(a: Db, b: Db)
    requires Projected(a) && b.tui.rows == a.tui.rows
    requires b.desk == a.desk.(requests := b.desk.requests)
    ensures Keeps(a, b)
  {
    forall kind, id
      ensures MirroredAt(b, kind, id) && StampsAt(a, b, kind, id)
    {
      assert MirroredAt(a, kind, id);
      assert Table(b, kind) == Table(a, kind);
    }
  }

  // ----- handoff routes -----

  /** The tables agree except that one session and its operator row were written. */
  ghost predicate WroteSession(a: Db, b: Db, kind: HandoffKind, id: Id, row: HandoffRow, o: OperatorRow) {
    && (forall k :: Table(b, k) == if k == kind then Table(a, k)[id := row] else Table(a, k))
    && b.desk.operators == a.desk.operators[id := o]
    && b.tui == a.tui
  }

  lemma WritingKeeps(a: Db, b: Db, kind: HandoffKind, id: Id, row: HandoffRow, o: OperatorRow)
    requires Projected(a) && Mirrors(row, kind, o) && WroteSession(a, b, kind, id, row, o)
    requires FreshSession(a, id) || (id in Table(a, kind) && RowKept(Table(a, kind)[id], row))
    ensures Keeps(a, b)
  {
    forall k, other
      ensures MirroredAt(b, k, other) && StampsAt(a, b, k, other)
    {
      assert MirroredAt(a, k, other) && MirroredAt(a, kind, id);
    }
  }

  lemma UpdateMirrors(kind: HandoffKind, row: HandoffRow, o: OperatorRow, u: Update, deviceId: Id, now: Time)
    requires Mirrors(row, kind, o) && Offered(kind, u)
    ensures var after := RowAfter(kind, row, u, now);
            Mirrors(after, kind, UpdatedOperator(o, TargetState(u), Some(deviceId), SummaryOf(u)))
                && RowKept(row, after)
  {
  }

  lemma UpdateSessionKeeps(db: Db, device: VerifiedDevice, kind: HandoffKind, id: Id, u: Update,
                           header: Option<string>, now: Time)
    requires Projected(db) && Offered(kind, u)
    ensures Keeps(db, UpdateSession(db, device, kind, id, u, header, now).0)
  {
    var r := UpdateSession(db, device, kind, id, u, header, now);
    if r.1.Refused? {
      FrameKeeps(db, r.0);
    } else {
      assert MirroredAt(db, kind, id);
      var row, o := Table(db, kind)[id], db.desk.operators[id];
      UpdateMirrors(kind, row, o, u, device.deviceId, now);
      WritingKeeps(db, r.0, kind, id, RowAfter(kind, row, u, now),
                   UpdatedOperator(o, TargetState(u), Some(device.deviceId), SummaryOf(u)));
    }
  }

  lemma OpenTuaKeeps(db: Db, device: VerifiedDevice, requestId: Id, id: Id, header: Option<string>, now: Time)
    requires Projected(db) && FreshSession(db, id)
    ensures Keeps(db, OpenTua(db, device, requestId, id, header, now).0)
  {
    var r := OpenTua(db, device, requestId, id, header, now);
    if r.1.Refused? {
      FrameKeeps(db, r.0);
    } else {
      var q := db.desk.requests[requestId];
      WritingKeeps(db, r.0, Tua, id, NewSession(q.nodeId, q.agentId, Active),
                   NewOperator(Tua, q.agentId, Active, Some(device.deviceId)));
    }
  }

  lemma OpenVoiceKeeps(db: Db, device: VerifiedDevice, o: Opening, header: Option<string>, now: Time)
    requires Projected(db) && FreshSession(db, o.id)
    ensures Keeps(db, OpenVoice(db, device, o, header, now).0)
  {
    var r := OpenVoice(db, device, o, header, now);
    if r.1.Refused? {
      FrameKeeps(db, r.0);
    } else {
      WritingKeeps(db, r.0, Voice, o.id, NewSession(db.config.nodeId, o.agentId, Active),
                   NewOperator(Voice, o.agentId, Active, Some(device.deviceId)));
    }
  }

  lemma DeskRouteKeeps(db: Db, device: VerifiedDevice, call: DeskCall, header: Option<string>, now: Time)
    requires Projected(db) && DeskCallOk(call) && DeviceInputOk(db, OnDesk(call), now)
    ensures Keeps(db, HandleDesk(db, device, call, header, now).0)
  {
    match call
    case TakeUpTua(requestId, id) => OpenTuaKeeps(db, device, requestId, id, header, now);
    case StartVoice(o) => OpenVoiceKeeps(db, device, o, header, now);
    case UpdateHandoff(kind, id, u) => UpdateSessionKeeps(db, device, kind, id, u, header, now);
  }

  lemma AskBrowserKeeps(db: Db, o: Opening, checked: bool, header: Option<string>, now: Time)
    requires Projected(db) && FreshSession(db, o.id)
    ensures Keeps(db, HandleAsk(db, AskBrowser(o, checked), header, now).0)
  {
    var r := HandleAsk(db, AskBrowser(o, checked), header, now);
    var nodeId := Or(o.nodeId, db.config.nodeId);
    if r.1.Refused? {
      FrameKeeps(db, r.0);
    } else {
      WritingKeeps(db, r.0, Browser, o.id, NewSession(nodeId, o.agentId, Requested),
                   NewOperator(Browser, o.agentId, Requested, None));
    }
  }

  lemma AskVoiceKeeps(db: Db, o: Opening, header: Option<string>, now: Time)
    requires Projected(db) && FreshSession(db, o.id)
    ensures Keeps(db, OpenVoiceFromRuntime(db, o, header, now).0)
  {
    var r := OpenVoiceFromRuntime(db, o, header, now);
    var nodeId := Or(o.nodeId, db.config.nodeId);
    if r.1.Refused? {
      FrameKeeps(db, r.0);
    } else {
      WritingKeeps(db, r.0, Voice, o.id, NewSession(nodeId, o.agentId, Active),
                   NewOperator(Voice, o.agentId, Active, None));
    }
  }

  lemma AskKeeps(db: Db, call: AskCall, header: Option<string>, now: Time)
    requires Projected(db) && AskInputOk(db, call)
    ensures Keeps(db, HandleAsk(db, call, header, now).0)
  {
    match call
    case AskTua(_, _) => FrameKeeps(db, HandleAsk(db, call, header, now).0);
    case AskBrowser(o, checked) => AskBrowserKeeps(db, o, checked, header, now);
    case AskVoice(o) => AskVoiceKeeps(db, o, header, now);
  }

  // ----- terminal routes: they write operator rows of their own sessions only -----

  /** An operator row without a terminal stays as it is, unless the id becomes a terminal, which
      takes an id that had no operator row. */
  ghost predicate TerminalWritesAt(a: Db, b: Db, id: Id) {
    id in a.desk.operators && id !in a.tui.rows ==>
      id !in b.tui.rows && id in b.desk.operators && b.desk.operators[id] == a.desk.operators[id]
  }

  ghost predicate TerminalWrites(a: Db, b: Db) {
    && b.desk == a.desk.(operators := b.desk.operators)
    && forall id :: TerminalWritesAt(a, b, id)
  }

  lemma TerminalWritesKeep(a: Db, b: Db)
    requires Projected(a) && TerminalWrites(a, b)
    ensures Keeps(a, b)
  {
    forall kind, id
      ensures MirroredAt(b, kind, id) && StampsAt(a, b, kind, id)
    {
      assert MirroredAt(a, kind, id) && TerminalWritesAt(a, b, id);
      assert Table(b, kind) == Table(a, kind);
    }
  }

  lemma StartTuiWrites(db: Db, deviceId: Id, nodeId: Id, q: TerminalSessions.TuiRequest, header: Option<string>,
                       now: Time)
    requires q.id !in db.desk.operators
    ensures TerminalWrites(db, TerminalSessions.StartTui(db, deviceId, nodeId, q, header, now).0)
  {
  }

  lemma CleanupWrites(db: Db, now: Time)
    ensures TerminalWrites(db, TerminalSessions.CleanupIdle(db, now))
  {
  }

  lemma CreateTuiWrites(db: Db, device: VerifiedDevice, q: TerminalSessions.TuiRequest, header: Option<string>,
                        now: Time)
    requires FreshSession(db, q.id)
    ensures TerminalWrites(db, TerminalSessions.CreateTui(db, device, q, header, now).0)
  {
    var r, d2, nodeId := TerminalSessions.CreateTui(db, device, q, header, now).0,
        TerminalSessions.CleanupIdle(db, now), Or(q.nodeId, db.config.nodeId);
    var started := TerminalSessions.StartTui(d2, device.deviceId, nodeId, q, header, now).0;
    CleanupWrites(db, now);
    StartTuiWrites(d2, device.deviceId, nodeId, q, header, now);
    WritesTransitive(db, d2, started);
    assert (r.desk == db.desk && r.tui == db.tui) || r == d2 || r == started;
  }

  lemma WritesTransitive(a: Db, b: Db, c: Db)
    requires TerminalWrites(a, b) && TerminalWrites(b, c)
    ensures TerminalWrites(a, c)
  {
    forall id
      ensures TerminalWritesAt(a, c, id)
    {
      assert TerminalWritesAt(a, b, id) && TerminalWritesAt(b, c, id);
    }
  }

  lemma RecordWrites(a: Db, db: Db, id: Id, closing: bool, deviceId: Id, header: Option<string>, now: Time)
    requires id in a.tui.rows && db.tui.rows.Keys == a.tui.rows.Keys && db.desk == a.desk
    ensures TerminalWrites(a, TerminalSessions.RecordStateChange(db, id, closing, deviceId, header, now))
  {
  }

  lemma FrameWrites(db: Db, id: Id, deviceId: Id, frame: TerminalSessions.Frame, now: Time)
    ensures TerminalWrites(db, TerminalSessions.HandleFrame(db, id, deviceId, frame, now).0)
  {
    if TerminalSessions.Running(db, id) && id in db.tui.rows {
      match frame
      case DetachFrame => RecordWrites(db, TerminalSessions.UpdateTui(db, id, Detached, now), id, false, deviceId,
                                       None, now);
      case CloseFrame => RecordWrites(db, TerminalSessions.ManagerClose(db, id, now), id, true, deviceId, None, now);
      case _ =>
    }
  }

  lemma SameWrites(a: Db, b: Db, c: Db)
    requires TerminalWrites(a, b) && c.desk == b.desk && c.tui.rows == b.tui.rows
    ensures TerminalWrites(a, c)
  {
    forall id
      ensures TerminalWritesAt(a, c, id)
    {
      assert TerminalWritesAt(a, b, id);
    }
  }

  lemma RoundWrites(db: Db, socket: Id, frame: TerminalSessions.Frame, now: Time)
    ensures TerminalWrites(db, TerminalSessions.SocketRound(db, socket, frame, now).0)
  {
    if socket in db.tui.sockets {
      var s, r := db.tui.sockets[socket], TerminalSessions.SocketRound(db, socket, frame, now).0;
      var d1 := TerminalSessions.HandleFrame(db, s.sessionId, s.deviceId, frame, now).0;
      FrameWrites(db, s.sessionId, s.deviceId, frame, now);
      assert r.desk == d1.desk && r.tui.rows == d1.tui.rows;
      SameWrites(db, d1, r);
    }
  }

  lemma EventWrites(db: Db, event: TerminalEvent, now: Time)
    ensures TerminalWrites(db, HandleTerminalEvent(db, event, now).0)
  {
    match event
    case Sends(socket, frame) => RoundWrites(db, socket, frame, now);
    case _ => assert HandleTerminalEvent(db, event, now).0.tui.rows.Keys == db.tui.rows.Keys;
  }

  lemma DetachWrites(db: Db, device: VerifiedDevice, id: Id, header: Option<string>, now: Time)
    ensures TerminalWrites(db, TerminalSessions.DetachTui(db, device, id, header, now).0)
  {
    if id in db.tui.rows {
      RecordWrites(db, TerminalSessions.UpdateTui(db, id, Detached, now), id, false, device.deviceId, header, now);
    }
  }

  lemma CloseWrites(db: Db, device: VerifiedDevice, id: Id, header: Option<string>, now: Time)
    ensures TerminalWrites(db, TerminalSessions.CloseTui(db, device, id, header, now).0)
  {
    if id in db.tui.rows {
      RecordWrites(db, TerminalSessions.ManagerClose(db, id, now), id, true, device.deviceId, header, now);
    }
  }

  lemma TerminalRouteWrites(db: Db, device: VerifiedDevice, call: TerminalCall, header: Option<string>, now: Time)
    requires call.StartTerminal? ==> FreshSession(db, call.request.id)
    ensures TerminalWrites(db, HandleTerminal(db, device, call, header, now).0)
  {
    match call
    case StartTerminal(q) => CreateTuiWrites(db, device, q, header, now);
    case DetachTerminal(id) => DetachWrites(db, device, id, header, now);
    case CloseTerminal(id) => CloseWrites(db, device, id, header, now);
    case _ => assert HandleTerminal(db, device, call, header, now).0.tui.rows.Keys == db.tui.rows.Keys;
  }

  // ----- steps and runs -----

  lemma DeviceRouteKeeps(db: Db, device: VerifiedDevice, call: DeviceCall, header: Option<string>, now: Time)
    requires Projected(db) && CallOk(call) && DeviceInputOk(db, call, now)
    ensures Keeps(db, HandleDevice(db, device, call, header, now).0)
  {
    match call
    case OnDesk(c) => DeskRouteKeeps(db, device, c, header, now);
    case OnTerminals(c) =>
      TerminalRouteWrites(db, device, c, header, now);
      TerminalWritesKeep(db, HandleTerminal(db, device, c, header, now).0);
    case _ => FrameKeeps(db, HandleDevice(db, device, call, header, now).0);
  }

  lemma SameDeskInput(a: Db, b: Db, call: DeviceCall, now: Time)
    requires a.desk == b.desk && a.tui == b.tui && (call.OnDesk? || call.OnTerminals?) && DeviceInputOk(a, call, now)
    ensures DeviceInputOk(b, call, now)
  {
  }

  lemma SignedKeepsProjection(db: Db, step: Step)
    requires step.action.Signed? && Admissible(db, step) && Projected(db)
    ensures Keeps(db, NextSigned(db, step.action.request, step.action.deviceCall, step.header, step.now).0)
  {
    var (d1, verified) := Signing.Verify(db, step.action.request, step.header, step.now);
    var call := step.action.deviceCall;
    FrameKeeps(db, d1);
    if verified.Success? {
      var r := HandleDevice(d1, verified.value, call, step.header, step.now).0;
      if call.OnDesk? || call.OnTerminals? {
        SameDeskInput(db, d1, call, step.now);
        DeviceRouteKeeps(d1, verified.value, call, step.header, step.now);
        KeepsTransitive(db, d1, r);
      } else {
        FrameKeeps(db, r);
      }
    }
  }

  lemma KeepsTransitive(a: Db, b: Db, c: Db)
    requires Keeps(a, b) && Keeps(b, c)
    ensures Keeps(a, c)
  {
    forall kind, id
      ensures StampsAt(a, c, kind, id)
    {
      assert StampsAt(a, b, kind, id) && StampsAt(b, c, kind, id);
    }
  }

  lemma LocalKeepsProjection(db: Db, step: Step)
    requires step.action.Local? && Admissible(db, step) && Projected(db)
    ensures Keeps(db, NextLocal(db, step.action.callerAllowed, step.action.runtimeCall, step.header, step.now).0)
  {
    var r := NextLocal(db, step.action.callerAllowed, step.action.runtimeCall, step.header, step.now).0;
    if step.action.callerAllowed && step.action.runtimeCall.OnHandoff? {
      AskKeeps(db, step.action.runtimeCall.askCall, step.header, step.now);
    } else {
      FrameKeeps(db, r);
    }
  }

  lemma NextKeepsProjection(db: Db, step: Step)
    requires Admissible(db, step) && Projected(db)
    ensures Keeps(db, Next(db, step).0)
  {
    match step.action
    case Signed(_, _) => SignedKeepsProjection(db, step);
    case Local(_, _) => LocalKeepsProjection(db, step);
    case OnTerminalEvent(event) =>
      EventWrites(db, event, step.now);
      TerminalWritesKeep(db, HandleTerminalEvent(db, event, step.now).0);
    case _ => FrameKeeps(db, Next(db, step).0);
  }

  lemma {:induction false} AlwaysProjected(run: Run, j: nat)
    requires IsRun(run) && Projected(run.states[0]) && j <= |run.steps|
    ensures Projected(run.states[j])
    decreases j
  {
    if j != 0 {
      AlwaysProjected(run, j - 1);
      assert Follows(run, j - 1);
      NextKeepsProjection(run.states[j - 1], run.steps[j - 1]);
    }
  }

  /** In every reachable state the operator table agrees with the three subtype tables, and between
      any two states of a run no summary or time stamp of a session is lost. */
  lemma {:induction false} ProjectionAgrees(run: Run, i: nat, j: nat)
    requires IsRun(run) && Projected(run.states[0]) && i <= j <= |run.steps|
    ensures Keeps(run.states[i], run.states[j])
    decreases j
  {
    AlwaysProjected(run, j);
    if i < j {
      ProjectionAgrees(run, i, j - 1);
      assert Follows(run, j - 1);
      NextKeepsProjection(run.states[j - 1], run.steps[j - 1]);
      KeepsTransitive(run.states[i], run.states[j - 1], run.states[j]);
    }
  }

  lemma FreshIsProjected(config: Config)
    ensures Projected(Fleet.FreshDb(config))
  {
    forall kind, id
      ensures MirroredAt(Fleet.FreshDb(config), kind, id)
    {
    }
  }

  /** From a fresh gateway on, then, without any assumption on the first state. */
  lemma FreshRunsAgree(config: Config, run: Run, i: nat, j: nat)
    requires IsRun(run) && run.states[0] == Fleet.FreshDb(config) && i <= j <= |run.steps|
    ensures Keeps(run.states[i], run.states[j])
  {
    FreshIsProjected(config);
    ProjectionAgrees(run, i, j);
  }
}
