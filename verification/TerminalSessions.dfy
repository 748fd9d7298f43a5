/** Terminal sessions: store rows, the manager's in-memory map of processes, and the routes and
    websocket frames that drive both. A process is only known to be running or exited. */
module TerminalSessions {
  import opened Wrappers
  import opened Records
  import opened Tables
  import Capabilities
  import Handoffs

  predicate IsOpen(state: SessionState) {
    state == Requested || state == Active || state == Detached
  }

  function OpenIds(rows: map<Id, TuiRow>): set<Id> {
    set id | id in rows && IsOpen(rows[id].state)
  }

  function UpdatedTui(row: TuiRow, state: SessionState, now: Time): TuiRow {
    row.(state := state, lastActivityAt := now, closedAt := if state == Closed || state == Failed then Some(now)
         else row.closedAt)
  }

  function PutTui(db: Db, id: Id, row: TuiRow): (r: Db)
    ensures Quiet(db, r) && r == db.(tui := db.tui.(rows := db.tui.rows[id := row]))
  {
    db.(tui := db.tui.(rows := db.tui.rows[id := row]))
  }

  function UpdateTui(db: Db, id: Id, state: SessionState, now: Time): (r: Db)
    ensures Quiet(db, r) && r == db.(tui := db.tui.(rows := r.tui.rows))
  {
    if id in db.tui.rows then PutTui(db, id, UpdatedTui(db.tui.rows[id], state, now)) else db
  }

  function TouchTui(db: Db, id: Id, now: Time): (r: Db)
    ensures Quiet(db, r) && r == db.(tui := db.tui.(rows := r.tui.rows))
  {
    if id in db.tui.rows then PutTui(db, id, db.tui.rows[id].(lastActivityAt := now)) else db
  }

  function AddAuditRef(db: Db, id: Id): (r: Db)
    ensures Quiet(db, r) && r == db.(tui := db.tui.(rows := r.tui.rows))
  {
    if id in db.tui.rows && db.log.audit != [] then
      PutTui(db, id, db.tui.rows[id].(
        auditRefs := db.tui.rows[id].auditRefs + [db.log.audit[|db.log.audit| - 1].content.auditEventId]))
    else db
  }

  function SetRuntimes(db: Db, runtimes: map<Id, bool>): (r: Db)
    ensures Quiet(db, r)
  {
    db.(tui := db.tui.(runtimes := runtimes))
  }

  predicate Running(db: Db, id: Id) {
    id in db.tui.runtimes && db.tui.runtimes[id]
  }

  // ----- the manager -----

  function ManagerClose(db: Db, id: Id, now: Time): (r: Db)
    ensures Quiet(db, r) && r == db.(tui := db.tui.(rows := r.tui.rows, runtimes := r.tui.runtimes))
  {
    UpdateTui(SetRuntimes(db, db.tui.runtimes - {id}), id, Closed, now)
  }

  predicate Idle(db: Db, id: Id, now: Time) {
    && id in db.tui.rows
    && IsOpen(db.tui.rows[id].state)
    && db.config.tuiIdleTimeout * SECOND <= now - db.tui.rows[id].lastActivityAt
  }

  /** Closing a whole set of sessions at once. */
  function CloseThem(db: Db, ids: set<Id>, now: Time): (r: Db)
    ensures Quiet(db, r) && r == db.(tui := db.tui.(rows := r.tui.rows, runtimes := r.tui.runtimes))
  {
    var rows := map id | id in db.tui.rows :: if id in ids then UpdatedTui(db.tui.rows[id], Closed, now)
        else db.tui.rows[id];
    db.(tui := db.tui.(rows := rows, runtimes := db.tui.runtimes - ids))
  }

  function CleanupIdle(db: Db, now: Time): (r: Db)
    ensures Quiet(db, r) && r == db.(tui := db.tui.(rows := r.tui.rows, runtimes := r.tui.runtimes))
  {
    CloseThem(db, (set id | id in db.tui.rows && Idle(db, id, now)), now)
  }

  // ----- routes -----

  function TuiEntry(row: TuiRow, id: Id, what: string, deviceId: Id, payload: AuditPayload,
                    header: Option<string>): AuditEntry {
    AuditEntry(TuiAudit(what), "device", deviceId, row.nodeId, header, payload, RefsOf(row.agentId, Some(id), None))
  }

  /** `problem` is the status code of a rejected command or directory, `failure` that of a start that
      failed: 503 without POSIX, 500 when no process could be spawned. */
  datatype TuiRequest = TuiRequest(
    id: Id, nodeId: Option<Id>, agentId: Id, command: string, problem: Option<nat>, failure: Option<nat>)

  predicate TuiOffered(db: Db, nodeId: Id, agentId: Id) {
    && nodeId in db.fleet.nodes
    && AgentKey(nodeId, agentId) in db.fleet.agents
    && (Capabilities.Offers(db.fleet.nodes[nodeId], "tui")
        || Capabilities.Offers(db.fleet.agents[AgentKey(nodeId, agentId)].capabilities, "tui"))
  }

  /** A process was spawned: it runs, its row is active and names the audit row of the start. */
  function LaunchTui(db: Db, deviceId: Id, row: TuiRow, q: TuiRequest, header: Option<string>, now: Time): (r: Db)
    ensures Quiet(db, r) && r == db.(log := r.log, tui := r.tui)
    ensures q.id in db.tui.rows ==>
              && q.id in r.tui.rows && r.tui.rows[q.id].state == Active
              && r.tui == db.tui.(rows := db.tui.rows[q.id := r.tui.rows[q.id]],
                                  runtimes := db.tui.runtimes[q.id := true])
  {
    var d2 := UpdateTui(SetRuntimes(db, db.tui.runtimes[q.id := true]), q.id, Active, now);
    AddAuditRef(AppendAudit(d2, TuiEntry(row, q.id, "created", deviceId, About(q.command), header)), q.id)
  }

  /** Row, process, audit row with its reference, operator row, event. */
  function StartTui(db: Db, deviceId: Id, nodeId: Id, q: TuiRequest, header: Option<string>,
                    now: Time): (r: (Db, Reply))
    ensures Quiet(db, r.0) && r.0 == db.(log := r.0.log, desk := db.desk.(operators := r.0.desk.operators),
                                         tui := r.0.tui)
  {
    var row := TuiRow(q.agentId, nodeId, deviceId, Requested, now, None, []);
    var d1 := PutTui(db, q.id, row);
    if q.failure.Some? then (UpdateTui(d1, q.id, Failed, now), Refused(q.failure.value))
    else
      var d3 := LaunchTui(d1, deviceId, row, q, header, now);
      var d4 := Handoffs.CreateOperator(d3, q.id, OperatorRow(Terminal, q.agentId, Active, Some(deviceId), None));
      (CreateEvent(d4, nodeId, Note("tui.session.state", q.id)), Done)
  }

  function CreateTui(db: Db, device: VerifiedDevice, q: TuiRequest, header: Option<string>, now: Time): (r: (Db, Reply))
    ensures Quiet(db, r.0) && r.0 == db.(log := r.0.log, desk := db.desk.(operators := r.0.desk.operators),
                                         tui := r.0.tui)
  {
    var nodeId := Or(q.nodeId, db.config.nodeId);
    var (d1, ok) := Capabilities.RequireDevice(db, device, TuiAccess, header, Some(nodeId), Some(q.agentId), now);
    if !ok then (d1, Refused(403))
    else
      var d2 := CleanupIdle(db, now);
      if |OpenIds(d2.tui.rows)| >= db.config.tuiMaxSessions then (d2, Refused(429))
      else if q.problem.Some? then (d2, Refused(q.problem.value))
      else if !TuiOffered(db, nodeId, q.agentId) then (d2, Refused(403))
      else StartTui(d2, device.deviceId, nodeId, q, header, now)
  }

  function OwnerProblem(db: Db, device: VerifiedDevice, id: Id): Option<nat> {
    if id !in db.tui.rows then Some(404)
    else if db.tui.rows[id].deviceId != device.deviceId then Some(403)
    else None
  }

  /** Writes the target state again, then operator row, audit row with its reference, event. */
  function RecordStateChange(db: Db, id: Id, closing: bool, deviceId: Id, header: Option<string>, now: Time): (r: Db)
    requires id in db.tui.rows
    ensures Quiet(db, r) && r == db.(log := r.log, desk := db.desk.(operators := r.desk.operators),
                                     tui := db.tui.(rows := r.tui.rows))
  {
    var state := if closing then Closed else Detached;
    var d1 := UpdateTui(db, id, state, now);
    var d2 := Handoffs.UpdateOperatorIfExists(d1, id, state, Some(deviceId), None);
    var d3 := AppendAudit(d2, TuiEntry(db.tui.rows[id], id, if closing then "closed" else "detached", deviceId,
                                       StateDetails(state), header));
    CreateEvent(AddAuditRef(d3, id), db.tui.rows[id].nodeId, Note("tui.session.state", id))
  }

  function DetachTui(db: Db, device: VerifiedDevice, id: Id, header: Option<string>, now: Time): (r: (Db, Reply))
    ensures Quiet(db, r.0) && r.0 == db.(log := r.0.log, desk := db.desk.(operators := r.0.desk.operators),
                                         tui := db.tui.(rows := r.0.tui.rows))
  {
    var problem := OwnerProblem(db, device, id);
    if problem.Some? then (db, Refused(problem.value))
    else if !IsOpen(db.tui.rows[id].state) then (db, Refused(409))
    else (RecordStateChange(UpdateTui(db, id, Detached, now), id, false, device.deviceId, header, now), Done)
  }

  function CloseTui(db: Db, device: VerifiedDevice, id: Id, header: Option<string>, now: Time): (r: (Db, Reply))
    ensures Quiet(db, r.0) && r.0 == db.(log := r.0.log, desk := db.desk.(operators := r.0.desk.operators),
                                         tui := r.0.tui)
  {
    var problem := OwnerProblem(db, device, id);
    if problem.Some? then (db, Refused(problem.value))
    else if db.tui.rows[id].state == Closed then (db, Done)
    else (RecordStateChange(ManagerClose(db, id, now), id, true, device.deviceId, header, now), Done)
  }

  function ReadTui(db: Db, device: VerifiedDevice, id: Id, now: Time): (r: (Db, Reply))
    ensures Quiet(db, r.0) && r.0 == db.(tui := db.tui.(rows := r.0.tui.rows, runtimes := r.0.tui.runtimes))
  {
    var d1 := CleanupIdle(db, now);
    var problem := OwnerProblem(d1, device, id);
    (d1, if problem.Some? then Refused(problem.value) else Done)
  }

  function CreateAttachToken(db: Db, device: VerifiedDevice, id: Id, token: string, header: Option<string>,
                             now: Time): (r: (Db, Reply))
    ensures Quiet(db, r.0) && r.0 == db.(log := r.0.log, tui := db.tui.(attach := r.0.tui.attach))
  {
    var (d1, ok) := Capabilities.RequireDevice(db, device, TuiAccess, header, None, None, now);
    var problem := OwnerProblem(db, device, id);
    if !ok then (d1, Refused(403))
    else if problem.Some? then (db, Refused(problem.value))
    else if !IsOpen(db.tui.rows[id].state) then (db, Refused(409))
    else
      var row := AttachRow(id, device.deviceId, now + db.config.tuiAttachTtl * SECOND, None);
      var d2 := db.(tui := db.tui.(attach := db.tui.attach[db.config.tokenHash(token) := row]));
      (AppendAudit(d2, TuiEntry(db.tui.rows[id], id, "attach_token_created", device.deviceId, Empty, header)), Done)
  }

  // ----- websocket -----

  predicate AttachTokenAccepted(db: Db, token: Option<string>, now: Time) {
    && Given(token)
    && db.config.tokenHash(token.value) in db.tui.attach
    && now < db.tui.attach[db.config.tokenHash(token.value)].expiresAt
  }

  /** A readable token is stamped as used even if the session then turns out not attachable. */
  function Connect(db: Db, token: Option<string>, id: Id, now: Time): (r: (Db, Reply))
    ensures Quiet(db, r.0) && r.0 == db.(tui := db.tui.(rows := r.0.tui.rows, attach := r.0.tui.attach))
  {
    if !AttachTokenAccepted(db, token, now) then (db, Refused(1008))
    else
      var hash := db.config.tokenHash(token.value);
      var attach := db.tui.attach[hash];
      var d1 := db.(tui := db.tui.(attach := db.tui.attach[hash := attach.(usedAt := Some(now))]));
      if id !in db.tui.rows || attach.sessionId != id || db.tui.rows[id].deviceId != attach.deviceId
         || !IsOpen(db.tui.rows[id].state) || !Running(db, id)
      then (d1, Refused(1008))
      else (UpdateTui(d1, id, Active, now), Done)
  }

  function SetSockets(db: Db, sockets: map<Id, Socket>): (r: Db)
    ensures Quiet(db, r)
  {
    db.(tui := db.tui.(sockets := sockets))
  }

  /** A socket that attached is open from then on, for the session and the device of its token. */
  function OpenSocket(db: Db, token: Option<string>, id: Id, socket: Id, now: Time): (r: (Db, Reply))
    ensures Quiet(db, r.0)
    ensures r.0 == db.(tui := db.tui.(rows := r.0.tui.rows, attach := r.0.tui.attach, sockets := r.0.tui.sockets))
  {
    var (d1, reply) := Connect(db, token, id, now);
    if reply == Done then
      var wire := Socket(id, db.tui.attach[db.config.tokenHash(token.value)].deviceId);
      (SetSockets(d1, d1.tui.sockets[socket := wire]), reply)
    else (d1, reply)
  }

  /** `Unreadable` is a frame that fails validation, or a resize without usable sizes. */
  datatype Frame =
    | Ping | Resize(valid: bool) | Input(text: string) | Paste(text: string) | Unreadable
    | DetachFrame | CloseFrame | Disconnect
  {
    /** Does the socket loop end with this frame? */
    predicate Last() {
      Unreadable? || DetachFrame? || CloseFrame? || Disconnect?
    }
  }

  /** What a frame does; every round of the socket loop first checks that the process still runs. */
  function HandleFrame(db: Db, id: Id, deviceId: Id, frame: Frame, now: Time): (r: (Db, Reply))
    ensures Quiet(db, r.0) && r.0 == db.(log := r.0.log, desk := db.desk.(operators := r.0.desk.operators),
                                         tui := r.0.tui)
  {
    if !Running(db, id) || id !in db.tui.rows then (db, Refused(410))
    else
      var row := db.tui.rows[id];
      match frame
      case Ping => (db, Done)
      case Unreadable => (db, Done)
      case Resize(valid) => (if valid then TouchTui(db, id, now) else db, Done)
      case Input(text) =>
        var d1 := if text == "" then db else TouchTui(db, id, now);
        (AddAuditRef(AppendAudit(d1, TuiEntry(row, id, "input_sent", deviceId, Size(|text|), None)), id), Done)
      case Paste(text) =>
        var d1 := if text == "" then db else TouchTui(db, id, now);
        (AddAuditRef(AppendAudit(d1, TuiEntry(row, id, "paste_sent", deviceId, Size(|text|), None)), id), Done)
      case DetachFrame => (RecordStateChange(UpdateTui(db, id, Detached, now), id, false, deviceId, None, now), Done)
      case CloseFrame => (RecordStateChange(ManagerClose(db, id, now), id, true, deviceId, None, now), Done)
      case Disconnect => (UpdateTui(db, id, Detached, now), Done)
  }

  /** One round of the socket loop: the frame acts for the session and the device the socket was opened
      for, and the loop ends with it or with the process. A closed socket brings no frames. */
  function SocketRound(db: Db, socket: Id, frame: Frame, now: Time): (r: (Db, Reply))
    ensures Quiet(db, r.0) && r.0 == db.(log := r.0.log, desk := db.desk.(operators := r.0.desk.operators),
                                         tui := r.0.tui)
  {
    if socket !in db.tui.sockets then (db, Refused(1006))
    else
      var s := db.tui.sockets[socket];
      var (d1, reply) := HandleFrame(db, s.sessionId, s.deviceId, frame, now);
      if reply.Refused? || frame.Last() then (SetSockets(d1, d1.tui.sockets - {socket}), reply) else (d1, reply)
  }

  // ----- process events -----

  function ProcessExit(db: Db, id: Id): (r: Db)
    ensures Quiet(db, r) && r == db.(tui := db.tui.(runtimes := r.tui.runtimes))
  {
    if id in db.tui.runtimes then SetRuntimes(db, db.tui.runtimes[id := false]) else db
  }

  /** The reader task of an exited process drops it from the map and closes an open row. */
  function ReaderEnd(db: Db, id: Id, now: Time): (r: Db)
    ensures Quiet(db, r) && r == db.(tui := db.tui.(rows := r.tui.rows, runtimes := r.tui.runtimes))
  {
    if id in db.tui.runtimes && !db.tui.runtimes[id] then
      var d1 := SetRuntimes(db, db.tui.runtimes - {id});
      if id in db.tui.rows && IsOpen(db.tui.rows[id].state) then UpdateTui(d1, id, Closed, now) else d1
    else db
  }

  function Shutdown(db: Db, now: Time): (r: Db)
    ensures Quiet(db, r) && r == db.(tui := db.tui.(rows := r.tui.rows, runtimes := r.tui.runtimes))
  {
    CloseThem(db, db.tui.runtimes.Keys, now)
  }

  /** A new process: rows survive, what was in memory does not. */
  function Forget(db: Db): (r: Db)
    ensures Quiet(db, r)
  {
    SetSockets(SetRuntimes(db, map[]), map[])
  }
}
