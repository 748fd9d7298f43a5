/** TUA, browser and voice sessions, and the shared operator_sessions row that mirrors each. */
module Handoffs {
  import opened Wrappers
  import opened Records
  import opened Tables
  import Capabilities
  import Fleet

  function Table(db: Db, kind: HandoffKind): map<Id, HandoffRow> {
    match kind
    case Tua => db.desk.tua
    case Browser => db.desk.browser
    case Voice => db.desk.voice
  }

  function PutSession(db: Db, kind: HandoffKind, id: Id, row: HandoffRow): (r: Db)
    ensures Quiet(db, r) && r == db.(desk := r.desk) && r.desk.operators == db.desk.operators
              && r.desk.requests == db.desk.requests
    ensures forall k :: Table(r, k) == if k == kind then Table(db, k)[id := row] else Table(db, k)
  {
    match kind
    case Tua => db.(desk := db.desk.(tua := db.desk.tua[id := row]))
    case Browser => db.(desk := db.desk.(browser := db.desk.browser[id := row]))
    case Voice => db.(desk := db.desk.(voice := db.desk.voice[id := row]))
  }

  function PutOperator(db: Db, id: Id, row: OperatorRow): (r: Db)
    ensures Quiet(db, r) && r == db.(desk := db.desk.(operators := db.desk.operators[id := row]))
  {
    db.(desk := db.desk.(operators := db.desk.operators[id := row]))
  }

  /** An upsert: owner and summary of an older row survive a null. */
  function CreateOperator(db: Db, id: Id, row: OperatorRow): (r: Db)
    ensures Quiet(db, r) && r == db.(desk := db.desk.(operators := r.desk.operators))
    ensures id !in db.desk.operators ==> r.desk.operators == db.desk.operators[id := row]
  {
    var kept := if id in db.desk.operators then db.desk.operators[id] else row;
    PutOperator(db, id, row.(owner := Coalesce(row.owner, kept.owner),
                             returnSummary := Coalesce(row.returnSummary, kept.returnSummary)))
  }

  function UpdatedOperator(row: OperatorRow, state: SessionState, owner: Option<Id>,
                           summary: Option<string>): OperatorRow {
    row.(state := state, owner := Coalesce(owner, row.owner), returnSummary := Coalesce(summary, row.returnSummary))
  }

  function UpdateOperatorIfExists(db: Db, id: Id, state: SessionState, owner: Option<Id>,
                                  summary: Option<string>): (r: Db)
    ensures Quiet(db, r) && r == db.(desk := db.desk.(operators := r.desk.operators))
  {
    if id in db.desk.operators then PutOperator(db, id, UpdatedOperator(db.desk.operators[id], state, owner, summary))
        else db
  }

  // ----- updates of the subtype tables -----

  /** Which states stamp closed_at differs from table to table. */
  predicate StampsClosed(kind: HandoffKind, state: SessionState) {
    match kind
    case Tua => state == Closed || state == Withdrawn
    case Browser => state == Closed || state == Failed
    case Voice => state == Closed
  }

  function UpdatedSession(kind: HandoffKind, row: HandoffRow, state: SessionState, summary: Option<string>,
                          now: Time): HandoffRow {
    row.(
      state := state,
      returnSummary := if kind == Voice then row.returnSummary else Coalesce(summary, row.returnSummary),
      returnedAt := if kind != Voice && state == ReturnedToAgent then Some(now) else row.returnedAt,
      closedAt := if StampsClosed(kind, state) then Some(now) else row.closedAt)
  }

  function NewSession(nodeId: Id, agentId: Id, state: SessionState): HandoffRow {
    HandoffRow(nodeId, agentId, state, None, [], None, None)
  }

  function NewOperator(kind: HandoffKind, agentId: Id, state: SessionState, owner: Option<Id>): OperatorRow {
    OperatorRow(Handoff(kind), agentId, state, owner, None)
  }

  function CapabilityOf(kind: HandoffKind): Capability {
    match kind
    case Tua => TuaAccess
    case Browser => BrowserAccess
    case Voice => VoiceAccess
  }

  function HandoffEntry(kind: HandoffKind, what: string, actorType: string, actorId: Id, nodeId: Id, agentId: Id,
                        payload: AuditPayload, header: Option<string>): AuditEntry {
    AuditEntry(HandoffAudit(kind, what), actorType, actorId, nodeId, header, payload, RefsOf(agentId, None, None))
  }

  // ----- creation -----

  /** The session row and its operator row, one audit row and one event. */
  function OpenSession(db: Db, kind: HandoffKind, id: Id, nodeId: Id, agentId: Id, state: SessionState,
                       owner: Option<Id>, entry: AuditEntry, note: string): (r: Db)
    requires !entry.kind.Settles()
    ensures Quiet(db, r) && r == db.(log := r.log, desk := r.desk) && r.desk.requests == db.desk.requests
  {
    var d1 := PutSession(db, kind, id, NewSession(nodeId, agentId, state));
    var d2 := AppendAudit(d1, entry);
    var d3 := CreateOperator(d2, id, NewOperator(kind, agentId, state, owner));
    CreateEvent(d3, nodeId, Note(note, id))
  }

  datatype Opening = Opening(id: Id, nodeId: Option<Id>, agentId: Id, sessionId: Id)

  /** A TUA request; the adapter's route is capability-checked and marks the agent as waiting. */
  function RequestTua(db: Db, o: Opening, header: Option<string>): (r: Db)
    ensures Quiet(db, r) && r == db.(log := r.log, desk := db.desk.(requests := r.desk.requests))
  {
    var nodeId := Or(o.nodeId, db.config.nodeId);
    var d1 := db.(desk :=
                  db.desk.(requests := db.desk.requests[o.id := AssistanceRequestRow(nodeId, o.agentId, o.sessionId,
                      Requested)]));
    var d2 := AppendAudit(d1, HandoffEntry(Tua, "tua_request_created", "hermes", o.agentId, nodeId, o.agentId,
                                           About(o.id), header));
    CreateEvent(d2, nodeId, Note("tua.requested", o.id))
  }

  function RequestTuaFromRuntime(db: Db, o: Opening, header: Option<string>, now: Time): (r: (Db, Reply))
    ensures Extends(db, r.0)
    ensures r.0 == db.(log := r.0.log, fleet := r.0.fleet, desk := db.desk.(requests := r.0.desk.requests))
  {
    var nodeId := Or(o.nodeId, db.config.nodeId);
    var (d1, ok) := Capabilities.RequireRuntime(db, o.agentId, TuaAccess, header, Some(nodeId), Some(o.agentId), now);
    if !ok then (d1, Refused(403))
    else
      var d2 := Fleet.SetAgentRuntimeState(db, nodeId, o.agentId, Some(o.sessionId), "waiting_assistance", None);
      (RequestTua(d2, o, header), Done)
  }

  /** A device takes up a TUA request. */
  function OpenTua(db: Db, device: VerifiedDevice, requestId: Id, id: Id, header: Option<string>,
                   now: Time): (r: (Db, Reply))
    ensures Quiet(db, r.0) && r.0 == db.(log := r.0.log, desk := r.0.desk)
  {
    if requestId !in db.desk.requests then (db, Refused(404))
    else
      var q := db.desk.requests[requestId];
      var (d1, ok) := Capabilities.RequireDevice(db, device, TuaAccess, header, Some(q.nodeId), Some(q.agentId), now);
      if !ok then (d1, Refused(403))
      else
        var d2 := db.(desk := db.desk.(requests := db.desk.requests[requestId := q.(state := Active)]));
        var entry := HandoffEntry(Tua, "tua_session_created", "device", device.deviceId, q.nodeId, q.agentId,
                                  About(id), header);
        (OpenSession(d2, Tua, id, q.nodeId, q.agentId, Active, Some(device.deviceId), entry, "tua.session.created"),
         Done)
  }

  function OpenBrowser(db: Db, o: Opening, header: Option<string>): (r: Db)
    ensures Quiet(db, r) && r == db.(log := r.log, desk := r.desk) && r.desk.requests == db.desk.requests
  {
    var nodeId := Or(o.nodeId, db.config.nodeId);
    var entry := HandoffEntry(Browser, "browser_assistance_requested", "hermes", o.agentId, nodeId, o.agentId,
                              About(o.id), header);
    OpenSession(db, Browser, o.id, nodeId, o.agentId, Requested, None, entry, "browser_assistance.requested")
  }

  function OpenBrowserFromRuntime(db: Db, o: Opening, header: Option<string>, now: Time): (r: (Db, Reply))
    ensures Extends(db, r.0) && r.0 == db.(log := r.0.log, fleet := r.0.fleet, desk := r.0.desk)
  {
    var nodeId := Or(o.nodeId, db.config.nodeId);
    var (d1, ok) := Capabilities.RequireRuntime(db, o.agentId, BrowserAccess, header, Some(nodeId), Some(o.agentId),
                                                now);
    if !ok then (d1, Refused(403))
    else
      var d2 := PutSession(db, Browser, o.id, NewSession(nodeId, o.agentId, Requested));
      var d3 := CreateOperator(d2, o.id, NewOperator(Browser, o.agentId, Requested, None));
      var d4 := Fleet.SetAgentRuntimeState(d3, nodeId, o.agentId, Some(o.sessionId), "waiting_assistance", None);
      var d5 := AppendAudit(d4, HandoffEntry(Browser, "browser_assistance_requested", "hermes", o.agentId, nodeId,
                                             o.agentId, About(o.id), header));
      (CreateEvent(d5, nodeId, Note("browser_assistance.requested", o.id)), Done)
  }

  function OpenVoice(db: Db, device: VerifiedDevice, o: Opening, header: Option<string>, now: Time): (r: (Db, Reply))
    ensures Quiet(db, r.0) && r.0 == db.(log := r.0.log, desk := r.0.desk)
  {
    var nodeId := db.config.nodeId;
    var (d1, ok) := Capabilities.RequireDevice(db, device, VoiceAccess, header, None, Some(o.agentId), now);
    if !ok then (d1, Refused(403))
    else
      var entry := HandoffEntry(Voice, "voice_session_created", "device", device.deviceId, nodeId, o.agentId,
                                About(o.id), header);
      (OpenSession(db, Voice, o.id, nodeId, o.agentId, Active, Some(device.deviceId), entry, "voice.session.created"),
       Done)
  }

  function OpenVoiceFromRuntime(db: Db, o: Opening, header: Option<string>, now: Time): (r: (Db, Reply))
    ensures Quiet(db, r.0) && r.0 == db.(log := r.0.log, desk := r.0.desk)
  {
    var nodeId := Or(o.nodeId, db.config.nodeId);
    var (d1, ok) := Capabilities.RequireRuntime(db, o.agentId, VoiceAccess, header, Some(nodeId), Some(o.agentId), now);
    if !ok then (d1, Refused(403))
    else
      var d2 := PutSession(db, Voice, o.id, NewSession(nodeId, o.agentId, Active));
      var d3 := CreateOperator(d2, o.id, NewOperator(Voice, o.agentId, Active, None));
      var d4 := AppendAudit(d3, HandoffEntry(Voice, "voice_session_created", "hermes", o.agentId, nodeId, o.agentId,
                                             About(o.id), header));
      (CreateEvent(d4, nodeId, Note("voice.session.created", o.id)), Done)
  }

  // ----- updates by a device -----

  datatype Update =
    | ReturnControl(summary: string)
    | CloseSession
    | AddNote(note: string)

  function TargetState(u: Update): SessionState {
    match u
    case ReturnControl(_) => ReturnedToAgent
    case CloseSession => Closed
    case AddNote(_) => UserControlling
  }

  function SummaryOf(u: Update): Option<string> {
    if u.ReturnControl? then Some(u.summary) else None
  }

  /** Notes exist for browser sessions only, returning control for TUA and browser sessions. */
  predicate Offered(kind: HandoffKind, u: Update) {
    u.CloseSession? || (u.ReturnControl? && kind != Voice) || (u.AddNote? && kind == Browser)
  }

  function RowAfter(kind: HandoffKind, row: HandoffRow, u: Update, now: Time): HandoffRow {
    if u.AddNote? then row.(notes := row.notes + [u.note], state := UserControlling)
    else UpdatedSession(kind, row, TargetState(u), SummaryOf(u), now)
  }

  function UpdateEntry(kind: HandoffKind, row: HandoffRow, u: Update, deviceId: Id,
                       header: Option<string>): AuditEntry {
    var what := match u
      case ReturnControl(_) => "returned_to_agent"
      case CloseSession => "closed"
      case AddNote(_) => "event_recorded";
    var payload := match u
      case ReturnControl(s) => Size(|s|)
      case CloseSession => Empty
      case AddNote(n) => Size(|n|);
    HandoffEntry(kind, what, "device", deviceId, row.nodeId, row.agentId, payload, header)
  }

  function NoteName(kind: HandoffKind, u: Update): string {
    match kind
    case Tua => if u.CloseSession? then "tua.closed" else "tua.returned_to_agent"
    case Browser =>
      if u.CloseSession? then "browser_assistance.closed"
      else if u.AddNote? then "browser_assistance.event" else "browser_assistance.returned_to_agent"
    case Voice => "voice.session.closed"
  }

  /** The handlers for return-control, close and browser notes: capability check, session row, audit
      row, event, operator row. */
  function UpdateSession(db: Db, device: VerifiedDevice, kind: HandoffKind, id: Id, u: Update, header: Option<string>,
                         now: Time): (r: (Db, Reply))
    requires Offered(kind, u)
    ensures Quiet(db, r.0) && r.0 == db.(log := r.0.log, desk := r.0.desk) && r.0.desk.requests == db.desk.requests
  {
    if id !in Table(db, kind) then (db, Refused(404))
    else
      var row := Table(db, kind)[id];
      var (d1, ok) := Capabilities.RequireDevice(db, device, CapabilityOf(kind), header, Some(row.nodeId),
                                                 Some(row.agentId), now);
      if !ok then (d1, Refused(403))
      else
        var d2 := PutSession(db, kind, id, RowAfter(kind, row, u, now));
        var d3 := AppendAudit(d2, UpdateEntry(kind, row, u, device.deviceId, header));
        var d4 := CreateEvent(d3, row.nodeId, Note(NoteName(kind, u), id));
        (UpdateOperatorIfExists(d4, id, TargetState(u), Some(device.deviceId), SummaryOf(u)), Done)
  }
}
