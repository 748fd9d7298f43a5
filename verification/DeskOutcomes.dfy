/** What each handoff route leaves: request, session and operator row, audit row and event, by
    constructor. */
module DeskOutcomes {
  import opened Wrappers
  import opened Records
  import opened Tables
  import opened Handoffs
  import opened Machine
  import Capabilities
  import Fleet
  import TrustOutcomes

  function Rows(desk: Desk, kind: HandoffKind): map<Id, HandoffRow> {
    match kind
    case Tua => desk.tua
    case Browser => desk.browser
    case Voice => desk.voice
  }

  function WithRow(desk: Desk, kind: HandoffKind, id: Id, row: HandoffRow): Desk {
    match kind
    case Tua => desk.(tua := desk.tua[id := row])
    case Browser => desk.(browser := desk.browser[id := row])
    case Voice => desk.(voice := desk.voice[id := row])
  }

  /** The shared row of a session that starts; of an older row under its id, owner and summary survive. */
  function WithOperator(desk: Desk, kind: HandoffKind, id: Id, agentId: Id, state: SessionState,
                        owner: Option<Id>): Desk {
    var kept := if id in desk.operators then desk.operators[id] else OperatorRow(Handoff(kind), "", Active, None, None);
    desk.(operators := desk.operators[id := OperatorRow(Handoff(kind), agentId, state,
                                                        if owner.Some? then owner else kept.owner,
                                                        kept.returnSummary)])
  }

  /** One audit row about the agent, then one event. */
  function Announced(db: Db, kind: HandoffKind, what: string, actorType: string, actorId: Id, nodeId: Id, agentId: Id,
                     payload: AuditPayload, header: Option<string>, note: string, id: Id): Db {
    CreateEvent(AppendAudit(db, AuditEntry(HandoffAudit(kind, what), actorType, actorId, nodeId, header, payload,
                                           AuditRefs(Some(agentId), None, None))), nodeId, Note(note, id))
  }

  // ----- returning, closing, noting -----

  /** The session row after each update. */
  function RowLeft(row: HandoffRow, u: Update, now: Time): HandoffRow {
    match u
    case ReturnControl(s) =>
      HandoffRow(row.nodeId, row.agentId, ReturnedToAgent, Some(s), row.notes, Some(now), row.closedAt)
    case CloseSession =>
      HandoffRow(row.nodeId, row.agentId, Closed, row.returnSummary, row.notes, row.returnedAt, Some(now))
    case AddNote(n) =>
      HandoffRow(row.nodeId, row.agentId, UserControlling, row.returnSummary, row.notes + [n], row.returnedAt,
                 row.closedAt)
  }

  /** And the operator row. */
  function OperatorLeft(o: OperatorRow, u: Update, deviceId: Id): OperatorRow {
    match u
    case ReturnControl(s) => OperatorRow(o.kind, o.agentId, ReturnedToAgent, Some(deviceId), Some(s))
    case CloseSession => OperatorRow(o.kind, o.agentId, Closed, Some(deviceId), o.returnSummary)
    case AddNote(_) => OperatorRow(o.kind, o.agentId, UserControlling, Some(deviceId), o.returnSummary)
  }

  function Updated(desk: Desk, kind: HandoffKind, id: Id, u: Update, deviceId: Id, now: Time): Desk
    requires id in Rows(desk, kind)
  {
    var d1 := WithRow(desk, kind, id, RowLeft(Rows(desk, kind)[id], u, now));
    if id !in desk.operators then d1
    else d1.(operators := desk.operators[id := OperatorLeft(desk.operators[id], u, deviceId)])
  }

  predicate Serves(kind: HandoffKind, u: Update) {
    u.CloseSession? || (u.ReturnControl? && kind != Voice) || (u.AddNote? && kind == Browser)
  }

  predicate Permitted(db: Db, device: VerifiedDevice, kind: HandoffKind, id: Id, now: Time)
    requires id in Rows(db.desk, kind)
  {
    var row := Rows(db.desk, kind)[id];
    Capabilities.DeviceHolds(db, device, match kind case Tua => TuaAccess case Browser => BrowserAccess
                             case Voice => VoiceAccess, Some(row.nodeId), Some(row.agentId), now)
  }

  /** What the audit row and the event of an update are called. */
  function Telling(kind: HandoffKind, u: Update): (string, AuditPayload, string) {
    match u
    case ReturnControl(s) =>
      ("returned_to_agent", Size(|s|),
       if kind == Tua then "tua.returned_to_agent" else "browser_assistance.returned_to_agent")
    case CloseSession =>
      ("closed", Empty,
       match kind
       case Tua => "tua.closed"
       case Browser => "browser_assistance.closed"
       case Voice => "voice.session.closed")
    case AddNote(n) => ("event_recorded", Size(|n|), "browser_assistance.event")
  }

  /** Which updates there are routes for. */
  lemma OfferedSpelled(kind: HandoffKind, u: Update)
    ensures Offered(kind, u) <==> Serves(kind, u)
  {
  }

  lemma RowIsLeft(kind: HandoffKind, row: HandoffRow, u: Update, now: Time)
    requires Serves(kind, u)
    ensures RowAfter(kind, row, u, now) == RowLeft(row, u, now)
  {
  }

  lemma OperatorIsLeft(o: OperatorRow, u: Update, deviceId: Id)
    ensures UpdatedOperator(o, TargetState(u), Some(deviceId), SummaryOf(u)) == OperatorLeft(o, u, deviceId)
  {
  }

  lemma RowIsPut(db: Db, kind: HandoffKind, id: Id, row: HandoffRow)
    ensures PutSession(db, kind, id, row).desk == WithRow(db.desk, kind, id, row)
    ensures Table(db, kind) == Rows(db.desk, kind)
  {
  }

  lemma UpdatedDesk(db: Db, device: VerifiedDevice, kind: HandoffKind, id: Id, u: Update, header: Option<string>,
                    now: Time)
    requires Serves(kind, u) && id in Rows(db.desk, kind) && Permitted(db, device, kind, id, now)
    ensures UpdateSession(db, device, kind, id, u, header, now).0.desk ==
            Updated(db.desk, kind, id, u, device.deviceId, now)
  {
    var row := Rows(db.desk, kind)[id];
    RowIsPut(db, kind, id, RowLeft(row, u, now));
    RowIsLeft(kind, row, u, now);
    if id in db.desk.operators {
      OperatorIsLeft(db.desk.operators[id], u, device.deviceId);
    }
  }

  lemma EntryTells(kind: HandoffKind, row: HandoffRow, u: Update, deviceId: Id, header: Option<string>)
    requires Serves(kind, u)
    ensures var (what, payload, note) := Telling(kind, u);
            && UpdateEntry(kind, row, u, deviceId, header) ==
               AuditEntry(HandoffAudit(kind, what), "device", deviceId, row.nodeId, header, payload,
                          AuditRefs(Some(row.agentId), None, None))
            && NoteName(kind, u) == note
  {
  }

  lemma UpdatedLog(db: Db, device: VerifiedDevice, kind: HandoffKind, id: Id, u: Update, header: Option<string>,
                   now: Time)
    requires Serves(kind, u) && id in Rows(db.desk, kind) && Permitted(db, device, kind, id, now)
    ensures var row := Rows(db.desk, kind)[id];
            var (what, payload, note) := Telling(kind, u);
            UpdateSession(db, device, kind, id, u, header, now).0.log ==
            Announced(db, kind, what, "device", device.deviceId, row.nodeId, row.agentId, payload, header, note, id).log
  {
    RowIsPut(db, kind, id, Rows(db.desk, kind)[id]);
    EntryTells(kind, Rows(db.desk, kind)[id], u, device.deviceId, header);
  }

  lemma UpdateLeaves(db: Db, device: VerifiedDevice, kind: HandoffKind, id: Id, u: Update, header: Option<string>,
                     now: Time)
    requires Serves(kind, u)
    ensures HandleDesk(db, device, UpdateHandoff(kind, id, u), header, now) ==
            if id !in Rows(db.desk, kind) then (db, Refused(404))
            else
              var row := Rows(db.desk, kind)[id];
              var needed := match kind
                case Tua => TuaAccess
                case Browser => BrowserAccess
                case Voice => VoiceAccess;
              var (d1, ok) := Capabilities.RequireDevice(db, device, needed, header, Some(row.nodeId),
                                                         Some(row.agentId), now);
              if !ok then (d1, Refused(403))
              else
                var (what, payload, note) := Telling(kind, u);
                var told := Announced(db, kind, what, "device", device.deviceId, row.nodeId, row.agentId, payload,
                                      header, note, id);
                (told.(desk := Updated(db.desk, kind, id, u, device.deviceId, now)), Done)
  {
    if id in Rows(db.desk, kind) {
      var row := Rows(db.desk, kind)[id];
      var needed := match kind
        case Tua => TuaAccess
        case Browser => BrowserAccess
        case Voice => VoiceAccess;
      if Capabilities.RequireDevice(db, device, needed, header, Some(row.nodeId), Some(row.agentId), now).1 {
        UpdatedDesk(db, device, kind, id, u, header, now);
        UpdatedLog(db, device, kind, id, u, header, now);
      }
    }
  }

  /** So a done update ends in one state, in both rows, with its stamp. */
  lemma UpdatesEndIn(db: Db, device: VerifiedDevice, kind: HandoffKind, id: Id, u: Update, header: Option<string>,
                     now: Time)
    requires Serves(kind, u)
    requires HandleDesk(db, device, UpdateHandoff(kind, id, u), header, now).1 == Done
    ensures var r := HandleDesk(db, device, UpdateHandoff(kind, id, u), header, now).0;
            && id in Rows(db.desk, kind) && id in Rows(r.desk, kind)
            && var before, after := Rows(db.desk, kind)[id], Rows(r.desk, kind)[id];
            match u
            case ReturnControl(s) =>
              && after.state == ReturnedToAgent && after.returnSummary == Some(s) && after.returnedAt == Some(now)
              && (id in db.desk.operators ==>
                    id in r.desk.operators && r.desk.operators[id].state == ReturnedToAgent
                    && r.desk.operators[id].returnSummary == Some(s))
            case CloseSession =>
              && after.state == Closed && after.closedAt == Some(now)
              && (id in db.desk.operators ==> id in r.desk.operators && r.desk.operators[id].state == Closed)
            case AddNote(n) =>
              && after.state == UserControlling && after.notes == before.notes + [n]
              && (id in db.desk.operators ==> id in r.desk.operators && r.desk.operators[id].state == UserControlling)
  {
    UpdateLeaves(db, device, kind, id, u, header, now);
  }

  // ----- requests and new sessions -----

  function WithRequest(db: Db, o: Opening, nodeId: Id): Db {
    var row := AssistanceRequestRow(nodeId, o.agentId, o.sessionId, Requested);
    db.(desk := db.desk.(requests := db.desk.requests[o.id := row]))
  }

  lemma TuaRequestLeaves(db: Db, o: Opening, checked: bool, header: Option<string>, now: Time)
    ensures var node := TrustOutcomes.NodeOr(o.nodeId, db.config.nodeId);
            HandleAsk(db, AskTua(o, checked), header, now) ==
            if !checked then
              (Announced(WithRequest(db, o, node), Tua, "tua_request_created", "hermes", o.agentId, node, o.agentId,
                         About(o.id), header, "tua.requested", o.id), Done)
            else
              var (d1, ok) := Capabilities.RequireRuntime(db, o.agentId, TuaAccess, header, Some(node),
                                                          Some(o.agentId), now);
              if !ok then (d1, Refused(403))
              else
                var d2 := Fleet.SetAgentRuntimeState(db, node, o.agentId, Some(o.sessionId), "waiting_assistance",
                                                     None);
                (Announced(WithRequest(d2, o, node), Tua, "tua_request_created", "hermes", o.agentId, node, o.agentId,
                           About(o.id), header, "tua.requested", o.id), Done)
  {
  }

  lemma OperatorIsPut(db: Db, kind: HandoffKind, id: Id, agentId: Id, state: SessionState, owner: Option<Id>)
    ensures CreateOperator(db, id, NewOperator(kind, agentId, state, owner)).desk ==
            WithOperator(db.desk, kind, id, agentId, state, owner)
  {
  }

  lemma OpenSessionLeaves(db: Db, kind: HandoffKind, o: Opening, nodeId: Id, state: SessionState, owner: Option<Id>,
                          what: string, actorType: string, actorId: Id, header: Option<string>, note: string)
    ensures var entry := HandoffEntry(kind, what, actorType, actorId, nodeId, o.agentId, About(o.id), header);
            var told := Announced(db, kind, what, actorType, actorId, nodeId, o.agentId, About(o.id), header, note,
                                  o.id);
            OpenSession(db, kind, o.id, nodeId, o.agentId, state, owner, entry, note) ==
            told.(desk := Begun(db.desk, kind, o, nodeId, state, owner))
  {
    var d1 := PutSession(db, kind, o.id, NewSession(nodeId, o.agentId, state));
    RowIsPut(db, kind, o.id, NewSession(nodeId, o.agentId, state));
    OperatorIsPut(d1, kind, o.id, o.agentId, state, owner);
  }

  lemma TakingUpLeaves(db: Db, device: VerifiedDevice, requestId: Id, id: Id, header: Option<string>, now: Time)
    ensures HandleDesk(db, device, TakeUpTua(requestId, id), header, now) ==
            if requestId !in db.desk.requests then (db, Refused(404))
            else
              var q := db.desk.requests[requestId];
              var (d1, ok) := Capabilities.RequireDevice(db, device, TuaAccess, header, Some(q.nodeId), Some(q.agentId),
                                                         now);
              if !ok then (d1, Refused(403))
              else
                var taken := AssistanceRequestRow(q.nodeId, q.agentId, q.sessionId, Active);
                var desk := WithRow(db.desk.(requests := db.desk.requests[requestId := taken]), Tua, id,
                                    HandoffRow(q.nodeId, q.agentId, Active, None, [], None, None));
                (Announced(db.(desk := WithOperator(desk, Tua, id, q.agentId, Active, Some(device.deviceId))), Tua,
                           "tua_session_created", "device", device.deviceId, q.nodeId, q.agentId, About(id), header,
                           "tua.session.created", id), Done)
  {
  }

  /** The desk with a new session and its operator row. */
  function Begun(desk: Desk, kind: HandoffKind, o: Opening, nodeId: Id, state: SessionState, owner: Option<Id>): Desk {
    WithOperator(WithRow(desk, kind, o.id, HandoffRow(nodeId, o.agentId, state, None, [], None, None)), kind, o.id,
                 o.agentId, state, owner)
  }

  function BrowserAsked(db: Db, o: Opening, nodeId: Id, header: Option<string>): Db {
    Announced(db, Browser, "browser_assistance_requested", "hermes", o.agentId, nodeId, o.agentId, About(o.id), header,
              "browser_assistance.requested", o.id)
  }

  function VoiceBegun(db: Db, o: Opening, actorType: string, actorId: Id, nodeId: Id, header: Option<string>): Db {
    Announced(db, Voice, "voice_session_created", actorType, actorId, nodeId, o.agentId, About(o.id), header,
              "voice.session.created", o.id)
  }

  lemma BrowserRequestLeaves(db: Db, o: Opening, checked: bool, header: Option<string>, now: Time)
    ensures var node := TrustOutcomes.NodeOr(o.nodeId, db.config.nodeId);
            HandleAsk(db, AskBrowser(o, checked), header, now) ==
            if !checked then
              (BrowserAsked(db, o, node, header).(desk := Begun(db.desk, Browser, o, node, Requested, None)), Done)
            else
              var (d1, ok) := Capabilities.RequireRuntime(db, o.agentId, BrowserAccess, header, Some(node),
                                                          Some(o.agentId), now);
              if !ok then (d1, Refused(403))
              else
                var d2 := Fleet.SetAgentRuntimeState(db, node, o.agentId, Some(o.sessionId), "waiting_assistance",
                                                     None);
                (BrowserAsked(d2, o, node, header).(desk := Begun(db.desk, Browser, o, node, Requested, None)), Done)
  {
    var node := TrustOutcomes.NodeOr(o.nodeId, db.config.nodeId);
    OpenSessionLeaves(db, Browser, o, node, Requested, None, "browser_assistance_requested", "hermes", o.agentId,
                      header, "browser_assistance.requested");
    if checked && Capabilities.RuntimeHolds(db, o.agentId, BrowserAccess, Some(node), Some(o.agentId), now) {
      CheckedBrowserDesk(db, o, header, now);
      CheckedBrowserLog(db, o, header, now);
    }
  }

  lemma CheckedBrowserDesk(db: Db, o: Opening, header: Option<string>, now: Time)
    requires Capabilities.RuntimeHolds(db, o.agentId, BrowserAccess,
                                       Some(TrustOutcomes.NodeOr(o.nodeId, db.config.nodeId)), Some(o.agentId), now)
    ensures var r := OpenBrowserFromRuntime(db, o, header, now).0;
            r.desk == Begun(db.desk, Browser, o, TrustOutcomes.NodeOr(o.nodeId, db.config.nodeId), Requested, None)
  {
    var node := TrustOutcomes.NodeOr(o.nodeId, db.config.nodeId);
    var d2 := PutSession(db, Browser, o.id, NewSession(node, o.agentId, Requested));
    RowIsPut(db, Browser, o.id, NewSession(node, o.agentId, Requested));
    OperatorIsPut(d2, Browser, o.id, o.agentId, Requested, None);
  }

  lemma CheckedBrowserLog(db: Db, o: Opening, header: Option<string>, now: Time)
    requires Capabilities.RuntimeHolds(db, o.agentId, BrowserAccess,
                                       Some(TrustOutcomes.NodeOr(o.nodeId, db.config.nodeId)), Some(o.agentId), now)
    ensures var node := TrustOutcomes.NodeOr(o.nodeId, db.config.nodeId);
            var d2 := Fleet.SetAgentRuntimeState(db, node, o.agentId, Some(o.sessionId), "waiting_assistance", None);
            var (r, reply) := OpenBrowserFromRuntime(db, o, header, now);
            r.log == BrowserAsked(d2, o, node, header).log && r.fleet == d2.fleet && reply == Done
  {
    var node := TrustOutcomes.NodeOr(o.nodeId, db.config.nodeId);
    var d3 := CreateOperator(PutSession(db, Browser, o.id, NewSession(node, o.agentId, Requested)), o.id,
                             NewOperator(Browser, o.agentId, Requested, None));
    StatusIgnoresDesk(db, d3, node, o);
  }

  lemma StatusIgnoresDesk(a: Db, b: Db, nodeId: Id, o: Opening)
    requires b == a.(desk := b.desk)
    ensures var r := Fleet.SetAgentRuntimeState(a, nodeId, o.agentId, Some(o.sessionId), "waiting_assistance", None);
            Fleet.SetAgentRuntimeState(b, nodeId, o.agentId, Some(o.sessionId), "waiting_assistance", None) ==
            r.(desk := b.desk)
  {
  }

  lemma VoiceLeaves(db: Db, device: VerifiedDevice, o: Opening, header: Option<string>, now: Time)
    ensures HandleDesk(db, device, StartVoice(o), header, now) ==
            var node := db.config.nodeId;
            var (d1, ok) := Capabilities.RequireDevice(db, device, VoiceAccess, header, None, Some(o.agentId), now);
            if !ok then (d1, Refused(403))
            else
              (VoiceBegun(db, o, "device", device.deviceId, node, header).(
                 desk := Begun(db.desk, Voice, o, node, Active, Some(device.deviceId))), Done)
  {
    OpenSessionLeaves(db, Voice, o, db.config.nodeId, Active, Some(device.deviceId), "voice_session_created", "device",
                      device.deviceId, header, "voice.session.created");
  }

  lemma VoiceRequestLeaves(db: Db, o: Opening, header: Option<string>, now: Time)
    ensures HandleAsk(db, AskVoice(o), header, now) ==
            var node := TrustOutcomes.NodeOr(o.nodeId, db.config.nodeId);
            var (d1, ok) := Capabilities.RequireRuntime(db, o.agentId, VoiceAccess, header, Some(node),
                                                        Some(o.agentId), now);
            if !ok then (d1, Refused(403))
            else
              (VoiceBegun(db, o, "hermes", o.agentId, node, header).(
                 desk := Begun(db.desk, Voice, o, node, Active, None)), Done)
  {
    var node := TrustOutcomes.NodeOr(o.nodeId, db.config.nodeId);
    if Capabilities.RuntimeHolds(db, o.agentId, VoiceAccess, Some(node), Some(o.agentId), now) {
      var d2 := PutSession(db, Voice, o.id, NewSession(node, o.agentId, Active));
      RowIsPut(db, Voice, o.id, NewSession(node, o.agentId, Active));
      OperatorIsPut(d2, Voice, o.id, o.agentId, Active, None);
      VoiceRequestLog(db, o, header, now);
    }
  }

  lemma VoiceRequestLog(db: Db, o: Opening, header: Option<string>, now: Time)
    requires Capabilities.RuntimeHolds(db, o.agentId, VoiceAccess,
                                       Some(TrustOutcomes.NodeOr(o.nodeId, db.config.nodeId)), Some(o.agentId), now)
    ensures OpenVoiceFromRuntime(db, o, header, now).0.log ==
            VoiceBegun(db, o, "hermes", o.agentId, TrustOutcomes.NodeOr(o.nodeId, db.config.nodeId), header).log
  {
  }
}
