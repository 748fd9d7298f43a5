/** What each clearance operation leaves and answers, column by column and by constructor. */
module ClearanceOutcomes {
  import opened Wrappers
  import opened Records
  import opened Tables
  import opened Approvals
  import opened Machine
  import Capabilities
  import Expiry
  import Fleet

  // ----- one write -----

  /** The database with this clearance row, one more audit row and one more event. */
  function Written(db: Db, id: Id, row: ApprovalRow, kind: AuditKind, actorType: string, actorId: Id,
                   header: Option<string>, payload: AuditPayload, event: EventPayload): Db {
    var refs := AuditRefs(Some(row.agentId), Some(row.sessionId), Some(id));
    var d1 := db.(board := db.board.(approvals := db.board.approvals[id := row]));
    CreateEvent(AppendAudit(d1, AuditEntry(kind, actorType, actorId, row.nodeId, header, payload, refs)), row.nodeId,
                event)
  }

  /** The row, ended: nothing else of it changed. */
  function Ended(row: ApprovalRow, state: ApprovalState, scope: Option<Scope>, actor: Option<Id>, metadata: Metadata,
                 now: Time): ApprovalRow {
    ApprovalRow(row.nodeId, row.agentId, row.sessionId, row.requestedTool, row.riskLevel, row.expiresAt, state, scope,
                actor, metadata, Some(now))
  }

  // ----- opening -----

  /** Both routes store exactly what was asked for, as pending, and answer with its id; the runtime's
      also marks the agent as waiting for it. */
  lemma OpeningLeaves(db: Db, q: ClearanceRequest, header: Option<string>, now: Time)
    ensures var nodeId := if q.nodeId.Some? && q.nodeId.value != "" then q.nodeId.value else db.config.nodeId;
            var row := ApprovalRow(nodeId, q.agentId, q.sessionId, q.requestedTool, q.riskLevel, q.expiresAt, Pending,
                                   None, None, NoMetadata, None);
            var waiting := Fleet.SetAgentRuntimeState(db, nodeId, q.agentId, Some(q.sessionId), "waiting_approval",
                                                      Some(q.requestedTool));
            && HandleBackend(db, CreateClearance(q), header, now) ==
               (Written(db, q.approvalId, row, ClearanceRequested, "hermes", q.agentId, header,
                        RequestDetails(q.requestedTool, q.riskLevel), ApprovalRequested(q.approvalId, q.riskLevel)),
                Opened(q.approvalId))
            && HandleBackend(db, RequestClearance(q), header, now) ==
               (Written(waiting, q.approvalId, row, ClearanceRequested, "hermes", q.agentId, header,
                        RequestDetails(q.requestedTool, q.riskLevel), ApprovalRequested(q.approvalId, q.riskLevel)),
                Opened(q.approvalId))
  {
  }

  // ----- deciding -----

  /** The decision of this device, as the row, the audit row and the event tell it. */
  function DecidedDb(db: Db, id: Id, deviceId: Id, state: ApprovalState, decision: Option<Decision>,
                     scope: Option<Scope>, header: Option<string>, now: Time): Db
    requires id in db.board.approvals
  {
    var kind := match state
      case Expired => ClearanceExpired
      case Cancelled => ClearanceCancelled
      case _ => ClearanceDecision;
    Written(db, id, Ended(db.board.approvals[id], state, scope, Some(deviceId), Decided(decision, state), now), kind,
            "device", deviceId, header, VerdictDetails(decision, scope, state), ApprovalResolved(id, state, scope))
  }

  /** The expiry that a late decision runs into. */
  function LateDb(db: Db, id: Id, header: Option<string>, now: Time): Db
    requires id in db.board.approvals
  {
    Written(db, id, Ended(db.board.approvals[id], Expired, None, None, Because(DecisionAfterExpiry), now),
            ClearanceExpired, "gateway", "gateway", header, Reason(DecisionAfterExpiry),
            ApprovalResolved(id, Expired, None))
  }

  lemma TransitionLeaves(db: Db, id: Id, target: ApprovalState, deviceId: Id, decision: Option<Decision>,
                         scope: Option<Scope>, header: Option<string>, now: Time)
    requires id in db.board.approvals && target != Pending
    ensures var row := db.board.approvals[id];
            Transition(db, id, target, deviceId, decision, scope, header, now) ==
            if row.state != Pending then (db, Refused(409))
            else if (target == Approved || target == Denied) && row.expiresAt <= now
            then (LateDb(db, id, header, now), Refused(409))
            else (DecidedDb(db, id, deviceId, target, decision, scope, header, now), Settled(target, scope))
  {
  }

  predicate MayDecide(db: Db, device: VerifiedDevice, id: Id, now: Time) {
    && id in db.board.approvals
    && Capabilities.DeviceHolds(db, device, Capability.Approvals, Some(db.board.approvals[id].nodeId),
                                Some(db.board.approvals[id].agentId), now)
  }

  /** The database with the denial row of a device that may not decide it. */
  function TurnedAway(db: Db, device: VerifiedDevice, id: Id, header: Option<string>, now: Time): Db
    requires id in db.board.approvals
  {
    var row := db.board.approvals[id];
    Capabilities.RequireDevice(db, device, Capability.Approvals, header, Some(row.nodeId), Some(row.agentId), now).0
  }

  /** What each deciding route does to a pending clearance of a device that may decide it, in time. */
  lemma RouteLeaves(db: Db, device: VerifiedDevice, call: ClearanceCall, header: Option<string>, now: Time)
    requires !call.ListClearances? && !call.GetClearance? && !call.RespondCall?
    requires MayDecide(db, device, call.id, now) && db.board.approvals[call.id].state == Pending
    requires now < db.board.approvals[call.id].expiresAt
    ensures var (state, decision, scope) :=
              match call
              case Decide(_, Approve, s) => (Approved, Some(Approve), Some(s))
              case Decide(_, Deny, s) => (Denied, Some(Deny), Some(s))
              case ApproveOnceCall(_) => (Approved, Some(Approve), Some(Once))
              case DenyCall(_) => (Denied, Some(Deny), Some(Once))
              case ExpireCall(_) => (Expired, None, None)
              case _ => (Cancelled, None, None);
            HandleClearance(db, device, call, header, now) ==
            (DecidedDb(db, call.id, device.deviceId, state, decision, scope, header, now), Settled(state, scope))
  {
    match call
    case Decide(id, Approve, s) =>
      TransitionLeaves(db, id, Approved, device.deviceId, Some(Approve), Some(s), header, now);
    case Decide(id, Deny, s) => TransitionLeaves(db, id, Denied, device.deviceId, Some(Deny), Some(s), header, now);
    case ApproveOnceCall(id) =>
      TransitionLeaves(db, id, Approved, device.deviceId, Some(Approve), Some(Once), header, now);
    case DenyCall(id) => TransitionLeaves(db, id, Denied, device.deviceId, Some(Deny), Some(Once), header, now);
    case ExpireCall(id) => TransitionLeaves(db, id, Expired, device.deviceId, None, None, header, now);
    case CancelCall(id) => TransitionLeaves(db, id, Cancelled, device.deviceId, None, None, header, now);
  }

  /** And otherwise: too late, not pending any more, not allowed, not there. */
  lemma RouteRefuses(db: Db, device: VerifiedDevice, call: ClearanceCall, header: Option<string>, now: Time)
    requires !call.ListClearances? && !call.GetClearance? && !call.RespondCall?
    ensures var (r, reply) := HandleClearance(db, device, call, header, now);
            if call.id !in db.board.approvals then (r, reply) == (db, Refused(404))
            else if !MayDecide(db, device, call.id, now)
            then (r, reply) == (TurnedAway(db, device, call.id, header, now), Refused(403))
            else if db.board.approvals[call.id].state != Pending then (r, reply) == (db, Refused(409))
            else if db.board.approvals[call.id].expiresAt <= now && !call.ExpireCall? && !call.CancelCall?
            then (r, reply) == (LateDb(db, call.id, header, now), Refused(409))
            else reply.Settled?
  {
    if MayDecide(db, device, call.id, now) {
      match call {
        case Decide(id, Approve, s) =>
          TransitionLeaves(db, id, Approved, device.deviceId, Some(Approve), Some(s), header, now);
        case Decide(id, Deny, s) => TransitionLeaves(db, id, Denied, device.deviceId, Some(Deny), Some(s), header, now);
        case ApproveOnceCall(id) =>
          TransitionLeaves(db, id, Approved, device.deviceId, Some(Approve), Some(Once), header, now);
        case DenyCall(id) => TransitionLeaves(db, id, Denied, device.deviceId, Some(Deny), Some(Once), header, now);
        case ExpireCall(id) => TransitionLeaves(db, id, Expired, device.deviceId, None, None, header, now);
        case CancelCall(id) => TransitionLeaves(db, id, Cancelled, device.deviceId, None, None, header, now);
      }
    }
  }

  // ----- deciding by response -----

  function Answered(db: Db, id: Id, p: Response, deviceId: Id): Db {
    var proposal := if p.responseType == ProposePolicy then Some(p.proposalId) else None;
    db.(board := db.board.(
      responses := db.board.responses + [ResponseRow(p.responseId, id, p.responseType, deviceId, proposal)],
      proposals := db.board.proposals + if p.responseType == ProposePolicy then {p.proposalId} else {}))
  }

  /** The audit row and the event that end a response that was not refused. */
  function Noticed(db: Db, d: Db, id: Id, p: Response, deviceId: Id, header: Option<string>): Db
    requires id in db.board.approvals
  {
    var row := db.board.approvals[id];
    var proposal := if p.responseType == ProposePolicy then Some(p.proposalId) else None;
    var entry := AuditEntry(ClearanceResponse, "device", deviceId, row.nodeId, header,
                            ResponseDetails(p.responseType, p.constraintCount, proposal),
                            AuditRefs(Some(row.agentId), Some(row.sessionId), Some(id)));
    CreateEvent(AppendAudit(d, entry), row.nodeId,
                Note(if p.responseType == NeedsInfo then "approval.needs_info" else "approval.response.created",
                     p.responseId))
  }

  lemma VerdictLeaves(db: Db, id: Id, deviceId: Id, p: Response, state: ApprovalState, decision: Decision,
                      scope: Scope, header: Option<string>, now: Time)
    requires id in db.board.approvals && VerdictOf(p.responseType) == Some(Verdict(state, decision, scope))
    requires state == Approved || state == Denied
    ensures var d, row := Answered(db, id, p, deviceId), db.board.approvals[id];
            Respond(db, id, deviceId, p, header, now) ==
            if row.state != Pending then (d, Refused(409))
            else if row.expiresAt <= now then (LateDb(d, id, header, now), Refused(409))
            else (Noticed(db, DecidedDb(d, id, deviceId, state, Some(decision), Some(scope), header, now), id, p,
                          deviceId, header), Done)
  {
    var d := Answered(db, id, p, deviceId);
    assert d == AddResponse(db, ResponseRow(p.responseId, id, p.responseType, deviceId, None));
    TransitionLeaves(d, id, state, deviceId, Some(decision), Some(scope), header, now);
  }

  /** Each of the seven response types, on a pending clearance that is not due. */
  lemma ResponseLeaves(db: Db, id: Id, deviceId: Id, p: Response, header: Option<string>, now: Time)
    requires id in db.board.approvals && db.board.approvals[id].state == Pending
    requires now < db.board.approvals[id].expiresAt
    ensures var d := Answered(db, id, p, deviceId);
            var result := Respond(db, id, deviceId, p, header, now);
            match p.responseType
            case ApproveOnce =>
              result == (Noticed(db, DecidedDb(d, id, deviceId, Approved, Some(Approve), Some(Once), header, now), id,
                                 p, deviceId, header), Done)
            case ApproveSession =>
              result == (Noticed(db, DecidedDb(d, id, deviceId, Approved, Some(Approve), Some(ForSession), header,
                                               now), id, p, deviceId, header), Done)
            case ApproveAgent =>
              result == (Noticed(db, DecidedDb(d, id, deviceId, Approved, Some(Approve), Some(ForAgent), header, now),
                                 id, p, deviceId, header), Done)
            case DenyOnce =>
              result == (Noticed(db, DecidedDb(d, id, deviceId, Denied, Some(Deny), Some(Once), header, now), id, p,
                                 deviceId, header), Done)
            case ProposePolicy =>
              result == if p.phraseConfirmed then (Noticed(db, d, id, p, deviceId, header), Done)
                        else (db, Refused(400))
            case _ => result == (Noticed(db, d, id, p, deviceId, header), Done)
  {
    match p.responseType
    case ApproveOnce => VerdictLeaves(db, id, deviceId, p, Approved, Approve, Once, header, now);
    case ApproveSession => VerdictLeaves(db, id, deviceId, p, Approved, Approve, ForSession, header, now);
    case ApproveAgent => VerdictLeaves(db, id, deviceId, p, Approved, Approve, ForAgent, header, now);
    case DenyOnce => VerdictLeaves(db, id, deviceId, p, Denied, Deny, Once, header, now);
    case _ => NoVerdictLeaves(db, id, deviceId, p, header, now);
  }

  lemma NoVerdictLeaves(db: Db, id: Id, deviceId: Id, p: Response, header: Option<string>, now: Time)
    requires id in db.board.approvals
    requires p.responseType == Modified || p.responseType == NeedsInfo || p.responseType == ProposePolicy
    ensures Respond(db, id, deviceId, p, header, now) ==
            if p.responseType == ProposePolicy && !p.phraseConfirmed then (db, Refused(400))
            else (Noticed(db, Answered(db, id, p, deviceId), id, p, deviceId, header), Done)
  {
    assert db.board.proposals + {} == db.board.proposals;
  }

  /** On the table: who is left how by which type; every other row, and the row itself for the three
      other types, stays as it was. */
  lemma ResponseDecides(db: Db, id: Id, deviceId: Id, p: Response, header: Option<string>, now: Time)
    requires id in db.board.approvals && db.board.approvals[id].state == Pending
    requires now < db.board.approvals[id].expiresAt
    ensures var table, row := Respond(db, id, deviceId, p, header, now).0.board.approvals, db.board.approvals[id];
            match p.responseType
            case ApproveOnce =>
              table == db.board.approvals[id := Ended(row, Approved, Some(Once), Some(deviceId),
                                                      Decided(Some(Approve), Approved), now)]
            case ApproveSession =>
              table == db.board.approvals[id := Ended(row, Approved, Some(ForSession), Some(deviceId),
                                                      Decided(Some(Approve), Approved), now)]
            case ApproveAgent =>
              table == db.board.approvals[id := Ended(row, Approved, Some(ForAgent), Some(deviceId),
                                                      Decided(Some(Approve), Approved), now)]
            case DenyOnce =>
              table == db.board.approvals[id := Ended(row, Denied, Some(Once), Some(deviceId),
                                                      Decided(Some(Deny), Denied), now)]
            case _ => table == db.board.approvals
  {
    ResponseLeaves(db, id, deviceId, p, header, now);
  }

  /** The four deciding types, when the clearance is no longer pending, or due: the response stays, and
      the answer is 409. */
  lemma LateResponseLeaves(db: Db, id: Id, deviceId: Id, p: Response, header: Option<string>, now: Time)
    requires id in db.board.approvals
    requires db.board.approvals[id].state != Pending || db.board.approvals[id].expiresAt <= now
    requires p.responseType != Modified && p.responseType != NeedsInfo && p.responseType != ProposePolicy
    ensures var d := Answered(db, id, p, deviceId);
            Respond(db, id, deviceId, p, header, now) ==
            (if db.board.approvals[id].state != Pending then d else LateDb(d, id, header, now), Refused(409))
  {
    match p.responseType
    case ApproveOnce => VerdictLeaves(db, id, deviceId, p, Approved, Approve, Once, header, now);
    case ApproveSession => VerdictLeaves(db, id, deviceId, p, Approved, Approve, ForSession, header, now);
    case ApproveAgent => VerdictLeaves(db, id, deviceId, p, Approved, Approve, ForAgent, header, now);
    case DenyOnce => VerdictLeaves(db, id, deviceId, p, Denied, Deny, Once, header, now);
  }

  /** The route in front of a response. */
  lemma ResponseRouteLeaves(db: Db, device: VerifiedDevice, id: Id, p: Response, header: Option<string>, now: Time)
    ensures HandleClearance(db, device, RespondCall(id, p), header, now) ==
            if id !in db.board.approvals then (db, Refused(404))
            else if !MayDecide(db, device, id, now) then (TurnedAway(db, device, id, header, now), Refused(403))
            else Respond(db, id, device.deviceId, p, header, now)
  {
  }

  // ----- cancelling and expiring -----

  lemma CancelLeaves(db: Db, id: Id, header: Option<string>, now: Time)
    ensures CancelFromRuntime(db, id, "runtime", header, now) ==
            if id in db.board.approvals && db.board.approvals[id].state == Pending
            then Written(db, id, Ended(db.board.approvals[id], Cancelled, None, None, Because(RuntimeCancelled), now),
                         ClearanceCancelled, "hermes", "runtime", header, Reason(RuntimeCancelled),
                         ApprovalResolved(id, Cancelled, None))
            else db
  {
  }

  /** A scan leaves what is not pending alone, and what was due when it began expired for its reason. */
  lemma ScanLeaves(db: Db, scan: Scan, reason: SettleReason, start: Time, id: Id)
    requires ListsPending(db, scan.listing) && Ticking(scan.clock, start) && id in db.board.approvals
    ensures var table, row := RunScan(db, scan, reason).board.approvals, db.board.approvals[id];
            && id in table
            && (row.state != Pending ==> table[id] == row)
            && (row.state == Pending && row.expiresAt <= start ==> table[id] != row)
            && (table[id] != row ==>
                  exists t :: start <= t && row.expiresAt <= t
                              && table[id] == Ended(row, Expired, None, None, Because(reason), t))
  {
    Expiry.ScanMeaning(db, scan.listing, scan.clock, reason, start, id);
    var row, after := db.board.approvals[id], RunScan(db, scan, reason).board.approvals[id];
    if after != row {
      var k: nat :| k < |scan.listing|
        && after == SettledRow(row, ByClock(reason), scan.clock(k)) && row.expiresAt <= scan.clock(k);
      assert after == Ended(row, Expired, None, None, Because(reason), scan.clock(k));
    }
  }

  /** Which reason each reading route's scan gives. */
  lemma ReadingScans(db: Db, device: VerifiedDevice, id: Id, scan: Scan, header: Option<string>, now: Time)
    ensures HandleClearance(db, device, ListClearances(scan), header, now) == (RunScan(db, scan, ExpiryScan), Done)
    ensures HandleClearance(db, device, GetClearance(id, scan), header, now) ==
            (RunScan(db, scan, ExpiryScan), Shown(RunScan(db, scan, ExpiryScan), id))
    ensures HandleBackend(db, ClearanceStatus(id, scan), header, now) ==
            (RunScan(db, scan, ExpiryScan), Shown(RunScan(db, scan, ExpiryScan), id))
    ensures HandleBackend(db, ClearanceResult(id, scan), header, now) ==
            (RunScan(db, scan, RuntimeResultPoll), Shown(RunScan(db, scan, RuntimeResultPoll), id))
  {
  }

  /** The answer about a clearance: its columns, its scope only if approved, its responses. */
  function Shown(db: Db, id: Id): Reply {
    if id !in db.board.approvals then Refused(404)
    else
      var row := db.board.approvals[id];
      Status(ApprovalView(id, row.state, if row.state == Approved then row.scope else None, row.metadata,
                          ResponsesOf(db.board.responses, id)))
  }

  /** Responses are listed newest first. */
  lemma NewestFirst(rows: seq<ResponseRow>, row: ResponseRow, id: Id)
    ensures ResponsesOf([], id) == []
    ensures ResponsesOf(rows + [row], id) ==
            if row.approvalId == id then [row] + ResponsesOf(rows, id) else ResponsesOf(rows, id)
  {
    assert (rows + [row])[..|rows|] == rows;
  }

  /** A cancelled clearance stays cancelled through the two scans of the call, which answers so. */
  lemma CancellingAnswersCancelled(db: Db, id: Id, first: Scan, second: Scan, header: Option<string>, now: Time)
    requires BackendInputOk(db, CancelClearance(id, first, second), header, now)
    requires id in db.board.approvals && db.board.approvals[id].state == Pending
    ensures var (r, reply) := HandleBackend(db, CancelClearance(id, first, second), header, now);
            && id in r.board.approvals
            && r.board.approvals[id] ==
               Ended(db.board.approvals[id], Cancelled, None, None, Because(RuntimeCancelled), now)
            && reply == Shown(r, id)
  {
    var d1 := CancelFromRuntime(db, id, "runtime", header, now);
    CancelLeaves(db, id, header, now);
    ScanLeaves(d1, first, RuntimeResultPoll, now, id);
    ScanLeaves(RunScan(d1, first, RuntimeResultPoll), second, RuntimeResultPoll, now, id);
  }
}
