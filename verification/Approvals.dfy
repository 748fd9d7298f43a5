/** The clearance engine: opening, deciding, expiring, cancelling and reading clearances. */
module Approvals {
  import opened Wrappers
  import opened Records
  import opened Tables
  import Fleet

  // ----- opening -----

  datatype ClearanceRequest = ClearanceRequest(
    approvalId: Id, nodeId: Option<Id>, agentId: Id, sessionId: Id, requestedTool: string, riskLevel: string,
    expiresAt: Time)

  function NewRow(nodeId: Id, q: ClearanceRequest): ApprovalRow {
    ApprovalRow(nodeId, q.agentId, q.sessionId, q.requestedTool, q.riskLevel, q.expiresAt, Pending, None, None,
                NoMetadata, None)
  }

  function RequestEntry(nodeId: Id, q: ClearanceRequest, header: Option<string>): AuditEntry {
    AuditEntry(ClearanceRequested, "hermes", q.agentId, nodeId, header, RequestDetails(q.requestedTool, q.riskLevel),
               RefsOf(q.agentId, Some(q.sessionId), Some(q.approvalId)))
  }

  /** The gateway's own route: row, audit row, event. */
  function CreateRequest(db: Db, q: ClearanceRequest, header: Option<string>): (r: Db)
    ensures Extends(db, r)
  {
    var nodeId := Or(q.nodeId, db.config.nodeId);
    var d1 := PutApproval(db, q.approvalId, NewRow(nodeId, q));
    var d2 := AppendAudit(d1, RequestEntry(nodeId, q, header));
    CreateEvent(d2, nodeId, ApprovalRequested(q.approvalId, q.riskLevel))
  }

  /** The runtime adapter's route also marks the agent as waiting. */
  function RequestFromRuntime(db: Db, q: ClearanceRequest, header: Option<string>): (r: Db)
    ensures Extends(db, r)
  {
    var nodeId := Or(q.nodeId, db.config.nodeId);
    var d1 := PutApproval(db, q.approvalId, NewRow(nodeId, q));
    var d2 := Fleet.SetAgentRuntimeState(d1, nodeId, q.agentId, Some(q.sessionId), "waiting_approval",
                                         Some(q.requestedTool));
    var d3 := AppendAudit(d2, RequestEntry(nodeId, q, header));
    CreateEvent(d3, nodeId, ApprovalRequested(q.approvalId, q.riskLevel))
  }

  // ----- settling -----

  datatype Settlement = Settlement(
    state: ApprovalState, scope: Option<Scope>, actor: Option<Id>, metadata: Metadata, kind: AuditKind,
    actorType: string, actorId: Id, payload: AuditPayload)

  function KindOf(state: ApprovalState): AuditKind {
    match state
    case Expired => ClearanceExpired
    case Cancelled => ClearanceCancelled
    case _ => ClearanceDecision
  }

  function ByDevice(state: ApprovalState, deviceId: Id, decision: Option<Decision>, scope: Option<Scope>): Settlement {
    Settlement(state, scope, Some(deviceId), Decided(decision, state), KindOf(state), "device", deviceId,
               VerdictDetails(decision, scope, state))
  }

  function ByClock(reason: SettleReason): Settlement {
    Settlement(Expired, None, None, Because(reason), ClearanceExpired, "gateway", "gateway", Reason(reason))
  }

  function ByRuntime(actorId: Id): Settlement {
    Settlement(Cancelled, None, None, Because(RuntimeCancelled), ClearanceCancelled, "hermes", actorId,
               Reason(RuntimeCancelled))
  }

  function SettleEntry(row: ApprovalRow, id: Id, s: Settlement, header: Option<string>): AuditEntry {
    AuditEntry(s.kind, s.actorType, s.actorId, row.nodeId, header, s.payload,
               RefsOf(row.agentId, Some(row.sessionId), Some(id)))
  }

  function SettledRow(row: ApprovalRow, s: Settlement, now: Time): ApprovalRow {
    row.(state := s.state, scope := s.scope, actor := s.actor, metadata := s.metadata, decidedAt := Some(now))
  }

  /** The three writes that end a clearance: row, audit row, event. */
  function Settle(db: Db, id: Id, s: Settlement, header: Option<string>, now: Time): (r: Db)
    requires id in db.board.approvals
    ensures Extends(db, r) && r == db.(log := r.log, board := db.board.(approvals := r.board.approvals))
    ensures r.board.approvals == db.board.approvals[id := SettledRow(db.board.approvals[id], s, now)]
    ensures |r.log.audit| == |db.log.audit| + 1 && |r.log.events| == |db.log.events| + 1
  {
    var row := db.board.approvals[id];
    var d1 := Resolve(db, id, s.state, s.scope, s.actor, s.metadata, now);
    var d2 := AppendAudit(d1, SettleEntry(row, id, s, header));
    CreateEvent(d2, row.nodeId, ApprovalResolved(id, s.state, s.scope))
  }

  predicate IsPending(db: Db, id: Id) {
    id in db.board.approvals && db.board.approvals[id].state == Pending
  }

  predicate Due(db: Db, id: Id, now: Time) {
    id in db.board.approvals && db.board.approvals[id].expiresAt <= now
  }

  /** Approving and denying a clearance that is past its time expires it instead. */
  function Transition(db: Db, id: Id, target: ApprovalState, deviceId: Id, decision: Option<Decision>,
                      scope: Option<Scope>, header: Option<string>, now: Time): (r: (Db, Reply))
    ensures Extends(db, r.0) && r.0 == db.(log := r.0.log, board := db.board.(approvals := r.0.board.approvals))
  {
    if id !in db.board.approvals then (db, Refused(404))
    else if !IsPending(db, id) then (db, Refused(409))
    else if (target == Approved || target == Denied) && Due(db, id, now) then
      (Settle(db, id, ByClock(DecisionAfterExpiry), header, now), Refused(409))
    else (Settle(db, id, ByDevice(target, deviceId, decision, scope), header, now), Settled(target, scope))
  }

  // ----- expiry scan -----

  /** One round of a scan, for one row of its listing. */
  function ExpireOne(db: Db, id: Id, reason: SettleReason, now: Time): (r: Db)
    ensures Extends(db, r) && r == db.(log := r.log, board := db.board.(approvals := r.board.approvals))
    ensures r.board.approvals.Keys == db.board.approvals.Keys
  {
    if Due(db, id, now) then Settle(db, id, ByClock(reason), None, now) else db
  }

  /** A scan visits its listing in order; the clock is read anew in every round. */
  function ExpireScan(db: Db, listing: seq<Id>, clock: nat -> Time, reason: SettleReason): (r: Db)
    ensures Extends(db, r) && r == db.(log := r.log, board := db.board.(approvals := r.board.approvals))
    ensures r.board.approvals.Keys == db.board.approvals.Keys
  {
    if listing == [] then db
    else
      var n := |listing| - 1;
      ExpireOne(ExpireScan(db, listing[..n], clock, reason), listing[n], reason, clock(n))
  }

  predicate NoDuplicates<T(==)>(s: seq<T>) {
    forall i, j | 0 <= i < j < |s| :: s[i] != s[j]
  }

  /** The listing holds each pending clearance once, in whatever order the database returns. */
  ghost predicate ListsPending(db: Db, listing: seq<Id>) {
    NoDuplicates(listing) && forall id :: id in listing <==> IsPending(db, id)
  }

  ghost predicate Ticking(clock: nat -> Time, start: Time) {
    && (forall i: nat :: start <= clock(i))
    && (forall i: nat, j: nat | i <= j :: clock(i) <= clock(j))
  }

  // ----- cancelling and reading -----

  datatype Scan = Scan(listing: seq<Id>, clock: nat -> Time)

  function RunScan(db: Db, scan: Scan, reason: SettleReason): (r: Db)
    ensures Extends(db, r) && r == db.(log := r.log, board := db.board.(approvals := r.board.approvals))
  {
    ExpireScan(db, scan.listing, scan.clock, reason)
  }

  /** Responses of one clearance, newest first. */
  function ResponsesOf(rows: seq<ResponseRow>, id: Id): seq<ResponseRow> {
    if rows == [] then []
    else
      var last := rows[|rows| - 1];
      var rest := ResponsesOf(rows[..|rows| - 1], id);
      if last.approvalId == id then [last] + rest else rest
  }

  function View(db: Db, id: Id): ApprovalView
    requires id in db.board.approvals
  {
    var row := db.board.approvals[id];
    ApprovalView(id, row.state, if row.state == Approved then row.scope else None, row.metadata,
                 ResponsesOf(db.board.responses, id))
  }

  function ReadStatus(db: Db, id: Id): Reply {
    if id in db.board.approvals then Status(View(db, id)) else Refused(404)
  }

  function CancelFromRuntime(db: Db, id: Id, actorId: Id, header: Option<string>, now: Time): (r: Db)
    ensures Extends(db, r) && r == db.(log := r.log, board := db.board.(approvals := r.board.approvals))
  {
    if IsPending(db, id) then Settle(db, id, ByRuntime(actorId), header, now) else db
  }

  // ----- responses -----

  datatype Response = Response(
    responseId: Id, responseType: ResponseType, phraseConfirmed: bool, constraintCount: nat, proposalId: Id)

  datatype Verdict = Verdict(target: ApprovalState, decision: Decision, scope: Scope)

  /** The four response types that also decide the clearance. */
  function VerdictOf(t: ResponseType): Option<Verdict> {
    match t
    case ApproveOnce => Some(Verdict(Approved, Approve, Once))
    case ApproveSession => Some(Verdict(Approved, Approve, ForSession))
    case ApproveAgent => Some(Verdict(Approved, Approve, ForAgent))
    case DenyOnce => Some(Verdict(Denied, Deny, Once))
    case _ => None
  }

  function AddResponse(db: Db, row: ResponseRow): (r: Db)
    ensures Quiet(db, r)
  {
    db.(board := db.board.(responses := db.board.responses + [row]))
  }

  function AddProposal(db: Db, id: Id): (r: Db)
    ensures Quiet(db, r)
  {
    db.(board := db.board.(proposals := db.board.proposals + {id}))
  }

  function ResponseEntry(row: ApprovalRow, id: Id, deviceId: Id, p: Response, proposal: Option<Id>,
                         header: Option<string>): AuditEntry {
    AuditEntry(ClearanceResponse, "device", deviceId, row.nodeId, header,
               ResponseDetails(p.responseType, p.constraintCount, proposal),
               RefsOf(row.agentId, Some(row.sessionId), Some(id)))
  }

  /** After the capability check: the response row is written before any transition, and stays when
      the transition is refused. */
  function Respond(db: Db, id: Id, deviceId: Id, p: Response, header: Option<string>, now: Time): (r: (Db, Reply))
    requires id in db.board.approvals
    ensures Extends(db, r.0) && r.0 == db.(log := r.0.log, board := r.0.board)
  {
    if p.responseType == ProposePolicy && !p.phraseConfirmed then (db, Refused(400))
    else
      var row := db.board.approvals[id];
      var proposal := if p.responseType == ProposePolicy then Some(p.proposalId) else None;
      var d1 := if proposal.Some? then AddProposal(db, p.proposalId) else db;
      var d2 := AddResponse(d1, ResponseRow(p.responseId, id, p.responseType, deviceId, proposal));
      var verdict := VerdictOf(p.responseType);
      var (d3, reply) :=
        if verdict.None? then (d2, Done)
        else Transition(d2, id, verdict.value.target, deviceId, Some(verdict.value.decision),
                        Some(verdict.value.scope), header, now);
      if reply.Refused? then (d3, reply)
      else
        var d4 := AppendAudit(d3, ResponseEntry(row, id, deviceId, p, proposal, header));
        (CreateEvent(d4, row.nodeId, Note(if p.responseType == NeedsInfo then "approval.needs_info"
                                          else "approval.response.created", p.responseId)),
         Done)
  }
}
