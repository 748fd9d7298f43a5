/** What a step may do to a clearance, who may approve one, and that the first decision is final. */
module Clearance {
  import opened Wrappers
  import opened Records
  import opened Tables
  import opened Approvals
  import opened Machine
  import Expiry
  import Signing
  import Capabilities

  /** A pending clearance ended; only the five decision columns changed. */
  predicate SettledFrom(row: ApprovalRow, after: ApprovalRow) {
    && row.state == Pending && after.state != Pending
    && after == row.(state := after.state, scope := after.scope, actor := after.actor, metadata := after.metadata,
                     decidedAt := after.decidedAt)
  }

  /** Rows only move from pending to settled, and none becomes approved. */
  ghost predicate AdvanceUnapproved(a: Db, b: Db) {
    forall id | id in a.board.approvals ::
      && id in b.board.approvals
      && (b.board.approvals[id] == a.board.approvals[id]
          || (SettledFrom(a.board.approvals[id], b.board.approvals[id]) && b.board.approvals[id].state != Approved))
  }

  /** The scope with which a call would approve the clearance it names, if it is an approving call. */
  function ApprovingScope(call: ClearanceCall): Option<Scope> {
    match call
    case Decide(_, Approve, scope) => Some(scope)
    case ApproveOnceCall(_) => Some(Once)
    case RespondCall(_, p) =>
      if VerdictOf(p.responseType).Some? && VerdictOf(p.responseType).value.target == Approved
      then Some(VerdictOf(p.responseType).value.scope) else None
    case _ => None
  }

  predicate Approving(call: DeviceCall, id: Id) {
    call.OnClearances? && ApprovingScope(call.clearanceCall).Some? && call.clearanceCall.id == id
  }

  /** The step is an accepted signed request, with a nonce never accepted before, of an active device
      that holds the approval capability, approving a pending clearance before it expires. */
  ghost predicate Authorises(db: Db, step: Step, id: Id) {
    && step.action.Signed?
    && Signing.Accepts(db, step.action.request, step.now)
    && IsPending(db, id)
    && step.now < db.board.approvals[id].expiresAt
    && var row, key := db.board.approvals[id], step.action.request.deviceId.value;
    && Capabilities.DeviceHolds(db,
                                VerifiedDevice(key, db.trust.devices[key].nodeId, db.trust.devices[key].permissions),
                                Approvals, Some(row.nodeId), Some(row.agentId), step.now)
    && Approving(step.action.deviceCall, id)
  }

  /** The row after an approving call: its state, and exactly the scope the call carries. */
  ghost predicate ApprovedBy(row: ApprovalRow, after: ApprovalRow, step: Step)
    requires step.action.Signed? && step.action.deviceCall.OnClearances?
  {
    SettledFrom(row, after) && after.state == Approved
        && after.scope == ApprovingScope(step.action.deviceCall.clearanceCall)
    && after.actor == step.action.request.deviceId
  }

  // ----- one step -----

  lemma ScanAdvances(db: Db, scan: Scan, reason: SettleReason, now: Time)
    requires ScanOk(db, scan, now)
    ensures AdvanceUnapproved(db, RunScan(db, scan, reason))
  {
    forall id | id in db.board.approvals
      ensures var after := RunScan(db, scan, reason).board.approvals[id];
              after == db.board.approvals[id] || (SettledFrom(db.board.approvals[id], after) && after.state != Approved)
    {
      Expiry.ScanMeaning(db, scan.listing, scan.clock, reason, now, id);
    }
  }

  /** What one device decision does to the rows. */
  lemma TransitionAdvances(db: Db, id: Id, target: ApprovalState, deviceId: Id, decision: Option<Decision>,
                           scope: Option<Scope>, header: Option<string>, now: Time)
    requires target != Pending
    ensures var r := Transition(db, id, target, deviceId, decision, scope, header, now).0;
            AdvanceUnapproved(db, r) ||
            (target == Approved && IsPending(db, id) && now < db.board.approvals[id].expiresAt
             && r.board.approvals == db.board.approvals[id := SettledRow(db.board.approvals[id],
                 ByDevice(Approved, deviceId, decision, scope), now)])
  {
  }

  /** Either no row becomes approved, or the call approves the row it names, in time and with the
      capability. */
  ghost predicate ApprovesOnly(db: Db, r: Db, device: VerifiedDevice, call: ClearanceCall, now: Time) {
    AdvanceUnapproved(db, r) ||
    (&& ApprovingScope(call).Some?
     && IsPending(db, call.id) && now < db.board.approvals[call.id].expiresAt
     && var row := db.board.approvals[call.id];
     && Capabilities.DeviceHolds(db, device, Approvals, Some(row.nodeId), Some(row.agentId), now)
     && r.board.approvals ==
        db.board.approvals[call.id := SettledRow(row,
                                                 ByDevice(Approved, device.deviceId, Some(Approve),
                                                          ApprovingScope(call)), now)])
  }

  lemma DecideAdvances(db: Db, device: VerifiedDevice, call: ClearanceCall, id: Id, target: ApprovalState,
                       decision: Option<Decision>, scope: Option<Scope>, header: Option<string>, now: Time)
    requires target != Pending
    requires target == Approved ==>
               scope.Some? && ApprovingScope(call) == scope && call.id == id && decision == Some(Approve)
    ensures ApprovesOnly(db, DecideByDevice(db, device, id, target, decision, scope, header, now).0, device, call, now)
  {
    if id in db.board.approvals {
      var row := db.board.approvals[id];
      var d1 := Capabilities.RequireDevice(db, device, Approvals, header, Some(row.nodeId), Some(row.agentId), now).0;
      TransitionAdvances(d1, id, target, device.deviceId, decision, scope, header, now);
    }
  }

  /** On the clearance table a response does what its verdict does, and nothing without one. */
  lemma RespondRows(db: Db, id: Id, deviceId: Id, p: Response, header: Option<string>, now: Time)
    requires id in db.board.approvals
    ensures var verdict := VerdictOf(p.responseType);
            Respond(db, id, deviceId, p, header, now).0.board.approvals ==
            if verdict.None? then db.board.approvals
            else Transition(db, id, verdict.value.target, deviceId, Some(verdict.value.decision),
                            Some(verdict.value.scope), header, now).0.board.approvals
  {
  }

  lemma VerdictAdvances(db: Db, r: Db, device: VerifiedDevice, id: Id, p: Response, header: Option<string>, now: Time)
    requires id in db.board.approvals && VerdictOf(p.responseType).Some?
    requires Capabilities.DeviceHolds(db, device, Approvals, Some(db.board.approvals[id].nodeId),
                                      Some(db.board.approvals[id].agentId), now)
    requires var v := VerdictOf(p.responseType).value;
             r.board.approvals == Transition(db, id, v.target, device.deviceId, Some(v.decision), Some(v.scope),
                                             header, now).0.board.approvals
    ensures ApprovesOnly(db, r, device, RespondCall(id, p), now)
  {
    var v := VerdictOf(p.responseType).value;
    TransitionAdvances(db, id, v.target, device.deviceId, Some(v.decision), Some(v.scope), header, now);
  }

  lemma RespondAdvances(db: Db, device: VerifiedDevice, id: Id, p: Response, header: Option<string>, now: Time)
    requires id in db.board.approvals
    requires Capabilities.DeviceHolds(db, device, Approvals, Some(db.board.approvals[id].nodeId),
                                      Some(db.board.approvals[id].agentId), now)
    ensures ApprovesOnly(db, Respond(db, id, device.deviceId, p, header, now).0, device, RespondCall(id, p), now)
  {
    RespondRows(db, id, device.deviceId, p, header, now);
    if VerdictOf(p.responseType).Some? {
      VerdictAdvances(db, Respond(db, id, device.deviceId, p, header, now).0, device, id, p, header, now);
    }
  }

  lemma RespondByDeviceAdvances(db: Db, device: VerifiedDevice, id: Id, p: Response, header: Option<string>, now: Time)
    ensures ApprovesOnly(db, RespondByDevice(db, device, id, p, header, now).0, device, RespondCall(id, p), now)
  {
    if id in db.board.approvals {
      var row := db.board.approvals[id];
      if Capabilities.RequireDevice(db, device, Approvals, header, Some(row.nodeId), Some(row.agentId), now).1 {
        RespondAdvances(db, device, id, p, header, now);
      }
    }
  }

  lemma ClearanceRouteAdvances(db: Db, device: VerifiedDevice, call: ClearanceCall, header: Option<string>, now: Time)
    requires ClearanceInputOk(db, call, now)
    ensures ApprovesOnly(db, HandleClearance(db, device, call, header, now).0, device, call, now)
  {
    match call
    case ListClearances(scan) => ScanAdvances(db, scan, ExpiryScan, now);
    case GetClearance(_, scan) => ScanAdvances(db, scan, ExpiryScan, now);
    case Decide(id, decision, scope) =>
      DecideAdvances(db, device, call, id, if decision == Approve then Approved else Denied, Some(decision),
                     Some(scope), header, now);
    case ApproveOnceCall(id) => DecideAdvances(db, device, call, id, Approved, Some(Approve), Some(Once), header, now);
    case DenyCall(id) => DecideAdvances(db, device, call, id, Denied, Some(Deny), Some(Once), header, now);
    case ExpireCall(id) => DecideAdvances(db, device, call, id, Expired, None, None, header, now);
    case CancelCall(id) => DecideAdvances(db, device, call, id, Cancelled, None, None, header, now);
    case RespondCall(id, p) => RespondByDeviceAdvances(db, device, id, p, header, now);
  }

  lemma CancelAdvances(db: Db, id: Id, first: Scan, second: Scan, header: Option<string>, now: Time)
    requires BackendInputOk(db, CancelClearance(id, first, second), header, now) && id in db.board.approvals
    ensures var d1 := CancelFromRuntime(db, id, "runtime", header, now);
            AdvanceUnapproved(db, RunScan(RunScan(d1, first, RuntimeResultPoll), second, RuntimeResultPoll))
  {
    var d1 := CancelFromRuntime(db, id, "runtime", header, now);
    var d2 := RunScan(d1, first, RuntimeResultPoll);
    assert AdvanceUnapproved(db, d1);
    ScanAdvances(d1, first, RuntimeResultPoll, now);
    AdvanceTransitive(db, d1, d2);
    ScanAdvances(d2, second, RuntimeResultPoll, now);
    AdvanceTransitive(db, d2, RunScan(d2, second, RuntimeResultPoll));
  }

  lemma AdvanceTransitive(a: Db, b: Db, c: Db)
    requires AdvanceUnapproved(a, b) && AdvanceUnapproved(b, c)
    ensures AdvanceUnapproved(a, c)
  {
  }

  lemma BackendRouteAdvances(db: Db, call: BackendCall, header: Option<string>, now: Time)
    requires BackendInputOk(db, call, header, now)
    ensures AdvanceUnapproved(db, HandleBackend(db, call, header, now).0)
  {
    match call
    case ClearanceStatus(_, scan) => ScanAdvances(db, scan, ExpiryScan, now);
    case ClearanceResult(_, scan) => ScanAdvances(db, scan, RuntimeResultPoll, now);
    case CancelClearance(id, first, second) =>
      if id in db.board.approvals {
        CancelAdvances(db, id, first, second, header, now);
      }
    case _ =>
  }

  /** What a step may do to the row of one clearance. */
  ghost predicate RowStep(db: Db, r: Db, step: Step, id: Id)
    requires id in db.board.approvals
  {
    && id in r.board.approvals
    && var row, after := db.board.approvals[id], r.board.approvals[id];
    && (after == row || SettledFrom(row, after))
    && (row.state != Approved && after.state == Approved ==> Authorises(db, step, id) && ApprovedBy(row, after, step))
  }

  lemma SignedAdvances(db: Db, step: Step, id: Id)
    requires step.action.Signed? && Admissible(db, step) && id in db.board.approvals
    ensures RowStep(db, NextSigned(db, step.action.request, step.action.deviceCall, step.header, step.now).0, step, id)
  {
    var (d1, verified) := Signing.Verify(db, step.action.request, step.header, step.now);
    var call := step.action.deviceCall;
    if verified.Success? && call.OnClearances? {
      ClearanceRouteAdvances(d1, verified.value, call.clearanceCall, step.header, step.now);
    }
  }

  /** Every step: rows only move from pending to settled, and a row becomes approved only by a step
      that authorises it. */
  lemma NextAdvances(db: Db, step: Step, id: Id)
    requires Admissible(db, step) && id in db.board.approvals
    ensures RowStep(db, Next(db, step).0, step, id)
  {
    match step.action
    case Signed(request, call) => SignedAdvances(db, step, id);
    case Local(true, OnBackend(call)) => BackendRouteAdvances(db, call, step.header, step.now);
    case _ => assert Next(db, step).0.board == db.board;
  }

  /** What a device call that names a clearance decides, if it decides at all. */
  function CallVerdict(call: ClearanceCall): Option<Verdict> {
    match call
    case Decide(_, decision, scope) => Some(Verdict(if decision == Approve then Approved else Denied, decision, scope))
    case ApproveOnceCall(_) => Some(Verdict(Approved, Approve, Once))
    case DenyCall(_) => Some(Verdict(Denied, Deny, Once))
    case RespondCall(_, p) => VerdictOf(p.responseType)
    case _ => None
  }

  /** A signed, accepted, authorised request to approve or deny this pending clearance. */
  ghost predicate Deciding(db: Db, step: Step, id: Id) {
    && step.action.Signed? && CallOk(step.action.deviceCall)
    && Signing.Accepts(db, step.action.request, step.now)
    && IsPending(db, id)
    && step.action.deviceCall.OnClearances?
    && CallVerdict(step.action.deviceCall.clearanceCall).Some? && step.action.deviceCall.clearanceCall.id == id
    && var row, key := db.board.approvals[id], step.action.request.deviceId.value;
    Capabilities.DeviceHolds(db, VerifiedDevice(key, db.trust.devices[key].nodeId, db.trust.devices[key].permissions),
                             Approvals, Some(row.nodeId), Some(row.agentId), step.now)
  }

  /** The row such a request leaves behind: its verdict in time, an expiry when late. */
  function DecidedRow(row: ApprovalRow, v: Verdict, deviceId: Id, now: Time): ApprovalRow {
    if row.expiresAt <= now then SettledRow(row, ByClock(DecisionAfterExpiry), now)
    else SettledRow(row, ByDevice(v.target, deviceId, Some(v.decision), Some(v.scope)), now)
  }

  lemma TransitionDecides(db: Db, id: Id, v: Verdict, deviceId: Id, header: Option<string>, now: Time)
    requires id in db.board.approvals && (v.target == Approved || v.target == Denied)
    ensures var (r, reply) := Transition(db, id, v.target, deviceId, Some(v.decision), Some(v.scope), header, now);
            var row := db.board.approvals[id];
            && (reply.Refused? <==> !(IsPending(db, id) && now < row.expiresAt))
            && (reply.Refused? ==> reply == Refused(409))
            && r.board == if IsPending(db, id)
               then db.board.(approvals := db.board.approvals[id := DecidedRow(row, v, deviceId, now)]) else db.board
  {
  }

  /** A response row of a deciding type is always stored, and the clearance gets its verdict if and
      only if it was pending and not yet due: otherwise the row outlives a refused transition. */
  lemma ResponseOutlivesRefusal(db: Db, id: Id, deviceId: Id, p: Response, header: Option<string>, now: Time)
    requires id in db.board.approvals && VerdictOf(p.responseType).Some?
    ensures var (r, reply) := Respond(db, id, deviceId, p, header, now);
            var row, v := db.board.approvals[id], VerdictOf(p.responseType).value;
            && r.board.responses == db.board.responses + [ResponseRow(p.responseId, id, p.responseType, deviceId, None)]
            && (reply == Done <==> IsPending(db, id) && now < row.expiresAt)
            && (reply != Done ==> reply == Refused(409))
            && r.board.approvals ==
               if IsPending(db, id) then db.board.approvals[id := DecidedRow(row, v, deviceId, now)]
               else db.board.approvals
  {
    var v := VerdictOf(p.responseType).value;
    var d2 := AddResponse(db, ResponseRow(p.responseId, id, p.responseType, deviceId, None));
    TransitionDecides(d2, id, v, deviceId, header, now);
    var (d3, reply) := Transition(d2, id, v.target, deviceId, Some(v.decision), Some(v.scope), header, now);
    assert Respond(db, id, deviceId, p, header, now).0.board == d3.board;
  }

  lemma RouteDecides(db: Db, device: VerifiedDevice, call: ClearanceCall, id: Id, header: Option<string>, now: Time)
    requires IsPending(db, id) && CallVerdict(call).Some? && call.id == id
    requires Capabilities.DeviceHolds(db, device, Approvals, Some(db.board.approvals[id].nodeId),
                                      Some(db.board.approvals[id].agentId), now)
    ensures HandleClearance(db, device, call, header, now).0.board.approvals ==
            db.board.approvals[id := DecidedRow(db.board.approvals[id], CallVerdict(call).value, device.deviceId, now)]
  {
    var v := CallVerdict(call).value;
    TransitionDecides(db, id, v, device.deviceId, header, now);
    if call.RespondCall? {
      RespondRows(db, id, device.deviceId, call.response, header, now);
    } else {
      assert HandleClearance(db, device, call, header, now) ==
             Transition(db, id, v.target, device.deviceId, Some(v.decision), Some(v.scope), header, now);
    }
  }

  /** The converse of NextAdvances: an authorised decision takes effect, and nothing else changes; a
      late one expires the clearance, whatever it asked for. */
  lemma AuthorisedDecisionTakesEffect(db: Db, step: Step, id: Id)
    requires Deciding(db, step, id)
    ensures Next(db, step).0.board.approvals ==
            db.board.approvals[id := DecidedRow(db.board.approvals[id],
                                                CallVerdict(step.action.deviceCall.clearanceCall).value,
                                                step.action.request.deviceId.value, step.now)]
  {
    var (d1, verified) := Signing.Verify(db, step.action.request, step.header, step.now);
    RouteDecides(d1, verified.value, step.action.deviceCall.clearanceCall, id, step.header, step.now);
  }

  // ----- runs -----

  /** The first decision is final: a settled clearance keeps its whole row for the rest of the run. */
  lemma {:induction false} FirstDecisionIsFinal(run: Run, i: nat, j: nat, id: Id)
    requires IsRun(run) && i <= j <= |run.steps|
    requires id in run.states[i].board.approvals
    ensures id in run.states[j].board.approvals
    ensures run.states[i].board.approvals[id].state != Pending ==>
            run.states[j].board.approvals[id] == run.states[i].board.approvals[id]
    decreases j - i
  {
    if i < j {
      FirstDecisionIsFinal(run, i, j - 1, id);
      assert Follows(run, j - 1);
      NextAdvances(run.states[j - 1], run.steps[j - 1], id);
    }
  }

  /** Step j approved the clearance. */
  ghost predicate ApprovingStep(run: Run, j: nat, id: Id)
    requires Sized(run) && j < |run.steps|
  {
    && Authorises(run.states[j], run.steps[j], id)
    && id in run.states[j + 1].board.approvals
    && ApprovedBy(run.states[j].board.approvals[id], run.states[j + 1].board.approvals[id], run.steps[j])
  }

  ghost predicate ApprovedSince(run: Run, i: nat, k: nat, id: Id)
    requires Sized(run) && k <= |run.steps|
  {
    exists j: nat :: i <= j < k && ApprovingStep(run, j, id)
  }

  /** Between a state where a clearance is pending and one where it is approved, an authorised step
      approved it. */
  lemma {:induction false} SomeoneApproved(run: Run, i: nat, k: nat, id: Id)
    requires IsRun(run) && i <= k <= |run.steps|
    requires IsPending(run.states[i], id)
    requires id in run.states[k].board.approvals && run.states[k].board.approvals[id].state == Approved
    ensures ApprovedSince(run, i, k, id)
    decreases k - i
  {
    FirstDecisionIsFinal(run, i, k - 1, id);
    if run.states[k - 1].board.approvals[id].state == Approved {
      SomeoneApproved(run, i, k - 1, id);
      var j: nat :| i <= j < k - 1 && ApprovingStep(run, j, id);
    } else {
      TurningApproved(run, k - 1, id);
      assert ApprovingStep(run, k - 1, id);
    }
  }

  lemma TurningApproved(run: Run, k: nat, id: Id)
    requires IsRun(run) && k < |run.steps| && id in run.states[k].board.approvals
    requires id in run.states[k + 1].board.approvals
    requires run.states[k].board.approvals[id].state != Approved
    requires run.states[k + 1].board.approvals[id].state == Approved
    ensures ApprovingStep(run, k, id)
  {
    assert Follows(run, k);
    NextAdvances(run.states[k], run.steps[k], id);
  }
}
