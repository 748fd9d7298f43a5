/** One blocked backend action and one phone: a blocking approval call that returns "approved" was
    authorised by one accepted, timely, never replayed signed request that set the scope it reads. */
module EndToEnd {
  import opened Wrappers
  import opened Records
  import opened Tables
  import opened Approvals
  import opened Machine
  import opened Clearance
  import opened Client
  import DeviceTrust
  import Signing
  import TrustOutcomes

  /** The step opens the clearance, by either of the two routes. */
  predicate Opens(step: Step, id: Id) {
    && step.action.Local? && step.action.callerAllowed && step.action.runtimeCall.OnBackend?
    && var call := step.action.runtimeCall.backendCall;
    (call.RequestClearance? || call.CreateClearance?) && call.request.approvalId == id
  }

  predicate ReadsResult(step: Step, id: Id) {
    && step.action.Local? && step.action.callerAllowed && step.action.runtimeCall.OnBackend?
    && step.action.runtimeCall.backendCall.ClearanceResult? && step.action.runtimeCall.backendCall.id == id
  }

  /** The answer to a result poll. */
  ghost predicate Polled(run: Run, k: nat, id: Id, view: ApprovalView)
    requires Sized(run)
  {
    k < |run.steps| && ReadsResult(run.steps[k], id) && run.replies[k] == Status(view)
  }

  lemma OpenedIsPending(run: Run, i: nat, id: Id)
    requires IsRun(run) && i < |run.steps| && Opens(run.steps[i], id)
    ensures IsPending(run.states[i + 1], id)
  {
    assert Follows(run, i);
    var q, d := run.steps[i].action.runtimeCall.backendCall.request, run.states[i];
    if run.steps[i].action.runtimeCall.backendCall.RequestClearance? {
      assert RequestFromRuntime(d, q, run.steps[i].header).board == PutApproval(d, id,
          NewRow(Or(q.nodeId, d.config.nodeId), q)).board;
    } else {
      assert CreateRequest(d, q, run.steps[i].header).board == PutApproval(d, id,
          NewRow(Or(q.nodeId, d.config.nodeId), q)).board;
    }
  }

  lemma PollShowsTheRow(run: Run, k: nat, id: Id, view: ApprovalView)
    requires IsRun(run) && Polled(run, k, id, view)
    ensures id in run.states[k + 1].board.approvals
    ensures var row := run.states[k + 1].board.approvals[id];
            view.state == row.state && view.selectedScope == if row.state == Approved then row.scope else None
  {
    assert Follows(run, k);
  }

  /** The call says yes to this clearance with this scope, in so many words. */
  predicate SaysYes(call: ClearanceCall, id: Id, scope: Option<Scope>) {
    match call
    case Decide(other, decision, s) => other == id && decision == Approve && scope == Some(s)
    case ApproveOnceCall(other) => other == id && scope == Some(Once)
    case RespondCall(other, p) =>
      && other == id
      && ((p.responseType == ApproveOnce && scope == Some(Once))
          || (p.responseType == ApproveSession && scope == Some(ForSession))
          || (p.responseType == ApproveAgent && scope == Some(ForAgent)))
    case _ => false
  }

  /** The device has the permission to approve, or was granted it for this clearance's node and agent. */
  predicate MaySayYes(db: Db, deviceId: Id, row: ApprovalRow, now: Time)
    requires deviceId in db.trust.devices
  {
    || MayApprove in db.trust.devices[deviceId].permissions
    || TrustOutcomes.Granted(db, DeviceSubject, deviceId, Capability.Approvals,
                             if row.nodeId != "" then row.nodeId else db.config.nodeId, Some(row.agentId), now)
  }

  /** The step is a signed request, at most 300 seconds old or early, of an active device that may say yes
      to this pending clearance, says so with this scope, and says so in time. */
  predicate Vouched(db: Db, step: Step, id: Id, scope: Option<Scope>) {
    && step.action.Signed? && step.action.deviceCall.OnClearances?
    && SaysYes(step.action.deviceCall.clearanceCall, id, scope)
    && TrustOutcomes.HasHeaders(step.action.request)
    && TrustOutcomes.Recent(step.action.request.timestamp.value, step.now)
    && var deviceId := step.action.request.deviceId.value;
    && deviceId in db.trust.devices && db.trust.devices[deviceId].status == DeviceActive
    && id in db.board.approvals
    && var row := db.board.approvals[id];
    row.state == Pending && step.now < row.expiresAt && MaySayYes(db, deviceId, row, step.now)
  }

  lemma ApprovingIsVouched(run: Run, j: nat, id: Id)
    requires Sized(run) && j < |run.steps| && ApprovingStep(run, j, id)
    ensures Vouched(run.states[j], run.steps[j], id, run.states[j + 1].board.approvals[id].scope)
  {
    var db, step := run.states[j], run.steps[j];
    var row, deviceId := db.board.approvals[id], step.action.request.deviceId.value;
    TrustOutcomes.AcceptedExactlyWhen(db, step.action.request, step.now);
    TrustOutcomes.DeviceCheck(db, VerifiedDevice(deviceId, db.trust.devices[deviceId].nodeId,
                                                 db.trust.devices[deviceId].permissions), Capability.Approvals,
                              None, Some(row.nodeId), Some(row.agentId), step.now);
    YesIsSpelled(step.action.deviceCall.clearanceCall, id);
  }

  lemma YesIsSpelled(call: ClearanceCall, id: Id)
    requires ApprovingScope(call).Some? && call.id == id
    ensures SaysYes(call, id, ApprovingScope(call))
  {
  }

  /** Step j, between the opening step i and the poll k, is the one that approved the clearance; the
      scope is the one its call carries; its nonce was not accepted before. */
  ghost predicate AuthorisedBy(run: Run, i: nat, j: nat, k: nat, id: Id, scope: Option<Scope>)
    requires Sized(run)
  {
    && i < j < k < |run.steps|
    && ApprovingStep(run, j, id)
    && Vouched(run.states[j], run.steps[j], id, scope)
    && FreshNonce(run, j)
  }

  ghost predicate FreshNonce(run: Run, j: nat)
    requires Sized(run) && j < |run.steps| && run.steps[j].action.Signed?
  {
    forall m | 0 <= m < j && DeviceTrust.AcceptedStep(run.states[m], run.steps[m]) ::
      Signing.NonceKey(run.steps[m].action.request) != Signing.NonceKey(run.steps[j].action.request)
  }

  lemma ApprovingIsSigned(run: Run, j: nat, id: Id)
    requires Sized(run) && j < |run.steps| && ApprovingStep(run, j, id)
    ensures run.steps[j].action.Signed? && run.steps[j].action.deviceCall.OnClearances?
    ensures DeviceTrust.AcceptedStep(run.states[j], run.steps[j])
    ensures id in run.states[j + 1].board.approvals && run.states[j + 1].board.approvals[id].state == Approved
    ensures run.states[j + 1].board.approvals[id].scope == ApprovingScope(run.steps[j].action.deviceCall.clearanceCall)
  {
  }

  lemma ApprovingNonceIsFresh(run: Run, j: nat, id: Id)
    requires IsRun(run) && j < |run.steps| && ApprovingStep(run, j, id)
    ensures run.steps[j].action.Signed? && FreshNonce(run, j)
  {
    ApprovingIsSigned(run, j, id);
    forall m | 0 <= m < j && DeviceTrust.AcceptedStep(run.states[m], run.steps[m])
      ensures Signing.NonceKey(run.steps[m].action.request) != Signing.NonceKey(run.steps[j].action.request)
    {
      DeviceTrust.AcceptedNoncesAreDistinct(run, m, j);
    }
  }

  lemma ScopeLasts(run: Run, j: nat, k: nat, id: Id)
    requires IsRun(run) && j <= k < |run.steps| && ApprovingStep(run, j, id)
    ensures id in run.states[j + 1].board.approvals && id in run.states[k + 1].board.approvals
    ensures run.states[k + 1].board.approvals[id] == run.states[j + 1].board.approvals[id]
  {
    ApprovingIsSigned(run, j, id);
    FirstDecisionIsFinal(run, j + 1, k + 1, id);
  }

  lemma ApproverIsAuthorised(run: Run, i: nat, j: nat, k: nat, id: Id, scope: Option<Scope>)
    requires IsRun(run) && i < j <= k < |run.steps| && !run.steps[k].action.Signed? && ApprovingStep(run, j, id)
    requires id in run.states[k + 1].board.approvals && scope == run.states[k + 1].board.approvals[id].scope
    ensures AuthorisedBy(run, i, j, k, id, scope)
  {
    ApprovingNonceIsFresh(run, j, id);
    ApprovingIsVouched(run, j, id);
    ScopeLasts(run, j, k, id);
  }

  ghost predicate Authorised(run: Run, i: nat, k: nat, id: Id, scope: Option<Scope>)
    requires Sized(run)
  {
    exists j: nat :: AuthorisedBy(run, i, j, k, id, scope)
  }

  /** In every run: a poll that reads "approved" for a clearance opened earlier. */
  lemma ApprovedMeansAuthorised(run: Run, i: nat, k: nat, id: Id, view: ApprovalView)
    requires IsRun(run) && i < k && i < |run.steps| && Opens(run.steps[i], id)
    requires Polled(run, k, id, view) && view.state == Approved
    ensures Authorised(run, i, k, id, view.selectedScope)
  {
    OpenedIsPending(run, i, id);
    PollShowsTheRow(run, k, id, view);
    SomeoneApproved(run, i + 1, k + 1, id);
    var j: nat :| i + 1 <= j < k + 1 && ApprovingStep(run, j, id);
    ApproverIsAuthorised(run, i, j, k, id, view.selectedScope);
  }

  /** The converse: an authorised, timely request to approve makes every later poll read "approved",
      with the scope it carries. */
  lemma AuthorisedMeansApproved(run: Run, j: nat, k: nat, id: Id)
    requires IsRun(run) && j < k < |run.steps| && ReadsResult(run.steps[k], id)
    requires Authorises(run.states[j], run.steps[j], id)
    ensures run.replies[k].Status? && run.replies[k].view.state == Approved
    ensures run.replies[k].view.selectedScope == ApprovingScope(run.steps[j].action.deviceCall.clearanceCall)
    ensures SaysYes(run.steps[j].action.deviceCall.clearanceCall, id, run.replies[k].view.selectedScope)
  {
    YesIsSpelled(run.steps[j].action.deviceCall.clearanceCall, id);
    ApprovalLasts(run, j, k + 1, id);
    AnswerIsStatus(run, k, id);
    PollShowsTheRow(run, k, id, run.replies[k].view);
  }

  lemma AuthorisedDecides(db: Db, step: Step, id: Id)
    requires Admissible(db, step) && Authorises(db, step, id)
    ensures var row := Next(db, step).0.board.approvals;
            && id in row && row[id].state == Approved
            && row[id].scope == ApprovingScope(step.action.deviceCall.clearanceCall)
  {
    AuthorisedDecisionTakesEffect(db, step, id);
  }

  lemma ApprovedAtOnce(run: Run, j: nat, id: Id)
    requires IsRun(run) && j < |run.steps| && Authorises(run.states[j], run.steps[j], id)
    ensures id in run.states[j + 1].board.approvals && run.states[j + 1].board.approvals[id].state == Approved
    ensures run.states[j + 1].board.approvals[id].scope ==
            ApprovingScope(run.steps[j].action.deviceCall.clearanceCall)
  {
    assert Follows(run, j);
    AuthorisedDecides(run.states[j], run.steps[j], id);
  }

  lemma ApprovalLasts(run: Run, j: nat, k: nat, id: Id)
    requires IsRun(run) && j < k <= |run.steps| && Authorises(run.states[j], run.steps[j], id)
    ensures id in run.states[k].board.approvals && run.states[k].board.approvals[id].state == Approved
    ensures run.states[k].board.approvals[id].scope == ApprovingScope(run.steps[j].action.deviceCall.clearanceCall)
  {
    ApprovedAtOnce(run, j, id);
    FirstDecisionIsFinal(run, j + 1, k, id);
  }

  lemma AnswerIsStatus(run: Run, k: nat, id: Id)
    requires IsRun(run) && k < |run.steps| && ReadsResult(run.steps[k], id) && id in run.states[k + 1].board.approvals
    ensures run.replies[k].Status? && Polled(run, k, id, run.replies[k].view)
  {
    assert Follows(run, k);
  }

  /** Every send of a retried request that reaches the gateway opens a clearance of its own, so a POST
      repeated after a lost answer leaves two rows. */
  lemma EachSendOpensItsOwn(run: Run, i: nat, j: nat, first: Id, second: Id)
    requires IsRun(run) && i < j < |run.steps| && Opens(run.steps[i], first) && Opens(run.steps[j], second)
    ensures first != second
    ensures first in run.states[j + 1].board.approvals && second in run.states[j + 1].board.approvals
  {
    OpenedIsPending(run, i, first);
    OpenedIsPending(run, j, second);
    FirstDecisionIsFinal(run, i + 1, j, first);
    FirstDecisionIsFinal(run, j, j + 1, first);
    OpeningIsFresh(run, j, second);
  }

  lemma OpeningIsFresh(run: Run, j: nat, id: Id)
    requires IsRun(run) && j < |run.steps| && Opens(run.steps[j], id)
    ensures id !in run.states[j].board.approvals
  {
    assert Follows(run, j);
  }

  /** The client's polls are steps of the run, all after the opening; `at` says which. */
  ghost predicate PollsInRun(run: Run, i: nat, id: Id, poll: nat -> Option<ClientDecision>, at: nat -> nat)
    requires Sized(run)
  {
    forall n: nat | poll(n).Some? :: PollInRun(run, i, id, poll(n).value, at(n))
  }

  ghost predicate PollInRun(run: Run, i: nat, id: Id, d: ClientDecision, k: nat)
    requires Sized(run)
  {
    i < k && exists view :: Polled(run, k, id, view) && d == DecisionOf(view)
  }

  lemma ApprovedPollIsAuthorised(run: Run, i: nat, id: Id, d: ClientDecision, k: nat)
    requires IsRun(run) && i < |run.steps| && Opens(run.steps[i], id)
    requires PollInRun(run, i, id, d, k) && d.state == Approved
    ensures Authorised(run, i, k, id, d.selectedScope)
  {
    var view :| Polled(run, k, id, view) && d == DecisionOf(view);
    ApprovedMeansAuthorised(run, i, k, id, view);
  }

  /** A poll behind any settlement, whatever settled the clearance and how, ends the wait with that state. */
  lemma WaitSeesSettlement(run: Run, i: nat, id: Id, poll: nat -> Option<ClientDecision>, at: nat -> nat,
                           clock: nat -> real, timeout: real, interval: real, polls: nat,
                           outcome: WaitOutcome<ClientDecision>, n: nat, j: nat)
    requires IsRun(run) && PollsInRun(run, i, id, poll, at)
    requires EndsAsRead(poll, clock, timeout, polls, outcome)
    requires n < polls && poll(n).Some? && j <= at(n) && j < |run.states|
    requires id in run.states[j].board.approvals && run.states[j].board.approvals[id].state != Pending
    ensures n == polls - 1 && outcome.Returned?
    ensures var row := run.states[j].board.approvals[id];
            && outcome.result.state == row.state
            && outcome.result.selectedScope == if row.state == Approved then row.scope else None
  {
    assert PollInRun(run, i, id, poll(n).value, at(n));
    var view :| Polled(run, at(n), id, view) && poll(n).value == DecisionOf(view);
    PollShowsTheRow(run, at(n), id, view);
    FirstDecisionIsFinal(run, j, at(n) + 1, id);
    assert n < polls - 1 ==> ReadOpen(poll, clock, timeout, n);
  }

  /** A poll that an approving step preceded ends the wait, and with its verdict. */
  lemma WaitSeesApproval(run: Run, i: nat, id: Id, poll: nat -> Option<ClientDecision>, at: nat -> nat,
                         clock: nat -> real, timeout: real, interval: real, polls: nat,
                         outcome: WaitOutcome<ClientDecision>, n: nat, j: nat)
    requires IsRun(run) && PollsInRun(run, i, id, poll, at)
    requires Waited(poll, DecisionDone, clock, timeout, interval, polls, outcome)
    requires n < polls && poll(n).Some? && j < at(n) && j < |run.steps| && Authorises(run.states[j], run.steps[j], id)
    ensures n == polls - 1 && outcome.Returned? && outcome.result.state == Approved
    ensures outcome.result.selectedScope == ApprovingScope(run.steps[j].action.deviceCall.clearanceCall)
  {
    WaitedAsRead(poll, clock, timeout, interval, polls, outcome);
    ApprovedAtOnce(run, j, id);
    WaitSeesSettlement(run, i, id, poll, at, clock, timeout, interval, polls, outcome, n, j + 1);
  }

  /** Step i opened the clearance, and the polls for it come later. */
  ghost predicate SendInRun(run: Run, id: Id, i: nat, poll: nat -> Option<ClientDecision>, at: nat -> nat)
    requires Sized(run)
  {
    i < |run.steps| && Opens(run.steps[i], id) && PollsInRun(run, i, id, poll, at)
  }

  /** What the client was sent is still open: pending, and its oldest response not one of the three that
      ask for something else. */
  predicate StillOpen(d: ClientDecision) {
    d.state == Pending && d.decisionType !in {Some(Modified), Some(NeedsInfo), Some(ProposePolicy)}
  }

  predicate ReadOpen(poll: nat -> Option<ClientDecision>, clock: nat -> real, timeout: real, k: nat) {
    poll(k).Some? && StillOpen(poll(k).value) && clock(k + 1) < clock(0) + timeout
  }

  /** Every poll but the last read the clearance as still open before the deadline; the last ended the
      wait by not being open, by coming too late, or by an error. */
  ghost predicate EndsAsRead(poll: nat -> Option<ClientDecision>, clock: nat -> real, timeout: real, polls: nat,
                             wait: WaitOutcome<ClientDecision>)
  {
    && 1 <= polls
    && (forall k: nat | k < polls - 1 :: ReadOpen(poll, clock, timeout, k))
    && var last := poll(polls - 1);
    match wait
    case Returned(result) => last == Some(result) && !StillOpen(result)
    case TimedOut => last.Some? && StillOpen(last.value) && clock(0) + timeout <= clock(polls)
    case PollRaised => last.None?
    case SleepRejected => ReadOpen(poll, clock, timeout, polls - 1)
  }

  lemma WaitedAsRead(poll: nat -> Option<ClientDecision>, clock: nat -> real, timeout: real, interval: real,
                     polls: nat, wait: WaitOutcome<ClientDecision>)
    requires Waited(poll, DecisionDone, clock, timeout, interval, polls, wait)
    ensures EndsAsRead(poll, clock, timeout, polls, wait)
  {
    forall k: nat | k < polls - 1
      ensures ReadOpen(poll, clock, timeout, k)
    {
      assert KeepsWaiting(poll, DecisionDone, clock, timeout, k);
      DoneIsNotOpen(poll(k).value);
    }
    var last := poll(polls - 1);
    if last.Some? {
      DoneIsNotOpen(last.value);
    }
  }

  lemma DoneIsNotOpen(d: ClientDecision)
    ensures DecisionDone(d) <==> !StillOpen(d)
  {
  }

  /** The wait ended as the loop allows, and with "approved" only if that was authorised before the
      poll it ended on. */
  ghost predicate EndsAuthorised(run: Run, id: Id, i: nat, poll: nat -> Option<ClientDecision>, at: nat -> nat,
                                 clock: nat -> real,
                                 timeout: real, interval: real, polls: nat, wait: WaitOutcome<ClientDecision>)
    requires Sized(run)
  {
    && Waited(poll, DecisionDone, clock, timeout, interval, polls, wait)
    && EndsAsRead(poll, clock, timeout, polls, wait)
    && (wait.Returned? && wait.result.state == Approved ==>
          Authorised(run, i, at(polls - 1), id, wait.result.selectedScope))
  }

  /** Waiting for a clearance that step i opened: "approved" is returned only if it was authorised. */
  method WaitForApproval(poll: nat -> Option<ClientDecision>, clock: nat -> real, timeout: real,
                         pollInterval: Option<real>, configured: real, ghost rounds: nat, ghost run: Run, ghost i: nat,
                         ghost id: Id, ghost at: nat -> nat)
      returns (outcome: WaitOutcome<ClientDecision>, polls: nat)
    requires clock(0) + timeout <= clock(rounds + 1)
    requires IsRun(run) && SendInRun(run, id, i, poll, at)
    ensures EndsAuthorised(run, id, i, poll, at, clock, timeout, OrReal(pollInterval, configured), polls, outcome)
  {
    outcome, polls := Wait(poll, DecisionDone, clock, timeout, pollInterval, configured, rounds);
    WaitedAsRead(poll, clock, timeout, OrReal(pollInterval, configured), polls, outcome);
    if outcome.Returned? && outcome.result.state == Approved {
      assert PollInRun(run, i, id, poll(polls - 1).value, at(polls - 1));
      ApprovedPollIsAuthorised(run, i, id, outcome.result, at(polls - 1));
    }
  }

  predicate IsOpening(step: Step) {
    && step.action.Local? && step.action.callerAllowed && step.action.runtimeCall.OnBackend?
    && (step.action.runtimeCall.backendCall.RequestClearance? || step.action.runtimeCall.backendCall.CreateClearance?)
  }

  /** Every answered send is a request of the run to open a clearance, with the answer it got there, and
      the polls for that answer come later. */
  ghost predicate ClientInRun(run: Run, sends: nat -> Attempt<Id>, sentAt: nat -> nat,
                              poll: Id -> nat -> Option<ClientDecision>, at: nat -> nat)
    requires Sized(run)
  {
    forall n: nat | sends(n).Answered? :: SentInRun(run, sends(n).body, sentAt(n), poll(sends(n).body), at)
  }

  ghost predicate SentInRun(run: Run, answer: Id, i: nat, poll: nat -> Option<ClientDecision>, at: nat -> nat)
    requires Sized(run)
  {
    && i < |run.steps| && IsOpening(run.steps[i]) && run.replies[i] == Opened(answer)
    && PollsInRun(run, i, answer, poll, at)
  }

  /** The answer names the clearance that was opened. */
  lemma AnsweredSendIsInRun(run: Run, sends: nat -> Attempt<Id>, sentAt: nat -> nat,
                            poll: Id -> nat -> Option<ClientDecision>, at: nat -> nat, n: nat, id: Id)
    requires IsRun(run) && ClientInRun(run, sends, sentAt, poll, at) && sends(n) == Answered(id)
    ensures SendInRun(run, id, sentAt(n), poll(id), at)
  {
    assert SentInRun(run, id, sentAt(n), poll(id), at);
    assert Follows(run, sentAt(n));
  }

  datatype CallOutcome = NotOpened(error: RequestError) | Ended(approvalId: Id, wait: WaitOutcome<ClientDecision>)

  /** The whole blocking call: open the clearance, with retries, then wait for as long as it lives
      unless told otherwise. It returns "approved" only if that was authorised between the send that
      was answered and the poll it returns from. */
  method Approval(sends: nat -> Attempt<Id>, retryAttempts: int, backoff: real,
                  poll: Id -> nat -> Option<ClientDecision>, clock: nat -> real, timeout: Option<real>, expiresIn: int,
                  configured: real, ghost rounds: nat, ghost run: Run, ghost sentAt: nat -> nat, ghost at: nat -> nat)
      returns (outcome: CallOutcome, sent: nat, polls: nat)
    requires clock(0) + OrReal(timeout, expiresIn as real) <= clock(rounds + 1)
    requires IsRun(run) && ClientInRun(run, sends, sentAt, poll, at)
    ensures outcome.NotOpened? ==> 0 < sent ==> !sends(sent - 1).Answered?
    ensures outcome.Ended? ==> 0 < sent && sends(sent - 1) == Answered(outcome.approvalId)
    ensures outcome.Ended? ==>
              EndsAuthorised(run, outcome.approvalId, sentAt(sent - 1), poll(outcome.approvalId), at, clock,
                             OrReal(timeout, expiresIn as real), OrReal(None, configured), polls, outcome.wait)
  {
    var answer, slept;
    answer, sent, slept := Request(Sockets, sends, retryAttempts, backoff);
    polls := 0;
    SuccessWasAnswered(sends, retryAttempts, backoff, answer, sent, slept);
    if answer.Failure? {
      outcome := NotOpened(answer.error);
      return;
    }
    var id := answer.value;
    AnsweredSendIsInRun(run, sends, sentAt, poll, at, sent - 1, id);
    var wait;
    wait, polls := WaitForApproval(poll(id), clock, OrReal(timeout, expiresIn as real), None, configured, rounds,
                                   run, sentAt(sent - 1), id, at);
    outcome := Ended(id, wait);
  }
}
