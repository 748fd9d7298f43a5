/** The runtime's client: its reading of a clearance, the poll loop that blocks on it, and the retry
    loop under every request. Seconds are reals, as `time.monotonic` and `time.sleep` count them. */
module Client {
  import opened Wrappers
  import opened Records
  import Approvals

  // ----- reading a clearance -----

  datatype ClientDecision = ClientDecision(
    approvalId: Id, state: ApprovalState, selectedScope: Option<Scope>, decisionType: Option<ResponseType>)

  /** The client's latest response: the last of the list it was sent. */
  function LatestResponse(responses: seq<ResponseRow>): Option<ResponseRow> {
    if responses == [] then None else Some(responses[|responses| - 1])
  }

  /** The gateway adapter's latest response: the first of that list. */
  function AdapterLatest(responses: seq<ResponseRow>): Option<ResponseRow> {
    if responses == [] then None else Some(responses[0])
  }

  function DecisionOf(view: ApprovalView): ClientDecision {
    var latest := LatestResponse(view.responses);
    ClientDecision(view.approvalId, view.state, view.selectedScope,
                      if latest.Some? then Some(latest.value.responseType) else None)
  }

  predicate DecisionDone(d: ClientDecision) {
    || d.state != Pending
    || d.decisionType == Some(Modified) || d.decisionType == Some(NeedsInfo) || d.decisionType == Some(ProposePolicy)
  }

  ghost predicate FirstOf(rows: seq<ResponseRow>, id: Id, k: nat) {
    k < |rows| && rows[k].approvalId == id && forall i | 0 <= i < k :: rows[i].approvalId != id
  }

  ghost predicate LastOf(rows: seq<ResponseRow>, id: Id, k: nat) {
    k < |rows| && rows[k].approvalId == id && forall i | k < i < |rows| :: rows[i].approvalId != id
  }

  /** The list is newest first, so the client's "latest" is the oldest response and the adapter's the
      newest. */
  lemma {:induction false} WhichResponseIsLatest(rows: seq<ResponseRow>, id: Id, first: nat, last: nat)
    requires FirstOf(rows, id, first) && LastOf(rows, id, last)
    ensures LatestResponse(Approvals.ResponsesOf(rows, id)) == Some(rows[first])
    ensures AdapterLatest(Approvals.ResponsesOf(rows, id)) == Some(rows[last])
  {
    var n := |rows| - 1;
    var front := rows[..n];
    if last < n {
      assert FirstOf(front, id, first) && LastOf(front, id, last);
      WhichResponseIsLatest(front, id, first, last);
    } else if first < n {
      var k := LastBefore(front, id, first);
      WhichResponseIsLatest(front, id, first, k);
    } else {
      NoResponses(front, id);
    }
  }

  lemma {:induction false} LastBefore(rows: seq<ResponseRow>, id: Id, first: nat) returns (k: nat)
    requires FirstOf(rows, id, first)
    ensures LastOf(rows, id, k)
  {
    var n := |rows| - 1;
    if rows[n].approvalId == id {
      k := n;
    } else {
      k := LastBefore(rows[..n], id, first);
    }
  }

  lemma {:induction false} NoResponses(rows: seq<ResponseRow>, id: Id)
    requires forall i | 0 <= i < |rows| :: rows[i].approvalId != id
    ensures Approvals.ResponsesOf(rows, id) == []
  {
    if rows != [] {
      NoResponses(rows[..|rows| - 1], id);
    }
  }

  /** What the client makes of an answer: its state and scope as sent, and the type of the oldest response. */
  lemma {:induction false} DecisionReads(view: ApprovalView, rows: seq<ResponseRow>, first: nat)
    requires view.responses == Approvals.ResponsesOf(rows, view.approvalId)
    ensures var d := DecisionOf(view);
            d.approvalId == view.approvalId && d.state == view.state && d.selectedScope == view.selectedScope
    ensures FirstOf(rows, view.approvalId, first) ==> DecisionOf(view).decisionType == Some(rows[first].responseType)
    ensures (forall i | 0 <= i < |rows| :: rows[i].approvalId != view.approvalId) ==>
              DecisionOf(view).decisionType == None
  {
    if FirstOf(rows, view.approvalId, first) {
      var last := LastBefore(rows, view.approvalId, first);
      WhichResponseIsLatest(rows, view.approvalId, first, last);
    } else if forall i | 0 <= i < |rows| :: rows[i].approvalId != view.approvalId {
      NoResponses(rows, view.approvalId);
    }
  }

  /** Client and adapter agree on the latest response exactly when a clearance has at most one. */
  lemma LatestAgreesExactlyWhen(rows: seq<ResponseRow>, id: Id)
    requires forall i, j | 0 <= i < j < |rows| :: rows[i].responseId != rows[j].responseId
    ensures var responses := Approvals.ResponsesOf(rows, id);
            LatestResponse(responses) == AdapterLatest(responses) <==>
            forall i, j | 0 <= i < j < |rows| :: !(rows[i].approvalId == id && rows[j].approvalId == id)
  {
    if first: nat :| FirstOf(rows, id, first) {
      var last := LastBefore(rows, id, first);
      WhichResponseIsLatest(rows, id, first, last);
      if first < last {
        assert rows[first].responseId != rows[last].responseId;
      }
    } else {
      NoneAtAll(rows, id);
      NoResponses(rows, id);
    }
  }

  lemma {:induction false} NoneAtAll(rows: seq<ResponseRow>, id: Id)
    requires forall k: nat :: !FirstOf(rows, id, k)
    ensures forall i | 0 <= i < |rows| :: rows[i].approvalId != id
  {
    var n: nat := 0;
    while n < |rows|
      invariant n <= |rows| && forall i | 0 <= i < n :: rows[i].approvalId != id
    {
      assert !FirstOf(rows, id, n);
      n := n + 1;
    }
  }

  // ----- the poll loop -----

  datatype WaitOutcome<T> = Returned(result: T) | TimedOut | PollRaised | SleepRejected

  /** Python `first or second` on an optional number. */
  function OrReal(first: Option<real>, second: real): real {
    if first.Some? && first.value != 0.0 then first.value else second
  }

  /** No timeout and a timeout of zero both mean the default. */
  lemma TimeoutMeant(t: real, default: real)
    ensures OrReal(None, default) == default && OrReal(Some(0.0), default) == default
    ensures t != 0.0 ==> OrReal(Some(t), default) == t
  {
  }

  /** A poll that neither ended the wait nor came after the deadline. */
  ghost predicate KeepsWaiting<T(!new)>(poll: nat -> Option<T>, done: T -> bool, clock: nat -> real, timeout: real,
                                        k: nat) {
    poll(k).Some? && !done(poll(k).value) && clock(k + 1) < clock(0) + timeout
  }

  /** How a wait of that many polls can end. */
  ghost predicate Waited<T(!new)>(poll: nat -> Option<T>, done: T -> bool, clock: nat -> real, timeout: real,
                           interval: real, polls: nat, outcome: WaitOutcome<T>)
  {
    && 1 <= polls
    && (forall k: nat | k < polls - 1 :: KeepsWaiting(poll, done, clock, timeout, k))
    && var last := poll(polls - 1);
    match outcome
    case Returned(result) => last == Some(result) && done(result)
    case TimedOut => last.Some? && !done(last.value) && clock(0) + timeout <= clock(polls)
    case PollRaised => last.None?
    case SleepRejected => interval < 0.0 && KeepsWaiting(poll, done, clock, timeout, polls - 1)
  }

  /** `poll(k)` is the answer of the k-th poll, None if it raised; `clock(0)` is read at the start,
      `clock(k + 1)` after the k-th poll. After `rounds` more rounds the clock has reached the deadline. */
  method Wait<T(!new)>(poll: nat -> Option<T>, done: T -> bool, clock: nat -> real, timeout: real,
                       pollInterval: Option<real>, configured: real, ghost rounds: nat)
      returns (outcome: WaitOutcome<T>, polls: nat)
    requires clock(0) + timeout <= clock(rounds + 1)
    ensures Waited(poll, done, clock, timeout, OrReal(pollInterval, configured), polls, outcome)
    ensures polls <= rounds + 1
  {
    var deadline := clock(0) + timeout;
    var interval := OrReal(pollInterval, configured);
    polls := 0;
    while true
      invariant polls <= rounds
      invariant forall k: nat | k < polls :: KeepsWaiting(poll, done, clock, timeout, k)
      decreases rounds - polls
    {
      var result := poll(polls);
      polls := polls + 1;
      if result.None? {
        return PollRaised, polls;
      }
      if done(result.value) {
        return Returned(result.value), polls;
      }
      if clock(polls) >= deadline {
        return TimedOut, polls;
      }
      if interval < 0.0 {
        return SleepRejected, polls;
      }
      assert KeepsWaiting(poll, done, clock, timeout, polls - 1);
    }
  }

  /** The clock never runs back and every sleep between two polls is fully consumed. */
  ghost predicate Sleeping(clock: nat -> real, interval: real) {
    clock(0) <= clock(1) && forall k: nat | 1 <= k :: clock(k) + interval <= clock(k + 1)
  }

  /** The least number of intervals that cover the timeout. */
  function RoundsFor(timeout: real, interval: real): nat
    requires 0.0 < interval
  {
    if timeout <= 0.0 then 0
    else var q := timeout / interval; if q.Floor as real == q then q.Floor else q.Floor + 1
  }

  lemma RoundsCover(timeout: real, interval: real)
    requires 0.0 < interval
    ensures timeout <= RoundsFor(timeout, interval) as real * interval
    ensures 0.0 < timeout ==> RoundsFor(timeout, interval) as real * interval < timeout + interval
  {
    if 0.0 < timeout {
      QuotientTimes(timeout, interval);
      Cover(RoundsFor(timeout, interval), timeout / interval, interval, timeout);
    }
  }

  lemma QuotientTimes(t: real, c: real)
    requires c != 0.0
    ensures (t / c) * c == t
  {
  }

  lemma Cover(n: nat, q: real, c: real, t: real)
    requires q * c == t && q <= n as real < q + 1.0 && 0.0 < c
    ensures t <= n as real * c < t + c
  {
    var above := n as real - q;
    assert n as real * c == t + above * c by {
      assert (q + above) * c == q * c + above * c;
    }
    BelowOne(above, c);
  }

  lemma BelowOne(x: real, y: real)
    requires 0.0 <= x < 1.0 && 0.0 < y
    ensures 0.0 <= x * y < y
  {
    assert 0.0 < (1.0 - x) * y;
  }

  lemma {:induction false} ClockAfter(clock: nat -> real, interval: real, n: nat)
    requires Sleeping(clock, interval)
    ensures clock(0) + n as real * interval <= clock(n + 1)
  {
    if n != 0 {
      ClockAfter(clock, interval, n - 1);
      assert clock(n) + interval <= clock(n + 1);
      assert (n - 1) as real * interval + interval == n as real * interval;
    }
  }

  /** So with a positive interval the deadline is reached, and no wait takes more than
      ceil(timeout / interval) + 1 polls. */
  lemma WaitIsBounded<T(!new)>(poll: nat -> Option<T>, done: T -> bool, clock: nat -> real, timeout: real,
                        interval: real, polls: nat, outcome: WaitOutcome<T>)
    requires 0.0 < interval && Sleeping(clock, interval)
    requires Waited(poll, done, clock, timeout, interval, polls, outcome)
    ensures clock(0) + timeout <= clock(RoundsFor(timeout, interval) + 1)
    ensures polls <= RoundsFor(timeout, interval) + 1
  {
    var n := RoundsFor(timeout, interval);
    RoundsCover(timeout, interval);
    ClockAfter(clock, interval, n);
    assert n < polls - 1 ==> KeepsWaiting(poll, done, clock, timeout, n);
  }

  // ----- the retry loop -----

  datatype Attempt<T> = Answered(body: T) | HttpError(code: nat) | NetworkError | Unreadable
  datatype RequestError = HttpFailure(code: nat) | Exhausted | BadAnswer | BadBackoff
  /** A transport handed to the client answers or raises at once. */
  datatype Transport<T> = Sockets | Injected(answer: Result<T, RequestError>)

  function Triangle(n: nat): nat {
    if n == 0 then 0 else n + Triangle(n - 1)
  }

  lemma {:induction false} TriangleClosed(n: nat)
    ensures 2 * Triangle(n) == n * (n + 1)
  {
    if n != 0 {
      TriangleClosed(n - 1);
    }
  }

  lemma Distribute(x: real, a: nat, b: nat)
    ensures x * a as real + x * b as real == x * (a + b) as real
  {
  }

  ghost predicate AllNetworkErrors<T(!new)>(attempts: nat -> Attempt<T>, n: nat) {
    forall k: nat | k < n :: attempts(k) == NetworkError
  }

  /** How a request with retries can end. */
  ghost predicate Retried<T(!new)>(attempts: nat -> Attempt<T>, retryAttempts: int, backoff: real,
                                   result: Result<T, RequestError>, sent: nat, slept: real)
  {
    && (retryAttempts <= 0 ==> sent == 0 && result == Failure(Exhausted))
    && (0 < retryAttempts ==> 1 <= sent <= retryAttempts && AllNetworkErrors(attempts, sent - 1))
    && slept == (if sent == 0 then 0.0 else backoff * Triangle(sent - 1) as real)
    && (result == Failure(BadBackoff) ==> backoff < 0.0)
    && (0 < sent ==>
          match attempts(sent - 1)
          case Answered(body) => result == Success(body)
          case HttpError(code) => result == Failure(HttpFailure(code))
          case Unreadable => result == Failure(BadAnswer)
          case NetworkError => result == Failure(if sent == retryAttempts then Exhausted else BadBackoff))
  }

  lemma SuccessWasAnswered<T(!new)>(attempts: nat -> Attempt<T>, retryAttempts: int, backoff: real,
                                    result: Result<T, RequestError>, sent: nat, slept: real)
    requires Retried(attempts, retryAttempts, backoff, result, sent, slept)
    ensures result.Success? <==> 0 < sent && attempts(sent - 1).Answered?
    ensures result.Success? ==> attempts(sent - 1) == Answered(result.value)
  {
  }

  /** Sends until an answer comes, an HTTP error raises, or the attempts run out; `slept` is the
      total back-off. */
  method SendWithRetries<T(!new)>(attempts: nat -> Attempt<T>, retryAttempts: int, backoff: real)
      returns (result: Result<T, RequestError>, sent: nat, slept: real)
    ensures Retried(attempts, retryAttempts, backoff, result, sent, slept)
  {
    sent, slept := 0, 0.0;
    while sent < retryAttempts
      invariant 0 <= retryAttempts ==> sent <= retryAttempts
      invariant retryAttempts <= 0 ==> sent == 0
      invariant AllNetworkErrors(attempts, sent)
      invariant slept == if 0 < sent == retryAttempts then backoff * Triangle(sent - 1) as real
                  else backoff * Triangle(sent) as real
      decreases retryAttempts - sent
    {
      var attempt := attempts(sent);
      sent := sent + 1;
      match attempt
      case Answered(body) => return Success(body), sent, slept;
      case HttpError(code) => return Failure(HttpFailure(code)), sent, slept;
      case Unreadable => return Failure(BadAnswer), sent, slept;
      case NetworkError =>
        if sent < retryAttempts {
          if backoff < 0.0 {
            return Failure(BadBackoff), sent, slept;
          }
          Distribute(backoff, Triangle(sent - 1), sent);
          slept := slept + backoff * sent as real;
        }
    }
    result := Failure(Exhausted);
  }

  /** With an injected transport there is one call and no retry. */
  method Request<T(!new)>(transport: Transport<T>, attempts: nat -> Attempt<T>, retryAttempts: int, backoff: real)
      returns (result: Result<T, RequestError>, sent: nat, slept: real)
    ensures transport.Injected? ==> result == transport.answer && sent == 0 && slept == 0.0
    ensures transport.Sockets? ==> Retried(attempts, retryAttempts, backoff, result, sent, slept)
  {
    match transport
    case Injected(answer) => return answer, 0, 0.0;
    case Sockets => result, sent, slept := SendWithRetries(attempts, retryAttempts, backoff);
  }

  /** The total back-off of a request never exceeds backoff * n * (n - 1) / 2 for n attempts. */
  lemma BackoffIsBounded(backoff: real, sent: nat, retryAttempts: nat)
    requires 0.0 <= backoff && 1 <= sent <= retryAttempts
    ensures backoff * Triangle(sent - 1) as real <= backoff * (retryAttempts * (retryAttempts - 1)) as real / 2.0
  {
    TriangleGrows(sent - 1, retryAttempts - 1);
    TriangleClosed(retryAttempts - 1);
    var t, u := Triangle(sent - 1) as real, Triangle(retryAttempts - 1) as real;
    Scaled(backoff, t, u);
    assert (retryAttempts * (retryAttempts - 1)) as real == 2.0 * u;
    assert backoff * (2.0 * u) / 2.0 == backoff * u;
  }

  lemma Scaled(factor: real, t: real, u: real)
    requires 0.0 <= factor && t <= u
    ensures factor * t <= factor * u
  {
    assert 0.0 <= factor * (u - t);
  }

  lemma {:induction false} TriangleGrows(a: nat, b: nat)
    requires a <= b
    ensures Triangle(a) <= Triangle(b)
  {
    if a < b {
      TriangleGrows(a, b - 1);
    }
  }
}
