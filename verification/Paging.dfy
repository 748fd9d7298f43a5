/** Cursor paging: pages fetched by feeding next_cursor back join up without gaps or repetitions,
    however the log grows in between, and folding them gives the server's tables. */
module Paging {
  import opened Wrappers
  import opened Records
  import opened Tables
  import opened Machine
  import Cursor
  import Decimal
  import Journal
  import Ledger
  import DeviceTrust

  /** One poll: the log as the server then had it, and the limit asked for. */
  datatype Poll = Poll(rows: seq<EventRow>, limit: int)

  function Answer(poll: Poll, after: Option<string>): seq<EventRow> {
    ListEventsAfter(poll.rows, after, poll.limit)
  }

  /** The cursor held after the polls; each poll asks with the cursor of the one before. */
  function CursorAfter(start: Option<string>, polls: seq<Poll>): Option<string> {
    if polls == [] then start
    else
      var n := |polls| - 1;
      var before := CursorAfter(start, polls[..n]);
      NextCursor(Answer(polls[n], before), before)
  }

  function Joined(start: Option<string>, polls: seq<Poll>): seq<EventRow> {
    if polls == [] then []
    else
      var n := |polls| - 1;
      Joined(start, polls[..n]) + Answer(polls[n], CursorAfter(start, polls[..n]))
  }

  /** Between polls the log may grow, never shrink or change. */
  ghost predicate Growing(polls: seq<Poll>) {
    && (forall i | 0 <= i < |polls| :: Stored(polls[i].rows))
    && (forall i, j | 0 <= i <= j < |polls| :: polls[i].rows <= polls[j].rows)
  }

  /** The number of events a cursor stands behind; a negative one counts as none. */
  function Position(cursor: Option<string>): nat {
    var s := Cursor.Sequence(cursor);
    if s < 0 then 0 else s
  }

  function Tail(rows: seq<EventRow>, p: nat): seq<EventRow> {
    if p <= |rows| then rows[p..] else []
  }

  lemma {:induction false} EventsAfterIsTail(rows: seq<EventRow>, sequence: int)
    requires Numbered(rows)
    ensures EventsAfter(rows, sequence) == Tail(rows, if sequence < 0 then 0 else sequence)
  {
    if rows != [] {
      var n := |rows| - 1;
      EventsAfterIsTail(rows[..n], sequence);
      assert rows[n].sequence == n + 1;
      TailOfLonger(rows[..n], rows[n], if sequence < 0 then 0 else sequence);
      assert rows == rows[..n] + [rows[n]];
    }
  }

  lemma TailOfLonger(rows: seq<EventRow>, e: EventRow, p: nat)
    ensures Tail(rows + [e], p) == if p <= |rows| then Tail(rows, p) + [e] else []
  {
  }

  // ----- what a cursor holds -----

  /** A log as SQLite can hold it: no row number is beyond the largest integer. */
  ghost predicate Stored(rows: seq<EventRow>) {
    Numbered(rows) && |rows| <= MAX_INTEGER
  }

  lemma FewDigits(n: nat)
    requires n <= MAX_INTEGER + 1
    ensures |Decimal.Digits(n)| <= 19
  {
    assert Decimal.Pow10(10) == 10_000_000_000;
    assert Decimal.Pow10(19) == 10_000_000_000_000_000_000;
    Decimal.DigitsLength(n, 19);
  }

  lemma StoredCursor(nodeId: string, n: nat)
    requires n <= MAX_INTEGER + 1
    ensures Cursor.Sequence(Some(Cursor.Print(nodeId, n))) == n
  {
    FewDigits(n);
    Cursor.PrintParse(nodeId, n);
  }

  /** A page is the first `limit` events behind the cursor, and its last event's cursor stands behind
      exactly the events read. */
  lemma OnePage(rows: seq<EventRow>, after: Option<string>, limit: int)
    requires Stored(rows)
    ensures var page := ListEventsAfter(rows, after, limit);
            && page == Limited(Tail(rows, Position(after)), limit)
            && Position(NextCursor(page, after)) == Position(after) + |page|
            && (page != [] ==> Binds(Cursor.Sequence(NextCursor(page, after))))
  {
    var page := ListEventsAfter(rows, after, limit);
    EventsAfterIsTail(rows, Cursor.Sequence(after));
    LastOfPage(rows, Position(after), limit);
    assert page != [] ==> NextCursor(page, after) == Some(page[|page| - 1].cursor);
  }

  lemma LastOfPage(rows: seq<EventRow>, p: nat, limit: int)
    requires Stored(rows)
    ensures var page := Limited(Tail(rows, p), limit);
            page != [] ==> Cursor.Sequence(Some(page[|page| - 1].cursor)) == p + |page| <= MAX_INTEGER
  {
    var page := Limited(Tail(rows, p), limit);
    if page != [] {
      var k := p + |page| - 1;
      assert page[|page| - 1] == rows[k];
      StoredCursor(rows[k].nodeId, k + 1);
    }
  }

  // ----- which requests are answered -----

  /** A page is answered exactly when the position and the limit are signed 64-bit integers; given a
      limit that allows it, it is the whole log exactly when the cursor reads as the start or nothing is
      there. */
  lemma AnsweredExactlyWhen(db: Db, after: Option<string>, limit: int)
    requires Stored(db.log.events)
    ensures var reply := ReadPage(db, after, limit);
            && (reply.Page? <==> Binds(Cursor.Sequence(after)) && Binds(limit))
            && (!reply.Page? ==> reply == Refused(500))
            && (reply.Page? && (limit < 0 || |db.log.events| <= limit) ==>
                  (reply.events == db.log.events <==> Position(after) == 0 || db.log.events == []))
  {
    OnePage(db.log.events, after, limit);
  }

  /** For a cursor that ends in digits: it is refused exactly if they make a number beyond 64 bits and
      are not too many to be read, in which case it counts as the start. */
  lemma DigitCursors(db: Db, nodeId: string, tail: string, limit: int)
    requires tail != [] && Decimal.AllDigits(tail)
    ensures var after := Some(nodeId + ":" + tail);
            && (ReadPage(db, after, limit).Page? <==>
                  Binds(limit) && (Decimal.MAX_DIGITS < |tail| || Decimal.Value(tail) <= MAX_INTEGER))
            && (Decimal.MAX_DIGITS < |tail| ==> Position(after) == 0)
  {
    Cursor.SequenceOfDigits(nodeId, tail);
  }

  /** The first cursor of a node that is refused. */
  lemma FirstRefusedCursor(db: Db, nodeId: string, limit: int)
    ensures ReadPage(db, Some(Cursor.Print(nodeId, MAX_INTEGER + 1)), limit) == Refused(500)
  {
    StoredCursor(nodeId, MAX_INTEGER + 1);
  }

  /** Once one page was answered, so is every later request for the page behind it. */
  lemma AnsweringGoesOn(db: Db, after: Option<string>, limit: int, later: Db, again: int)
    requires Stored(db.log.events) && ReadPage(db, after, limit).Page? && Binds(again)
    ensures ReadPage(later, ReadPage(db, after, limit).nextCursor, again).Page?
  {
    OnePage(db.log.events, after, limit);
  }

  // ----- pages joined -----

  /** What was read so far is a prefix of what lies behind position p, and the cursor stands behind it. */
  ghost predicate ReadUpTo(rows: seq<EventRow>, p: nat, joined: seq<EventRow>, position: nat) {
    joined <= Tail(rows, p) && position == p + |joined|
  }

  /** One more page continues where the pages before it ended. */
  lemma PageContinues(rows: seq<EventRow>, p: nat, joined: seq<EventRow>, after: Option<string>, limit: int)
    requires Stored(rows) && ReadUpTo(rows, p, joined, Position(after))
    ensures var page := ListEventsAfter(rows, after, limit);
            ReadUpTo(rows, p, joined + page, Position(NextCursor(page, after)))
  {
    OnePage(rows, after, limit);
    PrefixContinues(rows, p, joined, ListEventsAfter(rows, after, limit), limit);
  }

  lemma PrefixContinues(rows: seq<EventRow>, p: nat, joined: seq<EventRow>, page: seq<EventRow>, limit: int)
    requires joined <= Tail(rows, p) && page == Limited(Tail(rows, p + |joined|), limit)
    ensures joined + page <= Tail(rows, p)
  {
  }

  /** Whatever the limits, and whatever was appended between the polls: the joined pages are the
      events right behind the start cursor, without a gap, and the cursor in hand stands behind
      exactly what was read. */
  lemma {:induction false} PagesHaveNoGaps(start: Option<string>, polls: seq<Poll>)
    requires Growing(polls) && polls != []
    ensures ReadUpTo(polls[|polls| - 1].rows, Position(start), Joined(start, polls),
                     Position(CursorAfter(start, polls)))
  {
    var n := |polls| - 1;
    var front, p := polls[..n], Position(start);
    if front != [] {
      PagesHaveNoGaps(start, front);
    }
    PageContinues(polls[n].rows, p, Joined(start, front), CursorAfter(start, front), polls[n].limit);
  }

  /** So each event is received once and in order: sequences count up one by one. */
  lemma PagesCountUp(start: Option<string>, polls: seq<Poll>)
    requires Growing(polls)
    ensures var joined := Joined(start, polls);
            forall i | 0 <= i < |joined| :: joined[i].sequence == Position(start) + i + 1
  {
    if polls != [] {
      var joined, rows := Joined(start, polls), polls[|polls| - 1].rows;
      PagesHaveNoGaps(start, polls);
      forall i | 0 <= i < |joined|
        ensures joined[i].sequence == Position(start) + i + 1
      {
        assert joined[i] == rows[Position(start) + i];
      }
    }
  }

  // ----- draining a backlog -----

  function Asked(polls: seq<Poll>): int {
    if polls == [] then 0 else Asked(polls[..|polls| - 1]) + polls[|polls| - 1].limit
  }

  function Min(a: int, b: int): int {
    if a <= b then a else b
  }

  /** Of a backlog behind position p, as much was read as was asked for, up to all of it. */
  ghost predicate ReadAsAsked(rows: seq<EventRow>, p: nat, read: nat, asked: int) {
    0 <= asked && read == Min(asked, |Tail(rows, p)|)
  }

  lemma PageDrains(rows: seq<EventRow>, p: nat, read: nat, asked: int, after: Option<string>, limit: int)
    requires Stored(rows) && 0 < limit && ReadAsAsked(rows, p, read, asked) && Position(after) == p + read
    ensures ReadAsAsked(rows, p, read + |ListEventsAfter(rows, after, limit)|, asked + limit)
  {
    OnePage(rows, after, limit);
  }

  lemma CursorPosition(start: Option<string>, polls: seq<Poll>)
    requires Growing(polls)
    ensures Position(CursorAfter(start, polls)) == Position(start) + |Joined(start, polls)|
  {
    if polls != [] {
      PagesHaveNoGaps(start, polls);
    }
  }

  /** While nothing is appended, the pages hold as many events as were asked for, up to the backlog. */
  lemma {:induction false} BacklogDrains(start: Option<string>, polls: seq<Poll>, rows: seq<EventRow>)
    requires Stored(rows)
    requires forall i | 0 <= i < |polls| :: polls[i].rows == rows && 0 < polls[i].limit
    ensures ReadAsAsked(rows, Position(start), |Joined(start, polls)|, Asked(polls))
  {
    if polls != [] {
      var n := |polls| - 1;
      var front := polls[..n];
      BacklogDrains(start, front, rows);
      assert Growing(front);
      CursorPosition(start, front);
      PageDrains(rows, Position(start), |Joined(start, front)|, Asked(front), CursorAfter(start, front),
                 polls[n].limit);
    }
  }

  lemma {:induction false} AskedEvenly(polls: seq<Poll>, limit: int)
    requires forall i | 0 <= i < |polls| :: polls[i].limit == limit
    ensures Asked(polls) == |polls| * limit
  {
    if polls != [] {
      AskedEvenly(polls[..|polls| - 1], limit);
    }
  }

  function CeilDiv(n: nat, d: int): nat
    requires 0 < d
  {
    (n + d - 1) / d
  }

  lemma CeilDivMeaning(n: nat, d: int, k: nat)
    requires 0 < d
    ensures n <= k * d <==> CeilDiv(n, d) <= k
  {
    var q, r := (n + d - 1) / d, (n + d - 1) % d;
    assert n + d - 1 == q * d + r;
    if q <= k {
      assert q * d <= k * d;
    } else {
      assert (k + 1) * d <= q * d;
    }
  }

  /** With one positive limit the polls read the whole backlog exactly from the ceil(n / limit)-th on. */
  lemma DrainsInCeilPolls(start: Option<string>, polls: seq<Poll>, rows: seq<EventRow>, limit: int)
    requires Stored(rows) && 0 < limit
    requires forall i | 0 <= i < |polls| :: polls[i] == Poll(rows, limit)
    ensures var backlog := Tail(rows, Position(start));
            Joined(start, polls) == backlog <==> CeilDiv(|backlog|, limit) <= |polls|
  {
    var backlog := Tail(rows, Position(start));
    BacklogDrains(start, polls, rows);
    AskedEvenly(polls, limit);
    CeilDivMeaning(|backlog|, limit, |polls|);
    if polls != [] {
      PagesHaveNoGaps(start, polls);
    }
  }

  // ----- polling inside a run -----

  /** One accepted /v1/events request of a run, with its answer. */
  datatype Exchange = Exchange(position: nat, after: Option<string>, limit: int, page: seq<EventRow>,
                               next: Option<string>)

  ghost predicate Happened(run: Run, x: Exchange)
    requires Sized(run)
  {
    && x.position < |run.steps|
    && DeviceTrust.AcceptedStep(run.states[x.position], run.steps[x.position])
    && run.steps[x.position].action.deviceCall == ReadEvents(x.after, x.limit)
    && run.replies[x.position] == Page(x.page, x.next)
  }

  predicate AsksOn(start: Option<string>, xs: seq<Exchange>, i: nat)
    requires i < |xs|
  {
    xs[i].after == if i == 0 then start else xs[i - 1].next
  }

  /** Requests at growing positions, each asking with the cursor that the one before returned. */
  ghost predicate Session(start: Option<string>, xs: seq<Exchange>) {
    && (forall i | 0 <= i < |xs| :: AsksOn(start, xs, i))
    && (forall i, j | 0 <= i < j < |xs| :: xs[i].position < xs[j].position)
  }

  /** What the client has been sent. */
  function Received(xs: seq<Exchange>): seq<EventRow> {
    if xs == [] then [] else Received(xs[..|xs| - 1]) + xs[|xs| - 1].page
  }

  predicate Answered(poll: Poll, x: Exchange) {
    x.page == Answer(poll, x.after) && x.next == NextCursor(x.page, x.after)
  }

  /** The logs that the exchanges were answered from. */
  ghost predicate Served(polls: seq<Poll>, xs: seq<Exchange>) {
    |polls| == |xs| && forall i | 0 <= i < |xs| :: Answered(polls[i], xs[i])
  }

  lemma SessionPrefix(start: Option<string>, xs: seq<Exchange>, n: nat)
    requires Session(start, xs) && n <= |xs|
    ensures Session(start, xs[..n])
  {
    forall i | 0 <= i < n
      ensures AsksOn(start, xs[..n], i)
    {
      assert AsksOn(start, xs, i);
    }
  }

  predicate HoldsCursor(xs: seq<Exchange>, start: Option<string>, cursor: Option<string>) {
    cursor == if xs == [] then start else xs[|xs| - 1].next
  }

  lemma {:induction false} SessionIsJoined(start: Option<string>, xs: seq<Exchange>, polls: seq<Poll>)
    requires Session(start, xs) && Served(polls, xs)
    ensures Received(xs) == Joined(start, polls) && HoldsCursor(xs, start, CursorAfter(start, polls))
  {
    if xs != [] {
      var n := |xs| - 1;
      SessionPrefix(start, xs, n);
      SessionIsJoined(start, xs[..n], polls[..n]);
      assert AsksOn(start, xs, n) && Answered(polls[n], xs[n]);
    }
  }

  lemma SessionSeesNoGaps(start: Option<string>, xs: seq<Exchange>, polls: seq<Poll>)
    requires Session(start, xs) && Served(polls, xs) && Growing(polls) && xs != []
    ensures Received(xs) <= Tail(polls[|polls| - 1].rows, Position(start))
  {
    SessionIsJoined(start, xs, polls);
    PagesHaveNoGaps(start, polls);
  }

  lemma {:induction false} LogsGrow(run: Run, i: nat, j: nat)
    requires IsRun(run) && i <= j <= |run.steps|
    ensures Extends(run.states[i], run.states[j])
    decreases j - i
  {
    if i < j {
      LogsGrow(run, i, j - 1);
      assert Follows(run, j - 1);
    }
  }

  function PollFrom(db: Db, x: Exchange): Poll {
    Poll(db.log.events, x.limit)
  }

  /** The polls of a session, as the run saw them. */
  ghost predicate PollsOf(run: Run, xs: seq<Exchange>, polls: seq<Poll>)
    requires Sized(run)
  {
    |polls| == |xs| &&
    forall i | 0 <= i < |xs| :: xs[i].position < |run.steps| && polls[i] == PollFrom(run.states[xs[i].position], xs[i])
  }

  ghost predicate AllHappened(run: Run, xs: seq<Exchange>)
    requires Sized(run)
  {
    forall i | 0 <= i < |xs| :: Happened(run, xs[i])
  }

  ghost predicate AnsweredInRun(run: Run, x: Exchange)
    requires Sized(run)
  {
    x.position < |run.steps| && Answered(PollFrom(run.states[x.position], x), x)
  }

  lemma AllAnswered(run: Run, xs: seq<Exchange>)
    requires IsRun(run) && AllHappened(run, xs)
    ensures forall i | 0 <= i < |xs| :: AnsweredInRun(run, xs[i])
  {
    forall i | 0 <= i < |xs|
      ensures AnsweredInRun(run, xs[i])
    {
      assert Happened(run, xs[i]) && Follows(run, xs[i].position);
    }
  }

  lemma {:induction false} PollsExist(run: Run, xs: seq<Exchange>) returns (polls: seq<Poll>)
    requires Sized(run) && forall i | 0 <= i < |xs| :: AnsweredInRun(run, xs[i])
    ensures PollsOf(run, xs, polls) && Served(polls, xs)
  {
    polls := [];
    if xs != [] {
      var n := |xs| - 1;
      assert AnsweredInRun(run, xs[n]);
      var front := PollsExist(run, xs[..n]);
      polls := front + [PollFrom(run.states[xs[n].position], xs[n])];
    }
  }

  lemma PollsGrow(run: Run, start: Option<string>, xs: seq<Exchange>, polls: seq<Poll>)
    requires IsRun(run) && LogOk(run.states[0]) && Session(start, xs) && PollsOf(run, xs, polls)
    requires polls != [] ==> |polls[|polls| - 1].rows| <= MAX_INTEGER
    ensures Growing(polls)
  {
    forall i, j | 0 <= i <= j < |xs|
      ensures polls[i].rows <= polls[j].rows && Stored(polls[i].rows)
    {
      LogsGrow(run, 0, xs[i].position);
      LogsGrow(run, xs[i].position, xs[j].position);
      LogsGrow(run, xs[i].position, xs[|xs| - 1].position);
    }
  }

  ghost predicate LastLog(run: Run, xs: seq<Exchange>, rows: seq<EventRow>)
    requires Sized(run)
  {
    xs != [] && xs[|xs| - 1].position < |run.steps| && rows == run.states[xs[|xs| - 1].position].log.events
  }

  lemma LastPoll(run: Run, xs: seq<Exchange>, polls: seq<Poll>, rows: seq<EventRow>)
    requires Sized(run) && PollsOf(run, xs, polls) && LastLog(run, xs, rows)
    ensures polls != [] && polls[|polls| - 1].rows == rows
  {
  }

  lemma ServedByRun(run: Run, start: Option<string>, xs: seq<Exchange>, rows: seq<EventRow>) returns (polls: seq<Poll>)
    requires IsRun(run) && LogOk(run.states[0])
    requires Session(start, xs) && AllHappened(run, xs) && LastLog(run, xs, rows) && |rows| <= MAX_INTEGER
    ensures Served(polls, xs) && Growing(polls) && polls != [] && polls[|polls| - 1].rows == rows
  {
    AllAnswered(run, xs);
    polls := PollsExist(run, xs);
    LastPoll(run, xs, polls, rows);
    PollsGrow(run, start, xs, polls);
  }

  /** Over any run: a client that feeds next_cursor back receives the log right behind its start
      cursor, with nothing missing, repeated or reordered; `rows` is the log at its last request. */
  lemma ClientSeesNoGaps(run: Run, start: Option<string>, xs: seq<Exchange>, rows: seq<EventRow>)
    requires IsRun(run) && LogOk(run.states[0])
    requires Session(start, xs) && AllHappened(run, xs) && LastLog(run, xs, rows) && |rows| <= MAX_INTEGER
    ensures Received(xs) <= Tail(rows, Position(start))
  {
    var polls := ServedByRun(run, start, xs, rows);
    SessionSeesNoGaps(start, xs, polls);
  }

  lemma EverythingRead(rows: seq<EventRow>, received: seq<EventRow>)
    requires received <= Tail(rows, Position(None)) && |received| == |rows|
    ensures received == rows
  {
  }

  /** A client that started from nothing and has caught up reads the server's tables off its pages. */
  lemma CaughtUpClientKnowsTheTables(run: Run, xs: seq<Exchange>, k: nat)
    requires IsRun(run) && LogOk(run.states[0]) && Journal.BoardOk(run.states[0])
    requires Session(None, xs) && AllHappened(run, xs) && xs != [] && k == xs[|xs| - 1].position && k < |run.steps|
    requires |Received(xs)| == |run.states[k].log.events| <= MAX_INTEGER
    ensures Journal.Fold(Received(xs)) == Journal.WithMock(Journal.Snapshot(run.states[k]))
  {
    var rows := run.states[k].log.events;
    ClientSeesNoGaps(run, None, xs, rows);
    EverythingRead(rows, Received(xs));
    Ledger.BoardStaysOk(run, k);
  }
}
