/** What an expiry scan does, whatever order it visits the pending clearances in. */
module Expiry {
  import opened Wrappers
  import opened Records
  import opened Tables
  import opened Approvals
  import Journal

  /** The scan reached the clearance in round k and found it due. */
  predicate CaughtAt(db: Db, listing: seq<Id>, clock: nat -> Time, id: Id, k: nat) {
    k < |listing| && listing[k] == id && Due(db, id, clock(k))
  }

  predicate Caught(db: Db, listing: seq<Id>, clock: nat -> Time, id: Id) {
    exists k | 0 <= k < |listing| :: CaughtAt(db, listing, clock, id, k)
  }

  predicate AllKnown(db: Db, listing: seq<Id>) {
    forall k | 0 <= k < |listing| :: listing[k] in db.board.approvals
  }

  lemma CaughtSplit(db: Db, listing: seq<Id>, clock: nat -> Time, id: Id)
    requires NoDuplicates(listing) && listing != []
    ensures var n := |listing| - 1;
            Caught(db, listing, clock, id) <==>
            if id == listing[n] then Due(db, id, clock(n)) else Caught(db, listing[..n], clock, id)
  {
    var n := |listing| - 1;
    var front := listing[..n];
    if id == listing[n] {
      assert CaughtAt(db, listing, clock, id, n) <==> Due(db, id, clock(n));
    } else if Caught(db, front, clock, id) {
      var k :| 0 <= k < |front| && CaughtAt(db, front, clock, id, k);
      assert CaughtAt(db, listing, clock, id, k);
    } else if Caught(db, listing, clock, id) {
      var k :| 0 <= k < |listing| && CaughtAt(db, listing, clock, id, k);
      assert CaughtAt(db, front, clock, id, k);
    }
  }

  /** Closed form of the scan: a caught clearance is expired at the time of its round, every other
      row is untouched. */
  lemma {:induction false} ScanRow(db: Db, listing: seq<Id>, clock: nat -> Time, reason: SettleReason, id: Id)
    requires NoDuplicates(listing) && AllKnown(db, listing) && id in db.board.approvals
    ensures var after := ExpireScan(db, listing, clock, reason).board.approvals[id];
            && (!Caught(db, listing, clock, id) ==> after == db.board.approvals[id])
            && (forall k: nat | CaughtAt(db, listing, clock, id, k) ::
                  after == SettledRow(db.board.approvals[id], ByClock(reason), clock(k)))
  {
    if listing != [] {
      var n := |listing| - 1;
      var front, last := listing[..n], listing[n];
      CaughtSplit(db, listing, clock, id);
      ScanRow(db, front, clock, reason, id);
      assert id == last ==> !Caught(db, front, clock, id);
      forall k: nat | CaughtAt(db, listing, clock, id, k) && k < n
        ensures CaughtAt(db, front, clock, id, k)
      {
      }
    }
  }

  /** The clearances a scan expires. */
  ghost function CaughtIds(db: Db, listing: seq<Id>, clock: nat -> Time): set<Id> {
    set id | id in listing && Caught(db, listing, clock, id)
  }

  lemma CaughtIdsSplit(db: Db, listing: seq<Id>, clock: nat -> Time)
    requires NoDuplicates(listing) && listing != []
    ensures var n := |listing| - 1;
            |CaughtIds(db, listing, clock)| ==
            |CaughtIds(db, listing[..n], clock)| + if Due(db, listing[n], clock(n)) then 1 else 0
  {
    var n := |listing| - 1;
    var front, last := listing[..n], listing[n];
    forall id
      ensures id in CaughtIds(db, listing, clock) <==>
              id in CaughtIds(db, front, clock) || (id == last && Due(db, last, clock(n)))
    {
      CaughtSplit(db, listing, clock, id);
      assert id in listing <==> id in front || id == last;
      assert Caught(db, front, clock, id) ==> id in front;
    }
    assert last !in CaughtIds(db, front, clock);
    assert CaughtIds(db, listing, clock) ==
           CaughtIds(db, front, clock) + if Due(db, last, clock(n)) then {last} else {};
  }

  /** Exactly one audit row and one event are appended per caught clearance. */
  lemma {:induction false} ScanAppendsOnePair(db: Db, listing: seq<Id>, clock: nat -> Time, reason: SettleReason)
    requires NoDuplicates(listing) && AllKnown(db, listing)
    ensures var r := ExpireScan(db, listing, clock, reason);
            && |r.log.audit| == |db.log.audit| + |CaughtIds(db, listing, clock)|
            && |r.log.events| == |db.log.events| + |CaughtIds(db, listing, clock)|
  {
    if listing == [] {
      assert CaughtIds(db, listing, clock) == {};
    } else {
      var n := |listing| - 1;
      var front, last := listing[..n], listing[n];
      ScanAppendsOnePair(db, front, clock, reason);
      CaughtIdsSplit(db, listing, clock);
      ScanRow(db, front, clock, reason, last);
      assert !Caught(db, front, clock, last);
      assert Due(ExpireScan(db, front, clock, reason), last, clock(n)) <==> Due(db, last, clock(n));
    }
  }

  /** What a scan records about one clearance: one resolution event and one row that tells the expiry,
      or nothing in either log. */
  ghost predicate RecordsExpiry(db: Db, r: Db, id: Id, caught: bool, reason: SettleReason)
    requires id in r.board.approvals
  {
    var before, after := Journal.Endings(db.log.audit, id), Journal.Endings(r.log.audit, id);
    && Journal.Resolutions(r.log.events, id) ==
       Journal.Resolutions(db.log.events, id) + (if caught then [(Expired, None)] else [])
    && |after| == |before| + (if caught then 1 else 0)
    && after[..|before|] == before
    && (caught ==>
          && r.board.approvals[id].metadata == Because(reason)
          && Journal.Tells(after[|before|], id, r.board.approvals[id]))
  }

  lemma SettlingRecords(db: Db, last: Id, reason: SettleReason, now: Time, id: Id)
    requires last in db.board.approvals && id in db.board.approvals && reason != RuntimeCancelled
    ensures RecordsExpiry(db, Settle(db, last, ByClock(reason), None, now), id, id == last, reason)
  {
    var row := db.board.approvals[last];
    var d1 := Resolve(db, last, Expired, None, None, Because(reason), now);
    var a := AuditRowFor(d1, SettleEntry(row, last, ByClock(reason), None));
    var e := EventRowFor(d1, row.nodeId, ApprovalResolved(last, Expired, None));
    Journal.EndingsAppend(db.log.audit, a, id);
    Journal.ResolutionsAppend(db.log.events, e, id);
  }

  lemma RecordsAddUp(a: Db, b: Db, c: Db, id: Id, first: bool, second: bool, reason: SettleReason)
    requires id in b.board.approvals && id in c.board.approvals
    requires RecordsExpiry(a, b, id, first, reason) && RecordsExpiry(b, c, id, second, reason)
    requires !(first && second) && (!second ==> c.board.approvals[id] == b.board.approvals[id])
    ensures RecordsExpiry(a, c, id, first || second, reason)
  {
    var x, y, z := Journal.Endings(a.log.audit, id), Journal.Endings(b.log.audit, id), Journal.Endings(c.log.audit, id);
    assert z[..|x|] == z[..|y|][..|x|];
    assert first ==> z[|x|] == z[..|y|][|x|];
  }

  /** A scan appends, about each clearance it catches, exactly one event and one audit row that tells
      the expiry, and about any other clearance nothing. */
  lemma {:induction false} ScanRecordsEach(db: Db, listing: seq<Id>, clock: nat -> Time, reason: SettleReason, id: Id)
    requires NoDuplicates(listing) && AllKnown(db, listing) && id in db.board.approvals && reason != RuntimeCancelled
    ensures RecordsExpiry(db, ExpireScan(db, listing, clock, reason), id, Caught(db, listing, clock, id), reason)
  {
    if listing != [] {
      var n := |listing| - 1;
      var front, last := listing[..n], listing[n];
      var mid := ExpireScan(db, front, clock, reason);
      CaughtSplit(db, listing, clock, id);
      ScanRecordsEach(db, front, clock, reason, id);
      ScanRow(db, front, clock, reason, last);
      assert !Caught(db, front, clock, last);
      assert Due(mid, last, clock(n)) <==> Due(db, last, clock(n));
      if Due(mid, last, clock(n)) {
        var r := Settle(mid, last, ByClock(reason), None, clock(n));
        SettlingRecords(mid, last, reason, clock(n), id);
        RecordsAddUp(db, mid, r, id, Caught(db, front, clock, id), id == last, reason);
      }
    }
  }

  /** The effect of a scan of everything pending, started at a given time. */
  lemma ScanMeaning(db: Db, listing: seq<Id>, clock: nat -> Time, reason: SettleReason, start: Time, id: Id)
    requires ListsPending(db, listing) && Ticking(clock, start) && id in db.board.approvals
    ensures var r := ExpireScan(db, listing, clock, reason);
            var row, after := db.board.approvals[id], r.board.approvals[id];
            && (after.state == Pending ==> row.state == Pending && start < row.expiresAt)
            && (row.state == Pending && row.expiresAt <= start ==> after.state == Expired)
            && (clock(|listing|) < row.expiresAt || row.state != Pending ==> after == row)
            && (after != row ==>
                  exists k: nat | k < |listing| ::
                    after == SettledRow(row, ByClock(reason), clock(k)) && row.expiresAt <= clock(k))
  {
    forall k | 0 <= k < |listing|
      ensures listing[k] in db.board.approvals && IsPending(db, listing[k])
    {
      assert listing[k] in listing;
    }
    ScanRow(db, listing, clock, reason, id);
    if Caught(db, listing, clock, id) {
      var k :| 0 <= k < |listing| && CaughtAt(db, listing, clock, id, k);
      assert clock(k) <= clock(|listing|);
      assert IsPending(db, listing[k]);
    } else if IsPending(db, id) {
      var k :| 0 <= k < |listing| && listing[k] == id;
      assert !CaughtAt(db, listing, clock, id, k);
      assert start <= clock(k);
    }
  }

  /** Scanning again with a clock that has not passed the first scan's start changes nothing. */
  lemma RescanIsNoOp(db: Db, listing: seq<Id>, clock: nat -> Time, reason: SettleReason, start: Time,
                     again: seq<Id>, clock2: nat -> Time, reason2: SettleReason)
    requires ListsPending(db, listing) && Ticking(clock, start)
    requires ListsPending(ExpireScan(db, listing, clock, reason), again)
    requires forall k: nat :: clock2(k) <= start
    ensures var r := ExpireScan(db, listing, clock, reason);
            ExpireScan(r, again, clock2, reason2) == r
  {
    var r := ExpireScan(db, listing, clock, reason);
    forall k | 0 <= k < |again|
      ensures !Due(r, again[k], clock2(k))
    {
      assert again[k] in again;
      ScanMeaning(db, listing, clock, reason, start, again[k]);
      assert r.board.approvals[again[k]].expiresAt == db.board.approvals[again[k]].expiresAt;
    }
    NothingDueNothingDone(r, again, clock2, reason2);
  }

  lemma {:induction false} NothingDueNothingDone(db: Db, listing: seq<Id>, clock: nat -> Time, reason: SettleReason)
    requires forall k | 0 <= k < |listing| :: !Due(db, listing[k], clock(k))
    ensures ExpireScan(db, listing, clock, reason) == db
  {
    if listing != [] {
      NothingDueNothingDone(db, listing[..|listing| - 1], clock, reason);
    }
  }

  /** At one instant the gateway's scan and the adapter's scan give the same states, in whatever
      orders they list the clearances. */
  lemma ScansAgree(db: Db, one: seq<Id>, two: seq<Id>, clock: nat -> Time, id: Id)
    requires ListsPending(db, one) && ListsPending(db, two)
    requires forall k: nat :: clock(k) == clock(0)
    requires id in db.board.approvals
    ensures var a := ExpireScan(db, one, clock, ExpiryScan).board.approvals;
            var b := ExpireScan(db, two, clock, RuntimeResultPoll).board.approvals;
            a[id].state == b[id].state && a[id].scope == b[id].scope
  {
    assert Ticking(clock, clock(0));
    ScanMeaning(db, one, clock, ExpiryScan, clock(0), id);
    ScanMeaning(db, two, clock, RuntimeResultPoll, clock(0), id);
  }
}
