/** The event log as a journal: folding it gives the current state of every clearance, mission and
    agent; and every clearance's end is recorded once, in both logs. */
module Journal {
  import opened Wrappers
  import opened Records
  import opened Tables
  import opened Approvals
  import Fleet

  datatype View = View(
    approvals: map<Id, (ApprovalState, Option<Scope>)>, missions: map<Id, string>, agents: map<AgentKey, string>)

  /** A client's reading of one event. */
  function Apply(v: View, e: EventRow): View {
    match e.payload
    case ApprovalRequested(id, _) => v.(approvals := v.approvals[id := (Pending, None)])
    case ApprovalResolved(id, state, scope) => v.(approvals := v.approvals[id := (state, scope)])
    case MissionChanged(id, state) => v.(missions := v.missions[id := state])
    case AgentStatus(id, status) => v.(agents := v.agents[AgentKey(e.nodeId, id) := status])
    case Note(_, _) => v
  }

  const BLANK := View(map[], map[], map[])

  function Fold(rows: seq<EventRow>): View {
    if rows == [] then BLANK else Apply(Fold(rows[..|rows| - 1]), rows[|rows| - 1])
  }

  /** What the tables say. */
  function Snapshot(db: Db): View {
    View(map id | id in db.board.approvals :: (db.board.approvals[id].state, db.board.approvals[id].scope),
         map id | id in db.fleet.missions :: db.fleet.missions[id].state,
         map key | key in db.fleet.agents :: db.fleet.agents[key].status)
  }

  /** The sample events seeded at first start describe a denied clearance that no table holds. */
  function WithMock(v: View): View {
    v.(approvals := v.approvals[Fleet.MOCK_APPROVAL := (Denied, None)])
  }

  ghost predicate Journalled(db: Db) {
    && Fleet.MOCK_APPROVAL !in db.board.approvals
    && Fold(db.log.events) == WithMock(Snapshot(db))
  }

  // ----- once-only records -----

  /** How the events say a clearance ended. */
  function Resolutions(rows: seq<EventRow>, id: Id): seq<(ApprovalState, Option<Scope>)> {
    if rows == [] then []
    else
      var front, e := Resolutions(rows[..|rows| - 1], id), rows[|rows| - 1].payload;
      if e.ApprovalResolved? && e.approvalId == id then front + [(e.state, e.scope)] else front
  }

  /** The rows in which the audit log says how a clearance ended. */
  function Endings(rows: seq<AuditRow>, id: Id): seq<AuditRow> {
    if rows == [] then []
    else
      var front, last := Endings(rows[..|rows| - 1], id), rows[|rows| - 1];
      if last.content.kind.Settles() && last.refs.approvalId == Some(id) then front + [last] else front
  }

  /** A verdict and the state it leads to belong together. */
  predicate Fits(state: ApprovalState, decision: Option<Decision>) {
    && (state == Approved <==> decision == Some(Approve))
    && (state == Denied <==> decision == Some(Deny))
  }

  /** Who ended the clearance, how and why, in agreement with its final columns. */
  predicate EndedSo(state: ApprovalState, scope: Option<Scope>, actor: Option<Id>, metadata: Metadata,
                    actorType: string, actorId: Id, payload: AuditPayload)
  {
    match metadata
    case Decided(decision, decided) =>
      && decided == state && Fits(state, decision)
      && payload == VerdictDetails(decision, scope, state)
      && actorType == "device" && actor == Some(actorId)
    case Because(reason) =>
      && state == (if reason == RuntimeCancelled then Cancelled else Expired)
      && payload == Reason(reason) && scope == None && actor == None
      && actorType == (if reason == RuntimeCancelled then "hermes" else "gateway")
      && (reason != RuntimeCancelled ==> actorId == "gateway")
    case NoMetadata => false
  }

  /** The audit row tells the whole end of this clearance. */
  predicate Tells(a: AuditRow, id: Id, row: ApprovalRow) {
    && a.content.kind == KindOf(row.state)
    && a.content.nodeId == row.nodeId
    && a.refs == RefsOf(row.agentId, Some(row.sessionId), Some(id))
    && EndedSo(row.state, row.scope, row.actor, row.metadata, a.content.actorType, a.content.actorId, a.content.payload)
  }

  ghost predicate RecordedOnce(db: Db, id: Id) {
    if id in db.board.approvals && db.board.approvals[id].state != Pending then
      var row := db.board.approvals[id];
      Resolutions(db.log.events, id) == [(row.state, row.scope)]
      && |Endings(db.log.audit, id)| == 1 && Tells(Endings(db.log.audit, id)[0], id, row)
    else Resolutions(db.log.events, id) == [] && Endings(db.log.audit, id) == []
  }

  ghost predicate Recorded(db: Db) {
    forall id | id != Fleet.MOCK_APPROVAL :: RecordedOnce(db, id)
  }

  ghost predicate BoardOk(db: Db) {
    Journalled(db) && Recorded(db) && Fleet.NodeHasAgents(db, db.config.nodeId)
  }

  // ----- appending -----

  lemma FoldAppend(rows: seq<EventRow>, e: EventRow)
    ensures Fold(rows + [e]) == Apply(Fold(rows), e)
  {
    assert (rows + [e])[..|rows|] == rows;
  }

  lemma ResolutionsAppend(rows: seq<EventRow>, e: EventRow, id: Id)
    ensures Resolutions(rows + [e], id) ==
            Resolutions(rows, id) +
            if e.payload.ApprovalResolved? && e.payload.approvalId == id then [(e.payload.state, e.payload.scope)]
                else []
  {
    assert (rows + [e])[..|rows|] == rows;
  }

  lemma EndingsAppend(rows: seq<AuditRow>, row: AuditRow, id: Id)
    ensures Endings(rows + [row], id) ==
            Endings(rows, id) +
            if row.content.kind.Settles() && row.refs.approvalId == Some(id) then [row] else []
  {
    assert (rows + [row])[..|rows|] == rows;
  }

  lemma {:induction false} NotesFoldAway(a: seq<EventRow>, b: seq<EventRow>, id: Id)
    requires a <= b
    requires forall i | |a| <= i < |b| :: b[i].payload.Note?
    ensures Fold(b) == Fold(a) && Resolutions(b, id) == Resolutions(a, id)
  {
    if |a| < |b| {
      NotesFoldAway(a, b[..|b| - 1], id);
    } else {
      assert a == b;
    }
  }

  lemma {:induction false} NeutralRowsFoldAway(a: seq<AuditRow>, b: seq<AuditRow>, id: Id)
    requires a <= b
    requires forall i | |a| <= i < |b| :: !b[i].content.kind.Settles()
    ensures Endings(b, id) == Endings(a, id)
  {
    if |a| < |b| {
      NeutralRowsFoldAway(a, b[..|b| - 1], id);
    } else {
      assert a == b;
    }
  }

  lemma QuietKeeps(a: Db, b: Db)
    requires Quiet(a, b) && BoardOk(a)
    ensures BoardOk(b)
  {
    NotesFoldAway(a.log.events, b.log.events, Fleet.MOCK_APPROVAL);
    assert Snapshot(b) == Snapshot(a);
    forall id | id != Fleet.MOCK_APPROVAL
      ensures RecordedOnce(b, id)
    {
      NotesFoldAway(a.log.events, b.log.events, id);
      NeutralRowsFoldAway(a.log.audit, b.log.audit, id);
      assert RecordedOnce(a, id);
    }
  }

  // ----- the three journalled changes -----

  /** One announced change: settled clearances stay, neutral audit rows may come with it. */
  lemma AnnouncedKeeps(a: Db, b: Db, e: EventRow)
    requires BoardOk(a) && a.config == b.config
    requires b.log.events == a.log.events + [e] && !e.payload.ApprovalResolved?
    requires a.log.audit <= b.log.audit
    requires forall i | |a.log.audit| <= i < |b.log.audit| :: !b.log.audit[i].content.kind.Settles()
    requires forall id | id in a.board.approvals :: id in b.board.approvals
               && b.board.approvals[id] == a.board.approvals[id]
    requires forall id | id in b.board.approvals && id !in a.board.approvals :: b.board.approvals[id].state == Pending
    requires a.fleet.agents.Keys <= b.fleet.agents.Keys
    requires Fleet.MOCK_APPROVAL !in b.board.approvals
    requires WithMock(Snapshot(b)) == Apply(WithMock(Snapshot(a)), e)
    ensures BoardOk(b)
  {
    FoldAppend(a.log.events, e);
    forall id | id != Fleet.MOCK_APPROVAL
      ensures RecordedOnce(b, id)
    {
      ResolutionsAppend(a.log.events, e, id);
      NeutralRowsFoldAway(a.log.audit, b.log.audit, id);
      assert RecordedOnce(a, id);
    }
    var key :| key in a.fleet.agents && key.nodeId == a.config.nodeId;
    assert key in b.fleet.agents;
  }

  lemma AnnounceAgentKeeps(db: Db, key: AgentKey, row: AgentRow)
    requires BoardOk(db)
    ensures BoardOk(Fleet.AnnounceAgent(db, key, row))
  {
    var d1 := PutAgent(db, key, row);
    var e := EventRowFor(d1, key.nodeId, AgentStatus(key.agentId, row.status));
    assert Snapshot(d1).agents == Snapshot(db).agents[key := row.status];
    AnnouncedKeeps(db, Fleet.AnnounceAgent(db, key, row), e);
  }

  lemma SetAgentKeeps(db: Db, nodeId: Id, agentId: Id, sessionId: Option<Id>, status: string, tool: Option<string>)
    requires BoardOk(db)
    ensures BoardOk(Fleet.SetAgentRuntimeState(db, nodeId, agentId, sessionId, status, tool))
  {
    var key := AgentKey(nodeId, agentId);
    AnnounceAgentKeeps(db, key, Fleet.AgentAfterStatus(Fleet.ExistingAgent(db, key), agentId, sessionId, status, tool));
  }

  lemma AnnounceMissionKeeps(db: Db, nodeId: Id, c: Fleet.Context)
    requires BoardOk(db) && c.missionId.Some?
    ensures BoardOk(Fleet.AnnounceMission(db, nodeId, c))
  {
    var id := c.missionId.value;
    var d1 := PutMission(db, id, MissionRow(nodeId, c.agentId, c.sessionId, c.missionState));
    assert Snapshot(d1).missions == Snapshot(db).missions[id := c.missionState];
    AnnouncedKeeps(db, Fleet.AnnounceMission(db, nodeId, c),
                   EventRowFor(d1, nodeId, MissionChanged(id, c.missionState)));
  }

  /** The agent row is written first and announced last: writing it later would give the same
      database. */
  lemma RegisterContextReordered(db: Db, c: Fleet.Context, header: Option<string>)
    ensures var nodeId := Or(c.nodeId, db.config.nodeId);
            var key := AgentKey(nodeId, c.agentId);
            var d1 := if Given(c.missionId) then Fleet.AnnounceMission(db, nodeId, c) else db;
            var d2 := AppendAudit(d1, Fleet.ContextEntry(c, nodeId, header));
            Fleet.RegisterContext(db, c, header) ==
            Fleet.AnnounceAgent(d2, key, Fleet.AgentInContext(Fleet.ExistingAgent(db, key), c))
  {
  }

  lemma RegisterContextKeeps(db: Db, c: Fleet.Context, header: Option<string>)
    requires BoardOk(db)
    ensures BoardOk(Fleet.RegisterContext(db, c, header))
  {
    var nodeId := Or(c.nodeId, db.config.nodeId);
    var key := AgentKey(nodeId, c.agentId);
    var d1 := if Given(c.missionId) then Fleet.AnnounceMission(db, nodeId, c) else db;
    var d2 := AppendAudit(d1, Fleet.ContextEntry(c, nodeId, header));
    if Given(c.missionId) {
      AnnounceMissionKeeps(db, nodeId, c);
    }
    QuietKeeps(d1, d2);
    RegisterContextReordered(db, c, header);
    AnnounceAgentKeeps(d2, key, Fleet.AgentInContext(Fleet.ExistingAgent(db, key), c));
  }

  lemma CreateRequestKeeps(db: Db, q: ClearanceRequest, header: Option<string>)
    requires BoardOk(db) && q.approvalId !in db.board.approvals && q.approvalId != Fleet.MOCK_APPROVAL
    ensures BoardOk(CreateRequest(db, q, header))
  {
    var nodeId := Or(q.nodeId, db.config.nodeId);
    var d1 := PutApproval(db, q.approvalId, NewRow(nodeId, q));
    var d2 := AppendAudit(d1, RequestEntry(nodeId, q, header));
    assert Snapshot(d1).approvals == Snapshot(db).approvals[q.approvalId := (Pending, None)];
    assert d2.log.audit == db.log.audit + [AuditRowFor(d1, RequestEntry(nodeId, q, header))];
    AnnouncedKeeps(db, CreateRequest(db, q, header),
                   EventRowFor(d2, nodeId, ApprovalRequested(q.approvalId, q.riskLevel)));
  }

  /** Marking the agent between the row and its event is the same as marking it first. */
  lemma RequestReordered(db: Db, q: ClearanceRequest, header: Option<string>)
    ensures var nodeId := Or(q.nodeId, db.config.nodeId);
            RequestFromRuntime(db, q, header) ==
            CreateRequest(Fleet.SetAgentRuntimeState(db, nodeId, q.agentId, Some(q.sessionId), "waiting_approval",
                                                     Some(q.requestedTool)), q, header)
  {
  }

  lemma RequestFromRuntimeKeeps(db: Db, q: ClearanceRequest, header: Option<string>)
    requires BoardOk(db) && q.approvalId !in db.board.approvals && q.approvalId != Fleet.MOCK_APPROVAL
    ensures BoardOk(RequestFromRuntime(db, q, header))
  {
    var nodeId := Or(q.nodeId, db.config.nodeId);
    RequestReordered(db, q, header);
    SetAgentKeeps(db, nodeId, q.agentId, Some(q.sessionId), "waiting_approval", Some(q.requestedTool));
    CreateRequestKeeps(Fleet.SetAgentRuntimeState(db, nodeId, q.agentId, Some(q.sessionId), "waiting_approval",
                                                  Some(q.requestedTool)), q, header);
  }

  predicate Proper(s: Settlement) {
    && s.state != Pending && s.kind == KindOf(s.state) && s.kind.Settles()
    && EndedSo(s.state, s.scope, s.actor, s.metadata, s.actorType, s.actorId, s.payload)
  }

  /** A settlement writes its row, one audit row and one event, and nothing else. */
  lemma SettleWrites(db: Db, id: Id, s: Settlement, header: Option<string>, now: Time)
      returns (a: AuditRow, e: EventRow)
    requires id in db.board.approvals
    ensures var r, row := Settle(db, id, s, header, now), db.board.approvals[id];
            && r == db.(log := r.log, board := r.board)
            && r.board == db.board.(approvals := db.board.approvals[id := SettledRow(row, s, now)])
            && r.log == Log(db.log.audit + [a], db.log.events + [e])
            && a.content.kind == s.kind && a.content.nodeId == row.nodeId
            && a.content.actorType == s.actorType && a.content.actorId == s.actorId && a.content.payload == s.payload
            && a.refs == RefsOf(row.agentId, Some(row.sessionId), Some(id))
            && e.payload == ApprovalResolved(id, s.state, s.scope)
  {
    var row := db.board.approvals[id];
    var d1 := Resolve(db, id, s.state, s.scope, s.actor, s.metadata, now);
    a := AuditRowFor(d1, SettleEntry(row, id, s, header));
    e := EventRowFor(d1, row.nodeId, ApprovalResolved(id, s.state, s.scope));
  }

  lemma SettleRecords(db: Db, id: Id, s: Settlement, header: Option<string>, now: Time, other: Id)
    requires IsPending(db, id) && Proper(s) && RecordedOnce(db, other)
    ensures RecordedOnce(Settle(db, id, s, header, now), other)
  {
    var a, e := SettleWrites(db, id, s, header, now);
    ResolutionsAppend(db.log.events, e, other);
    EndingsAppend(db.log.audit, a, other);
  }

  lemma SnapshotSettles(a: Db, b: Db, id: Id, s: Settlement, now: Time)
    requires id in a.board.approvals && b.fleet == a.fleet
    requires b.board.approvals == a.board.approvals[id := SettledRow(a.board.approvals[id], s, now)]
    ensures Snapshot(b) == Snapshot(a).(approvals := Snapshot(a).approvals[id := (s.state, s.scope)])
  {
    assert Snapshot(b).approvals == Snapshot(a).approvals[id := (s.state, s.scope)];
  }

  lemma SettleFolds(db: Db, id: Id, s: Settlement, header: Option<string>, now: Time)
    requires Journalled(db) && IsPending(db, id)
    ensures Journalled(Settle(db, id, s, header, now))
  {
    var a, e := SettleWrites(db, id, s, header, now);
    SnapshotSettles(db, Settle(db, id, s, header, now), id, s, now);
    FoldAppend(db.log.events, e);
  }

  /** Settling a pending clearance keeps the journal and records its end once. */
  lemma SettleKeeps(db: Db, id: Id, s: Settlement, header: Option<string>, now: Time)
    requires BoardOk(db) && IsPending(db, id) && Proper(s)
    ensures BoardOk(Settle(db, id, s, header, now))
  {
    SettleFolds(db, id, s, header, now);
    var _, _ := SettleWrites(db, id, s, header, now);
    forall other | other != Fleet.MOCK_APPROVAL
      ensures RecordedOnce(Settle(db, id, s, header, now), other)
    {
      assert RecordedOnce(db, other);
      SettleRecords(db, id, s, header, now, other);
    }
  }

  lemma TransitionKeeps(db: Db, id: Id, target: ApprovalState, deviceId: Id, decision: Option<Decision>,
                        scope: Option<Scope>, header: Option<string>, now: Time)
    requires BoardOk(db) && target != Pending && Fits(target, decision)
    ensures BoardOk(Transition(db, id, target, deviceId, decision, scope, header, now).0)
  {
    if IsPending(db, id) {
      SettleKeeps(db, id, ByClock(DecisionAfterExpiry), header, now);
      SettleKeeps(db, id, ByDevice(target, deviceId, decision, scope), header, now);
    }
  }

  lemma {:induction false} ScanKeeps(db: Db, listing: seq<Id>, clock: nat -> Time, reason: SettleReason, n: nat)
    requires reason != RuntimeCancelled
    requires BoardOk(db) && ListsPending(db, listing) && n <= |listing|
    ensures var r := ExpireScan(db, listing[..n], clock, reason);
            BoardOk(r) && forall k | n <= k < |listing| :: IsPending(r, listing[k])
  {
    assert forall k | 0 <= k < |listing| :: listing[k] in listing;
    if n != 0 {
      assert listing[..n][..n - 1] == listing[..n - 1];
      ScanKeeps(db, listing, clock, reason, n - 1);
      var mid := ExpireScan(db, listing[..n - 1], clock, reason);
      if Due(mid, listing[n - 1], clock(n - 1)) {
        SettleKeeps(mid, listing[n - 1], ByClock(reason), None, clock(n - 1));
      }
    }
  }

  lemma RunScanKeeps(db: Db, scan: Scan, reason: SettleReason)
    requires reason != RuntimeCancelled
    requires BoardOk(db) && ListsPending(db, scan.listing)
    ensures BoardOk(RunScan(db, scan, reason))
  {
    ScanKeeps(db, scan.listing, scan.clock, reason, |scan.listing|);
    assert scan.listing[..|scan.listing|] == scan.listing;
  }

  /** A neutral audit row and a neutral event. */
  lemma NoticeKeeps(db: Db, entry: AuditEntry, nodeId: Id, note: EventPayload)
    requires BoardOk(db) && !entry.kind.Settles() && note.Note?
    ensures BoardOk(CreateEvent(AppendAudit(db, entry), nodeId, note))
  {
    QuietKeeps(db, AppendAudit(db, entry));
    QuietKeeps(AppendAudit(db, entry), CreateEvent(AppendAudit(db, entry), nodeId, note));
  }

  /** A response is a neutral write, then its transition if it has one, then, unless that was refused, a
      neutral audit row and event. */
  lemma RespondParts(db: Db, id: Id, deviceId: Id, p: Response, header: Option<string>, now: Time)
      returns (d2: Db, d3: Db, entry: AuditEntry, note: EventPayload)
    requires id in db.board.approvals
    ensures Quiet(db, d2) && !entry.kind.Settles() && note.Note?
    ensures var v := VerdictOf(p.responseType);
            d3 == if v.None? then d2
                  else Transition(d2, id, v.value.target, deviceId, Some(v.value.decision), Some(v.value.scope),
                                  header, now).0
    ensures var r := Respond(db, id, deviceId, p, header, now).0;
            r == db || r == d3 || r == CreateEvent(AppendAudit(d3, entry), db.board.approvals[id].nodeId, note)
  {
    var proposal := if p.responseType == ProposePolicy then Some(p.proposalId) else None;
    var d1 := if proposal.Some? then AddProposal(db, p.proposalId) else db;
    var v := VerdictOf(p.responseType);
    d2 := AddResponse(d1, ResponseRow(p.responseId, id, p.responseType, deviceId, proposal));
    d3 := if v.None? then d2
          else Transition(d2, id, v.value.target, deviceId, Some(v.value.decision), Some(v.value.scope), header, now).0;
    entry := ResponseEntry(db.board.approvals[id], id, deviceId, p, proposal, header);
    note := Note(if p.responseType == NeedsInfo then "approval.needs_info" else "approval.response.created",
                 p.responseId);
  }

  lemma RespondKeeps(db: Db, id: Id, deviceId: Id, p: Response, header: Option<string>, now: Time)
    requires BoardOk(db) && id in db.board.approvals
    ensures BoardOk(Respond(db, id, deviceId, p, header, now).0)
  {
    var d2, d3, entry, note := RespondParts(db, id, deviceId, p, header, now);
    QuietKeeps(db, d2);
    var v := VerdictOf(p.responseType);
    if v.Some? {
      TransitionKeeps(d2, id, v.value.target, deviceId, Some(v.value.decision), Some(v.value.scope), header, now);
    }
    NoticeKeeps(d3, entry, db.board.approvals[id].nodeId, note);
  }
}
