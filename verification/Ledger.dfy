/** The journal and the once-only records hold in every reachable state of the gateway. */
module Ledger {
  import opened Wrappers
  import opened Records
  import opened Tables
  import opened Approvals
  import opened Machine
  import opened Journal
  import Fleet
  import Signing
  import Capabilities
  import Handoffs
  import TerminalSessions

  lemma DecideKeeps(db: Db, device: VerifiedDevice, id: Id, target: ApprovalState, decision: Option<Decision>,
                    scope: Option<Scope>, header: Option<string>, now: Time)
    requires BoardOk(db) && target != Pending && Fits(target, decision)
    ensures BoardOk(DecideByDevice(db, device, id, target, decision, scope, header, now).0)
  {
    if id in db.board.approvals {
      var row := db.board.approvals[id];
      var d1 := Capabilities.RequireDevice(db, device, Approvals, header, Some(row.nodeId), Some(row.agentId), now).0;
      QuietKeeps(db, d1);
      TransitionKeeps(d1, id, target, device.deviceId, decision, scope, header, now);
    }
  }

  lemma RespondByDeviceKeeps(db: Db, device: VerifiedDevice, id: Id, p: Response, header: Option<string>, now: Time)
    requires BoardOk(db)
    ensures BoardOk(RespondByDevice(db, device, id, p, header, now).0)
  {
    if id in db.board.approvals {
      var row := db.board.approvals[id];
      var d1 := Capabilities.RequireDevice(db, device, Approvals, header, Some(row.nodeId), Some(row.agentId), now).0;
      QuietKeeps(db, d1);
      RespondKeeps(d1, id, device.deviceId, p, header, now);
    }
  }

  lemma ClearanceRouteKeeps(db: Db, device: VerifiedDevice, call: ClearanceCall, header: Option<string>, now: Time)
    requires BoardOk(db) && ClearanceInputOk(db, call, now)
    ensures BoardOk(HandleClearance(db, device, call, header, now).0)
  {
    match call
    case ListClearances(scan) => RunScanKeeps(db, scan, ExpiryScan);
    case GetClearance(_, scan) => RunScanKeeps(db, scan, ExpiryScan);
    case Decide(id, decision, scope) =>
      DecideKeeps(db, device, id, if decision == Approve then Approved else Denied, Some(decision), Some(scope),
                  header, now);
    case ApproveOnceCall(id) => DecideKeeps(db, device, id, Approved, Some(Approve), Some(Once), header, now);
    case DenyCall(id) => DecideKeeps(db, device, id, Denied, Some(Deny), Some(Once), header, now);
    case ExpireCall(id) => DecideKeeps(db, device, id, Expired, None, None, header, now);
    case CancelCall(id) => DecideKeeps(db, device, id, Cancelled, None, None, header, now);
    case RespondCall(id, p) => RespondByDeviceKeeps(db, device, id, p, header, now);
  }

  lemma SignedKeeps(db: Db, request: Signing.SignedRequest, call: DeviceCall, header: Option<string>, now: Time)
    requires BoardOk(db) && CallOk(call) && DeviceInputOk(db, call, now)
    ensures BoardOk(NextSigned(db, request, call, header, now).0)
  {
    var (d1, verified) := Signing.Verify(db, request, header, now);
    QuietKeeps(db, d1);
    if verified.Success? {
      if call.OnClearances? {
        ClearanceRouteKeeps(d1, verified.value, call.clearanceCall, header, now);
      } else {
        QuietKeeps(d1, HandleDevice(d1, verified.value, call, header, now).0);
      }
    }
  }

  lemma AskTuaKeeps(db: Db, o: Handoffs.Opening, header: Option<string>, now: Time)
    requires BoardOk(db)
    ensures BoardOk(Handoffs.RequestTuaFromRuntime(db, o, header, now).0)
  {
    var nodeId := Or(o.nodeId, db.config.nodeId);
    var (d1, ok) := Capabilities.RequireRuntime(db, o.agentId, TuaAccess, header, Some(nodeId), Some(o.agentId), now);
    QuietKeeps(db, d1);
    var d2 := Fleet.SetAgentRuntimeState(db, nodeId, o.agentId, Some(o.sessionId), "waiting_assistance", None);
    SetAgentKeeps(db, nodeId, o.agentId, Some(o.sessionId), "waiting_assistance", None);
    QuietKeeps(d2, Handoffs.RequestTua(d2, o, header));
  }

  lemma AskBrowserKeeps(db: Db, o: Handoffs.Opening, header: Option<string>, now: Time)
    requires BoardOk(db)
    ensures BoardOk(Handoffs.OpenBrowserFromRuntime(db, o, header, now).0)
  {
    var nodeId := Or(o.nodeId, db.config.nodeId);
    var (d1, ok) := Capabilities.RequireRuntime(db, o.agentId, BrowserAccess, header, Some(nodeId), Some(o.agentId),
                                                now);
    QuietKeeps(db, d1);
    if ok {
      var d2 := Handoffs.PutSession(db, Browser, o.id, Handoffs.NewSession(nodeId, o.agentId, Requested));
      var d3 := Handoffs.CreateOperator(d2, o.id, Handoffs.NewOperator(Browser, o.agentId, Requested, None));
      var d4 := Fleet.SetAgentRuntimeState(d3, nodeId, o.agentId, Some(o.sessionId), "waiting_assistance", None);
      QuietKeeps(db, d2);
      QuietKeeps(d2, d3);
      SetAgentKeeps(d3, nodeId, o.agentId, Some(o.sessionId), "waiting_assistance", None);
      var d5 := AppendAudit(d4, Handoffs.HandoffEntry(Browser, "browser_assistance_requested", "hermes", o.agentId,
                                                      nodeId, o.agentId, About(o.id), header));
      QuietKeeps(d4, d5);
      QuietKeeps(d5, CreateEvent(d5, nodeId, Note("browser_assistance.requested", o.id)));
    }
  }

  lemma CancelKeeps(db: Db, id: Id, first: Scan, second: Scan, header: Option<string>, now: Time)
    requires BoardOk(db) && BackendInputOk(db, CancelClearance(id, first, second), header, now)
    ensures BoardOk(HandleBackend(db, CancelClearance(id, first, second), header, now).0)
  {
    if id in db.board.approvals {
      var d1 := CancelFromRuntime(db, id, "runtime", header, now);
      if IsPending(db, id) {
        SettleKeeps(db, id, ByRuntime("runtime"), header, now);
      }
      RunScanKeeps(d1, first, RuntimeResultPoll);
      RunScanKeeps(RunScan(d1, first, RuntimeResultPoll), second, RuntimeResultPoll);
    }
  }

  lemma BackendRouteKeeps(db: Db, call: BackendCall, header: Option<string>, now: Time)
    requires BoardOk(db) && BackendInputOk(db, call, header, now)
    ensures BoardOk(HandleBackend(db, call, header, now).0)
  {
    match call
    case RequestClearance(q) => FreshIsNotMock(q.approvalId); RequestFromRuntimeKeeps(db, q, header);
    case CreateClearance(q) => FreshIsNotMock(q.approvalId); CreateRequestKeeps(db, q, header);
    case ClearanceStatus(_, scan) => RunScanKeeps(db, scan, ExpiryScan);
    case ClearanceResult(_, scan) => RunScanKeeps(db, scan, RuntimeResultPoll);
    case CancelClearance(id, first, second) => CancelKeeps(db, id, first, second, header, now);
  }

  lemma LocalKeeps(db: Db, call: RuntimeCall, header: Option<string>, now: Time)
    requires BoardOk(db) && RuntimeCallOk(call) && RuntimeInputOk(db, call, header, now)
    ensures BoardOk(HandleRuntime(db, call, header, now).0)
  {
    match call
    case OnFleet(ReportContext(c)) => RegisterContextKeeps(db, c, header);
    case OnBackend(c) => BackendRouteKeeps(db, c, header, now);
    case OnHandoff(AskTua(o, true)) => AskTuaKeeps(db, o, header, now);
    case OnHandoff(AskBrowser(o, true)) => AskBrowserKeeps(db, o, header, now);
    case _ => QuietKeeps(db, HandleRuntime(db, call, header, now).0);
  }

  lemma FreshIsNotMock(id: Id)
    requires "appr_" <= id
    ensures id != Fleet.MOCK_APPROVAL
  {
    assert id[4] == '_' && Fleet.MOCK_APPROVAL[4] == 'o';
  }

  lemma NextKeeps(db: Db, step: Step)
    requires BoardOk(db) && Admissible(db, step)
    ensures BoardOk(Next(db, step).0)
  {
    match step.action
    case Signed(request, call) => SignedKeeps(db, request, call, step.header, step.now);
    case Local(true, call) => LocalKeeps(db, call, step.header, step.now);
    case Restart =>
      QuietKeeps(db, TerminalSessions.Forget(db));
      QuietKeeps(TerminalSessions.Forget(db), StartAgain(db));
    case _ => QuietKeeps(db, Next(db, step).0);
  }

  /** A fresh gateway is journalled; folding its sample events leaves exactly the mock agent and the
      mock clearance. */
  lemma FreshIsOk(config: Config)
    ensures BoardOk(Fleet.FreshDb(config)) && LogOk(Fleet.FreshDb(config))
  {
    var d0 := Fleet.EnsureNode(Fleet.EmptyDb(config), config.nodeId);
    var d1 := PutAgent(d0, AgentKey(config.nodeId, Fleet.MOCK_AGENT), Fleet.MockAgent());
    assert !Fleet.NodeHasAgents(d0, config.nodeId);
    SeedFold(d1, config.nodeId);
    assert AgentKey(config.nodeId, Fleet.MOCK_AGENT) in d1.fleet.agents;
    assert Snapshot(d1).agents == map[AgentKey(config.nodeId, Fleet.MOCK_AGENT) := "idle"];
  }

  lemma SeedFold(db: Db, nodeId: Id)
    requires db.log == Log([], [])
    ensures var r := Fleet.MockEvents(db, nodeId);
            && Fold(r.log.events) == View(map[Fleet.MOCK_APPROVAL := (Denied, None)], map[],
                                          map[AgentKey(nodeId, Fleet.MOCK_AGENT) := "idle"])
            && forall id | id != Fleet.MOCK_APPROVAL :: Resolutions(r.log.events, id) == []
  {
    var d1 := CreateEvent(db, nodeId, AgentStatus(Fleet.MOCK_AGENT, "idle"));
    var d2 := CreateEvent(d1, nodeId, Note("agent.activity", "sess_mock"));
    var d3 := CreateEvent(d2, nodeId, ApprovalRequested(Fleet.MOCK_APPROVAL, "medium"));
    var d4 := CreateEvent(d3, nodeId, ApprovalResolved(Fleet.MOCK_APPROVAL, Denied, None));
    var r := Fleet.MockEvents(db, nodeId);
    FoldAppend([], EventRowFor(db, nodeId, AgentStatus(Fleet.MOCK_AGENT, "idle")));
    assert Quiet(d1, d2);
    NotesFoldAway(d1.log.events, d2.log.events, "");
    FoldAppend(d2.log.events, EventRowFor(d2, nodeId, ApprovalRequested(Fleet.MOCK_APPROVAL, "medium")));
    FoldAppend(d3.log.events, EventRowFor(d3, nodeId, ApprovalResolved(Fleet.MOCK_APPROVAL, Denied, None)));
    NotesFoldAway(d4.log.events, r.log.events, "");
    forall id | id != Fleet.MOCK_APPROVAL
      ensures Resolutions(r.log.events, id) == []
    {
      ResolutionsAppend([], EventRowFor(db, nodeId, AgentStatus(Fleet.MOCK_AGENT, "idle")), id);
      NotesFoldAway(d1.log.events, d2.log.events, id);
      ResolutionsAppend(d2.log.events, EventRowFor(d2, nodeId, ApprovalRequested(Fleet.MOCK_APPROVAL, "medium")), id);
      ResolutionsAppend(d3.log.events, EventRowFor(d3, nodeId, ApprovalResolved(Fleet.MOCK_APPROVAL, Denied, None)),
                        id);
      NotesFoldAway(d4.log.events, r.log.events, id);
    }
  }

  lemma {:induction false} BoardStaysOk(run: Run, j: nat)
    requires IsRun(run) && j <= |run.steps| && BoardOk(run.states[0]) && LogOk(run.states[0])
    ensures BoardOk(run.states[j]) && LogOk(run.states[j])
  {
    if j != 0 {
      BoardStaysOk(run, j - 1);
      assert Follows(run, j - 1);
      NextKeeps(run.states[j - 1], run.steps[j - 1]);
    }
  }

  /** In every state of every run from a fresh gateway: both logs are well formed, folding the events
      gives the tables, and every settled clearance is recorded exactly once in each log. */
  lemma EveryRunIsJournalled(config: Config, run: Run, j: nat)
    requires IsRun(run) && run.states[0] == Fleet.FreshDb(config) && j <= |run.steps|
    ensures var db := run.states[j];
            && LogOk(db)
            && Fold(db.log.events) == WithMock(Snapshot(db))
            && Recorded(db)
  {
    FreshIsOk(config);
    BoardStaysOk(run, j);
  }

  predicate NeverUsed(db: Db) {
    db.log.events == [] && db.board == Board(map[], [], {}) && db.fleet.agents == map[] && db.fleet.missions == map[]
  }

  /** Starting the gateway on an existing, journalled database keeps the journal exactly when the
      node already has an agent or no event was ever written: otherwise the mock agent's row appears
      without an event. */
  lemma SeedingKeepsJournalExactlyWhen(db: Db, nodeId: Id)
    requires Fold(db.log.events) == WithMock(Snapshot(db)) || NeverUsed(db)
    ensures var r := Fleet.SeedMockData(db, nodeId);
            Fold(r.log.events) == WithMock(Snapshot(r)) <==>
            Fleet.NodeHasAgents(db, nodeId) || db.log.events == []
  {
    var key := AgentKey(nodeId, Fleet.MOCK_AGENT);
    var d1 := PutAgent(db, key, Fleet.MockAgent());
    var r := Fleet.SeedMockData(db, nodeId);
    if db.log.events == [] {
      assert Fold(db.log.events) == BLANK;
      assert Fleet.MOCK_APPROVAL in WithMock(Snapshot(db)).approvals;
      SeedFoldAnyAudit(d1, nodeId);
      assert Snapshot(d1).agents == map[key := "idle"];
    } else if !Fleet.NodeHasAgents(db, nodeId) {
      assert key !in db.fleet.agents;
      assert key !in Fold(r.log.events).agents && key in Snapshot(r).agents;
    }
  }

  lemma SeedFoldAnyAudit(db: Db, nodeId: Id)
    requires db.log.events == []
    ensures Fold(Fleet.MockEvents(db, nodeId).log.events) ==
            View(map[Fleet.MOCK_APPROVAL := (Denied, None)], map[], map[AgentKey(nodeId, Fleet.MOCK_AGENT) := "idle"])
  {
    SeedFold(db.(log := Log([], [])), nodeId);
  }

  /** An input that breaks it: a fresh database started once more for another node. */
  lemma SeedingAnotherNodeBreaksTheJournal(config: Config, other: Id)
    requires other != config.nodeId
    ensures var first := Fleet.FreshDb(config);
            var r := Fleet.SeedMockData(first, other);
            Journalled(first) && Fold(r.log.events) != WithMock(Snapshot(r))
  {
    FreshIsOk(config);
    var d0 := Fleet.EnsureNode(Fleet.EmptyDb(config), config.nodeId);
    var first := Fleet.FreshDb(config);
    assert !Fleet.NodeHasAgents(d0, config.nodeId);
    assert first.fleet.agents.Keys == {AgentKey(config.nodeId, Fleet.MOCK_AGENT)};
    assert !Fleet.NodeHasAgents(first, other);
    assert |first.log.events| == 6;
    SeedingKeepsJournalExactlyWhen(first, other);
  }
}
