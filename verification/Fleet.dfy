/** Nodes, agents and missions, and the events that announce their changes. */
module Fleet {
  import opened Wrappers
  import opened Records
  import opened Tables

  const MOCK_AGENT: Id := "agent_mock"
  const MOCK_APPROVAL: Id := "approval_mock"

  function ExistingAgent(db: Db, key: AgentKey): Option<AgentRow> {
    if key in db.fleet.agents then Some(db.fleet.agents[key]) else None
  }

  function NameOr(existing: Option<AgentRow>, default: string): string {
    if existing.Some? && existing.value.displayName != "" then existing.value.displayName else default
  }

  function AgentAfterStatus(existing: Option<AgentRow>, agentId: Id, sessionId: Option<Id>, status: string,
                            currentTool: Option<string>): AgentRow {
    AgentRow(
      NameOr(existing, agentId), status, sessionId,
      if Given(currentTool) then currentTool else if existing.Some? then existing.value.currentTool else None,
      if existing.Some? then existing.value.currentTarget else None,
      if existing.Some? then existing.value.capabilities else [])
  }

  /** An agent row is written and its status announced. */
  function AnnounceAgent(db: Db, key: AgentKey, row: AgentRow): (r: Db)
    ensures Extends(db, r) && r == db.(log := r.log, fleet := r.fleet) && r.log.audit == db.log.audit
  {
    CreateEvent(PutAgent(db, key, row), key.nodeId, AgentStatus(key.agentId, row.status))
  }

  function SetAgentRuntimeState(db: Db, nodeId: Id, agentId: Id, sessionId: Option<Id>, status: string,
                                currentTool: Option<string>): (r: Db)
    ensures Extends(db, r) && r == db.(log := r.log, fleet := r.fleet) && r.log.audit == db.log.audit
  {
    var key := AgentKey(nodeId, agentId);
    AnnounceAgent(db, key, AgentAfterStatus(ExistingAgent(db, key), agentId, sessionId, status, currentTool))
  }

  datatype Context = Context(
    agentId: Id, displayName: Option<string>, agentStatus: string, missionId: Option<Id>, missionState: string,
    sessionId: Option<Id>, currentTool: Option<string>, currentTarget: Option<string>, nodeId: Option<Id>,
    capabilities: seq<CapabilityItem>)

  function AgentInContext(existing: Option<AgentRow>, c: Context): AgentRow {
    AgentRow(
      Or(c.displayName, NameOr(existing, c.agentId)), c.agentStatus, c.sessionId, c.currentTool, c.currentTarget,
      if c.capabilities != [] then c.capabilities
      else if existing.Some? then existing.value.capabilities else [])
  }

  function AnnounceMission(db: Db, nodeId: Id, c: Context): (r: Db)
    requires c.missionId.Some?
    ensures Extends(db, r) && r == db.(log := r.log, fleet := r.fleet) && r.log.audit == db.log.audit
  {
    CreateEvent(PutMission(db, c.missionId.value, MissionRow(nodeId, c.agentId, c.sessionId, c.missionState)),
                nodeId, MissionChanged(c.missionId.value, c.missionState))
  }

  function ContextEntry(c: Context, nodeId: Id, header: Option<string>): AuditEntry {
    AuditEntry(ContextRegistered, "hermes", c.agentId, nodeId, header,
               ContextDetails(c.missionId, c.agentStatus, c.missionState), RefsOf(c.agentId, c.sessionId, None))
  }

  /** The agent row is written first and its status announced last. */
  function RegisterContext(db: Db, c: Context, header: Option<string>): (r: Db)
    ensures Extends(db, r) && r == db.(log := r.log, fleet := r.fleet)
  {
    var nodeId := Or(c.nodeId, db.config.nodeId);
    var key := AgentKey(nodeId, c.agentId);
    var d1 := PutAgent(db, key, AgentInContext(ExistingAgent(db, key), c));
    var d2 := if Given(c.missionId) then AnnounceMission(d1, nodeId, c) else d1;
    var d3 := AppendAudit(d2, ContextEntry(c, nodeId, header));
    CreateEvent(d3, nodeId, AgentStatus(c.agentId, c.agentStatus))
  }

  function DefaultNodeCapabilities(): seq<CapabilityItem> {
    [CapabilityItem("events_websocket", true), CapabilityItem("pairing", true),
     CapabilityItem("mobile_notify", true), CapabilityItem("approvals", true)]
  }

  function EnsureNode(db: Db, nodeId: Id): (r: Db)
    ensures Quiet(db, r) && r == db.(fleet := r.fleet)
  {
    db.(fleet := db.fleet.(nodes := db.fleet.nodes[nodeId := DefaultNodeCapabilities()]))
  }

  function RegisterNode(db: Db, nodeId: Option<Id>, displayName: string, header: Option<string>): (r: Db)
    ensures Quiet(db, r) && r == db.(log := r.log, fleet := r.fleet)
  {
    var node := Or(nodeId, db.config.nodeId);
    var d1 := EnsureNode(db, node);
    var d2 := AppendAudit(d1, AuditEntry(OtherAudit("node_registered"), "gateway", "gateway", node, header,
                                         About(displayName), NoRefs()));
    CreateEvent(d2, node, Note("system.health", "node_registered"))
  }

  // ----- start-up -----

  predicate NodeHasAgents(db: Db, nodeId: Id) {
    exists key | key in db.fleet.agents :: key.nodeId == nodeId
  }

  function MockAgent(): AgentRow {
    AgentRow("Mock Hermes Agent", "idle", None, None, None,
             [CapabilityItem("chat", true), CapabilityItem("approvals", true)])
  }

  /** Six sample events, two of them about a clearance that has no row. */
  function MockEvents(db: Db, nodeId: Id): (r: Db)
    ensures Extends(db, r) && r == db.(log := r.log) && r.log.audit == db.log.audit
  {
    var d1 := CreateEvent(db, nodeId, AgentStatus(MOCK_AGENT, "idle"));
    var d2 := CreateEvent(d1, nodeId, Note("agent.activity", "sess_mock"));
    var d3 := CreateEvent(d2, nodeId, ApprovalRequested(MOCK_APPROVAL, "medium"));
    var d4 := CreateEvent(d3, nodeId, ApprovalResolved(MOCK_APPROVAL, Denied, None));
    var d5 := CreateEvent(d4, nodeId, Note("notification.created", "notification_mock"));
    CreateEvent(d5, nodeId, Note("system.health", "healthy"))
  }

  /** Runs at every start: seeds the mock agent if the node has none, and the sample events if the
      log is empty. */
  function SeedMockData(db: Db, nodeId: Id): (r: Db)
    ensures Extends(db, r) && r == db.(log := r.log, fleet := r.fleet) && r.log.audit == db.log.audit
  {
    if NodeHasAgents(db, nodeId) then db
    else
      var d1 := PutAgent(db, AgentKey(nodeId, MOCK_AGENT), MockAgent());
      if d1.log.events == [] then MockEvents(d1, nodeId) else d1
  }

  function EmptyDb(config: Config): Db {
    Db(config, Log([], []), Tables.Fleet(map[], map[], map[]), Board(map[], [], {}), Trust(map[], map[], map[], {}, []),
       Desk(map[], map[], map[], map[], map[]), Terminals(map[], map[], map[], map[]))
  }

  /** A gateway started on a fresh database. */
  function FreshDb(config: Config): Db {
    SeedMockData(EnsureNode(EmptyDb(config), config.nodeId), config.nodeId)
  }
}
