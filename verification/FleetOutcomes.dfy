/** What a report, a status change and a first start leave in nodes, agents and missions. */
module FleetOutcomes {
  import opened Wrappers
  import opened Records
  import opened Tables
  import opened Fleet
  import opened Machine
  import TrustOutcomes

  function WithAgent(db: Db, key: AgentKey, row: AgentRow): Db {
    db.(fleet := db.fleet.(agents := db.fleet.agents[key := row]))
  }

  /** A status change keeps what the agent is called, aims at and can do, and its tool unless a new one
      is named. */
  lemma StatusLeaves(db: Db, nodeId: Id, agentId: Id, sessionId: Option<Id>, status: string, tool: Option<string>)
    ensures var key := AgentKey(nodeId, agentId);
            var known := if key in db.fleet.agents then db.fleet.agents[key]
                        else AgentRow("", status, None, None, None, []);
            var row := AgentRow(if known.displayName != "" then known.displayName else agentId, status, sessionId,
                                if tool.Some? && tool.value != "" then tool else known.currentTool, known.currentTarget,
                                known.capabilities);
            SetAgentRuntimeState(db, nodeId, agentId, sessionId, status, tool) ==
            CreateEvent(WithAgent(db, key, row), nodeId, AgentStatus(agentId, status))
  {
  }

  /** A report replaces the agent's row but for a name and capabilities it does not bring, stores its
      mission if it names one, and announces mission, report and status in this order. */
  lemma ReportLeaves(db: Db, c: Context, header: Option<string>)
    ensures var node := TrustOutcomes.NodeOr(c.nodeId, db.config.nodeId);
            var key := AgentKey(node, c.agentId);
            var known := if key in db.fleet.agents then db.fleet.agents[key]
                         else AgentRow("", "", None, None, None, []);
            var name := if c.displayName.Some? && c.displayName.value != "" then c.displayName.value
                        else if known.displayName != "" then known.displayName else c.agentId;
            var row := AgentRow(name, c.agentStatus, c.sessionId, c.currentTool, c.currentTarget,
                                if c.capabilities != [] then c.capabilities else known.capabilities);
            var d1 := WithAgent(db, key, row);
            var d2 :=
              if c.missionId.Some? && c.missionId.value != "" then
                var mission := MissionRow(node, c.agentId, c.sessionId, c.missionState);
                CreateEvent(d1.(fleet := d1.fleet.(missions := d1.fleet.missions[c.missionId.value := mission])), node,
                            MissionChanged(c.missionId.value, c.missionState))
              else d1;
            var d3 := AppendAudit(d2, AuditEntry(ContextRegistered, "hermes", c.agentId, node, header,
                                                 ContextDetails(c.missionId, c.agentStatus, c.missionState),
                                                 AuditRefs(Some(c.agentId), c.sessionId, None)));
            HandleReport(db, ReportContext(c), header) ==
            (CreateEvent(d3, node, AgentStatus(c.agentId, c.agentStatus)), Done)
  {
  }

  function WithNode(db: Db, nodeId: Id): Db {
    db.(fleet := db.fleet.(nodes := db.fleet.nodes[nodeId :=
      [CapabilityItem("events_websocket", true), CapabilityItem("pairing", true), CapabilityItem("mobile_notify", true),
       CapabilityItem("approvals", true)]]))
  }

  lemma NodeLeaves(db: Db, nodeId: Option<Id>, name: string, header: Option<string>)
    ensures var node := TrustOutcomes.NodeOr(nodeId, db.config.nodeId);
            HandleReport(db, ReportNode(nodeId, name), header) ==
            (CreateEvent(AppendAudit(WithNode(db, node),
                                     AuditEntry(OtherAudit("node_registered"), "gateway", "gateway", node, header,
                                                About(name), AuditRefs(None, None, None))), node,
                         Note("system.health", "node_registered")), Done)
  {
  }

  /** A start registers the node, and seeds the sample agent where the node has none and the six sample
      events where there are none; processes and sockets are forgotten. */
  lemma StartLeaves(db: Db)
    ensures var node := db.config.nodeId;
            var d1 := WithNode(db.(tui := Terminals(db.tui.rows, db.tui.attach, map[], map[])), node);
            StartAgain(db) ==
            if exists key | key in db.fleet.agents :: key.nodeId == node then d1
            else
              var d2 := WithAgent(d1, AgentKey(node, "agent_mock"),
                                  AgentRow("Mock Hermes Agent", "idle", None, None, None,
                                           [CapabilityItem("chat", true), CapabilityItem("approvals", true)]));
              if db.log.events != [] then d2 else Sampled(d2, node)
  {
  }

  function Sampled(db: Db, node: Id): Db {
    var d1 := CreateEvent(db, node, AgentStatus("agent_mock", "idle"));
    var d2 := CreateEvent(d1, node, Note("agent.activity", "sess_mock"));
    var d3 := CreateEvent(d2, node, ApprovalRequested("approval_mock", "medium"));
    var d4 := CreateEvent(d3, node, ApprovalResolved("approval_mock", Denied, None));
    CreateEvent(CreateEvent(d4, node, Note("notification.created", "notification_mock")), node,
                Note("system.health", "healthy"))
  }

  /** The first start of all is a start on nothing. */
  lemma FreshIsAStart(config: Config)
    ensures FreshDb(config) ==
            StartAgain(Db(config, Log([], []), Tables.Fleet(map[], map[], map[]), Board(map[], [], {}),
                          Trust(map[], map[], map[], {}, []), Desk(map[], map[], map[], map[], map[]),
                          Terminals(map[], map[], map[], map[])))
  {
  }
}
