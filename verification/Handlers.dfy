/** The gateway's handlers as the code runs them: reads and writes of the store in sequence, early
    returns for every refusal. Each is proved to do to the tables what its specification does to the
    database value, with the same answer. */
module Handlers {
  import opened Wrappers
  import opened Records
  import opened Tables
  import opened Store
  import Decimal
  import Fleet
  import Signing
  import Capabilities
  import Approvals
  import Devices

  // ----- signing.py -----

  method AuditAuthFailure(store: SQLiteStore, req: Signing.SignedRequest, header: Option<string>, reason: FailureReason)
    modifies store
    ensures store.Contents() ==
            AppendAudit(old(store.Contents()), Signing.FailureEntry(store.config, req, header, reason))
  {
    var nonceHash := None;
    if Given(req.nonce) {
      nonceHash := Some(store.config.textHash(req.nonce.value));
    }
    var payload := AuthFailure(reason, req.deviceId, req.verb, req.path, nonceHash);
    var _ := store.AppendAuditEvent(
      AuditEntry(SignatureFailed, "gateway", "gateway", store.config.nodeId, header, payload, NoRefs()));
  }

  method VerifySignedRequest(store: SQLiteStore, req: Signing.SignedRequest, header: Option<string>, now: Time)
      returns (result: Result<VerifiedDevice, FailureReason>)
    modifies store
    ensures (store.Contents(), result) == Signing.Verify(old(store.Contents()), req, header, now)
    ensures result.Success? <==> Signing.Accepts(old(store.Contents()), req, now)
  {
    if !Given(req.deviceId) || !Given(req.timestamp) || !Given(req.nonce) || !Given(req.signature) {
      AuditAuthFailure(store, req, header, MissingHeaders);
      return Failure(MissingHeaders);
    }
    var deviceId := req.deviceId.value;
    if deviceId !in store.devices {
      AuditAuthFailure(store, req, header, UnknownDevice);
      return Failure(UnknownDevice);
    }
    var device := store.devices[deviceId];
    if device.status != DeviceActive {
      AuditAuthFailure(store, req, header, DeviceNotActive);
      return Failure(DeviceNotActive);
    }
    var timestamp := Decimal.ParseInt(req.timestamp.value);
    if timestamp.None? {
      AuditAuthFailure(store, req, header, InvalidTimestamp);
      return Failure(InvalidTimestamp);
    }
    var drift := now / SECOND - timestamp.value;
    if drift > Signing.TOLERANCE || -drift > Signing.TOLERANCE {
      AuditAuthFailure(store, req, header, OutsideWindow);
      return Failure(OutsideWindow);
    }
    if !Signing.SignatureValid(store.config, device.publicKey, req) {
      AuditAuthFailure(store, req, header, InvalidSignature);
      return Failure(InvalidSignature);
    }
    var recorded := store.RecordRequestNonce(deviceId, req.nonce.value);
    if !recorded {
      AuditAuthFailure(store, req, header, ReplayedNonce);
      return Failure(ReplayedNonce);
    }
    result := Success(VerifiedDevice(deviceId, device.nodeId, device.permissions));
  }

  // ----- capabilities.py -----

  method RequireDeviceCapability(store: SQLiteStore, device: VerifiedDevice, capability: Capability,
                                 header: Option<string>, nodeId: Option<Id>, agentId: Option<Id>, now: Time)
      returns (granted: bool)
    modifies store
    ensures (store.Contents(), granted) ==
            Capabilities.RequireDevice(old(store.Contents()), device, capability, header, nodeId, agentId, now)
  {
    if Capabilities.PermissionFor(capability) in device.permissions {
      return true;
    }
    var active := store.HasActiveCapabilityGrant(
      Capabilities.Question(DeviceSubject, device.deviceId, capability, Or(nodeId, store.config.nodeId), agentId), now);
    if active {
      return true;
    }
    var _ := store.AppendAuditEvent(
      AuditEntry(CapabilityDenied, "device", device.deviceId, Or(nodeId, store.config.nodeId), header,
                 Denial(capability, true), AuditRefs(agentId, None, None)));
    return false;
  }

  /** Collects the node's and the agent's record, then searches both. */
  method RecordHasCapability(store: SQLiteStore, nodeId: Id, agentId: Id, capability: Capability) returns (has: bool)
    ensures has == Capabilities.RecordHas(store.Contents(), nodeId, agentId, capability)
  {
    var name := Capabilities.RecordName(capability);
    var records: seq<seq<CapabilityItem>> := [];
    if nodeId in store.nodes {
      records := records + [store.nodes[nodeId]];
    }
    if AgentKey(nodeId, agentId) in store.agents {
      records := records + [store.agents[AgentKey(nodeId, agentId)].capabilities];
    }
    assert nodeId in store.nodes ==> records[0] == store.nodes[nodeId];
    assert AgentKey(nodeId, agentId) in store.agents ==>
             records[|records| - 1] == store.agents[AgentKey(nodeId, agentId)].capabilities;
    for i := 0 to |records|
      invariant forall k | 0 <= k < i :: !Capabilities.Offers(records[k], name)
    {
      for j := 0 to |records[i]|
        invariant forall k | 0 <= k < j :: !(records[i][k].name == name && records[i][k].available)
      {
        if records[i][j].name == name && records[i][j].available {
          assert records[i][j] in records[i] && Capabilities.Offers(records[i], name);
          return true;
        }
      }
      assert !Capabilities.Offers(records[i], name);
    }
    return false;
  }

  method RequireRuntimeCapability(store: SQLiteStore, actorId: Id, capability: Capability, header: Option<string>,
                                  nodeId: Option<Id>, agentId: Option<Id>, now: Time)
      returns (granted: bool)
    modifies store
    ensures (store.Contents(), granted) ==
            Capabilities.RequireRuntime(old(store.Contents()), actorId, capability, header, nodeId, agentId, now)
  {
    var node := Or(nodeId, store.config.nodeId);
    if capability == Capability.Approvals || capability == Notifications {
      return true;
    }
    if Given(agentId) {
      var has := RecordHasCapability(store, node, agentId.value, capability);
      if has {
        return true;
      }
    }
    var byRuntime := store.HasActiveCapabilityGrant(Capabilities.Question(RuntimeSubject, actorId, capability, node,
        agentId), now);
    if byRuntime {
      return true;
    }
    if Given(agentId) {
      var byAgent := store.HasActiveCapabilityGrant(Capabilities.Question(AgentSubject, agentId.value, capability,
          node, agentId), now);
      if byAgent {
        return true;
      }
    }
    var byNode := store.HasActiveCapabilityGrant(Capabilities.Question(NodeSubject, node, capability, node, agentId),
                                                 now);
    if byNode {
      return true;
    }
    var _ := store.AppendAuditEvent(
      AuditEntry(CapabilityDenied, "hermes", actorId, node, header, Denial(capability, false),
                 AuditRefs(agentId, None, None)));
    return false;
  }

  // ----- runtime_adapter.py: agents and missions -----

  method SetAgentRuntimeState(store: SQLiteStore, nodeId: Id, agentId: Id, sessionId: Option<Id>, status: string,
                              currentTool: Option<string>)
    modifies store
    ensures store.Contents() ==
            Fleet.SetAgentRuntimeState(old(store.Contents()), nodeId, agentId, sessionId, status, currentTool)
  {
    var key := AgentKey(nodeId, agentId);
    var row := AgentRow(agentId, status, sessionId, currentTool, None, []);
    if key in store.agents {
      var existing := store.agents[key];
      row := AgentRow(if existing.displayName != "" then existing.displayName else agentId, status, sessionId,
                      if Given(currentTool) then currentTool else existing.currentTool, existing.currentTarget,
                          existing.capabilities);
    } else if !Given(currentTool) {
      row := row.(currentTool := None);
    }
    store.UpsertAgent(key, row);
    store.CreateEvent(nodeId, AgentStatus(agentId, status));
  }

  method RegisterContext(store: SQLiteStore, c: Fleet.Context, header: Option<string>)
    modifies store
    ensures store.Contents() == Fleet.RegisterContext(old(store.Contents()), c, header)
  {
    var nodeId := Or(c.nodeId, store.config.nodeId);
    var key := AgentKey(nodeId, c.agentId);
    var name, capabilities := Or(c.displayName, c.agentId), c.capabilities;
    if key in store.agents {
      var existing := store.agents[key];
      if !Given(c.displayName) && existing.displayName != "" {
        name := existing.displayName;
      }
      if c.capabilities == [] {
        capabilities := existing.capabilities;
      }
    }
    var row := AgentRow(name, c.agentStatus, c.sessionId, c.currentTool, c.currentTarget, capabilities);
    assert row == Fleet.AgentInContext(Fleet.ExistingAgent(store.Contents(), key), c);
    store.UpsertAgent(key, row);
    if Given(c.missionId) {
      store.UpsertMission(c.missionId.value, MissionRow(nodeId, c.agentId, c.sessionId, c.missionState));
      store.CreateEvent(nodeId, MissionChanged(c.missionId.value, c.missionState));
    }
    var _ := store.AppendAuditEvent(
      AuditEntry(ContextRegistered, "hermes", c.agentId, nodeId, header,
                 ContextDetails(c.missionId, c.agentStatus, c.missionState), RefsOf(c.agentId, c.sessionId, None)));
    store.CreateEvent(nodeId, AgentStatus(c.agentId, c.agentStatus));
  }

  method EnsureNode(store: SQLiteStore, nodeId: Id)
    modifies store
    ensures store.Contents() == Fleet.EnsureNode(old(store.Contents()), nodeId)
  {
    store.UpsertNode(nodeId, Fleet.DefaultNodeCapabilities());
  }

  method RegisterNode(store: SQLiteStore, nodeId: Option<Id>, displayName: string, header: Option<string>)
    modifies store
    ensures store.Contents() == Fleet.RegisterNode(old(store.Contents()), nodeId, displayName, header)
  {
    var node := Or(nodeId, store.config.nodeId);
    EnsureNode(store, node);
    var _ := store.AppendAuditEvent(
      AuditEntry(OtherAudit("node_registered"), "gateway", "gateway", node, header, About(displayName), NoRefs()));
    store.CreateEvent(node, Note("system.health", "node_registered"));
  }

  /** Runs at every start. */
  method SeedMockData(store: SQLiteStore, nodeId: Id)
    modifies store
    ensures store.Contents() == Fleet.SeedMockData(old(store.Contents()), nodeId)
  {
    var populated := exists key | key in store.agents :: key.nodeId == nodeId;
    if populated {
      return;
    }
    store.UpsertAgent(AgentKey(nodeId, Fleet.MOCK_AGENT), Fleet.MockAgent());
    if store.eventEnvelopes == [] {
      store.CreateEvent(nodeId, AgentStatus(Fleet.MOCK_AGENT, "idle"));
      store.CreateEvent(nodeId, Note("agent.activity", "sess_mock"));
      store.CreateEvent(nodeId, ApprovalRequested(Fleet.MOCK_APPROVAL, "medium"));
      store.CreateEvent(nodeId, ApprovalResolved(Fleet.MOCK_APPROVAL, Denied, None));
      store.CreateEvent(nodeId, Note("notification.created", "notification_mock"));
      store.CreateEvent(nodeId, Note("system.health", "healthy"));
    }
  }

  // ----- clearances -----

  method AuditRequest(store: SQLiteStore, nodeId: Id, q: Approvals.ClearanceRequest, header: Option<string>)
    modifies store
    ensures store.Contents() ==
            Tables.CreateEvent(AppendAudit(old(store.Contents()), Approvals.RequestEntry(nodeId, q, header)), nodeId,
                               ApprovalRequested(q.approvalId, q.riskLevel))
  {
    var _ := store.AppendAuditEvent(
      AuditEntry(ClearanceRequested, "hermes", q.agentId, nodeId, header, RequestDetails(q.requestedTool, q.riskLevel),
                 RefsOf(q.agentId, Some(q.sessionId), Some(q.approvalId))));
    store.CreateEvent(nodeId, ApprovalRequested(q.approvalId, q.riskLevel));
  }

  method CreateApprovalRequest(store: SQLiteStore, q: Approvals.ClearanceRequest, header: Option<string>)
    modifies store
    ensures store.Contents() == Approvals.CreateRequest(old(store.Contents()), q, header)
  {
    var nodeId := Or(q.nodeId, store.config.nodeId);
    store.CreateApproval(q.approvalId, Approvals.NewRow(nodeId, q));
    AuditRequest(store, nodeId, q, header);
  }

  method RequestApproval(store: SQLiteStore, q: Approvals.ClearanceRequest, header: Option<string>)
    modifies store
    ensures store.Contents() == Approvals.RequestFromRuntime(old(store.Contents()), q, header)
  {
    var nodeId := Or(q.nodeId, store.config.nodeId);
    store.CreateApproval(q.approvalId, Approvals.NewRow(nodeId, q));
    SetAgentRuntimeState(store, nodeId, q.agentId, Some(q.sessionId), "waiting_approval", Some(q.requestedTool));
    AuditRequest(store, nodeId, q, header);
  }

  /** The three writes that end a clearance; the code has them at each of its five places. */
  method EndApproval(store: SQLiteStore, id: Id, row: ApprovalRow, s: Approvals.Settlement, header: Option<string>,
                     now: Time)
    requires id in store.approvals && row == store.approvals[id]
    modifies store
    ensures store.Contents() == Approvals.Settle(old(store.Contents()), id, s, header, now)
  {
    store.ResolveApproval(id, s.state, s.scope, s.actor, s.metadata, now);
    var _ := store.AppendAuditEvent(
      AuditEntry(s.kind, s.actorType, s.actorId, row.nodeId, header, s.payload,
                 RefsOf(row.agentId, Some(row.sessionId), Some(id))));
    store.CreateEvent(row.nodeId, ApprovalResolved(id, s.state, s.scope));
  }

  method ExpireApproval(store: SQLiteStore, id: Id, row: ApprovalRow, reason: SettleReason, header: Option<string>,
                        now: Time)
    requires id in store.approvals && row == store.approvals[id]
    modifies store
    ensures store.Contents() == Approvals.Settle(old(store.Contents()), id, Approvals.ByClock(reason), header, now)
  {
    EndApproval(store, id, row,
                Approvals.Settlement(Expired, None, None, Because(reason), ClearanceExpired, "gateway", "gateway",
                                     Reason(reason)),
                header, now);
  }

  /** The scan works on the rows it listed at its start; they are still current when it gets to
      them, because no round touches a row of another. */
  method ExpirePendingApprovals(store: SQLiteStore, listing: seq<Id>, clock: nat -> Time)
    requires Approvals.ListsPending(store.Contents(), listing)
    modifies store
    ensures store.Contents() == Approvals.ExpireScan(old(store.Contents()), listing, clock, ExpiryScan)
  {
    var rows := store.approvals;
    assert forall k | 0 <= k < |listing| :: listing[k] in listing && Approvals.IsPending(store.Contents(), listing[k]);
    for i := 0 to |listing|
      invariant store.Contents() == Approvals.ExpireScan(old(store.Contents()), listing[..i], clock, ExpiryScan)
      invariant rows.Keys == store.approvals.Keys
      invariant forall k | i <= k < |listing| :: listing[k] in rows && store.approvals[listing[k]] == rows[listing[k]]
    {
      var id := listing[i];
      assert listing[..i + 1][..i] == listing[..i];
      if rows[id].expiresAt <= clock(i) {
        ExpireApproval(store, id, rows[id], ExpiryScan, None, clock(i));
      }
    }
    assert listing[..|listing|] == listing;
  }

  /** The adapter's scan, written with `continue`. */
  method ExpireForResultPoll(store: SQLiteStore, listing: seq<Id>, clock: nat -> Time)
    requires Approvals.ListsPending(store.Contents(), listing)
    modifies store
    ensures store.Contents() == Approvals.ExpireScan(old(store.Contents()), listing, clock, RuntimeResultPoll)
  {
    var rows := store.approvals;
    assert forall k | 0 <= k < |listing| :: listing[k] in listing && Approvals.IsPending(store.Contents(), listing[k]);
    for i := 0 to |listing|
      invariant store.Contents() == Approvals.ExpireScan(old(store.Contents()), listing[..i], clock, RuntimeResultPoll)
      invariant rows.Keys == store.approvals.Keys
      invariant forall k | i <= k < |listing| :: listing[k] in rows && store.approvals[listing[k]] == rows[listing[k]]
    {
      var id := listing[i];
      assert listing[..i + 1][..i] == listing[..i];
      if rows[id].expiresAt > clock(i) {
        continue;
      }
      ExpireApproval(store, id, rows[id], RuntimeResultPoll, None, clock(i));
    }
    assert listing[..|listing|] == listing;
  }

  method TransitionApproval(store: SQLiteStore, id: Id, target: ApprovalState, deviceId: Id, decision: Option<Decision>,
                            scope: Option<Scope>, header: Option<string>, now: Time)
      returns (reply: Reply)
    requires target != Pending
    modifies store
    ensures (store.Contents(), reply) ==
            Approvals.Transition(old(store.Contents()), id, target, deviceId, decision, scope, header, now)
  {
    if id !in store.approvals {
      return Refused(404);
    }
    var row := store.approvals[id];
    if row.state != Pending {
      return Refused(409);
    }
    if (target == Approved || target == Denied) && row.expiresAt <= now {
      ExpireApproval(store, id, row, DecisionAfterExpiry, header, now);
      return Refused(409);
    }
    var kind := match target
      case Expired => ClearanceExpired
      case Cancelled => ClearanceCancelled
      case _ => ClearanceDecision;
    EndApproval(store, id, row,
                Approvals.Settlement(target, scope, Some(deviceId), Decided(decision, target), kind, "device", deviceId,
                                     VerdictDetails(decision, scope, target)),
                header, now);
    reply := Settled(target, scope);
  }

  /** The body of the responses route, behind its lookup and capability check. */
  method CreateApprovalResponse(store: SQLiteStore, id: Id, deviceId: Id, p: Approvals.Response,
                                header: Option<string>, now: Time)
      returns (reply: Reply)
    requires id in store.approvals
    modifies store
    ensures (store.Contents(), reply) == Approvals.Respond(old(store.Contents()), id, deviceId, p, header, now)
  {
    var row, proposal := store.approvals[id], None;
    if p.responseType == ProposePolicy {
      if !p.phraseConfirmed {
        return Refused(400);
      }
      store.CreateApprovalPolicyProposal(p.proposalId);
      proposal := Some(p.proposalId);
    }
    store.CreateApprovalResponse(ResponseRow(p.responseId, id, p.responseType, deviceId, proposal));
    var verdict := Approvals.VerdictOf(p.responseType);
    if verdict.Some? {
      var v := verdict.value;
      var answer := TransitionApproval(store, id, v.target, deviceId, Some(v.decision), Some(v.scope), header, now);
      if answer.Refused? {
        return answer;
      }
    }
    var _ := store.AppendAuditEvent(
      AuditEntry(ClearanceResponse, "device", deviceId, row.nodeId, header,
                 ResponseDetails(p.responseType, p.constraintCount, proposal),
                     RefsOf(row.agentId, Some(row.sessionId), Some(id))));
    var name := if p.responseType == NeedsInfo then "approval.needs_info" else "approval.response.created";
    store.CreateEvent(row.nodeId, Note(name, p.responseId));
    reply := Done;
  }

  /** The writes of the adapter's cancel; the result it then reads is an approval_result of its own. */
  method CancelApproval(store: SQLiteStore, id: Id, actorId: Id, header: Option<string>, now: Time)
    requires id in store.approvals
    modifies store
    ensures store.Contents() == Approvals.CancelFromRuntime(old(store.Contents()), id, actorId, header, now)
  {
    var row := store.approvals[id];
    if row.state == Pending {
      EndApproval(store, id, row,
                  Approvals.Settlement(Cancelled, None, None, Because(RuntimeCancelled), ClearanceCancelled, "hermes",
                                       actorId,
                                       Reason(RuntimeCancelled)),
                  header, now);
    }
  }

  method ApprovalResult(store: SQLiteStore, id: Id, listing: seq<Id>, clock: nat -> Time) returns (reply: Reply)
    requires Approvals.ListsPending(store.Contents(), listing)
    modifies store
    ensures store.Contents() == Approvals.ExpireScan(old(store.Contents()), listing, clock, RuntimeResultPoll)
    ensures reply == Approvals.ReadStatus(store.Contents(), id)
  {
    ExpireForResultPoll(store, listing, clock);
    if id !in store.approvals {
      return Refused(404);
    }
    var row := store.approvals[id];
    var scope := if row.state == Approved then row.scope else None;
    reply := Status(ApprovalView(id, row.state, scope, row.metadata, Approvals.ResponsesOf(store.responses, id)));
  }

  // ----- pairing, tokens, revocation -----

  method StartPairing(store: SQLiteStore, id: Id, token: string, permissions: set<Permission>, ttl: Option<int>,
                      header: Option<string>, now: Time)
    modifies store
    ensures store.Contents() == Devices.StartPairing(old(store.Contents()), id, token, permissions, ttl, header, now)
  {
    var seconds := store.config.pairingTtl;
    if ttl.Some? {
      seconds := ttl.value;
    }
    store.CreatePairingSession(
      id, PairingRow(store.config.tokenHash(token), PairingPending, store.config.nodeId, permissions,
                     now + seconds * SECOND));
    var _ := store.AppendAuditEvent(
      AuditEntry(PairingStarted, "gateway", "gateway", store.config.nodeId, header, About(id), NoRefs()));
  }

  method ReadPairing(store: SQLiteStore, id: Id, now: Time) returns (reply: Reply)
    modifies store
    ensures (store.Contents(), reply) == Devices.ReadPairing(old(store.Contents()), id, now)
  {
    if id !in store.pairings {
      return Refused(404);
    }
    ExpirePairingIfNeeded(store, id, now);
    reply := Done;
  }

  method ExpirePairingIfNeeded(store: SQLiteStore, id: Id, now: Time)
    requires id in store.pairings
    modifies store
    ensures store.Contents() == Devices.ExpirePairingIfNeeded(old(store.Contents()), id, now)
  {
    if store.pairings[id].status == PairingPending && store.pairings[id].expiresAt <= now {
      store.SetPairingStatus(id, PairingExpired);
    }
  }

  method IssueTokens(store: SQLiteStore, access: string, refresh: string, deviceId: Id, now: Time)
    modifies store
    ensures store.Contents() == Devices.IssueTokens(old(store.Contents()), access, refresh, deviceId, now)
  {
    store.CreateAuthToken(access, Access, deviceId, 15 * 60, now);
    store.CreateAuthToken(refresh, Refresh, deviceId, 30 * 24 * 60 * 60, now);
  }

  method CompletePairing(store: SQLiteStore, c: Devices.Completion, header: Option<string>, now: Time)
      returns (reply: Reply)
    modifies store
    ensures (store.Contents(), reply) == Devices.CompletePairing(old(store.Contents()), c, header, now)
  {
    if c.pairingId !in store.pairings {
      return Refused(400);
    }
    ExpirePairingIfNeeded(store, c.pairingId, now);
    var p := store.pairings[c.pairingId];
    if p.status != PairingPending {
      return Refused(400);
    }
    if store.config.tokenHash(c.challengeResponse) != p.tokenHash {
      var _ := store.AppendAuditEvent(
        AuditEntry(PairingRejected, "gateway", "gateway", p.nodeId, header, About(c.pairingId), NoRefs()));
      return Refused(400);
    }
    var permissions := p.permissions;
    if permissions == {} {
      permissions := Devices.DefaultPermissions();
    }
    store.CreateDevice(c.deviceId, DeviceRow(p.nodeId, c.publicKey, DeviceActive, permissions));
    IssueTokens(store, c.access, c.refresh, c.deviceId, now);
    store.SetPairingStatus(c.pairingId, PairingCompleted);
    var _ := store.AppendAuditEvent(
      AuditEntry(DeviceRegistered, "device", c.deviceId, p.nodeId, header, PairingDetails(c.pairingId, permissions),
                 NoRefs()));
    store.CreateEvent(p.nodeId, Note("system.health", "device_registered"));
    reply := Tokens(c.deviceId);
  }

  method RefreshToken(store: SQLiteStore, deviceId: Id, token: string, access: string, refresh: string, now: Time)
      returns (reply: Reply)
    modifies store
    ensures (store.Contents(), reply) == Devices.RefreshTokens(old(store.Contents()), deviceId, token, access, refresh,
                                                               now)
  {
    var owner := store.VerifyRefreshToken(token, now);
    if owner.None? {
      return Refused(401);
    }
    if owner.value != deviceId {
      return Refused(403);
    }
    IssueTokens(store, access, refresh, owner.value, now);
    reply := Tokens(deviceId);
  }

  method RevokeDevice(store: SQLiteStore, actorId: Id, deviceId: Id, header: Option<string>, now: Time)
      returns (reply: Reply)
    modifies store
    ensures (store.Contents(), reply) == Devices.RevokeDevice(old(store.Contents()), actorId, deviceId, header, now)
  {
    var found := store.RevokeDevice(deviceId, now);
    if !found {
      return Refused(404);
    }
    var _ := store.AppendAuditEvent(
      AuditEntry(DeviceRevocation, "device", actorId, store.config.nodeId, header, About(deviceId), NoRefs()));
    reply := Done;
  }
}
