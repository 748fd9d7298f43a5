/** The running gateway: the store, the terminal manager, and one method that serves a request or an
    event. Serving is proved to be one step of the state machine, so every history of this object is a
    run, and what is proved of all runs holds of it. */
module Gateway {
  import opened Wrappers
  import opened Records
  import opened Tables
  import opened Store
  import opened TerminalManager
  import opened Machine
  import Fleet
  import Signing
  import Approvals
  import Cursor
  import Handlers
  import HandoffHandlers
  import Handoffs

  // ----- routes behind a signature -----

  method Decide(store: SQLiteStore, device: VerifiedDevice, id: Id, target: ApprovalState, decision: Option<Decision>,
                scope: Option<Scope>, header: Option<string>, now: Time)
      returns (reply: Reply)
    requires target != Pending
    modifies store
    ensures (store.Contents(), reply) == DecideByDevice(old(store.Contents()), device, id, target, decision, scope,
                                                        header, now)
  {
    if id !in store.approvals {
      return Refused(404);
    }
    var row := store.approvals[id];
    var granted := Handlers.RequireDeviceCapability(store, device, Capability.Approvals, header, Some(row.nodeId),
                                                    Some(row.agentId), now);
    if !granted {
      return Refused(403);
    }
    reply := Handlers.TransitionApproval(store, id, target, device.deviceId, decision, scope, header, now);
  }

  method Answer(store: SQLiteStore, device: VerifiedDevice, id: Id, p: Approvals.Response, header: Option<string>,
                now: Time)
      returns (reply: Reply)
    modifies store
    ensures (store.Contents(), reply) == RespondByDevice(old(store.Contents()), device, id, p, header, now)
  {
    if id !in store.approvals {
      return Refused(404);
    }
    var row := store.approvals[id];
    var granted := Handlers.RequireDeviceCapability(store, device, Capability.Approvals, header, Some(row.nodeId),
                                                    Some(row.agentId), now);
    if !granted {
      return Refused(403);
    }
    reply := Handlers.CreateApprovalResponse(store, id, device.deviceId, p, header, now);
  }

  method ReadClearance(store: SQLiteStore, id: Id, scan: Approvals.Scan) returns (reply: Reply)
    requires Approvals.ListsPending(store.Contents(), scan.listing)
    modifies store
    ensures store.Contents() == Approvals.RunScan(old(store.Contents()), scan, ExpiryScan)
    ensures reply == Approvals.ReadStatus(store.Contents(), id)
  {
    Handlers.ExpirePendingApprovals(store, scan.listing, scan.clock);
    if id !in store.approvals {
      return Refused(404);
    }
    var row := store.approvals[id];
    reply := Status(ApprovalView(id, row.state, if row.state == Approved then row.scope else None, row.metadata,
                                 Approvals.ResponsesOf(store.responses, id)));
  }

  method ServeClearance(store: SQLiteStore, device: VerifiedDevice, call: ClearanceCall, header: Option<string>,
                        now: Time)
      returns (reply: Reply)
    requires ClearanceInputOk(store.Contents(), call, now)
    modifies store
    ensures (store.Contents(), reply) == HandleClearance(old(store.Contents()), device, call, header, now)
  {
    match call
    case ListClearances(scan) =>
      Handlers.ExpirePendingApprovals(store, scan.listing, scan.clock);
      reply := Done;
    case GetClearance(id, scan) => reply := ReadClearance(store, id, scan);
    case Decide(id, decision, scope) =>
      reply := Decide(store, device, id, if decision == Approve then Approved else Denied, Some(decision), Some(scope),
                      header, now);
    case ApproveOnceCall(id) => reply := Decide(store, device, id, Approved, Some(Approve), Some(Once), header, now);
    case DenyCall(id) => reply := Decide(store, device, id, Denied, Some(Deny), Some(Once), header, now);
    case ExpireCall(id) => reply := Decide(store, device, id, Expired, None, None, header, now);
    case CancelCall(id) => reply := Decide(store, device, id, Cancelled, None, None, header, now);
    case RespondCall(id, p) => reply := Answer(store, device, id, p, header, now);
  }

  method ServeTrust(store: SQLiteStore, device: VerifiedDevice, call: TrustCall, header: Option<string>, now: Time)
      returns (reply: Reply)
    modifies store
    ensures (store.Contents(), reply) == HandleTrust(old(store.Contents()), device, call, header, now)
  {
    match call
    case Refresh(token, access, refresh) => reply := Handlers.RefreshToken(store, device.deviceId, token, access,
        refresh, now);
    case Revoke(id) => reply := Handlers.RevokeDevice(store, device.deviceId, id, header, now);
  }

  method ServeUpdate(store: SQLiteStore, device: VerifiedDevice, kind: HandoffKind, id: Id, u: Handoffs.Update,
                     header: Option<string>, now: Time)
      returns (reply: Reply)
    requires Handoffs.Offered(kind, u)
    modifies store
    ensures (store.Contents(), reply) == Handoffs.UpdateSession(old(store.Contents()), device, kind, id, u, header, now)
  {
    match (kind, u)
    case (Tua, ReturnControl(summary)) => reply := HandoffHandlers.ReturnTuaControl(store, device, id, summary, header,
        now);
    case (Tua, CloseSession) => reply := HandoffHandlers.CloseTuaSession(store, device, id, header, now);
    case (Browser, ReturnControl(summary)) => reply := HandoffHandlers.ReturnBrowserControl(store, device, id, summary,
        header, now);
    case (Browser, AddNote(note)) => reply := HandoffHandlers.AddBrowserEvent(store, device, id, note, header, now);
    case (Browser, CloseSession) => reply := HandoffHandlers.CloseBrowserSession(store, device, id, header, now);
    case (Voice, CloseSession) => reply := HandoffHandlers.CloseVoiceSession(store, device, id, header, now);
  }

  method ServeDesk(store: SQLiteStore, device: VerifiedDevice, call: DeskCall, header: Option<string>, now: Time)
      returns (reply: Reply)
    requires DeskCallOk(call)
    modifies store
    ensures (store.Contents(), reply) == HandleDesk(old(store.Contents()), device, call, header, now)
  {
    match call
    case TakeUpTua(requestId, id) => reply := HandoffHandlers.CreateTuaSession(store, device, requestId, id, header,
        now);
    case StartVoice(o) => reply := HandoffHandlers.CreateVoiceSession(store, device, o, header, now);
    case UpdateHandoff(kind, id, u) => reply := ServeUpdate(store, device, kind, id, u, header, now);
  }

  method ServeTerminal(m: LocalPtyManager, device: VerifiedDevice, call: TerminalCall, header: Option<string>,
                       now: Time)
      returns (reply: Reply)
    requires m.Valid() && (call.StartTerminal? ==> FreshSession(m.store.Contents(), call.request.id))
    modifies m, m.store
    ensures m.Valid()
    ensures (m.store.Contents(), reply) == HandleTerminal(old(m.store.Contents()), device, call, header, now)
  {
    match call
    case StartTerminal(q) => reply := CreateTuiSession(m, device, q, header, now);
    case AttachTerminal(id, token) => reply := CreateAttachToken(m, device, id, token, header, now);
    case ListTerminals =>
      m.CleanupIdleSessions(now);
      reply := Done;
    case GetTerminal(id) => reply := GetTuiSession(m, device, id, now);
    case DetachTerminal(id) => reply := DetachTuiSession(m, device, id, header, now);
    case CloseTerminal(id) => reply := CloseTuiSession(m, device, id, header, now);
  }

  /** The routes left out of the model: at most one audit row and one event. */
  method ServeOther(store: SQLiteStore, entry: Option<AuditEntry>, note: Option<string>) returns (reply: Reply)
    requires entry.Some? ==> !entry.value.kind.Settles()
    modifies store
    ensures (store.Contents(), reply) == (OtherRoute(old(store.Contents()), entry, note), Done)
  {
    if entry.Some? {
      var _ := store.AppendAuditEvent(entry.value);
    }
    if note.Some? {
      store.CreateEvent(store.config.nodeId, Note(note.value, ""));
    }
    reply := Done;
  }

  method ServeDevice(m: LocalPtyManager, device: VerifiedDevice, call: DeviceCall, header: Option<string>, now: Time)
      returns (reply: Reply)
    requires m.Valid() && CallOk(call) && DeviceInputOk(m.store.Contents(), call, now)
    modifies m, m.store
    ensures m.Valid()
    ensures (m.store.Contents(), reply) == HandleDevice(old(m.store.Contents()), device, call, header, now)
  {
    match call
    case OnClearances(c) => reply := ServeClearance(m.store, device, c, header, now);
    case OnTrust(c) => reply := ServeTrust(m.store, device, c, header, now);
    case OnDesk(c) => reply := ServeDesk(m.store, device, c, header, now);
    case OnTerminals(c) => reply := ServeTerminal(m, device, c, header, now);
    case ReadEvents(after, limit) =>
      if !Binds(Cursor.Sequence(after)) || !Binds(limit) {
        return Refused(500);
      }
      var page := ListEventsAfter(m.store.eventEnvelopes, after, limit);
      reply := Page(page, NextCursor(page, after));
    case OtherDeviceRoute(entry, note) => reply := ServeOther(m.store, entry, note);
  }

  // ----- routes of the local runtime -----

  method ServeBackend(store: SQLiteStore, call: BackendCall, header: Option<string>, now: Time) returns (reply: Reply)
    requires BackendInputOk(store.Contents(), call, header, now)
    modifies store
    ensures (store.Contents(), reply) == HandleBackend(old(store.Contents()), call, header, now)
  {
    match call
    case RequestClearance(q) =>
      Handlers.RequestApproval(store, q, header);
      reply := Opened(q.approvalId);
    case CreateClearance(q) =>
      Handlers.CreateApprovalRequest(store, q, header);
      reply := Opened(q.approvalId);
    case ClearanceStatus(id, scan) => reply := ReadClearance(store, id, scan);
    case ClearanceResult(id, scan) => reply := Handlers.ApprovalResult(store, id, scan.listing, scan.clock);
    case CancelClearance(id, first, second) =>
      if id !in store.approvals {
        return Refused(404);
      }
      Handlers.CancelApproval(store, id, "runtime", header, now);
      var _ := Handlers.ApprovalResult(store, id, first.listing, first.clock);
      reply := Handlers.ApprovalResult(store, id, second.listing, second.clock);
  }

  method ServeAsk(store: SQLiteStore, call: AskCall, header: Option<string>, now: Time) returns (reply: Reply)
    modifies store
    ensures (store.Contents(), reply) == HandleAsk(old(store.Contents()), call, header, now)
  {
    reply := Done;
    match call
    case AskTua(o, checked) =>
      if checked {
        reply := HandoffHandlers.CreateTuaRequestFromRuntime(store, o, header, now);
      } else {
        HandoffHandlers.CreateTuaRequest(store, o, header);
      }
    case AskBrowser(o, checked) =>
      if checked {
        reply := HandoffHandlers.CreateBrowserSessionFromRuntime(store, o, header, now);
      } else {
        HandoffHandlers.CreateBrowserSession(store, o, header);
      }
    case AskVoice(o) => reply := HandoffHandlers.CreateVoiceSessionFromRuntime(store, o, header, now);
  }

  method ServeRuntime(store: SQLiteStore, call: RuntimeCall, header: Option<string>, now: Time) returns (reply: Reply)
    requires RuntimeCallOk(call) && RuntimeInputOk(store.Contents(), call, header, now)
    modifies store
    ensures (store.Contents(), reply) == HandleRuntime(old(store.Contents()), call, header, now)
  {
    match call
    case OnFleet(ReportContext(c)) =>
      Handlers.RegisterContext(store, c, header);
      reply := Done;
    case OnFleet(ReportNode(nodeId, name)) =>
      Handlers.RegisterNode(store, nodeId, name, header);
      reply := Done;
    case OnBackend(c) => reply := ServeBackend(store, c, header, now);
    case OnHandoff(c) => reply := ServeAsk(store, c, header, now);
    case OtherRuntimeRoute(entry, note) => reply := ServeOther(store, entry, note);
  }

  // ----- unsigned requests and events -----

  method ServePairing(store: SQLiteStore, call: PairingCall, header: Option<string>, now: Time) returns (reply: Reply)
    modifies store
    ensures (store.Contents(), reply) == HandlePairing(old(store.Contents()), call, header, now)
  {
    match call
    case BeginPairing(id, token, permissions, ttl) =>
      Handlers.StartPairing(store, id, token, permissions, ttl, header, now);
      reply := Done;
    case PollPairing(id) => reply := Handlers.ReadPairing(store, id, now);
    case EndPairing(c) => reply := Handlers.CompletePairing(store, c, header, now);
  }

  method ServeTerminalEvent(m: LocalPtyManager, event: TerminalEvent, now: Time) returns (reply: Reply)
    requires m.Valid()
    modifies m, m.store
    ensures m.Valid()
    ensures (m.store.Contents(), reply) == HandleTerminalEvent(old(m.store.Contents()), event, now)
  {
    reply := Done;
    match event
    case Connects(token, id, socket) => reply := ConnectTui(m, token, id, socket, now);
    case Sends(socket, frame) => reply := StreamRound(m, socket, frame, now);
    case ProcessExits(id) => m.ProcessExited(id);
    case ReaderEnds(id) => m.EndOfOutput(id, now);
    case ShutsDown => m.CloseAll(now);
  }

  method ServeSigned(m: LocalPtyManager, request: Signing.SignedRequest, call: DeviceCall, header: Option<string>,
                     now: Time)
      returns (reply: Reply)
    requires m.Valid() && CallOk(call) && DeviceInputOk(m.store.Contents(), call, now)
    modifies m, m.store
    ensures m.Valid()
    ensures (m.store.Contents(), reply) == NextSigned(old(m.store.Contents()), request, call, header, now)
  {
    var verified := Handlers.VerifySignedRequest(m.store, request, header, now);
    match verified
    case Failure(reason) => reply := Refused(Signing.Code(reason));
    case Success(device) =>
      VerifyingKeepsInput(old(m.store.Contents()), m.store.Contents(), call, now);
      reply := ServeDevice(m, device, call, header, now);
  }

  /** A used-up nonce does not touch anything a route's inputs are chosen against. */
  lemma VerifyingKeepsInput(a: Db, b: Db, call: DeviceCall, now: Time)
    requires DeviceInputOk(a, call, now) && b == a.(trust := a.trust.(nonces := b.trust.nonces))
    ensures DeviceInputOk(b, call, now)
  {
  }

  method ServeLocal(store: SQLiteStore, allowed: bool, call: RuntimeCall, header: Option<string>, now: Time)
      returns (reply: Reply)
    requires RuntimeCallOk(call) && RuntimeInputOk(store.Contents(), call, header, now)
    modifies store
    ensures (store.Contents(), reply) == NextLocal(old(store.Contents()), allowed, call, header, now)
  {
    if !allowed {
      var _ := store.AppendAuditEvent(
        AuditEntry(LocalCallerRejected, "gateway", "gateway", store.config.nodeId, header, Empty, NoRefs()));
      return Refused(403);
    }
    reply := ServeRuntime(store, call, header, now);
  }

  method ServeStream(store: SQLiteStore, token: string, now: Time) returns (reply: Reply)
    modifies store
    ensures (store.Contents(), reply) == StreamHello(old(store.Contents()), token, now)
  {
    if token == "" {
      return Refused(1008);
    }
    var device := store.VerifyAccessToken(token, now);
    if device.None? {
      return Refused(1008);
    }
    store.CreateEvent(store.config.nodeId, Note("system.health", "websocket_connected"));
    reply := Done;
  }

  method StartUp(m: LocalPtyManager)
    requires m.Valid()
    modifies m, m.store
    ensures m.Valid() && m.store.Contents() == StartAgain(old(m.store.Contents()))
  {
    m.SetSessions(map[]);
    m.SetSockets(map[]);
    Handlers.EnsureNode(m.store, m.store.config.nodeId);
    Handlers.SeedMockData(m.store, m.store.config.nodeId);
  }

  /** Serving one request or event is one step of the machine, with the machine's answer. */
  method Serve(m: LocalPtyManager, step: Step) returns (reply: Reply)
    requires m.Valid() && Admissible(m.store.Contents(), step)
    modifies m, m.store
    ensures m.Valid()
    ensures (m.store.Contents(), reply) == Next(old(m.store.Contents()), step)
  {
    match step.action
    case Signed(request, call) => reply := ServeSigned(m, request, call, step.header, step.now);
    case Local(allowed, call) => reply := ServeLocal(m.store, allowed, call, step.header, step.now);
    case OnPairing(call) => reply := ServePairing(m.store, call, step.header, step.now);
    case StreamConnect(token) => reply := ServeStream(m.store, token, step.now);
    case Heartbeat =>
      m.store.CreateEvent(m.store.config.nodeId, Note("system.health", "heartbeat"));
      reply := Done;
    case GrantCapability(g) =>
      m.store.CreateCapabilityGrant(g);
      reply := Done;
    case OnTerminalEvent(event) => reply := ServeTerminalEvent(m, event, step.now);
    case Restart =>
      StartUp(m);
      reply := Done;
  }

  /** A fresh gateway, as started on an empty database. */
  method Boot(config: Config) returns (m: LocalPtyManager)
    ensures fresh(m) && fresh(m.store) && m.Valid() && m.store.Contents() == Fleet.FreshDb(config)
  {
    var store := new SQLiteStore(config);
    Handlers.EnsureNode(store, config.nodeId);
    Handlers.SeedMockData(store, config.nodeId);
    m := new LocalPtyManager(store);
  }

  /** Serving admissible requests one after the other, from any state on, is a run. */
  method ServeAll(m: LocalPtyManager, steps: seq<Step>) returns (ghost run: Run, replies: seq<Reply>)
    requires m.Valid() && Timely(steps) && AlwaysAdmissible(m.store.Contents(), steps)
    modifies m, m.store
    ensures m.Valid() && IsRun(run) && run.steps == steps && run.replies == replies
    ensures run.states[0] == old(m.store.Contents()) && run.states[|steps|] == m.store.Contents()
  {
    ghost var start := m.store.Contents();
    run := Run([start], [], []);
    replies := [];
    for i := 0 to |steps|
      invariant m.Valid() && IsRun(run) && run.steps == steps[..i] && run.replies == replies
      invariant run.states[0] == start && run.states[i] == m.store.Contents()
    {
      ghost var before := run;
      assert Admissible(run.states[i], steps[i]);
      var reply := Serve(m, steps[i]);
      RunsContinue(start, before, steps[i]);
      run := Extended(before, steps[i]);
      replies := replies + [reply];
      assert steps[..i + 1] == steps[..i] + [steps[i]];
    }
    assert steps[..|steps|] == steps;
  }

  predicate Timely(steps: seq<Step>) {
    forall i | 0 < i < |steps| :: steps[i - 1].now <= steps[i].now
  }

  /** Whatever run these steps make, each is admissible where it comes. */
  ghost predicate AlwaysAdmissible(db: Db, steps: seq<Step>) {
    forall run: Run | IsRun(run) && run.states[0] == db && |run.steps| < |steps| && run.steps == steps[..|run.steps|] ::
      Admissible(run.states[|run.steps|], steps[|run.steps|])
  }
}
