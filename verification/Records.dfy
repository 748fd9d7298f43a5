/** The gateway's rows. Times are microseconds; JSON columns that carry no decision are dropped. */
module Records {
  import opened Wrappers
  import opened Base64Url

  type Id = string
  type Time = int
  type Digest = string

  const SECOND: int := 1_000_000

  // ----- clearances -----

  datatype ApprovalState = Pending | Approved | Denied | Expired | Cancelled
  datatype Scope = Once | ForSession | ForAgent | Permanent
  datatype Decision = Approve | Deny
  datatype SettleReason = ExpiryScan | RuntimeResultPoll | DecisionAfterExpiry | RuntimeCancelled
  datatype Metadata =
    | NoMetadata
    | Decided(decision: Option<Decision>, state: ApprovalState)
    | Because(reason: SettleReason)

  datatype ApprovalRow = ApprovalRow(
    nodeId: Id, agentId: Id, sessionId: Id, requestedTool: string, riskLevel: string, expiresAt: Time,
    state: ApprovalState, scope: Option<Scope>, actor: Option<Id>, metadata: Metadata, decidedAt: Option<Time>)

  datatype ResponseType = ApproveOnce | ApproveSession | ApproveAgent | DenyOnce | Modified | NeedsInfo | ProposePolicy
  datatype ResponseRow = ResponseRow(
    responseId: Id, approvalId: Id, responseType: ResponseType, deviceId: Id, proposalId: Option<Id>)

  // ----- fleet -----

  datatype CapabilityItem = CapabilityItem(name: string, available: bool)
  datatype AgentKey = AgentKey(nodeId: Id, agentId: Id)
  datatype AgentRow = AgentRow(
    displayName: string, status: string, activeSessionId: Option<Id>, currentTool: Option<string>,
    currentTarget: Option<string>, capabilities: seq<CapabilityItem>)
  datatype MissionRow = MissionRow(nodeId: Id, agentId: Id, sessionId: Option<Id>, state: string)

  // ----- device trust -----

  datatype Permission = ReadState | Chat | MayApprove | Intervene | ManageDevices | UseVoice | UseTui | BrowserAssist
  datatype Capability = Approvals | TuiAccess | TuaAccess | BrowserAccess | VoiceAccess | Notifications
  datatype DeviceStatus = DeviceActive | DeviceRevoked
  datatype DeviceRow = DeviceRow(nodeId: Id, publicKey: string, status: DeviceStatus, permissions: set<Permission>)
  datatype TokenType = Access | Refresh
  datatype TokenRow = TokenRow(tokenType: TokenType, deviceId: Id, expiresAt: Time, revokedAt: Option<Time>)
  datatype PairingStatus = PairingPending | PairingCompleted | PairingExpired
  datatype PairingRow = PairingRow(
    tokenHash: Digest, status: PairingStatus, nodeId: Id, permissions: set<Permission>, expiresAt: Time)
  datatype SubjectType = DeviceSubject | AgentSubject | NodeSubject | RuntimeSubject
  datatype GrantRow = GrantRow(
    subjectType: SubjectType, subjectId: Id, capability: Capability, nodeId: Id, agentId: Option<Id>,
    granted: bool, expiresAt: Option<Time>)
  datatype VerifiedDevice = VerifiedDevice(deviceId: Id, nodeId: Id, permissions: set<Permission>)

  // ----- operator handoffs and terminals -----

  datatype SessionState =
    Requested | Active | Detached | UserControlling | ReturnedToAgent | Closed | Withdrawn | Failed
  datatype HandoffKind = Tua | Browser | Voice
  datatype HandoffRow = HandoffRow(
    nodeId: Id, agentId: Id, state: SessionState, returnSummary: Option<string>, notes: seq<string>,
    returnedAt: Option<Time>, closedAt: Option<Time>)
  datatype AssistanceRequestRow = AssistanceRequestRow(nodeId: Id, agentId: Id, sessionId: Id, state: SessionState)
  datatype OperatorKind = Handoff(kind: HandoffKind) | Terminal
  datatype OperatorRow = OperatorRow(
    kind: OperatorKind, agentId: Id, state: SessionState, owner: Option<Id>, returnSummary: Option<string>)
  datatype TuiRow = TuiRow(
    agentId: Id, nodeId: Id, deviceId: Id, state: SessionState, lastActivityAt: Time, closedAt: Option<Time>,
    auditRefs: seq<Id>)
  datatype AttachRow = AttachRow(sessionId: Id, deviceId: Id, expiresAt: Time, usedAt: Option<Time>)
  /** An attached websocket: the terminal it drives, in the name of the device that holds its token. */
  datatype Socket = Socket(sessionId: Id, deviceId: Id)

  // ----- logs -----

  datatype AuditKind =
    | SignatureFailed | CapabilityDenied | LocalCallerRejected
    | PairingStarted | PairingRejected | DeviceRegistered | DeviceRevocation
    | ClearanceRequested | ClearanceDecision | ClearanceExpired | ClearanceCancelled | ClearanceResponse
    | ContextRegistered | HandoffAudit(kind: HandoffKind, what: string) | TuiAudit(what: string)
    | OtherAudit(name: string)
  {
    /** The three kinds that record how a clearance ended. */
    predicate Settles() {
      ClearanceDecision? || ClearanceExpired? || ClearanceCancelled?
    }
  }

  datatype FailureReason =
    | MissingHeaders | UnknownDevice | DeviceNotActive | InvalidTimestamp | OutsideWindow | InvalidSignature
    | ReplayedNonce

  datatype AuditPayload =
    | Empty
    | AuthFailure(failure: FailureReason, deviceId: Option<string>, verb: string, path: string,
                  nonceHash: Option<Digest>)
    | Denial(capability: Capability, onDevice: bool)
    | VerdictDetails(decision: Option<Decision>, scope: Option<Scope>, state: ApprovalState)
    | Reason(reason: SettleReason)
    | RequestDetails(tool: string, riskLevel: string)
    | ResponseDetails(responseType: ResponseType, constraintCount: nat, proposalId: Option<Id>)
    | PairingDetails(pairingId: Id, permissions: set<Permission>)
    | ContextDetails(missionId: Option<Id>, agentStatus: string, missionState: string)
    | StateDetails(sessionState: SessionState)
    | Size(count: nat)
    | About(subject: string)

  /** Exactly the columns that are hashed. */
  datatype AuditContent = AuditContent(
    auditEventId: Id, kind: AuditKind, actorType: string, actorId: Id, nodeId: Id, requestId: Id,
    previousHash: Option<Digest>, payload: AuditPayload, createdAt: Time)
  /** Columns stored beside the hash and not covered by it. */
  datatype AuditRefs = AuditRefs(agentId: Option<Id>, sessionId: Option<Id>, approvalId: Option<Id>)
  datatype AuditRow = AuditRow(content: AuditContent, refs: AuditRefs, hash: Digest)
  /** What a caller of the audit log supplies; no request id means a fresh one. */
  datatype AuditEntry = AuditEntry(
    kind: AuditKind, actorType: string, actorId: Id, nodeId: Id, requestId: Option<Id>,
    payload: AuditPayload, refs: AuditRefs)

  datatype EventPayload =
    | ApprovalRequested(approvalId: Id, riskLevel: string)
    | ApprovalResolved(approvalId: Id, state: ApprovalState, scope: Option<Scope>)
    | MissionChanged(missionId: Id, missionState: string)
    | AgentStatus(agentId: Id, status: string)
    | Note(name: string, subject: string)
  datatype EventRow = EventRow(sequence: nat, cursor: string, nodeId: Id, payload: EventPayload)

  // ----- settings and environment -----

  /** Fresh values drawn while the n-th audit row is written. */
  datatype AuditStamp = AuditStamp(auditEventId: Id, requestId: Id, createdAt: Time)

  /** Settings, and the hash and signature primitives as uninterpreted functions. */
  datatype Config = Config(
    nodeId: Id, pairingTtl: int, tuiMaxSessions: int, tuiIdleTimeout: int, tuiAttachTtl: int,
    contentHash: AuditContent -> Digest, textHash: string -> Digest, tokenHash: string -> Digest,
    sha256Hex: seq<Byte> -> string, ed25519: (seq<Byte>, seq<Byte>, string) -> bool,
    stamp: nat -> AuditStamp)

  // ----- answers -----

  datatype ApprovalView = ApprovalView(
    approvalId: Id, state: ApprovalState, selectedScope: Option<Scope>, metadata: Metadata,
    responses: seq<ResponseRow>)
  datatype Reply =
    | Done
    | Refused(code: nat)
    | Opened(approvalId: Id)
    | Settled(state: ApprovalState, scope: Option<Scope>)
    | Status(view: ApprovalView)
    | Page(events: seq<EventRow>, nextCursor: Option<string>)
    | Tokens(deviceId: Id)
}
