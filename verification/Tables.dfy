/** The database as one value, its two logs, and the relations that say how far a handler reaches. */
module Tables {
  import opened Wrappers
  import opened Records
  import Cursor

  datatype Log = Log(audit: seq<AuditRow>, events: seq<EventRow>)
  datatype Fleet = Fleet(
    nodes: map<Id, seq<CapabilityItem>>, agents: map<AgentKey, AgentRow>, missions: map<Id, MissionRow>)
  datatype Board = Board(approvals: map<Id, ApprovalRow>, responses: seq<ResponseRow>, proposals: set<Id>)
  datatype Trust = Trust(
    pairings: map<Id, PairingRow>, devices: map<Id, DeviceRow>, tokens: map<Digest, TokenRow>,
    nonces: set<(Id, string)>, grants: seq<GrantRow>)
  datatype Desk = Desk(
    requests: map<Id, AssistanceRequestRow>, tua: map<Id, HandoffRow>, browser: map<Id, HandoffRow>,
    voice: map<Id, HandoffRow>, operators: map<Id, OperatorRow>)
  /** In memory only: `runtimes` is the terminal manager's map (is the process of that session running?),
      `sockets` are the open websockets. */
  datatype Terminals = Terminals(
    rows: map<Id, TuiRow>, attach: map<Digest, AttachRow>, runtimes: map<Id, bool>, sockets: map<Id, Socket>)
  datatype Db = Db(
    config: Config, log: Log, fleet: Fleet, board: Board, trust: Trust, desk: Desk, tui: Terminals)

  // ----- logs -----

  function LatestHash(rows: seq<AuditRow>): Option<Digest> {
    if rows == [] then None else Some(rows[|rows| - 1].hash)
  }

  /** Every row hashes its own content, which names the hash of the row before it. */
  ghost predicate Chained(hash: AuditContent -> Digest, rows: seq<AuditRow>) {
    forall i | 0 <= i < |rows| :: Linked(hash, rows, i)
  }

  ghost predicate Linked(hash: AuditContent -> Digest, rows: seq<AuditRow>, i: nat)
    requires i < |rows|
  {
    rows[i].hash == hash(rows[i].content) && rows[i].content.previousHash == LatestHash(rows[..i])
  }

  lemma ChainGrows(hash: AuditContent -> Digest, rows: seq<AuditRow>, row: AuditRow)
    requires Chained(hash, rows)
    requires row.hash == hash(row.content) && row.content.previousHash == LatestHash(rows)
    ensures Chained(hash, rows + [row])
  {
    var all := rows + [row];
    forall i | 0 <= i < |all|
      ensures Linked(hash, all, i)
    {
      if i < |rows| {
        assert Linked(hash, rows, i);
        assert all[..i] == rows[..i];
      } else {
        assert all[..i] == rows;
      }
    }
  }

  /** Sequences count up from one and every cursor is the printed sequence. */
  ghost predicate Numbered(rows: seq<EventRow>) {
    forall i | 0 <= i < |rows| ::
      rows[i].sequence == i + 1 && rows[i].cursor == Cursor.Print(rows[i].nodeId, i + 1)
  }

  ghost predicate LogOk(db: Db) {
    Chained(db.config.contentHash, db.log.audit) && Numbered(db.log.events)
  }

  /** What every handler does to the logs: it only appends, and keeps them well formed. */
  ghost predicate Extends(a: Db, b: Db) {
    && a.config == b.config
    && a.log.audit <= b.log.audit
    && a.log.events <= b.log.events
    && (LogOk(a) ==> LogOk(b))
  }

  /** Nothing journalled happened: no clearance, agent or mission changed, and only neutral rows
      were appended to the logs. */
  ghost predicate Quiet(a: Db, b: Db) {
    && Extends(a, b)
    && a.board.approvals == b.board.approvals
    && a.fleet.agents == b.fleet.agents
    && a.fleet.missions == b.fleet.missions
    && (forall i | |a.log.audit| <= i < |b.log.audit| :: !b.log.audit[i].content.kind.Settles())
    && (forall i | |a.log.events| <= i < |b.log.events| :: b.log.events[i].payload.Note?)
  }

  function AuditRowFor(db: Db, e: AuditEntry): AuditRow {
    var stamp := db.config.stamp(|db.log.audit|);
    var content := AuditContent(stamp.auditEventId, e.kind, e.actorType, e.actorId, e.nodeId,
                                Or(e.requestId, stamp.requestId), LatestHash(db.log.audit), e.payload, stamp.createdAt);
    AuditRow(content, e.refs, db.config.contentHash(content))
  }

  function AppendAudit(db: Db, e: AuditEntry): (r: Db)
    ensures Extends(db, r)
    ensures !e.kind.Settles() ==> Quiet(db, r)
  {
    var rows := db.log.audit + [AuditRowFor(db, e)];
    assert LogOk(db) ==> Chained(db.config.contentHash, rows) by {
      if LogOk(db) {
        ChainGrows(db.config.contentHash, db.log.audit, AuditRowFor(db, e));
      }
    }
    db.(log := db.log.(audit := rows))
  }

  function EventRowFor(db: Db, nodeId: Id, payload: EventPayload): EventRow {
    var sequence := |db.log.events| + 1;
    EventRow(sequence, Cursor.Print(nodeId, sequence), nodeId, payload)
  }

  function CreateEvent(db: Db, nodeId: Id, payload: EventPayload): (r: Db)
    ensures Extends(db, r)
    ensures payload.Note? ==> Quiet(db, r)
  {
    db.(log := db.log.(events := db.log.events + [EventRowFor(db, nodeId, payload)]))
  }

  function NoRefs(): AuditRefs {
    AuditRefs(None, None, None)
  }

  function RefsOf(agentId: Id, sessionId: Option<Id>, approvalId: Option<Id>): AuditRefs {
    AuditRefs(Some(agentId), sessionId, approvalId)
  }

  // ----- rows of the clearance table -----

  function PutApproval(db: Db, id: Id, row: ApprovalRow): Db {
    db.(board := db.board.(approvals := db.board.approvals[id := row]))
  }

  /** UPDATE approval_requests ... WHERE approval_id = id. */
  function Resolve(db: Db, id: Id, state: ApprovalState, scope: Option<Scope>, actor: Option<Id>,
                   metadata: Metadata, now: Time): Db
  {
    if id in db.board.approvals then
      PutApproval(db, id, db.board.approvals[id].(
        state := state, scope := scope, actor := actor, metadata := metadata, decidedAt := Some(now)))
    else db
  }

  function PutAgent(db: Db, key: AgentKey, row: AgentRow): Db {
    db.(fleet := db.fleet.(agents := db.fleet.agents[key := row]))
  }

  function PutMission(db: Db, id: Id, row: MissionRow): Db {
    db.(fleet := db.fleet.(missions := db.fleet.missions[id := row]))
  }
}
