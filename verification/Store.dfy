/** The gateway's store as the code keeps it: one mutable table per field, changed in place. Every
    method is proved against the function on database values that specifies it, so what is proved of
    those functions holds of the tables. */
module Store {
  import opened Wrappers
  import opened Records
  import opened Tables
  import Cursor
  import Fleet
  import Signing
  import Capabilities
  import Approvals
  import Devices
  import Handoffs
  import TerminalSessions

  class SQLiteStore {
    const config: Config
    var auditEvents: seq<AuditRow>
    var eventEnvelopes: seq<EventRow>
    var nodes: map<Id, seq<CapabilityItem>>
    var agents: map<AgentKey, AgentRow>
    var missions: map<Id, MissionRow>
    var approvals: map<Id, ApprovalRow>
    var responses: seq<ResponseRow>
    var proposals: set<Id>
    var pairings: map<Id, PairingRow>
    var devices: map<Id, DeviceRow>
    var tokens: map<Digest, TokenRow>
    var nonces: set<(Id, string)>
    var grants: seq<GrantRow>
    var requests: map<Id, AssistanceRequestRow>
    var tua: map<Id, HandoffRow>
    var browser: map<Id, HandoffRow>
    var voice: map<Id, HandoffRow>
    var operators: map<Id, OperatorRow>
    var tuiSessions: map<Id, TuiRow>
    var attachTokens: map<Digest, AttachRow>
    /** What the terminal manager holds in memory beside the tables: it keeps this copy up to date. */
    ghost var processes: map<Id, bool>
    ghost var openSockets: map<Id, Socket>

    /** The gateway's state as one value. */
    ghost function Contents(): Db
      reads this
    {
      Db(config, Log(auditEvents, eventEnvelopes), Tables.Fleet(nodes, agents, missions),
         Board(approvals, responses, proposals), Trust(pairings, devices, tokens, nonces, grants),
         Desk(requests, tua, browser, voice, operators), Terminals(tuiSessions, attachTokens, processes, openSockets))
    }

    constructor (config: Config)
      ensures Contents() == Fleet.EmptyDb(config)
    {
      this.config := config;
      auditEvents, eventEnvelopes := [], [];
      nodes, agents, missions := map[], map[], map[];
      approvals, responses, proposals := map[], [], {};
      pairings, devices, tokens, nonces, grants := map[], map[], map[], {}, [];
      requests, tua, browser, voice, operators := map[], map[], map[], map[], map[];
      tuiSessions, attachTokens, processes, openSockets := map[], map[], map[], map[];
    }

    // ----- logs -----

    method LatestAuditHash() returns (hash: Option<Digest>)
      ensures hash == LatestHash(auditEvents)
    {
      hash := None;
      if auditEvents != [] {
        hash := Some(auditEvents[|auditEvents| - 1].hash);
      }
    }

    method AppendAuditEvent(e: AuditEntry) returns (row: AuditRow)
      modifies this
      ensures Contents() == AppendAudit(old(Contents()), e)
      ensures auditEvents == old(auditEvents) + [row]
    {
      var stamp := config.stamp(|auditEvents|);
      var previousHash := LatestAuditHash();
      var content := AuditContent(stamp.auditEventId, e.kind, e.actorType, e.actorId, e.nodeId,
                                  Or(e.requestId, stamp.requestId),
                                  previousHash, e.payload, stamp.createdAt);
      row := AuditRow(content, e.refs, config.contentHash(content));
      auditEvents := auditEvents + [row];
    }

    /** The row is inserted under the next sequence first, and its cursor filled in afterwards. */
    method CreateEvent(nodeId: Id, payload: EventPayload)
      modifies this
      ensures Contents() == Tables.CreateEvent(old(Contents()), nodeId, payload)
    {
      var sequence := |eventEnvelopes| + 1;
      eventEnvelopes := eventEnvelopes + [EventRow(sequence, "", nodeId, payload)];
      var cursor := Cursor.Print(nodeId, sequence);
      eventEnvelopes := eventEnvelopes[sequence - 1 := eventEnvelopes[sequence - 1].(cursor := cursor)];
    }

    // ----- fleet -----

    method UpsertAgent(key: AgentKey, row: AgentRow)
      modifies this
      ensures Contents() == PutAgent(old(Contents()), key, row)
    {
      agents := agents[key := row];
    }

    method UpsertNode(id: Id, capabilities: seq<CapabilityItem>)
      modifies this
      ensures Contents() == old(Contents()).(fleet := old(Contents()).fleet.(nodes := old(nodes)[id := capabilities]))
    {
      nodes := nodes[id := capabilities];
    }

    method UpsertMission(id: Id, row: MissionRow)
      modifies this
      ensures Contents() == PutMission(old(Contents()), id, row)
    {
      missions := missions[id := row];
    }

    // ----- clearances -----

    method CreateApproval(id: Id, row: ApprovalRow)
      modifies this
      ensures Contents() == PutApproval(old(Contents()), id, row)
    {
      approvals := approvals[id := row];
    }

    method ResolveApproval(id: Id, state: ApprovalState, scope: Option<Scope>, actor: Option<Id>, metadata: Metadata,
                           now: Time)
      modifies this
      ensures Contents() == Resolve(old(Contents()), id, state, scope, actor, metadata, now)
    {
      if id in approvals {
        approvals := approvals[id := approvals[id].(
          state := state, scope := scope, actor := actor, metadata := metadata, decidedAt := Some(now))];
      }
    }

    method CreateApprovalResponse(row: ResponseRow)
      modifies this
      ensures Contents() == Approvals.AddResponse(old(Contents()), row)
    {
      responses := responses + [row];
    }

    method CreateApprovalPolicyProposal(id: Id)
      modifies this
      ensures Contents() == Approvals.AddProposal(old(Contents()), id)
    {
      proposals := proposals + {id};
    }

    // ----- device trust -----

    /** The primary key of the nonce table makes a second insert fail. */
    method RecordRequestNonce(deviceId: Id, nonce: string) returns (recorded: bool)
      modifies this
      ensures recorded == ((deviceId, nonce) !in old(nonces))
      ensures Contents() == if recorded then Signing.RecordNonce(old(Contents()), (deviceId, nonce))
                else old(Contents())
    {
      recorded := (deviceId, nonce) !in nonces;
      if recorded {
        nonces := nonces + {(deviceId, nonce)};
      }
    }

    method CreatePairingSession(id: Id, row: PairingRow)
      modifies this
      ensures Contents() == Devices.PutPairing(old(Contents()), id, row)
    {
      pairings := pairings[id := row];
    }

    method SetPairingStatus(id: Id, status: PairingStatus)
      modifies this
      ensures Contents() == if id in old(pairings)
                then Devices.PutPairing(old(Contents()), id, old(pairings)[id].(status := status))
                            else old(Contents())
    {
      if id in pairings {
        pairings := pairings[id := pairings[id].(status := status)];
      }
    }

    method CreateDevice(id: Id, row: DeviceRow)
      modifies this
      ensures Contents() == Devices.PutDevice(old(Contents()), id, row)
    {
      devices := devices[id := row];
    }

    method CreateAuthToken(token: string, tokenType: TokenType, deviceId: Id, ttl: int, now: Time)
      modifies this
      ensures Contents() == Devices.PutToken(old(Contents()), token,
                                             TokenRow(tokenType, deviceId, now + ttl * SECOND, None))
    {
      tokens := tokens[config.tokenHash(token) := TokenRow(tokenType, deviceId, now + ttl * SECOND, None)];
    }

    /** A join of token and device, then a second look at the token's expiry. */
    method VerifyAccessToken(token: string, now: Time) returns (deviceId: Option<Id>)
      ensures deviceId.Some? <==> Devices.TokenAccepted(Contents(), token, Access, now)
      ensures deviceId.Some? ==> deviceId.value == tokens[config.tokenHash(token)].deviceId
    {
      var hash := config.tokenHash(token);
      if hash !in tokens || tokens[hash].tokenType != Access || tokens[hash].revokedAt.Some? {
        return None;
      }
      var row := tokens[hash];
      if row.deviceId !in devices || devices[row.deviceId].status != DeviceActive {
        return None;
      }
      if row.expiresAt <= now {
        return None;
      }
      deviceId := Some(row.deviceId);
    }

    method VerifyRefreshToken(token: string, now: Time) returns (deviceId: Option<Id>)
      ensures deviceId.Some? <==> Devices.TokenAccepted(Contents(), token, Refresh, now)
      ensures deviceId.Some? ==> deviceId.value == tokens[config.tokenHash(token)].deviceId
    {
      var hash := config.tokenHash(token);
      if hash !in tokens || tokens[hash].tokenType != Refresh {
        return None;
      }
      var row := tokens[hash];
      if row.revokedAt.Some? || row.expiresAt <= now {
        return None;
      }
      if row.deviceId !in devices || devices[row.deviceId].status != DeviceActive {
        return None;
      }
      deviceId := Some(row.deviceId);
    }

    method RevokeDevice(id: Id, now: Time) returns (found: bool)
      modifies this
      ensures found == (id in old(devices))
      ensures Contents() == Devices.RevokeRows(old(Contents()), id, now)
    {
      found := id in devices;
      if found {
        devices := devices[id := devices[id].(status := DeviceRevoked)];
      }
      tokens := map hash | hash in tokens ::
        if tokens[hash].deviceId == id then tokens[hash].(revokedAt := Some(now)) else tokens[hash];
    }

    method CreateCapabilityGrant(grant: GrantRow)
      modifies this
      ensures Contents() == Capabilities.AddGrant(old(Contents()), grant)
    {
      grants := grants + [grant];
    }

    /** The grants of one subject and capability that are in state granted. */
    function GrantsListed(q: Capabilities.Question): (listed: seq<GrantRow>)
      reads this
      ensures forall g :: g in listed <==> g in grants && Capabilities.Listed(g, q)
    {
      Listing(grants, q)
    }

    static function Listing(rows: seq<GrantRow>, q: Capabilities.Question): (listed: seq<GrantRow>)
      ensures forall g :: g in listed <==> g in rows && Capabilities.Listed(g, q)
    {
      if rows == [] then []
      else
        var rest := Listing(rows[..|rows| - 1], q);
        assert rows == rows[..|rows| - 1] + [rows[|rows| - 1]];
        if Capabilities.Listed(rows[|rows| - 1], q) then [rows[|rows| - 1]] + rest else rest
    }

    /** The scan skips grants of another node or agent and expired ones, and stops at the first that
        is left: it succeeds exactly when a matching grant exists. */
    method HasActiveCapabilityGrant(q: Capabilities.Question, now: Time) returns (active: bool)
      ensures active <==> Capabilities.HasGrant(grants, q, now)
    {
      var listed := GrantsListed(q);
      for i := 0 to |listed|
        invariant forall k | 0 <= k < i :: !Capabilities.Answers(listed[k], q, now)
      {
        var grant := listed[i];
        if grant.nodeId != q.nodeId {
          continue;
        }
        if Given(grant.agentId) && Given(q.agentId) && grant.agentId.value != q.agentId.value {
          continue;
        }
        if grant.expiresAt.Some? && grant.expiresAt.value <= now {
          continue;
        }
        assert grant in grants && Capabilities.Answers(grant, q, now);
        return true;
      }
      forall g | g in grants
        ensures !Capabilities.Answers(g, q, now)
      {
        if Capabilities.Listed(g, q) {
          assert g in listed;
        }
      }
      return false;
    }

    // ----- operator handoffs -----

    method CreateAssistanceRequest(id: Id, row: AssistanceRequestRow)
      modifies this
      ensures Contents() == old(Contents()).(desk := old(Contents()).desk.(requests := old(requests)[id := row]))
    {
      requests := requests[id := row];
    }

    /** Creating the session also marks its request as active. */
    method CreateAssistanceSession(id: Id, requestId: Id, row: HandoffRow)
      requires requestId in requests
      modifies this
      ensures var marked := old(requests)[requestId := old(requests)[requestId].(state := Active)];
              Contents() == Handoffs.PutSession(old(Contents()).(desk := old(Contents()).desk.(requests := marked)),
                                                Tua, id, row)
    {
      tua := tua[id := row];
      requests := requests[requestId := requests[requestId].(state := Active)];
    }

    method CreateBrowserAssistanceSession(id: Id, row: HandoffRow)
      modifies this
      ensures Contents() == Handoffs.PutSession(old(Contents()), Browser, id, row)
    {
      browser := browser[id := row];
    }

    method CreateVoiceSession(id: Id, row: HandoffRow)
      modifies this
      ensures Contents() == Handoffs.PutSession(old(Contents()), Voice, id, row)
    {
      voice := voice[id := row];
    }

    method UpdateAssistanceSessionState(id: Id, state: SessionState, summary: Option<string>, now: Time)
      requires id in tua
      modifies this
      ensures Contents() == Handoffs.PutSession(old(Contents()), Tua, id,
                                                Handoffs.UpdatedSession(Tua, old(tua)[id], state, summary, now))
    {
      var returnedAt := if state == ReturnedToAgent then Some(now) else None;
      var closedAt := if state == Closed || state == Withdrawn then Some(now) else None;
      var row := tua[id];
      tua := tua[id := row.(
        state := state, returnSummary := Coalesce(summary, row.returnSummary),
        returnedAt := Coalesce(returnedAt, row.returnedAt), closedAt := Coalesce(closedAt, row.closedAt))];
    }

    method UpdateBrowserAssistanceState(id: Id, state: SessionState, summary: Option<string>, now: Time)
      requires id in browser
      modifies this
      ensures Contents() == Handoffs.PutSession(old(Contents()), Browser, id,
                                                Handoffs.UpdatedSession(Browser, old(browser)[id], state, summary, now))
    {
      var returnedAt := if state == ReturnedToAgent then Some(now) else None;
      var closedAt := if state == Closed || state == Failed then Some(now) else None;
      var row := browser[id];
      browser := browser[id := row.(
        state := state, returnSummary := Coalesce(summary, row.returnSummary),
        returnedAt := Coalesce(returnedAt, row.returnedAt), closedAt := Coalesce(closedAt, row.closedAt))];
    }

    method AddBrowserAssistanceNote(id: Id, note: string)
      requires id in browser
      modifies this
      ensures var row := old(browser)[id];
              Contents() == Handoffs.PutSession(old(Contents()), Browser, id,
                                                row.(notes := row.notes + [note], state := UserControlling))
    {
      var notes := browser[id].notes + [note];
      browser := browser[id := browser[id].(notes := notes, state := UserControlling)];
    }

    method UpdateVoiceSessionState(id: Id, state: SessionState, now: Time)
      requires id in voice
      modifies this
      ensures Contents() == Handoffs.PutSession(old(Contents()), Voice, id,
                                                Handoffs.UpdatedSession(Voice, old(voice)[id], state, None, now))
    {
      var closedAt := if state == Closed then Some(now) else None;
      voice := voice[id := voice[id].(state := state, closedAt := Coalesce(closedAt, voice[id].closedAt))];
    }

    /** INSERT ... ON CONFLICT DO UPDATE: owner and summary are kept where the new row has none. */
    method CreateOperatorSession(id: Id, row: OperatorRow)
      modifies this
      ensures Contents() == Handoffs.CreateOperator(old(Contents()), id, row)
    {
      if id in operators {
        operators := operators[id := row.(
          owner := Coalesce(row.owner, operators[id].owner),
              returnSummary := Coalesce(row.returnSummary, operators[id].returnSummary))];
      } else {
        operators := operators[id := row];
      }
    }

    method UpdateOperatorSessionState(id: Id, state: SessionState, owner: Option<Id>, summary: Option<string>)
        returns (found: bool)
      modifies this
      ensures found == (id in old(operators))
      ensures Contents() == Handoffs.UpdateOperatorIfExists(old(Contents()), id, state, owner, summary)
    {
      found := id in operators;
      if found {
        operators := operators[id := operators[id].(
          state := state, owner := Coalesce(owner, operators[id].owner),
              returnSummary := Coalesce(summary, operators[id].returnSummary))];
      }
    }

    // ----- terminals -----

    method CreateTuiSession(id: Id, row: TuiRow)
      modifies this
      ensures Contents() == TerminalSessions.PutTui(old(Contents()), id, row)
    {
      tuiSessions := tuiSessions[id := row];
    }

    /** An update of a missing row writes nothing, and then raises. */
    method UpdateTuiSessionState(id: Id, state: SessionState, now: Time) returns (found: bool)
      modifies this
      ensures found == (id in old(tuiSessions))
      ensures Contents() == TerminalSessions.UpdateTui(old(Contents()), id, state, now)
    {
      var closedAt := if state == Closed || state == Failed then Some(now) else None;
      found := id in tuiSessions;
      if found {
        tuiSessions := tuiSessions[id := tuiSessions[id].(
          state := state, lastActivityAt := now, closedAt := Coalesce(closedAt, tuiSessions[id].closedAt))];
      }
    }

    method TouchTuiSession(id: Id, now: Time)
      modifies this
      ensures Contents() == TerminalSessions.TouchTui(old(Contents()), id, now)
    {
      if id in tuiSessions {
        tuiSessions := tuiSessions[id := tuiSessions[id].(lastActivityAt := now)];
      }
    }

    method AddTuiAuditRef(id: Id, auditEventId: Id)
      requires id in tuiSessions
      requires auditEvents != [] && auditEventId == auditEvents[|auditEvents| - 1].content.auditEventId
      modifies this
      ensures Contents() == TerminalSessions.AddAuditRef(old(Contents()), id)
    {
      var refs := tuiSessions[id].auditRefs + [auditEventId];
      tuiSessions := tuiSessions[id := tuiSessions[id].(auditRefs := refs)];
    }

    method CreateTuiAttachToken(token: string, row: AttachRow)
      modifies this
      ensures Contents() ==
                old(Contents()).(tui :=
                                 old(Contents()).tui.(attach := old(attachTokens)[config.tokenHash(token) := row]))
    {
      attachTokens := attachTokens[config.tokenHash(token) := row];
    }

    /** A readable token is stamped on every use. */
    method VerifyTuiAttachToken(token: string, now: Time) returns (attach: Option<AttachRow>)
      modifies this
      ensures attach.Some? <==>
                config.tokenHash(token) in old(attachTokens)
                    && now < old(attachTokens)[config.tokenHash(token)].expiresAt
      ensures attach.Some? ==> attach.value == old(attachTokens)[config.tokenHash(token)]
      ensures Contents() ==
              if attach.None? then old(Contents())
              else old(Contents()).(tui := old(Contents()).tui.(
                     attach := old(attachTokens)[config.tokenHash(token) := attach.value.(usedAt := Some(now))]))
    {
      var hash := config.tokenHash(token);
      if hash !in attachTokens {
        return None;
      }
      var row := attachTokens[hash];
      if row.expiresAt <= now {
        return None;
      }
      attachTokens := attachTokens[hash := row.(usedAt := Some(now))];
      attach := Some(row);
    }
  }
}
