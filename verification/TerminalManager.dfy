/** The terminal manager: its in-memory map of processes beside the store's rows, changed in place. */
module TerminalManager {
  import opened Wrappers
  import opened Records
  import opened Tables
  import opened Store
  import opened TerminalSessions
  import Handlers

  class LocalPtyManager {
    const store: SQLiteStore
    /** Is the process of the session running? Exited ones stay until their reader ends. */
    var sessions: map<Id, bool>
    /** The open websockets, which the code keeps as one coroutine each, with these two as its locals. */
    var sockets: map<Id, Socket>

    ghost predicate Valid()
      reads this, store
    {
      sessions == store.processes && sockets == store.openSockets
    }

    constructor (store: SQLiteStore)
      requires store.processes == map[] && store.openSockets == map[]
      ensures this.store == store && Valid() && store.Contents() == old(store.Contents())
    {
      this.store := store;
      sessions, sockets := map[], map[];
    }

    method Attach(id: Id, now: Time) returns (reply: Reply)
      requires Valid()
      modifies store
      ensures Valid()
      ensures (store.Contents(), reply) == if Running(old(store.Contents()), id)
                then (UpdateTui(old(store.Contents()), id, Active, now), Done)
                                           else (old(store.Contents()), Refused(410))
    {
      if id !in sessions || !sessions[id] {
        return Refused(410);
      }
      var _ := store.UpdateTuiSessionState(id, Active, now);
      reply := Done;
    }

    method Detach(id: Id, now: Time)
      requires Valid()
      modifies store
      ensures Valid() && store.Contents() == UpdateTui(old(store.Contents()), id, Detached, now)
    {
      var _ := store.UpdateTuiSessionState(id, Detached, now);
    }

    /** The map changes, and the store's ghost copy of it with it. */
    method SetSessions(now: map<Id, bool>)
      requires Valid()
      modifies this, store
      ensures Valid() && store.Contents() == SetRuntimes(old(store.Contents()), now) && sockets == old(sockets)
    {
      sessions := now;
      store.processes := now;
    }

    method SetSockets(now: map<Id, Socket>)
      requires Valid()
      modifies this, store
      ensures Valid() && store.Contents() == TerminalSessions.SetSockets(old(store.Contents()), now)
      ensures sessions == old(sessions)
    {
      sockets := now;
      store.openSockets := now;
    }

    method Close(id: Id, now: Time)
      requires Valid()
      modifies this, store
      ensures Valid() && store.Contents() == ManagerClose(old(store.Contents()), id, now)
    {
      SetSessions(sessions - {id});
      var _ := store.UpdateTuiSessionState(id, Closed, now);
    }

    /** Closing one session after a set of others is closing them all at once. */
    static lemma CloseOneMore(db: Db, ids: set<Id>, id: Id, now: Time)
      ensures ManagerClose(CloseThem(db, ids, now), id, now) == CloseThem(db, ids + {id}, now)
    {
      var one, all := ManagerClose(CloseThem(db, ids, now), id, now), CloseThem(db, ids + {id}, now);
      assert one.tui.runtimes == all.tui.runtimes;
      assert one.tui.rows == all.tui.rows;
    }

    static lemma CloseNone(db: Db, now: Time)
      ensures CloseThem(db, {}, now) == db
    {
      assert CloseThem(db, {}, now).tui.runtimes == db.tui.runtimes;
      assert CloseThem(db, {}, now).tui.rows == db.tui.rows;
    }

    /** The rows are read once, in any order; each idle one is closed in turn. */
    method CleanupIdleSessions(now: Time)
      requires Valid()
      modifies this, store
      ensures Valid() && store.Contents() == CleanupIdle(old(store.Contents()), now)
    {
      var rows, left := store.tuiSessions, store.tuiSessions.Keys;
      ghost var closed: set<Id> := {};
      CloseNone(store.Contents(), now);
      while left != {}
        invariant Valid() && left <= rows.Keys
        invariant closed == set id | id in rows && id !in left && Idle(old(store.Contents()), id, now)
        invariant store.Contents() == CloseThem(old(store.Contents()), closed, now)
        decreases left
      {
        var id :| id in left;
        left := left - {id};
        var row := rows[id];
        if row.state != Requested && row.state != Active && row.state != Detached {
          continue;
        }
        if now - row.lastActivityAt < store.config.tuiIdleTimeout * SECOND {
          continue;
        }
        Close(id, now);
        CloseOneMore(old(store.Contents()), closed, id, now);
        closed := closed + {id};
      }
      assert closed == set id | id in rows && Idle(old(store.Contents()), id, now);
    }

    /** At shutdown every process in memory is closed. */
    method CloseAll(now: Time)
      requires Valid()
      modifies this, store
      ensures Valid() && store.Contents() == Shutdown(old(store.Contents()), now)
    {
      var all := sessions.Keys;
      var left := all;
      CloseNone(store.Contents(), now);
      while left != {}
        invariant Valid() && left <= all
        invariant store.Contents() == CloseThem(old(store.Contents()), all - left, now)
        decreases left
      {
        var id :| id in left;
        Close(id, now);
        CloseOneMore(old(store.Contents()), all - left, id, now);
        assert all - left + {id} == all - (left - {id});
        left := left - {id};
      }
      assert all - left == all;
    }

    method ProcessExited(id: Id)
      requires Valid()
      modifies this, store
      ensures Valid() && store.Contents() == ProcessExit(old(store.Contents()), id)
    {
      if id in sessions {
        SetSessions(sessions[id := false]);
      }
    }

    /** The end of a reader, which waits for its process to exit. */
    method EndOfOutput(id: Id, now: Time)
      requires Valid()
      modifies this, store
      ensures Valid() && store.Contents() == ReaderEnd(old(store.Contents()), id, now)
    {
      if id !in sessions || sessions[id] {
        return;
      }
      SetSessions(sessions - {id});
      if id !in store.tuiSessions {
        return;
      }
      var state := store.tuiSessions[id].state;
      if IsOpen(state) {
        var _ := store.UpdateTuiSessionState(id, Closed, now);
      }
    }
  }

  // ----- app.py -----

  method RecordTuiStateChange(store: SQLiteStore, id: Id, closing: bool, deviceId: Id, header: Option<string>,
                              now: Time)
    requires id in store.tuiSessions
    modifies store
    ensures store.Contents() == RecordStateChange(old(store.Contents()), id, closing, deviceId, header, now)
  {
    var state := if closing then Closed else Detached;
    var row := store.tuiSessions[id];
    var _ := store.UpdateTuiSessionState(id, state, now);
    var _ := store.UpdateOperatorSessionState(id, state, Some(deviceId), None);
    var audit := store.AppendAuditEvent(
      TuiEntry(row, id, if closing then "closed" else "detached", deviceId, StateDetails(state), header));
    store.AddTuiAuditRef(id, audit.content.auditEventId);
    store.CreateEvent(row.nodeId, Note("tui.session.state", id));
  }

  method DetachTuiSession(m: LocalPtyManager, device: VerifiedDevice, id: Id, header: Option<string>, now: Time)
      returns (reply: Reply)
    requires m.Valid()
    modifies m.store
    ensures m.Valid()
    ensures (m.store.Contents(), reply) == DetachTui(old(m.store.Contents()), device, id, header, now)
  {
    if id !in m.store.tuiSessions {
      return Refused(404);
    }
    if m.store.tuiSessions[id].deviceId != device.deviceId {
      return Refused(403);
    }
    if !IsOpen(m.store.tuiSessions[id].state) {
      return Refused(409);
    }
    m.Detach(id, now);
    RecordTuiStateChange(m.store, id, false, device.deviceId, header, now);
    reply := Done;
  }

  method GetTuiSession(m: LocalPtyManager, device: VerifiedDevice, id: Id, now: Time) returns (reply: Reply)
    requires m.Valid()
    modifies m, m.store
    ensures m.Valid()
    ensures (m.store.Contents(), reply) == ReadTui(old(m.store.Contents()), device, id, now)
  {
    m.CleanupIdleSessions(now);
    if id !in m.store.tuiSessions {
      return Refused(404);
    }
    if m.store.tuiSessions[id].deviceId != device.deviceId {
      return Refused(403);
    }
    reply := Done;
  }

  method CloseTuiSession(m: LocalPtyManager, device: VerifiedDevice, id: Id, header: Option<string>, now: Time)
      returns (reply: Reply)
    requires m.Valid()
    modifies m, m.store
    ensures m.Valid()
    ensures (m.store.Contents(), reply) == CloseTui(old(m.store.Contents()), device, id, header, now)
  {
    if id !in m.store.tuiSessions {
      return Refused(404);
    }
    if m.store.tuiSessions[id].deviceId != device.deviceId {
      return Refused(403);
    }
    if m.store.tuiSessions[id].state == Closed {
      return Done;
    }
    m.Close(id, now);
    RecordTuiStateChange(m.store, id, true, device.deviceId, header, now);
    reply := Done;
  }

  /** From the created row on: process, audit row, operator row, event; `failure` is what the attempt
      to start the process came to. */
  method StartTuiSession(m: LocalPtyManager, deviceId: Id, nodeId: Id, q: TuiRequest, header: Option<string>,
                         now: Time) returns (reply: Reply)
    requires m.Valid()
    requires q.id !in m.store.tuiSessions && q.id !in m.sessions
    modifies m, m.store
    ensures m.Valid()
    ensures (m.store.Contents(), reply) == StartTui(old(m.store.Contents()), deviceId, nodeId, q, header, now)
  {
    var row := TuiRow(q.agentId, nodeId, deviceId, Requested, now, None, []);
    m.store.CreateTuiSession(q.id, row);
    if q.failure.Some? {
      var _ := m.store.UpdateTuiSessionState(q.id, Failed, now);
      return Refused(q.failure.value);
    }
    m.SetSessions(m.sessions[q.id := true]);
    var _ := m.store.UpdateTuiSessionState(q.id, Active, now);
    var entry := TuiEntry(row, q.id, "created", deviceId, About(q.command), header);
    var audit := m.store.AppendAuditEvent(entry);
    m.store.AddTuiAuditRef(q.id, audit.content.auditEventId);
    var operator := OperatorRow(Terminal, q.agentId, Active, Some(deviceId), None);
    m.store.CreateOperatorSession(q.id, operator);
    m.store.CreateEvent(nodeId, Note("tui.session.state", q.id));
    reply := Done;
  }

  method CreateTuiSession(m: LocalPtyManager, device: VerifiedDevice, q: TuiRequest, header: Option<string>, now: Time)
      returns (reply: Reply)
    requires m.Valid()
    requires q.id !in m.store.tuiSessions && q.id !in m.sessions
    modifies m, m.store
    ensures m.Valid()
    ensures (m.store.Contents(), reply) == CreateTui(old(m.store.Contents()), device, q, header, now)
  {
    var nodeId := Or(q.nodeId, m.store.config.nodeId);
    var granted := Handlers.RequireDeviceCapability(m.store, device, TuiAccess, header, Some(nodeId), Some(q.agentId),
                                                    now);
    if !granted {
      return Refused(403);
    }
    m.CleanupIdleSessions(now);
    if |OpenIds(m.store.tuiSessions)| >= m.store.config.tuiMaxSessions {
      return Refused(429);
    }
    if q.problem.Some? {
      return Refused(q.problem.value);
    }
    var offered := TuiIsOffered(m.store, nodeId, q.agentId);
    if !offered {
      return Refused(403);
    }
    reply := StartTuiSession(m, device.deviceId, nodeId, q, header, now);
  }

  method TuiIsOffered(store: SQLiteStore, nodeId: Id, agentId: Id) returns (offered: bool)
    ensures offered == TuiOffered(store.Contents(), nodeId, agentId)
  {
    if nodeId !in store.nodes || AgentKey(nodeId, agentId) !in store.agents {
      return false;
    }
    offered := Handlers.RecordHasCapability(store, nodeId, agentId, TuiAccess);
  }

  // ----- websocket -----

  /** Token first, then the session, its owner, its state and its process. */
  method ConnectTui(m: LocalPtyManager, token: Option<string>, id: Id, socket: Id, now: Time) returns (reply: Reply)
    requires m.Valid()
    modifies m, m.store
    ensures m.Valid()
    ensures (m.store.Contents(), reply) == OpenSocket(old(m.store.Contents()), token, id, socket, now)
  {
    if !Given(token) {
      return Refused(1008);
    }
    var attach := m.store.VerifyTuiAttachToken(token.value, now);
    if attach.None? || id !in m.store.tuiSessions {
      return Refused(1008);
    }
    var row := m.store.tuiSessions[id];
    if attach.value.sessionId != id || row.deviceId != attach.value.deviceId {
      return Refused(1008);
    }
    if !IsOpen(row.state) || id !in m.sessions || !m.sessions[id] {
      return Refused(1008);
    }
    reply := m.Attach(id, now);
    m.SetSockets(m.sockets[socket := Socket(id, attach.value.deviceId)]);
  }

  /** Text typed or pasted: the row is touched unless the text is empty, and audited in any case. */
  method RecordInput(m: LocalPtyManager, id: Id, what: string, deviceId: Id, text: string, now: Time)
    requires m.Valid()
    requires id in m.store.tuiSessions
    modifies m.store
    ensures m.Valid()
    ensures var d1 := if text == "" then old(m.store.Contents()) else TouchTui(old(m.store.Contents()), id, now);
            m.store.Contents() ==
            AddAuditRef(AppendAudit(d1, TuiEntry(old(m.store.tuiSessions)[id], id, what, deviceId, Size(|text|),
                                                 None)), id)
  {
    var row := m.store.tuiSessions[id];
    if text != "" {
      m.store.TouchTuiSession(id, now);
    }
    var audit := m.store.AppendAuditEvent(TuiEntry(row, id, what, deviceId, Size(|text|), None));
    m.store.AddTuiAuditRef(id, audit.content.auditEventId);
  }

  /** What a frame does, if the process still runs. */
  method HandleTuiFrame(m: LocalPtyManager, id: Id, deviceId: Id, frame: Frame, now: Time) returns (reply: Reply)
    requires m.Valid()
    modifies m, m.store
    ensures m.Valid()
    ensures (m.store.Contents(), reply) == HandleFrame(old(m.store.Contents()), id, deviceId, frame, now)
  {
    if id !in m.sessions || !m.sessions[id] || id !in m.store.tuiSessions {
      return Refused(410);
    }
    match frame {
      case Ping =>
      case Unreadable =>
      case Resize(valid) =>
        if valid {
          m.store.TouchTuiSession(id, now);
        }
      case Input(text) => RecordInput(m, id, "input_sent", deviceId, text, now);
      case Paste(text) => RecordInput(m, id, "paste_sent", deviceId, text, now);
      case DetachFrame =>
        m.Detach(id, now);
        RecordTuiStateChange(m.store, id, false, deviceId, None, now);
      case CloseFrame =>
        m.Close(id, now);
        RecordTuiStateChange(m.store, id, true, deviceId, None, now);
      case Disconnect => m.Detach(id, now);
    }
    reply := Done;
  }

  /** One round of the socket loop. */
  method StreamRound(m: LocalPtyManager, socket: Id, frame: Frame, now: Time) returns (reply: Reply)
    requires m.Valid()
    modifies m, m.store
    ensures m.Valid()
    ensures (m.store.Contents(), reply) == SocketRound(old(m.store.Contents()), socket, frame, now)
  {
    if socket !in m.sockets {
      return Refused(1006);
    }
    var s := m.sockets[socket];
    reply := HandleTuiFrame(m, s.sessionId, s.deviceId, frame, now);
    if reply.Refused? || frame.Last() {
      m.SetSockets(m.sockets - {socket});
    }
  }

  method CreateAttachToken(m: LocalPtyManager, device: VerifiedDevice, id: Id, token: string, header: Option<string>,
                           now: Time)
      returns (reply: Reply)
    requires m.Valid()
    modifies m.store
    ensures m.Valid()
    ensures (m.store.Contents(), reply) == TerminalSessions.CreateAttachToken(old(m.store.Contents()), device, id,
              token, header, now)
  {
    var granted := Handlers.RequireDeviceCapability(m.store, device, TuiAccess, header, None, None, now);
    if !granted {
      return Refused(403);
    }
    if id !in m.store.tuiSessions {
      return Refused(404);
    }
    var row := m.store.tuiSessions[id];
    if row.deviceId != device.deviceId {
      return Refused(403);
    }
    if !IsOpen(row.state) {
      return Refused(409);
    }
    m.store.CreateTuiAttachToken(token, AttachRow(id, device.deviceId, now + m.store.config.tuiAttachTtl * SECOND,
                                                  None));
    var _ := m.store.AppendAuditEvent(TuiEntry(row, id, "attach_token_created", device.deviceId, Empty, header));
    reply := Done;
  }
}
