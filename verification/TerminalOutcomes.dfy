/** What each terminal route, frame and process event leaves, by constructor and with the states named. */
module TerminalOutcomes {
  import opened Wrappers
  import opened Records
  import opened Tables
  import opened TerminalSessions
  import opened Machine
  import Capabilities
  import Fleet
  import Paging
  import TerminalLifecycle
  import TrustOutcomes

  // ----- rows -----

  /** Requested, active and detached sessions are open, the other five states are not. */
  predicate Open(row: TuiRow) {
    row.state in {Requested, Active, Detached}
  }

  lemma OpenSpelled(row: TuiRow)
    ensures IsOpen(row.state) <==> Open(row)
  {
  }

  /** A row in a new state: the time is its last activity, and its closing time if it closed or failed. */
  function Moved(row: TuiRow, state: SessionState, now: Time): TuiRow {
    TuiRow(row.agentId, row.nodeId, row.deviceId, state, now,
           if state == Closed || state == Failed then Some(now) else row.closedAt, row.auditRefs)
  }

  function WithRow(t: Terminals, id: Id, row: TuiRow): Terminals {
    Terminals(t.rows[id := row], t.attach, t.runtimes, t.sockets)
  }

  /** Every open session whose last activity is the idle timeout or more ago. */
  predicate IsIdle(db: Db, id: Id, now: Time) {
    && id in db.tui.rows && Open(db.tui.rows[id])
    && now - db.tui.rows[id].lastActivityAt >= db.config.tuiIdleTimeout * 1_000_000
  }

  /** The terminals after an idle clean-up. */
  function Swept(db: Db, now: Time): Terminals {
    var idle := set id | id in db.tui.rows && IsIdle(db, id, now);
    Terminals(map id | id in db.tui.rows :: if id in idle then Moved(db.tui.rows[id], Closed, now) else db.tui.rows[id],
              db.tui.attach, db.tui.runtimes - idle, db.tui.sockets)
  }

  lemma CleanupLeaves(db: Db, now: Time)
    ensures CleanupIdle(db, now) == db.(tui := Swept(db, now))
  {
    var idle := set id | id in db.tui.rows && IsIdle(db, id, now);
    assert (set id | id in db.tui.rows && Idle(db, id, now)) == idle;
    assert CleanupIdle(db, now).tui.rows == Swept(db, now).rows;
  }

  lemma TwiceIsOnce<K, V>(m: map<K, V>, k: K, v: V, w: V)
    ensures m[k := v][k := w] == m[k := w]
  {
  }

  // ----- starting -----

  /** The audit row of a terminal, about its agent and session. */
  function Entry(row: TuiRow, id: Id, what: string, deviceId: Id, payload: AuditPayload,
                 header: Option<string>): AuditEntry {
    AuditEntry(TuiAudit(what), "device", deviceId, row.nodeId, header, payload,
               AuditRefs(Some(row.agentId), Some(id), None))
  }

  /** The id of the audit row last written. */
  function LastAuditId(db: Db): Id
    requires db.log.audit != []
  {
    db.log.audit[|db.log.audit| - 1].content.auditEventId
  }

  /** A start that succeeds: an active row of this device that names its audit row, a running process, an
      operator row, one audit row, one event. */
  lemma StartLeaves(db: Db, deviceId: Id, nodeId: Id, q: TuiRequest, header: Option<string>, now: Time)
    requires q.failure.None? && q.id !in db.desk.operators
    ensures var (r, reply) := StartTui(db, deviceId, nodeId, q, header, now);
            var row := TuiRow(q.agentId, nodeId, deviceId, Active, now, None, []);
            var told := AppendAudit(db, Entry(row, q.id, "created", deviceId, About(q.command), header));
            && reply == Done
            && r.tui == Terminals(db.tui.rows[q.id := row.(auditRefs := [LastAuditId(told)])], db.tui.attach,
                                  db.tui.runtimes[q.id := true], db.tui.sockets)
            && r.desk == db.desk.(operators := db.desk.operators[q.id :=
                 OperatorRow(Terminal, q.agentId, Active, Some(deviceId), None)])
            && r.log == CreateEvent(told, nodeId, Note("tui.session.state", q.id)).log
  {
    LaunchLeaves(db, deviceId, nodeId, q, header, now);
  }

  lemma LaunchLeaves(db: Db, deviceId: Id, nodeId: Id, q: TuiRequest, header: Option<string>, now: Time)
    ensures var first := TuiRow(q.agentId, nodeId, deviceId, Requested, now, None, []);
            var row := TuiRow(q.agentId, nodeId, deviceId, Active, now, None, []);
            var told := AppendAudit(db, Entry(row, q.id, "created", deviceId, About(q.command), header));
            var r := LaunchTui(PutTui(db, q.id, first), deviceId, first, q, header, now);
            && r.log == told.log
            && r.tui == Terminals(db.tui.rows[q.id := row.(auditRefs := [LastAuditId(told)])], db.tui.attach,
                                  db.tui.runtimes[q.id := true], db.tui.sockets)
  {
    var first := TuiRow(q.agentId, nodeId, deviceId, Requested, now, None, []);
    var row := TuiRow(q.agentId, nodeId, deviceId, Active, now, None, []);
    var entry := Entry(row, q.id, "created", deviceId, About(q.command), header);
    var id := LastAuditId(AppendAudit(db, entry));
    RunningRow(db, q.id, first, row, now);
    AuditedTouch(db.(tui := Launched(db.tui, q.id, row)), q.id, entry, false, now);
    assert row.auditRefs + [id] == [id];
    TwiceIsOnce(db.tui.rows, q.id, row, row.(auditRefs := [id]));
  }

  function Launched(t: Terminals, id: Id, row: TuiRow): Terminals {
    Terminals(t.rows[id := row], t.attach, t.runtimes[id := true], t.sockets)
  }

  lemma RunningRow(db: Db, id: Id, first: TuiRow, row: TuiRow, now: Time)
    requires row == first.(state := Active, lastActivityAt := now)
    ensures var d1 := PutTui(db, id, first);
            UpdateTui(SetRuntimes(d1, d1.tui.runtimes[id := true]), id, Active, now) ==
            db.(tui := Launched(db.tui, id, row))
  {
    TwiceIsOnce(db.tui.rows, id, first, row);
  }

  /** A start that fails leaves a failed row and nothing else, and answers with its code. */
  lemma FailedStartLeaves(db: Db, deviceId: Id, nodeId: Id, q: TuiRequest, header: Option<string>, now: Time)
    requires q.failure.Some?
    ensures StartTui(db, deviceId, nodeId, q, header, now) ==
            (db.(tui := WithRow(db.tui, q.id, TuiRow(q.agentId, nodeId, deviceId, Failed, now, Some(now), []))),
             Refused(q.failure.value))
  {
    TwiceIsOnce(db.tui.rows, q.id, TuiRow(q.agentId, nodeId, deviceId, Requested, now, None, []),
                TuiRow(q.agentId, nodeId, deviceId, Failed, now, Some(now), []));
  }

  /** The ladder in front of a start: capability, clean-up, cap, command, offer. */
  lemma StartIsReachedWhen(db: Db, device: VerifiedDevice, q: TuiRequest, header: Option<string>, now: Time)
    ensures var node := if q.nodeId.Some? && q.nodeId.value != "" then q.nodeId.value else db.config.nodeId;
            var (d1, ok) := Capabilities.RequireDevice(db, device, TuiAccess, header, Some(node), Some(q.agentId), now);
            var d2 := db.(tui := Swept(db, now));
            var open := set id | id in d2.tui.rows && Open(d2.tui.rows[id]);
            var offered :=
              && node in db.fleet.nodes && AgentKey(node, q.agentId) in db.fleet.agents
              && (CapabilityItem("tui", true) in db.fleet.nodes[node]
                  || CapabilityItem("tui", true) in db.fleet.agents[AgentKey(node, q.agentId)].capabilities);
            HandleTerminal(db, device, StartTerminal(q), header, now) ==
            if !ok then (d1, Refused(403))
            else if |open| >= db.config.tuiMaxSessions then (d2, Refused(429))
            else if q.problem.Some? then (d2, Refused(q.problem.value))
            else if !offered then (d2, Refused(403))
            else StartTui(d2, device.deviceId, node, q, header, now)
  {
    var node := if q.nodeId.Some? && q.nodeId.value != "" then q.nodeId.value else db.config.nodeId;
    var d2 := db.(tui := Swept(db, now));
    CleanupLeaves(db, now);
    assert OpenIds(d2.tui.rows) == set id | id in d2.tui.rows && Open(d2.tui.rows[id]);
    if node in db.fleet.nodes && AgentKey(node, q.agentId) in db.fleet.agents {
      TrustOutcomes.OffersSpelled(db.fleet.nodes[node], "tui");
      TrustOutcomes.OffersSpelled(db.fleet.agents[AgentKey(node, q.agentId)].capabilities, "tui");
    }
  }

  // ----- reading, detaching, closing, tokens -----

  function Owned(db: Db, device: VerifiedDevice, id: Id): Option<nat> {
    if id !in db.tui.rows then Some(404)
    else if db.tui.rows[id].deviceId != device.deviceId then Some(403) else None
  }

  lemma ReadingLeaves(db: Db, device: VerifiedDevice, id: Id, header: Option<string>, now: Time)
    ensures HandleTerminal(db, device, ListTerminals, header, now) == (db.(tui := Swept(db, now)), Done)
    ensures HandleTerminal(db, device, GetTerminal(id), header, now) ==
            (db.(tui := Swept(db, now)),
             if Owned(db, device, id).Some? then Refused(Owned(db, device, id).value) else Done)
  {
    CleanupLeaves(db, now);
  }

  /** Detaching and closing, by route or by frame: the row, its last audit row, the operator row and the
      two logs. */
  lemma RecordLeaves(db: Db, id: Id, closing: bool, deviceId: Id, header: Option<string>, now: Time)
    requires id in db.tui.rows
    ensures var state := if closing then Closed else Detached;
            var row := db.tui.rows[id];
            var told := AppendAudit(db, Entry(row, id, if closing then "closed" else "detached", deviceId,
                                              StateDetails(state), header));
            var r := RecordStateChange(db, id, closing, deviceId, header, now);
            && r.tui == WithRow(db.tui, id, Moved(row, state, now).(auditRefs := row.auditRefs + [LastAuditId(told)]))
            && r.log == CreateEvent(told, row.nodeId, Note("tui.session.state", id)).log
            && r.desk.operators ==
               if id in db.desk.operators
               then var o := db.desk.operators[id];
                    db.desk.operators[id := OperatorRow(o.kind, o.agentId, state, Some(deviceId), o.returnSummary)]
               else db.desk.operators
  {
  }

  /** What a detach leaves, by route or by frame: the process runs on. */
  predicate IsDetached(db: Db, r: Db, id: Id, deviceId: Id, header: Option<string>)
    requires id in db.tui.rows
  {
    && id in r.tui.rows && r.tui == Terminals(db.tui.rows[id := r.tui.rows[id]], db.tui.attach, db.tui.runtimes,
                                              db.tui.sockets)
    && r.tui.rows[id].state == Detached && r.tui.rows[id].closedAt == db.tui.rows[id].closedAt
    && (id in db.desk.operators ==> id in r.desk.operators && r.desk.operators[id].state == Detached)
    && r.log == CreateEvent(
         AppendAudit(db, Entry(db.tui.rows[id], id, "detached", deviceId, StateDetails(Detached), header)),
         db.tui.rows[id].nodeId, Note("tui.session.state", id)).log
  }

  /** What a close leaves: the process is gone. */
  predicate IsClosed(db: Db, r: Db, id: Id, deviceId: Id, header: Option<string>, now: Time)
    requires id in db.tui.rows
  {
    && id in r.tui.rows && r.tui == Terminals(db.tui.rows[id := r.tui.rows[id]], db.tui.attach,
                                              db.tui.runtimes - {id}, db.tui.sockets)
    && r.tui.rows[id].state == Closed && r.tui.rows[id].closedAt == Some(now)
    && (id in db.desk.operators ==> id in r.desk.operators && r.desk.operators[id].state == Closed)
    && r.log == CreateEvent(
         AppendAudit(db, Entry(db.tui.rows[id], id, "closed", deviceId, StateDetails(Closed), header)),
         db.tui.rows[id].nodeId, Note("tui.session.state", id)).log
  }

  lemma DetachingLeaves(db: Db, id: Id, deviceId: Id, header: Option<string>, now: Time)
    requires id in db.tui.rows
    ensures IsDetached(db, RecordStateChange(UpdateTui(db, id, Detached, now), id, false, deviceId, header, now), id,
                       deviceId, header)
  {
    var d1 := UpdateTui(db, id, Detached, now);
    RecordLeaves(d1, id, false, deviceId, header, now);
    TwiceIsOnce(db.tui.rows, id, d1.tui.rows[id],
                RecordStateChange(d1, id, false, deviceId, header, now).tui.rows[id]);
  }

  lemma ClosingLeaves(db: Db, id: Id, deviceId: Id, header: Option<string>, now: Time)
    requires id in db.tui.rows
    ensures IsClosed(db, RecordStateChange(ManagerClose(db, id, now), id, true, deviceId, header, now), id, deviceId,
                     header, now)
  {
    var d1 := ManagerClose(db, id, now);
    RecordLeaves(d1, id, true, deviceId, header, now);
    TwiceIsOnce(db.tui.rows, id, d1.tui.rows[id],
                RecordStateChange(d1, id, true, deviceId, header, now).tui.rows[id]);
  }

  lemma DetachRouteLeaves(db: Db, device: VerifiedDevice, id: Id, header: Option<string>, now: Time)
    ensures var (r, reply) := HandleTerminal(db, device, DetachTerminal(id), header, now);
            if Owned(db, device, id).Some? then (r, reply) == (db, Refused(Owned(db, device, id).value))
            else if !Open(db.tui.rows[id]) then (r, reply) == (db, Refused(409))
            else reply == Done && IsDetached(db, r, id, device.deviceId, header)
  {
    if id in db.tui.rows {
      OpenSpelled(db.tui.rows[id]);
      DetachingLeaves(db, id, device.deviceId, header, now);
    }
  }

  lemma CloseRouteLeaves(db: Db, device: VerifiedDevice, id: Id, header: Option<string>, now: Time)
    ensures var (r, reply) := HandleTerminal(db, device, CloseTerminal(id), header, now);
            if Owned(db, device, id).Some? then (r, reply) == (db, Refused(Owned(db, device, id).value))
            else if db.tui.rows[id].state == Closed then (r, reply) == (db, Done)
            else reply == Done && IsClosed(db, r, id, device.deviceId, header, now)
  {
    if id in db.tui.rows {
      ClosingLeaves(db, id, device.deviceId, header, now);
    }
  }

  lemma TokenRouteLeaves(db: Db, device: VerifiedDevice, id: Id, token: string, header: Option<string>, now: Time)
    ensures HandleTerminal(db, device, AttachTerminal(id, token), header, now) ==
            var (d1, ok) := Capabilities.RequireDevice(db, device, TuiAccess, header, None, None, now);
            if !ok then (d1, Refused(403))
            else if Owned(db, device, id).Some? then (db, Refused(Owned(db, device, id).value))
            else if !Open(db.tui.rows[id]) then (db, Refused(409))
            else
              var row := AttachRow(id, device.deviceId, now + db.config.tuiAttachTtl * 1_000_000, None);
              var d2 := db.(tui := db.tui.(attach := db.tui.attach[db.config.tokenHash(token) := row]));
              (AppendAudit(d2, Entry(db.tui.rows[id], id, "attach_token_created", device.deviceId, Empty, header)),
               Done)
  {
    if id in db.tui.rows {
      OpenSpelled(db.tui.rows[id]);
    }
  }

  // ----- sockets and processes -----

  /** A socket is accepted with an unexpired token, given to the owner of this open, running session; the
      token is stamped even if only the rest fails. */
  lemma ConnectLeaves(db: Db, token: Option<string>, id: Id, socket: Id, now: Time)
    ensures HandleTerminalEvent(db, Connects(token, id, socket), now) ==
            if token.None? || token.value == "" then (db, Refused(1008))
            else
              var hash := db.config.tokenHash(token.value);
              if hash !in db.tui.attach || db.tui.attach[hash].expiresAt <= now then (db, Refused(1008))
              else
                var a := db.tui.attach[hash];
                var stamped := db.tui.attach[hash := AttachRow(a.sessionId, a.deviceId, a.expiresAt, Some(now))];
                if id !in db.tui.rows || a.sessionId != id || db.tui.rows[id].deviceId != a.deviceId
                   || !Open(db.tui.rows[id]) || id !in db.tui.runtimes || !db.tui.runtimes[id]
                then (db.(tui := db.tui.(attach := stamped)), Refused(1008))
                else
                  (db.(tui := Terminals(db.tui.rows[id := Moved(db.tui.rows[id], Active, now)], stamped,
                                        db.tui.runtimes, db.tui.sockets[socket := Socket(id, a.deviceId)])), Done)
  {
    if id in db.tui.rows {
      OpenSpelled(db.tui.rows[id]);
    }
  }

  /** The row touched: a time stamp and, for input, one more audit row. */
  function Touched(row: TuiRow, touched: bool, refs: seq<Id>, now: Time): TuiRow {
    TuiRow(row.agentId, row.nodeId, row.deviceId, row.state, if touched then now else row.lastActivityAt, row.closedAt,
           row.auditRefs + refs)
  }

  predicate Live(db: Db, id: Id) {
    id in db.tui.rows && id in db.tui.runtimes && db.tui.runtimes[id]
  }

  /** Typing and pasting are audited by size, in the device's name. */
  lemma InputLeaves(db: Db, id: Id, deviceId: Id, text: string, pasted: bool, now: Time)
    requires Live(db, id)
    ensures var told := AppendAudit(db, Entry(db.tui.rows[id], id, if pasted then "paste_sent" else "input_sent",
                                              deviceId, Size(|text|), None));
            var row := Touched(db.tui.rows[id], text != "", [LastAuditId(told)], now);
            HandleFrame(db, id, deviceId, if pasted then Paste(text) else Input(text), now) ==
            (told.(tui := WithRow(db.tui, id, row)), Done)
  {
    var row := db.tui.rows[id];
    var entry := Entry(row, id, if pasted then "paste_sent" else "input_sent", deviceId, Size(|text|), None);
    AuditedTouch(db, id, entry, text != "", now);
  }

  lemma AuditedTouch(db: Db, id: Id, entry: AuditEntry, touched: bool, now: Time)
    requires id in db.tui.rows
    ensures var told := AppendAudit(db, entry);
            AddAuditRef(AppendAudit(if touched then TouchTui(db, id, now) else db, entry), id) ==
            told.(tui := WithRow(db.tui, id, Touched(db.tui.rows[id], touched, [LastAuditId(told)], now)))
  {
    TwiceIsOnce(db.tui.rows, id, db.tui.rows[id].(lastActivityAt := now),
                Touched(db.tui.rows[id], touched, [LastAuditId(AppendAudit(db, entry))], now));
  }

  /** The frames that say nothing in the log. */
  lemma QuietFramesLeave(db: Db, id: Id, deviceId: Id, valid: bool, now: Time)
    requires Live(db, id)
    ensures HandleFrame(db, id, deviceId, Ping, now) == (db, Done)
    ensures HandleFrame(db, id, deviceId, Unreadable, now) == (db, Done)
    ensures HandleFrame(db, id, deviceId, Resize(valid), now) ==
            (if valid then db.(tui := WithRow(db.tui, id, Touched(db.tui.rows[id], true, [], now))) else db, Done)
    ensures HandleFrame(db, id, deviceId, Disconnect, now) ==
            (db.(tui := WithRow(db.tui, id, Moved(db.tui.rows[id], Detached, now))), Done)
  {
    assert db.tui.rows[id].auditRefs + [] == db.tui.rows[id].auditRefs;
  }

  /** Detach and close frames do what the routes do, in the name of the socket's device. */
  lemma DetachFrameLeaves(db: Db, id: Id, deviceId: Id, now: Time)
    requires Live(db, id)
    ensures var (r, reply) := HandleFrame(db, id, deviceId, DetachFrame, now);
            reply == Done && IsDetached(db, r, id, deviceId, None)
  {
    DetachingLeaves(db, id, deviceId, None, now);
  }

  lemma CloseFrameLeaves(db: Db, id: Id, deviceId: Id, now: Time)
    requires Live(db, id)
    ensures var (r, reply) := HandleFrame(db, id, deviceId, CloseFrame, now);
            reply == Done && IsClosed(db, r, id, deviceId, None, now)
  {
    ClosingLeaves(db, id, deviceId, None, now);
  }

  /** A frame acts for its socket's session and device; the socket is gone after the last frame, or when
      the process is. */
  lemma RoundLeaves(db: Db, socket: Id, frame: Frame, now: Time)
    ensures HandleTerminalEvent(db, Sends(socket, frame), now) ==
            if socket !in db.tui.sockets then (db, Refused(1006))
            else
              var s := db.tui.sockets[socket];
              var gone := db.tui.sockets - {socket};
              if !Live(db, s.sessionId) then (db.(tui := db.tui.(sockets := gone)), Refused(410))
              else
                var d1 := HandleFrame(db, s.sessionId, s.deviceId, frame, now).0;
                if frame == Unreadable || frame == DetachFrame || frame == CloseFrame || frame == Disconnect
                then (d1.(tui := d1.tui.(sockets := gone)), Done) else (d1, Done)
  {
  }

  /** A process that exits stays known until its output ends; then its row closes unless it ended
      before. Shutting down closes every session in memory. */
  lemma ProcessesLeave(db: Db, id: Id, now: Time)
    ensures HandleTerminalEvent(db, ProcessExits(id), now) ==
            (if id in db.tui.runtimes then db.(tui := db.tui.(runtimes := db.tui.runtimes[id := false])) else db, Done)
    ensures HandleTerminalEvent(db, ReaderEnds(id), now) ==
            (if id !in db.tui.runtimes || db.tui.runtimes[id] then db
             else
               var rows := if id in db.tui.rows && Open(db.tui.rows[id])
                           then db.tui.rows[id := Moved(db.tui.rows[id], Closed, now)] else db.tui.rows;
               db.(tui := Terminals(rows, db.tui.attach, db.tui.runtimes - {id}, db.tui.sockets)), Done)
    ensures HandleTerminalEvent(db, ShutsDown, now) ==
            (db.(tui := Terminals(map key | key in db.tui.rows ::
                                    if key in db.tui.runtimes then Moved(db.tui.rows[key], Closed, now)
                                    else db.tui.rows[key],
                                  db.tui.attach, map[], db.tui.sockets)), Done)
  {
    if id in db.tui.rows {
      OpenSpelled(db.tui.rows[id]);
    }
    assert db.tui.runtimes - db.tui.runtimes.Keys == map[];
    assert Shutdown(db, now).tui.rows ==
           map key | key in db.tui.rows ::
             if key in db.tui.runtimes then Moved(db.tui.rows[key], Closed, now) else db.tui.rows[key];
  }

  // ----- the cap -----

  /** In every run from a fresh gateway no more sessions are requested, active or detached than the cap
      allows, and one that closed or failed is none of these ever after. */
  lemma CapIsKept(config: Config, run: Run, i: nat, j: nat, id: Id)
    requires IsRun(run) && run.states[0] == Fleet.FreshDb(config) && i <= j <= |run.steps|
    ensures var rows := run.states[j].tui.rows;
            |set other | other in rows && Open(rows[other])| <= if config.tuiMaxSessions < 0 then 0
                                                                else config.tuiMaxSessions
    ensures id in run.states[i].tui.rows && !Open(run.states[i].tui.rows[id]) ==>
              id in run.states[j].tui.rows && !Open(run.states[j].tui.rows[id])
  {
    var rows := run.states[j].tui.rows;
    TerminalLifecycle.FreshRunsStayInBounds(config, run, i, j);
    Paging.LogsGrow(run, 0, j);
    assert OpenIds(rows) == set other | other in rows && Open(rows[other]);
  }
}
