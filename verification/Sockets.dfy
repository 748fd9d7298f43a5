/** Terminal sockets over whole runs: each was opened with a token of the session's owner, each frame acts
    for that owner on that session only, and revocation ends it all within the life of a token. */
module Sockets {
  import opened Wrappers
  import opened Records
  import opened Tables
  import opened TerminalSessions
  import opened Machine
  import AttachTokens
  import DeviceTrust
  import Fleet
  import Signing
  import TerminalLifecycle
  import TerminalMirror

  /** The step attaches this socket, for the session it names and the device its token names. */
  predicate Opens(db: Db, step: Step, socket: Id, s: Socket) {
    && step.action.OnTerminalEvent? && step.action.event.Connects?
    && var event := step.action.event;
    && event.socket == socket && event.sessionId == s.sessionId
    && TerminalMirror.Attaches(db, event.attachToken, s.sessionId, step.now)
    && s.deviceId == db.tui.attach[db.config.tokenHash(event.attachToken.value)].deviceId
  }

  /** A socket that is open after the step was open before, or the step opened it. */
  ghost predicate SocketStep(db: Db, r: Db, step: Step, socket: Id) {
    socket in r.tui.sockets ==>
      || (socket in db.tui.sockets && r.tui.sockets[socket] == db.tui.sockets[socket])
      || Opens(db, step, socket, r.tui.sockets[socket])
  }

  lemma FrameLeavesSockets(db: Db, id: Id, deviceId: Id, frame: Frame, now: Time)
    ensures HandleFrame(db, id, deviceId, frame, now).0.tui.sockets == db.tui.sockets
  {
  }

  lemma EventOpens(db: Db, step: Step, socket: Id)
    requires step.action.OnTerminalEvent?
    ensures SocketStep(db, HandleTerminalEvent(db, step.action.event, step.now).0, step, socket)
  {
    match step.action.event
    case Sends(other, frame) =>
      if other in db.tui.sockets {
        FrameLeavesSockets(db, db.tui.sockets[other].sessionId, db.tui.sockets[other].deviceId, frame, step.now);
      }
    case _ =>
  }

  lemma RouteLeavesSockets(db: Db, device: VerifiedDevice, call: TerminalCall, header: Option<string>, now: Time)
    ensures HandleTerminal(db, device, call, header, now).0.tui.sockets == db.tui.sockets
  {
  }

  lemma SignedLeavesSockets(db: Db, step: Step)
    requires step.action.Signed? && StepOk(step)
    ensures var r := NextSigned(db, step.action.request, step.action.deviceCall, step.header, step.now).0;
            r.tui.sockets == db.tui.sockets
  {
    var (d1, verified) := Signing.Verify(db, step.action.request, step.header, step.now);
    var call := step.action.deviceCall;
    if verified.Success? {
      if call.OnTerminals? {
        RouteLeavesSockets(d1, verified.value, call.terminalCall, step.header, step.now);
      } else {
        TerminalLifecycle.OtherRoutesKeep(d1, verified.value, call, step.header, step.now);
      }
    }
  }

  lemma NextOpens(db: Db, step: Step, socket: Id)
    requires StepOk(step)
    ensures SocketStep(db, Next(db, step).0, step, socket)
  {
    match step.action
    case Signed(_, _) => SignedLeavesSockets(db, step);
    case OnTerminalEvent(_) => EventOpens(db, step, socket);
    case Restart => assert StartAgain(db).tui.sockets == map[];
    case _ => assert Next(db, step).0.tui == db.tui;
  }

  // ----- where open sockets come from -----

  ghost predicate OpenedAt(run: Run, j: nat, k: nat, socket: Id, s: Socket)
    requires Sized(run)
  {
    j < k <= |run.steps| && Opens(run.states[j], run.steps[j], socket, s)
  }

  lemma {:induction false} SocketsWereOpened(run: Run, k: nat, socket: Id) returns (j: nat)
    requires IsRun(run) && k <= |run.steps|
    requires socket !in run.states[0].tui.sockets && socket in run.states[k].tui.sockets
    ensures OpenedAt(run, j, k, socket, run.states[k].tui.sockets[socket])
  {
    assert Follows(run, k - 1);
    NextOpens(run.states[k - 1], run.steps[k - 1], socket);
    j := k - 1;
    if !OpenedAt(run, j, k, socket, run.states[k].tui.sockets[socket]) {
      j := SocketsWereOpened(run, k - 1, socket);
    }
  }

  /** The socket acts for the owner of its session, and step j opened it with a token that the owner was
      given by an earlier signed request and that had not run out. */
  ghost predicate Entitled(run: Run, j: nat, k: nat, socket: Id, s: Socket)
    requires Sized(run)
  {
    && OpenedAt(run, j, k, socket, s)
    && AttachTokens.Granted(run, j, run.steps[j].action.event.attachToken.value, s.sessionId)
    && s.sessionId in run.states[k].tui.rows && run.states[k].tui.rows[s.sessionId].deviceId == s.deviceId
  }

  lemma SocketsWereGranted(config: Config, run: Run, k: nat, socket: Id)
    requires IsRun(run) && run.states[0] == Fleet.FreshDb(config) && k <= |run.steps|
    requires socket in run.states[k].tui.sockets
    ensures exists j: nat :: Entitled(run, j, k, socket, run.states[k].tui.sockets[socket])
  {
    var s := run.states[k].tui.sockets[socket];
    var j := SocketsWereOpened(run, k, socket);
    AttachTokens.AttachingWasGranted(config, run, j, run.steps[j].action.event.attachToken, s.sessionId);
    TerminalLifecycle.FreshRunsStayInBounds(config, run, j, k);
    assert Entitled(run, j, k, socket, s);
  }

  // ----- what frames do -----

  ghost predicate RowsSpeakFor(a: Db, b: Db, s: Socket) {
    && a.log.audit <= b.log.audit
    && forall i | |a.log.audit| <= i < |b.log.audit| :: SpeaksFor(b.log.audit[i], s)
  }

  predicate SpeaksFor(row: AuditRow, s: Socket) {
    row.content.actorType == "device" && row.content.actorId == s.deviceId && row.refs.sessionId == Some(s.sessionId)
  }

  /** Nothing but the socket's own session is touched, and every audit row names it and its device. */
  ghost predicate ActsFor(a: Db, b: Db, s: Socket) {
    && RowsSpeakFor(a, b, s)
    && (forall id | id != s.sessionId :: TouchedNot(a, b, id))
  }

  predicate TouchedNot(a: Db, b: Db, id: Id) {
    && (id in a.tui.rows <==> id in b.tui.rows) && (id in a.tui.rows ==> b.tui.rows[id] == a.tui.rows[id])
    && (id in a.tui.runtimes <==> id in b.tui.runtimes)
    && (id in a.tui.runtimes ==> b.tui.runtimes[id] == a.tui.runtimes[id])
    && (id in a.desk.operators <==> id in b.desk.operators)
    && (id in a.desk.operators ==> b.desk.operators[id] == a.desk.operators[id])
  }

  // What one other session sees of a frame, and what the audit log sees.

  lemma RecordSpares(db: Db, s: Socket, closing: bool, now: Time, id: Id)
    requires s.sessionId in db.tui.rows && id != s.sessionId
    ensures TouchedNot(db, RecordStateChange(db, s.sessionId, closing, s.deviceId, None, now), id)
  {
  }

  lemma InputSpares(db: Db, s: Socket, entry: AuditEntry, touched: bool, now: Time, id: Id)
    requires id != s.sessionId
    ensures var d1 := if touched then TouchTui(db, s.sessionId, now) else db;
            TouchedNot(db, AddAuditRef(AppendAudit(d1, entry), s.sessionId), id)
  {
  }

  lemma FrameSpares(db: Db, s: Socket, frame: Frame, now: Time, id: Id)
    requires id != s.sessionId
    ensures TouchedNot(db, HandleFrame(db, s.sessionId, s.deviceId, frame, now).0, id)
  {
    if Running(db, s.sessionId) && s.sessionId in db.tui.rows {
      match frame
      case Input(text) => InputSpares(db, s, Typed(db, s, frame), text != "", now, id);
      case Paste(text) => InputSpares(db, s, Typed(db, s, frame), text != "", now, id);
      case DetachFrame => RecordSpares(UpdateTui(db, s.sessionId, Detached, now), s, false, now, id);
      case CloseFrame => RecordSpares(ManagerClose(db, s.sessionId, now), s, true, now, id);
      case _ =>
    }
  }

  function Typed(db: Db, s: Socket, frame: Frame): AuditEntry
    requires s.sessionId in db.tui.rows && (frame.Input? || frame.Paste?)
  {
    TuiEntry(db.tui.rows[s.sessionId], s.sessionId, if frame.Input? then "input_sent" else "paste_sent", s.deviceId,
             Size(|frame.text|), None)
  }

  predicate AuditsFor(a: Db, b: Db, s: Socket) {
    || b.log.audit == a.log.audit
    || (b.log.audit != [] && b.log.audit[..|b.log.audit| - 1] == a.log.audit
        && SpeaksFor(b.log.audit[|b.log.audit| - 1], s))
  }

  lemma RecordAudits(db: Db, s: Socket, closing: bool, now: Time)
    requires s.sessionId in db.tui.rows
    ensures AuditsFor(db, RecordStateChange(db, s.sessionId, closing, s.deviceId, None, now), s)
  {
  }

  lemma InputAudits(db: Db, s: Socket, frame: Frame, touched: bool, now: Time)
    requires s.sessionId in db.tui.rows && (frame.Input? || frame.Paste?)
    ensures var d1 := if touched then TouchTui(db, s.sessionId, now) else db;
            AuditsFor(db, AddAuditRef(AppendAudit(d1, Typed(db, s, frame)), s.sessionId), s)
  {
  }

  lemma FrameAudits(db: Db, s: Socket, frame: Frame, now: Time)
    ensures AuditsFor(db, HandleFrame(db, s.sessionId, s.deviceId, frame, now).0, s)
  {
    if Running(db, s.sessionId) && s.sessionId in db.tui.rows {
      match frame
      case Input(text) => InputAudits(db, s, frame, text != "", now);
      case Paste(text) => InputAudits(db, s, frame, text != "", now);
      case DetachFrame => RecordAudits(UpdateTui(db, s.sessionId, Detached, now), s, false, now);
      case CloseFrame => RecordAudits(ManagerClose(db, s.sessionId, now), s, true, now);
      case _ =>
    }
  }

  lemma RoundSpares(db: Db, socket: Id, frame: Frame, now: Time, id: Id)
    requires socket in db.tui.sockets && id != db.tui.sockets[socket].sessionId
    ensures TouchedNot(db, SocketRound(db, socket, frame, now).0, id)
  {
    FrameSpares(db, db.tui.sockets[socket], frame, now, id);
  }

  lemma RoundAudits(db: Db, socket: Id, frame: Frame, now: Time)
    requires socket in db.tui.sockets
    ensures RowsSpeakFor(db, SocketRound(db, socket, frame, now).0, db.tui.sockets[socket])
  {
    var s := db.tui.sockets[socket];
    FrameAudits(db, s, frame, now);
    assert SocketRound(db, socket, frame, now).0.log == HandleFrame(db, s.sessionId, s.deviceId, frame, now).0.log;
  }

  lemma RoundActs(db: Db, socket: Id, frame: Frame, now: Time)
    requires socket in db.tui.sockets
    ensures ActsFor(db, SocketRound(db, socket, frame, now).0, db.tui.sockets[socket])
  {
    RoundAudits(db, socket, frame, now);
    forall id | id != db.tui.sockets[socket].sessionId
      ensures TouchedNot(db, SocketRound(db, socket, frame, now).0, id)
    {
      RoundSpares(db, socket, frame, now, id);
    }
  }

  lemma RoundInRun(run: Run, k: nat, socket: Id, frame: Frame)
    requires IsRun(run) && k < |run.steps| && run.steps[k].action == OnTerminalEvent(Sends(socket, frame))
    ensures run.states[k + 1] == SocketRound(run.states[k], socket, frame, run.steps[k].now).0
  {
    assert Follows(run, k);
  }

  /** In every run from a fresh gateway, a frame that has any effect came over a socket that the owner of
      the session was entitled to open, and acts for that owner on that session alone. */
  lemma FramesActForOwners(config: Config, run: Run, k: nat, socket: Id, frame: Frame)
    requires IsRun(run) && run.states[0] == Fleet.FreshDb(config) && k < |run.steps|
    requires run.steps[k].action == OnTerminalEvent(Sends(socket, frame)) && run.states[k + 1] != run.states[k]
    ensures socket in run.states[k].tui.sockets
    ensures exists j: nat :: Entitled(run, j, k, socket, run.states[k].tui.sockets[socket])
    ensures ActsFor(run.states[k], run.states[k + 1], run.states[k].tui.sockets[socket])
  {
    RoundInRun(run, k, socket, frame);
    assert socket in run.states[k].tui.sockets;
    RoundActs(run.states[k], socket, frame, run.steps[k].now);
    SocketsWereGranted(config, run, k, socket);
  }

  // ----- revocation -----

  lemma {:induction false} TimesGrow(run: Run, i: nat, j: nat)
    requires IsRun(run) && i <= j < |run.steps|
    ensures run.steps[i].now <= run.steps[j].now && run.states[i].config == run.states[j].config
    decreases j - i
  {
    if i < j {
      TimesGrow(run, i, j - 1);
      assert Follows(run, j) && Follows(run, j - 1);
    }
  }

  lemma TokenPredates(run: Run, i: nat, j: nat, k: nat, hash: Digest, row: AttachRow)
    requires IsRun(run) && i <= k < |run.steps| && j < k
    requires DeviceTrust.Revoked(run.states[i], row.deviceId)
    requires AttachTokens.Issues(run.states[j], run.steps[j], hash, row)
    ensures j < i && row.expiresAt <= run.steps[i - 1].now + run.states[0].config.tuiAttachTtl * SECOND
  {
    if i <= j {
      DeviceTrust.RevocationIsPermanent(run, i, j, row.deviceId);
      assert false;
    }
    TimesGrow(run, j, i - 1);
    TimesGrow(run, 0, j);
  }

  lemma GrantingStep(run: Run, k: nat, token: string, id: Id) returns (j: nat, row: AttachRow)
    requires Sized(run) && k < |run.steps| && AttachTokens.Granted(run, k, token, id)
    ensures row.deviceId == run.states[k].tui.rows[id].deviceId && run.steps[k].now < row.expiresAt
    ensures j < k && AttachTokens.Issues(run.states[j], run.steps[j], run.states[k].config.tokenHash(token), row)
  {
    var hash := run.states[k].config.tokenHash(token);
    row :| row.sessionId == id && row.deviceId == run.states[k].tui.rows[id].deviceId
      && run.steps[k].now < row.expiresAt && AttachTokens.IssuedBefore(run, k, hash, row);
    j :| j < k && AttachTokens.Issues(run.states[j], run.steps[j], hash, row);
  }

  /** A revoked device attaches, if at all, with a token that it was given before it was revoked, and so
      no later than the life of a token after that. */
  lemma RevokedAttachesBriefly(config: Config, run: Run, i: nat, k: nat, token: Option<string>, id: Id, socket: Id)
    requires IsRun(run) && run.states[0] == Fleet.FreshDb(config) && i <= k < |run.steps|
    requires run.steps[k].action == OnTerminalEvent(Connects(token, id, socket)) && run.replies[k] == Done
    requires id in run.states[k].tui.rows && DeviceTrust.Revoked(run.states[i], run.states[k].tui.rows[id].deviceId)
    ensures 0 < i && run.steps[k].now < run.steps[i - 1].now + config.tuiAttachTtl * SECOND
  {
    AttachTokens.ConnectionsWereGranted(config, run, k, token, id, socket);
    var j, row := GrantingStep(run, k, token.value, id);
    TokenPredates(run, i, j, k, run.states[k].config.tokenHash(token.value), row);
  }
}
