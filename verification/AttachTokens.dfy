/** Where the tokens come from that attach a socket to a terminal. */
module AttachTokens {
  import opened Wrappers
  import opened Records
  import opened Tables
  import opened TerminalSessions
  import opened Machine
  import Capabilities
  import Fleet
  import Signing
  import TerminalMirror

  /** The step is an accepted signed request for an attach token, by the owner of the open session it
      names, who holds the terminal capability; the row is what it stores. */
  ghost predicate Issues(db: Db, step: Step, hash: Digest, row: AttachRow) {
    && step.action.Signed?
    && Signing.Accepts(db, step.action.request, step.now)
    && step.action.deviceCall.OnTerminals? && step.action.deviceCall.terminalCall.AttachTerminal?
    && var call, device := step.action.deviceCall.terminalCall, TerminalMirror.Signer(db, step.action.request);
    && db.config.tokenHash(call.token) == hash
    && row.sessionId == call.sessionId && row.deviceId == device.deviceId
    && row.expiresAt == step.now + db.config.tuiAttachTtl * SECOND
    && call.sessionId in db.tui.rows && db.tui.rows[call.sessionId].deviceId == device.deviceId
    && IsOpen(db.tui.rows[call.sessionId].state)
    && Capabilities.DeviceHolds(db, device, TuiAccess, None, None, step.now)
  }

  /** Up to its use stamp a stored token is an old one, or the step issued it. */
  ghost predicate AttachStep(db: Db, r: Db, step: Step, hash: Digest) {
    hash in r.tui.attach ==>
      || (hash in db.tui.attach && r.tui.attach[hash] == db.tui.attach[hash].(usedAt := r.tui.attach[hash].usedAt))
      || Issues(db, step, hash, r.tui.attach[hash])
  }

  lemma OtherRoutesIssueNothing(db: Db, device: VerifiedDevice, call: DeviceCall, header: Option<string>, now: Time)
    requires CallOk(call) && !(call.OnTerminals? && call.terminalCall.AttachTerminal?)
    ensures HandleDevice(db, device, call, header, now).0.tui.attach == db.tui.attach
  {
    if call.OnTerminals? {
      OtherTerminalRoutes(db, device, call.terminalCall, header, now);
    }
  }

  lemma OtherTerminalRoutes(db: Db, device: VerifiedDevice, call: TerminalCall, header: Option<string>, now: Time)
    requires !call.AttachTerminal?
    ensures HandleTerminal(db, device, call, header, now).0.tui.attach == db.tui.attach
  {
  }

  lemma SignedIssues(db: Db, step: Step, hash: Digest)
    requires step.action.Signed? && StepOk(step)
    ensures AttachStep(db, NextSigned(db, step.action.request, step.action.deviceCall, step.header, step.now).0, step,
                       hash)
  {
    var (d1, verified) := Signing.Verify(db, step.action.request, step.header, step.now);
    var call := step.action.deviceCall;
    if verified.Success? && !(call.OnTerminals? && call.terminalCall.AttachTerminal?) {
      OtherRoutesIssueNothing(d1, verified.value, call, step.header, step.now);
    }
  }

  lemma FrameIssuesNothing(db: Db, id: Id, deviceId: Id, frame: Frame, now: Time)
    ensures HandleFrame(db, id, deviceId, frame, now).0.tui.attach == db.tui.attach
  {
  }

  lemma EventIssuesNothing(db: Db, event: TerminalEvent, now: Time, hash: Digest)
    ensures var r := HandleTerminalEvent(db, event, now).0;
            hash in r.tui.attach ==>
              hash in db.tui.attach && r.tui.attach[hash] == db.tui.attach[hash].(usedAt := r.tui.attach[hash].usedAt)
  {
    match event
    case Sends(socket, frame) =>
      if socket in db.tui.sockets {
        FrameIssuesNothing(db, db.tui.sockets[socket].sessionId, db.tui.sockets[socket].deviceId, frame, now);
      }
    case _ =>
  }

  lemma NextIssues(db: Db, step: Step, hash: Digest)
    requires StepOk(step)
    ensures AttachStep(db, Next(db, step).0, step, hash)
  {
    match step.action
    case Signed(_, _) => SignedIssues(db, step, hash);
    case OnTerminalEvent(event) => EventIssuesNothing(db, event, step.now, hash);
    case _ => assert Next(db, step).0.tui.attach == db.tui.attach;
  }

  /** Some step before k issued the token as it is stored in state k. */
  ghost predicate IssuedBefore(run: Run, k: nat, hash: Digest, row: AttachRow)
    requires Sized(run) && k <= |run.steps|
  {
    exists j: nat :: j < k && Issues(run.states[j], run.steps[j], hash, row)
  }

  lemma {:induction false} StoredTokensWereIssued(run: Run, k: nat, hash: Digest)
    requires IsRun(run) && k <= |run.steps|
    requires hash !in run.states[0].tui.attach && hash in run.states[k].tui.attach
    ensures IssuedBefore(run, k, hash, run.states[k].tui.attach[hash])
  {
    assert Follows(run, k - 1);
    NextIssues(run.states[k - 1], run.steps[k - 1], hash);
    var row := run.states[k].tui.attach[hash];
    if !Issues(run.states[k - 1], run.steps[k - 1], hash, row) {
      StoredTokensWereIssued(run, k - 1, hash);
      var before := run.states[k - 1].tui.attach[hash];
      var j: nat :| j < k - 1 && Issues(run.states[j], run.steps[j], hash, before);
      assert Issues(run.states[j], run.steps[j], hash, row);
    }
  }

  /** A socket that attached to a terminal brought a token that an earlier, accepted signed request of
      the session's owner was given, and brought it before the token ran out. */
  ghost predicate Granted(run: Run, k: nat, token: string, id: Id)
    requires Sized(run) && k < |run.steps|
  {
    var db := run.states[k];
    && id in db.tui.rows
    && exists row: AttachRow ::
         && row.sessionId == id && row.deviceId == db.tui.rows[id].deviceId && run.steps[k].now < row.expiresAt
         && IssuedBefore(run, k, db.config.tokenHash(token), row)
  }

  lemma AttachingWasGranted(config: Config, run: Run, k: nat, token: Option<string>, id: Id)
    requires IsRun(run) && run.states[0] == Fleet.FreshDb(config) && k < |run.steps|
    requires TerminalMirror.Attaches(run.states[k], token, id, run.steps[k].now)
    ensures token.Some? && Granted(run, k, token.value, id)
  {
    var db := run.states[k];
    var hash := db.config.tokenHash(token.value);
    assert run.states[0].tui.attach == map[];
    StoredTokensWereIssued(run, k, hash);
    assert IssuedBefore(run, k, hash, db.tui.attach[hash]);
  }

  /** The socket is accepted exactly when the token is unexpired and its device owns the session it was
      given for, which is open and running; the device's status is not asked for. */
  lemma ConnectsExactlyWhen(db: Db, token: Option<string>, id: Id, socket: Id, now: Time)
    ensures OpenSocket(db, token, id, socket, now).1 == Done <==> TerminalMirror.Attaches(db, token, id, now)
  {
  }

  lemma ConnectionsWereGranted(config: Config, run: Run, k: nat, token: Option<string>, id: Id, socket: Id)
    requires IsRun(run) && run.states[0] == Fleet.FreshDb(config) && k < |run.steps|
    requires run.steps[k].action == OnTerminalEvent(Connects(token, id, socket)) && run.replies[k] == Done
    ensures token.Some? && Granted(run, k, token.value, id)
  {
    assert Follows(run, k);
    ConnectsExactlyWhen(run.states[k], token, id, socket, run.steps[k].now);
    AttachingWasGranted(config, run, k, token, id);
  }
}
