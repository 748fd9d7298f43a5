/** Whole-run properties of device trust: replay safety, permanent revocation, pairing conservation. */
module DeviceTrust {
  import opened Wrappers
  import opened Records
  import opened Tables
  import opened Machine
  import Signing
  import Devices
  import Fleet

  // ----- replay safety -----

  ghost predicate AcceptedStep(db: Db, step: Step) {
    step.action.Signed? && Signing.Accepts(db, step.action.request, step.now)
  }

  /** Nonces are only ever added, one per accepted request; a rejected request changes nothing but
      the audit log, by one row that names the reason. */
  lemma NextNonces(db: Db, step: Step)
    requires StepOk(step)
    ensures var r := Next(db, step).0;
            && r.trust.nonces == db.trust.nonces + (if AcceptedStep(db, step)
                                                    then {Signing.NonceKey(step.action.request)} else {})
            && (AcceptedStep(db, step) ==> Signing.NonceKey(step.action.request) !in db.trust.nonces)
            && (step.action.Signed? && !AcceptedStep(db, step) ==>
                  && r == db.(log := db.log.(audit := r.log.audit))
                  && |r.log.audit| == |db.log.audit| + 1
                  && r.log.audit[|db.log.audit|].content.kind == SignatureFailed)
  {
    if step.action.Signed? {
      Signing.VerifyOutcome(db, step.action.request, step.header, step.now);
    }
  }

  /** The nonce of an accepted request stays used up. */
  lemma {:induction false} NonceStaysUsed(run: Run, i: nat, j: nat)
    requires IsRun(run) && i < j <= |run.steps| && AcceptedStep(run.states[i], run.steps[i])
    ensures Signing.NonceKey(run.steps[i].action.request) in run.states[j].trust.nonces
    decreases j - i
  {
    if i < j - 1 {
      NonceStaysUsed(run, i, j - 1);
    }
    NoncesGrow(run, j - 1);
  }

  lemma NoncesGrow(run: Run, i: nat)
    requires IsRun(run) && i < |run.steps|
    ensures run.states[i].trust.nonces <= run.states[i + 1].trust.nonces
    ensures AcceptedStep(run.states[i], run.steps[i]) ==>
              Signing.NonceKey(run.steps[i].action.request) in run.states[i + 1].trust.nonces
  {
    assert Follows(run, i);
    NextNonces(run.states[i], run.steps[i]);
  }

  /** Over any run no device gets the same nonce accepted twice. */
  lemma AcceptedNoncesAreDistinct(run: Run, i: nat, j: nat)
    requires IsRun(run) && i < j < |run.steps|
    requires AcceptedStep(run.states[i], run.steps[i]) && AcceptedStep(run.states[j], run.steps[j])
    ensures Signing.NonceKey(run.steps[i].action.request) != Signing.NonceKey(run.steps[j].action.request)
  {
    NonceStaysUsed(run, i, j);
  }

  // ----- revocation -----

  /** The device is revoked and every token of it carries a revocation time. */
  ghost predicate Revoked(db: Db, deviceId: Id) {
    && deviceId in db.trust.devices && db.trust.devices[deviceId].status == DeviceRevoked
    && forall h | h in db.trust.tokens && db.trust.tokens[h].deviceId == deviceId :: db.trust.tokens[h].revokedAt.Some?
  }

  /** No token of the device is accepted, of whatever type and at whatever time. */
  ghost predicate NoTokenAccepted(db: Db, deviceId: Id) {
    forall token: string, tokenType: TokenType, now: Time | Devices.TokenAccepted(db, token, tokenType, now) ::
      db.trust.tokens[db.config.tokenHash(token)].deviceId != deviceId
  }

  lemma RevokingRevokes(db: Db, actorId: Id, deviceId: Id, header: Option<string>, now: Time)
    requires deviceId in db.trust.devices
    ensures Revoked(Devices.RevokeDevice(db, actorId, deviceId, header, now).0, deviceId)
  {
  }

  /** No signed request, access token or refresh token of a revoked device is accepted any more; attach
      tokens it holds still are, until they run out. */
  lemma RevokedCredentialsFail(db: Db, deviceId: Id, request: Signing.SignedRequest, token: string,
                               tokenType: TokenType, now: Time)
    requires Revoked(db, deviceId)
    ensures request.deviceId == Some(deviceId) ==> !Signing.Accepts(db, request, now)
    ensures db.config.tokenHash(token) in db.trust.tokens
              && db.trust.tokens[db.config.tokenHash(token)].deviceId == deviceId ==>
              !Devices.TokenAccepted(db, token, tokenType, now)
  {
  }

  lemma IssuingKeepsRevoked(db: Db, deviceId: Id, access: string, refresh: string, other: Id, now: Time)
    requires Revoked(db, deviceId) && other != deviceId
    ensures Revoked(Devices.IssueTokens(db, access, refresh, other, now), deviceId)
  {
  }

  lemma RevokeRowsKeepsRevoked(db: Db, deviceId: Id, other: Id, now: Time)
    requires Revoked(db, deviceId)
    ensures Revoked(Devices.RevokeRows(db, other, now), deviceId)
  {
  }

  lemma CompletionKeepsRevoked(db: Db, deviceId: Id, c: Devices.Completion, header: Option<string>, now: Time)
    requires Revoked(db, deviceId) && c.deviceId !in db.trust.devices
    ensures Revoked(Devices.CompletePairing(db, c, header, now).0, deviceId)
  {
    if c.pairingId in db.trust.pairings {
      var d1 := Devices.ExpirePairingIfNeeded(db, c.pairingId, now);
      var p := d1.trust.pairings[c.pairingId];
      var d2 := Devices.PutDevice(d1, c.deviceId,
                                  DeviceRow(p.nodeId, c.publicKey, DeviceActive, Devices.GrantedPermissions(p)));
      assert Revoked(d2, deviceId);
      IssuingKeepsRevoked(d2, deviceId, c.access, c.refresh, c.deviceId, now);
    }
  }

  lemma NextKeepsRevoked(db: Db, step: Step, deviceId: Id)
    requires Admissible(db, step) && Revoked(db, deviceId)
    ensures Revoked(Next(db, step).0, deviceId)
  {
    match step.action
    case Signed(request, call) =>
      var (d1, verified) := Signing.Verify(db, request, step.header, step.now);
      if verified.Success? && call.OnTrust? {
        TrustRouteKeepsRevoked(d1, verified.value, call.trustCall, step.header, step.now, deviceId);
      }
    case OnPairing(EndPairing(c)) => CompletionKeepsRevoked(db, deviceId, c, step.header, step.now);
    case OnPairing(call) => assert HandlePairing(db, call, step.header, step.now).0.trust.tokens == db.trust.tokens;
    case _ => assert Next(db, step).0.trust.tokens == db.trust.tokens;
  }

  lemma TrustRouteKeepsRevoked(db: Db, device: VerifiedDevice, call: TrustCall, header: Option<string>, now: Time,
                               deviceId: Id)
    requires Revoked(db, deviceId)
    ensures Revoked(HandleTrust(db, device, call, header, now).0, deviceId)
  {
    match call
    case Refresh(token, access, refresh) =>
      if device.deviceId != deviceId {
        IssuingKeepsRevoked(db, deviceId, access, refresh, device.deviceId, now);
      }
    case Revoke(other) => RevokeRowsKeepsRevoked(db, deviceId, other, now);
  }

  /** Revocation is permanent, and with it the loss of the key and of every access and refresh token. */
  lemma {:induction false} RevocationIsPermanent(run: Run, i: nat, j: nat, deviceId: Id)
    requires IsRun(run) && i <= j <= |run.steps|
    requires Revoked(run.states[i], deviceId)
    ensures Revoked(run.states[j], deviceId)
    ensures j < |run.steps| && AcceptedStep(run.states[j], run.steps[j]) ==>
              run.steps[j].action.request.deviceId != Some(deviceId)
    ensures NoTokenAccepted(run.states[j], deviceId)
    decreases j - i
  {
    if i < j {
      RevocationIsPermanent(run, i, j - 1, deviceId);
      assert Follows(run, j - 1);
      NextKeepsRevoked(run.states[j - 1], run.steps[j - 1], deviceId);
    }
  }

  // ----- pairing -----

  /** What a completed pairing is good for: the device is active with the permissions asked for, or the
      default ones, and its two tokens are accepted until they run out and not a moment longer. */
  lemma PairingGrantsAccess(db: Db, c: Devices.Completion, header: Option<string>, now: Time, later: Time)
    requires FreshTokens(db, c.access, c.refresh)
    requires Devices.CompletePairing(db, c, header, now).1 == Tokens(c.deviceId)
    ensures var r := Devices.CompletePairing(db, c, header, now).0;
            && Devices.DeviceIsActive(r, c.deviceId)
            && c.pairingId in db.trust.pairings
            && r.trust.devices[c.deviceId].permissions == Devices.GrantedPermissions(db.trust.pairings[c.pairingId])
            && (Devices.TokenAccepted(r, c.access, Access, later) <==> later < now + 15 * 60 * SECOND)
            && (Devices.TokenAccepted(r, c.refresh, TokenType.Refresh, later) <==>
                later < now + 30 * 24 * 60 * 60 * SECOND)
            && !Devices.TokenAccepted(r, c.access, TokenType.Refresh, later)
            && !Devices.TokenAccepted(r, c.refresh, Access, later)
  {
  }

  /** A refresh adds two tokens and takes none away: the old refresh token stays good. */
  lemma RefreshKeepsOldTokens(db: Db, deviceId: Id, token: string, access: string, refresh: string, now: Time,
                              other: string, tokenType: TokenType, later: Time)
    requires FreshTokens(db, access, refresh) && Devices.TokenAccepted(db, other, tokenType, later)
    ensures Devices.TokenAccepted(Devices.RefreshTokens(db, deviceId, token, access, refresh, now).0, other, tokenType,
                                  later)
  {
  }

  function CompletedIds(pairings: map<Id, PairingRow>): set<Id> {
    set id | id in pairings && pairings[id].status == PairingCompleted
  }

  /** As many devices as completed pairing sessions. */
  ghost predicate PairingBalanced(db: Db) {
    |db.trust.devices| == |CompletedIds(db.trust.pairings)|
  }

  /** A pairing leaves pending at most once, and is completed only by its own token before expiry. */
  ghost predicate PairingStep(db: Db, r: Db, step: Step, id: Id)
    requires id in db.trust.pairings
  {
    && id in r.trust.pairings
    && var before, after := db.trust.pairings[id], r.trust.pairings[id];
    && after == before.(status := after.status)
    && (before.status != PairingPending ==> after == before)
    && (before.status == PairingPending && after.status == PairingCompleted ==>
          && step.action.OnPairing? && step.action.pairingCall.EndPairing?
          && step.action.pairingCall.completion.pairingId == id
          && db.config.tokenHash(step.action.pairingCall.completion.challengeResponse) == before.tokenHash
          && step.now < before.expiresAt)
  }

  lemma ExpiryKeepsBalance(db: Db, id: Id, now: Time)
    requires id in db.trust.pairings
    ensures var r := Devices.ExpirePairingIfNeeded(db, id, now);
            CompletedIds(r.trust.pairings) == CompletedIds(db.trust.pairings)
  {
  }

  lemma FinishRows(db: Db, c: Devices.Completion, header: Option<string>, now: Time)
    requires c.pairingId in db.trust.pairings
    ensures var r := Devices.FinishPairing(db, c, header, now).trust;
            && r.pairings == db.trust.pairings[c.pairingId :=
                                               db.trust.pairings[c.pairingId].(status := PairingCompleted)]
            && r.devices.Keys == db.trust.devices.Keys + {c.deviceId}
  {
  }

  lemma BalancePlusOne(a: Db, b: Db, pairingId: Id, deviceId: Id)
    requires PairingBalanced(a) && pairingId in a.trust.pairings && deviceId !in a.trust.devices
    requires a.trust.pairings[pairingId].status == PairingPending
    requires b.trust.pairings == a.trust.pairings[pairingId := a.trust.pairings[pairingId].(status := PairingCompleted)]
    requires b.trust.devices.Keys == a.trust.devices.Keys + {deviceId}
    ensures PairingBalanced(b)
  {
    assert CompletedIds(b.trust.pairings) == CompletedIds(a.trust.pairings) + {pairingId};
    assert |b.trust.devices.Keys| == |a.trust.devices.Keys| + 1;
    assert |b.trust.devices| == |b.trust.devices.Keys| && |a.trust.devices| == |a.trust.devices.Keys|;
  }

  lemma CompletionKeepsBalance(db: Db, c: Devices.Completion, header: Option<string>, now: Time)
    requires PairingBalanced(db) && c.deviceId !in db.trust.devices
    ensures PairingBalanced(Devices.CompletePairing(db, c, header, now).0)
  {
    if c.pairingId in db.trust.pairings {
      var d1 := Devices.ExpirePairingIfNeeded(db, c.pairingId, now);
      ExpiryKeepsBalance(db, c.pairingId, now);
      if d1.trust.pairings[c.pairingId].status == PairingPending {
        var d2 := Devices.FinishPairing(d1, c, header, now);
        FinishRows(d1, c, header, now);
        BalancePlusOne(d1, d2, c.pairingId, c.deviceId);
      }
    }
  }

  lemma CompletionSteps(db: Db, step: Step, c: Devices.Completion, id: Id)
    requires step.action == OnPairing(EndPairing(c)) && id in db.trust.pairings
    ensures PairingStep(db, Devices.CompletePairing(db, c, step.header, step.now).0, step, id)
  {
    if c.pairingId in db.trust.pairings {
      FinishRows(Devices.ExpirePairingIfNeeded(db, c.pairingId, step.now), c, step.header, step.now);
    }
  }

  lemma RevokeKeepsDeviceCount(db: Db, deviceId: Id, now: Time)
    ensures |Devices.RevokeRows(db, deviceId, now).trust.devices| == |db.trust.devices|
  {
    assert Devices.RevokeRows(db, deviceId, now).trust.devices.Keys == db.trust.devices.Keys;
  }

  lemma PairingRouteKeeps(db: Db, step: Step, call: PairingCall)
    requires PairingBalanced(db) && PairingInputOk(db, call) && step.action == OnPairing(call)
    ensures PairingBalanced(HandlePairing(db, call, step.header, step.now).0)
  {
    match call
    case BeginPairing(other, token, permissions, ttl) =>
      assert CompletedIds(HandlePairing(db, call, step.header, step.now).0.trust.pairings) ==
          CompletedIds(db.trust.pairings);
    case PollPairing(other) =>
      if other in db.trust.pairings {
        ExpiryKeepsBalance(db, other, step.now);
      }
    case EndPairing(c) => CompletionKeepsBalance(db, c, step.header, step.now);
  }

  lemma PairingRouteSteps(db: Db, step: Step, call: PairingCall, id: Id)
    requires PairingInputOk(db, call) && step.action == OnPairing(call) && id in db.trust.pairings
    ensures PairingStep(db, HandlePairing(db, call, step.header, step.now).0, step, id)
  {
    match call
    case EndPairing(c) => CompletionSteps(db, step, c, id);
    case _ =>
  }

  lemma SignedKeepsPairings(db: Db, step: Step)
    requires step.action.Signed? && Admissible(db, step) && PairingBalanced(db)
    ensures var r := NextSigned(db, step.action.request, step.action.deviceCall, step.header, step.now).0;
            PairingBalanced(r) && r.trust.pairings == db.trust.pairings
  {
    var (d1, verified) := Signing.Verify(db, step.action.request, step.header, step.now);
    var call := step.action.deviceCall;
    if verified.Success? && call.OnTrust? && call.trustCall.Revoke? {
      RevokeKeepsDeviceCount(d1, call.trustCall.deviceId, step.now);
    }
  }

  lemma NextKeepsBalance(db: Db, step: Step)
    requires Admissible(db, step) && PairingBalanced(db)
    ensures PairingBalanced(Next(db, step).0)
  {
    match step.action
    case Signed(_, _) => SignedKeepsPairings(db, step);
    case OnPairing(call) => PairingRouteKeeps(db, step, call);
    case _ =>
      assert Next(db, step).0.trust.pairings == db.trust.pairings;
      assert Next(db, step).0.trust.devices == db.trust.devices;
  }

  lemma NextPairingStep(db: Db, step: Step, id: Id)
    requires Admissible(db, step) && id in db.trust.pairings
    ensures PairingStep(db, Next(db, step).0, step, id)
  {
    match step.action
    case OnPairing(call) => PairingRouteSteps(db, step, call, id);
    case _ => assert Next(db, step).0.trust.pairings == db.trust.pairings;
  }

  /** In every state of a run that starts balanced, devices are as many as completed pairings. */
  lemma {:induction false} PairingIsConserved(run: Run, j: nat)
    requires IsRun(run) && PairingBalanced(run.states[0]) && j <= |run.steps|
    ensures PairingBalanced(run.states[j])
    decreases j
  {
    if j != 0 {
      PairingIsConserved(run, j - 1);
      assert Follows(run, j - 1);
      NextKeepsBalance(run.states[j - 1], run.steps[j - 1]);
    }
  }

  lemma FreshIsBalanced(config: Config)
    ensures PairingBalanced(Fleet.FreshDb(config))
  {
    assert CompletedIds(Fleet.FreshDb(config).trust.pairings) == {};
  }

  /** From a fresh gateway on, then, without any assumption on the first state. */
  lemma FreshRunsConservePairing(config: Config, run: Run, j: nat)
    requires IsRun(run) && run.states[0] == Fleet.FreshDb(config) && j <= |run.steps|
    ensures PairingBalanced(run.states[j])
  {
    FreshIsBalanced(config);
    PairingIsConserved(run, j);
  }

  /** A pairing that has left pending keeps its row for the rest of the run. */
  lemma {:induction false} PairingLeavesPendingOnce(run: Run, i: nat, j: nat, id: Id)
    requires IsRun(run) && i <= j <= |run.steps|
    requires id in run.states[i].trust.pairings
    ensures id in run.states[j].trust.pairings
    ensures run.states[i].trust.pairings[id].status != PairingPending ==>
              run.states[j].trust.pairings[id] == run.states[i].trust.pairings[id]
    decreases j - i
  {
    if i < j {
      PairingLeavesPendingOnce(run, i, j - 1, id);
      assert Follows(run, j - 1);
      NextPairingStep(run.states[j - 1], run.steps[j - 1], id);
    }
  }

  /** Where a pairing became completed, that step brought the matching token before expiry. */
  lemma {:induction false} CompletionHadTheToken(run: Run, i: nat, k: nat, id: Id) returns (j: nat)
    requires IsRun(run) && i <= k <= |run.steps|
    requires id in run.states[i].trust.pairings && run.states[i].trust.pairings[id].status == PairingPending
    requires id in run.states[k].trust.pairings && run.states[k].trust.pairings[id].status == PairingCompleted
    ensures i <= j < k && run.steps[j].action.OnPairing? && run.steps[j].action.pairingCall.EndPairing?
    ensures var c, before := run.steps[j].action.pairingCall.completion, run.states[j];
            && c.pairingId == id && id in before.trust.pairings
            && before.config.tokenHash(c.challengeResponse) == before.trust.pairings[id].tokenHash
            && run.steps[j].now < before.trust.pairings[id].expiresAt
    decreases k - i
  {
    var rows := run.states[k - 1].trust.pairings;
    PairingLeavesPendingOnce(run, i, k - 1, id);
    assert Follows(run, k - 1);
    NextPairingStep(run.states[k - 1], run.steps[k - 1], id);
    if rows[id].status == PairingPending {
      j := k - 1;
    } else {
      j := CompletionHadTheToken(run, i, k - 1, id);
    }
  }
}
