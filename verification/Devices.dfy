/** Pairing sessions, devices, access and refresh tokens, revocation. */
module Devices {
  import opened Wrappers
  import opened Records
  import opened Tables

  const ACCESS_TTL: int := 15 * 60
  const REFRESH_TTL: int := 30 * 24 * 60 * 60

  function DefaultPermissions(): set<Permission> {
    {ReadState, Chat, MayApprove, Intervene}
  }

  function PutPairing(db: Db, id: Id, row: PairingRow): (r: Db)
    ensures Quiet(db, r)
  {
    db.(trust := db.trust.(pairings := db.trust.pairings[id := row]))
  }

  function StartPairing(db: Db, id: Id, token: string, permissions: set<Permission>, ttl: Option<int>,
                        header: Option<string>, now: Time): (r: Db)
    ensures Quiet(db, r) && r == db.(log := r.log, trust := db.trust.(pairings := r.trust.pairings))
  {
    var seconds := ttl.GetOr(db.config.pairingTtl);
    var d1 := PutPairing(db, id, PairingRow(db.config.tokenHash(token), PairingPending, db.config.nodeId, permissions,
                                            now + seconds * SECOND));
    AppendAudit(d1, AuditEntry(PairingStarted, "gateway", "gateway", db.config.nodeId, header, About(id), NoRefs()))
  }

  function ExpirePairingIfNeeded(db: Db, id: Id, now: Time): (r: Db)
    requires id in db.trust.pairings
    ensures Quiet(db, r) && r == db.(trust := db.trust.(pairings := r.trust.pairings))
    ensures id in r.trust.pairings
  {
    var row := db.trust.pairings[id];
    if row.status == PairingPending && row.expiresAt <= now then PutPairing(db, id, row.(status := PairingExpired))
        else db
  }

  function ReadPairing(db: Db, id: Id, now: Time): (r: (Db, Reply))
    ensures Quiet(db, r.0) && r.0 == db.(trust := db.trust.(pairings := r.0.trust.pairings))
  {
    if id in db.trust.pairings then (ExpirePairingIfNeeded(db, id, now), Done) else (db, Refused(404))
  }

  function PutToken(db: Db, token: string, row: TokenRow): (r: Db)
    ensures Quiet(db, r)
  {
    db.(trust := db.trust.(tokens := db.trust.tokens[db.config.tokenHash(token) := row]))
  }

  function NewToken(tokenType: TokenType, deviceId: Id, now: Time): TokenRow {
    TokenRow(tokenType, deviceId, now + (if tokenType == Access then ACCESS_TTL else REFRESH_TTL) * SECOND, None)
  }

  /** An access and a refresh token for one device. */
  function IssueTokens(db: Db, access: string, refresh: string, deviceId: Id, now: Time): (r: Db)
    ensures Quiet(db, r) && r == db.(trust := db.trust.(tokens := r.trust.tokens))
  {
    PutToken(PutToken(db, access, NewToken(Access, deviceId, now)), refresh, NewToken(Refresh, deviceId, now))
  }

  function PutDevice(db: Db, id: Id, row: DeviceRow): (r: Db)
    ensures Quiet(db, r)
  {
    db.(trust := db.trust.(devices := db.trust.devices[id := row]))
  }

  datatype Completion = Completion(
    pairingId: Id, challengeResponse: string, publicKey: string, deviceId: Id, access: string, refresh: string)

  function RegisteredEntry(p: PairingRow, c: Completion, permissions: set<Permission>,
                           header: Option<string>): AuditEntry {
    AuditEntry(DeviceRegistered, "device", c.deviceId, p.nodeId, header, PairingDetails(c.pairingId, permissions),
               NoRefs())
  }

  function RejectedEntry(p: PairingRow, c: Completion, header: Option<string>): AuditEntry {
    AuditEntry(PairingRejected, "gateway", "gateway", p.nodeId, header, About(c.pairingId), NoRefs())
  }

  function GrantedPermissions(p: PairingRow): set<Permission> {
    if p.permissions != {} then p.permissions else DefaultPermissions()
  }

  function FinishPairing(db: Db, c: Completion, header: Option<string>, now: Time): (r: Db)
    requires c.pairingId in db.trust.pairings
    ensures Quiet(db, r)
    ensures r == db.(log := r.log, trust := db.trust.(pairings := r.trust.pairings, devices := r.trust.devices,
                                                      tokens := r.trust.tokens))
  {
    var p := db.trust.pairings[c.pairingId];
    var d1 := PutDevice(db, c.deviceId, DeviceRow(p.nodeId, c.publicKey, DeviceActive, GrantedPermissions(p)));
    var d2 := IssueTokens(d1, c.access, c.refresh, c.deviceId, now);
    var d3 := PutPairing(d2, c.pairingId, p.(status := PairingCompleted));
    var d4 := AppendAudit(d3, RegisteredEntry(p, c, GrantedPermissions(p), header));
    CreateEvent(d4, p.nodeId, Note("system.health", "device_registered"))
  }

  function CompletePairing(db: Db, c: Completion, header: Option<string>, now: Time): (r: (Db, Reply))
    ensures Quiet(db, r.0)
    ensures r.0 == db.(log := r.0.log, trust := db.trust.(pairings := r.0.trust.pairings, devices := r.0.trust.devices,
                                                          tokens := r.0.trust.tokens))
  {
    if c.pairingId !in db.trust.pairings then (db, Refused(400))
    else
      var d1 := ExpirePairingIfNeeded(db, c.pairingId, now);
      var p := d1.trust.pairings[c.pairingId];
      if p.status != PairingPending then (d1, Refused(400))
      else if db.config.tokenHash(c.challengeResponse) != p.tokenHash then
        (AppendAudit(d1, RejectedEntry(p, c, header)), Refused(400))
      else (FinishPairing(d1, c, header, now), Tokens(c.deviceId))
  }

  // ----- tokens -----

  predicate DeviceIsActive(db: Db, deviceId: Id) {
    deviceId in db.trust.devices && db.trust.devices[deviceId].status == DeviceActive
  }

  /** A stored token of the right type, not revoked, unexpired, of an active device. */
  predicate TokenAccepted(db: Db, token: string, tokenType: TokenType, now: Time) {
    var hash := db.config.tokenHash(token);
    && hash in db.trust.tokens
    && db.trust.tokens[hash].tokenType == tokenType
    && db.trust.tokens[hash].revokedAt.None?
    && now < db.trust.tokens[hash].expiresAt
    && DeviceIsActive(db, db.trust.tokens[hash].deviceId)
  }

  /** The old refresh token stays valid: refreshing only adds tokens. */
  function RefreshTokens(db: Db, deviceId: Id, token: string, access: string, refresh: string,
                         now: Time): (r: (Db, Reply))
    ensures Quiet(db, r.0) && r.0 == db.(trust := db.trust.(tokens := r.0.trust.tokens))
  {
    if !TokenAccepted(db, token, Refresh, now) then (db, Refused(401))
    else if db.trust.tokens[db.config.tokenHash(token)].deviceId != deviceId then (db, Refused(403))
    else (IssueTokens(db, access, refresh, deviceId, now), Tokens(deviceId))
  }

  // ----- revocation -----

  function RevokedTokens(tokens: map<Digest, TokenRow>, deviceId: Id, now: Time): map<Digest, TokenRow> {
    map h | h in tokens :: if tokens[h].deviceId == deviceId then tokens[h].(revokedAt := Some(now)) else tokens[h]
  }

  /** Both updates of one revocation; the tokens are stamped even when the device is unknown. */
  function RevokeRows(db: Db, deviceId: Id, now: Time): (r: Db)
    ensures Quiet(db, r) && r == db.(trust := db.trust.(devices := r.trust.devices, tokens := r.trust.tokens))
  {
    var devices := if deviceId in db.trust.devices
                   then db.trust.devices[deviceId := db.trust.devices[deviceId].(status := DeviceRevoked)]
                   else db.trust.devices;
    db.(trust := db.trust.(devices := devices, tokens := RevokedTokens(db.trust.tokens, deviceId, now)))
  }

  function RevokeEntry(db: Db, actorId: Id, deviceId: Id, header: Option<string>): AuditEntry {
    AuditEntry(DeviceRevocation, "device", actorId, db.config.nodeId, header, About(deviceId), NoRefs())
  }

  function RevokeDevice(db: Db, actorId: Id, deviceId: Id, header: Option<string>, now: Time): (r: (Db, Reply))
    ensures Quiet(db, r.0)
    ensures r.0 == db.(log := r.0.log, trust := db.trust.(devices := r.0.trust.devices, tokens := r.0.trust.tokens))
  {
    var d1 := RevokeRows(db, deviceId, now);
    if deviceId in db.trust.devices then (AppendAudit(d1, RevokeEntry(db, actorId, deviceId, header)), Done)
    else (d1, Refused(404))
  }
}
