/** Verification of a device-signed request: header checks, time window, signature, nonce. */
module Signing {
  import opened Wrappers
  import opened Records
  import opened Tables
  import Base64Url
  import Canonical
  import Decimal

  const TOLERANCE := 300

  datatype SignedRequest = SignedRequest(
    deviceId: Option<string>, timestamp: Option<string>, nonce: Option<string>, signature: Option<string>,
    verb: string, path: string, body: seq<Base64Url.Byte>)

  predicate HeadersGiven(req: SignedRequest) {
    Given(req.deviceId) && Given(req.timestamp) && Given(req.nonce) && Given(req.signature)
  }

  predicate InWindow(now: Time, timestamp: int) {
    -TOLERANCE <= now / SECOND - timestamp <= TOLERANCE
  }

  function CanonicalOf(config: Config, req: SignedRequest): string
    requires HeadersGiven(req)
  {
    Canonical.Request(
      Canonical.Message(req.verb, req.path, req.timestamp.value, req.nonce.value, req.body), config.sha256Hex)
  }

  /** Unreadable keys and signatures, and keys of the wrong length, count as invalid signatures. */
  predicate SignatureValid(config: Config, publicKey: string, req: SignedRequest)
    requires HeadersGiven(req)
  {
    var key := Base64Url.Decode(publicKey);
    var signature := Base64Url.Decode(req.signature.value);
    && key.Some? && |key.value| == 32
    && signature.Some?
    && config.ed25519(key.value, signature.value, CanonicalOf(config, req))
  }

  /** The first check that fails, in the order the gateway makes them. */
  function FirstFailure(db: Db, req: SignedRequest, now: Time): Option<FailureReason> {
    if !HeadersGiven(req) then Some(MissingHeaders)
    else if req.deviceId.value !in db.trust.devices then Some(UnknownDevice)
    else
      var device := db.trust.devices[req.deviceId.value];
      var timestamp := Decimal.ParseInt(req.timestamp.value);
      if device.status != DeviceActive then Some(DeviceNotActive)
      else if timestamp.None? then Some(InvalidTimestamp)
      else if !InWindow(now, timestamp.value) then Some(OutsideWindow)
      else if !SignatureValid(db.config, device.publicKey, req) then Some(InvalidSignature)
      else if (req.deviceId.value, req.nonce.value) in db.trust.nonces then Some(ReplayedNonce)
      else None
  }

  /** What acceptance means, with no order of checks. */
  predicate Accepts(db: Db, req: SignedRequest, now: Time) {
    && HeadersGiven(req)
    && req.deviceId.value in db.trust.devices
    && db.trust.devices[req.deviceId.value].status == DeviceActive
    && (req.deviceId.value, req.nonce.value) !in db.trust.nonces
    && SignatureValid(db.config, db.trust.devices[req.deviceId.value].publicKey, req)
    && var timestamp := Decimal.ParseInt(req.timestamp.value);
    timestamp.Some? && InWindow(now, timestamp.value)
  }

  function Code(reason: FailureReason): nat {
    match reason
    case DeviceNotActive => 403
    case ReplayedNonce => 409
    case _ => 401
  }

  function FailureEntry(config: Config, req: SignedRequest, header: Option<string>, reason: FailureReason): AuditEntry {
    AuditEntry(SignatureFailed, "gateway", "gateway", config.nodeId, header,
               AuthFailure(reason, req.deviceId, req.verb, req.path,
                           if Given(req.nonce) then Some(config.textHash(req.nonce.value)) else None),
               NoRefs())
  }

  /** The device id and nonce that an accepted request uses up. */
  function NonceKey(req: SignedRequest): (Id, string) {
    (req.deviceId.GetOr(""), req.nonce.GetOr(""))
  }

  function RecordNonce(db: Db, key: (Id, string)): Db {
    db.(trust := db.trust.(nonces := db.trust.nonces + {key}))
  }

  function Verify(db: Db, req: SignedRequest, header: Option<string>, now: Time)
      : (r: (Db, Result<VerifiedDevice, FailureReason>))
    ensures Quiet(db, r.0)
    ensures r.0.trust == db.trust.(nonces := r.0.trust.nonces) && r.0.desk == db.desk && r.0.tui == db.tui
    ensures r.0.board == db.board && r.0.fleet == db.fleet
    ensures r.1.Success? <==> Accepts(db, req, now)
    ensures r.1.Success? ==> r.0.trust.nonces == db.trust.nonces + {NonceKey(req)} && r.0.log == db.log
    ensures r.1.Failure? ==> r.0.trust == db.trust
  {
    var failure := FirstFailure(db, req, now);
    if failure.Some? then
      (AppendAudit(db, FailureEntry(db.config, req, header, failure.value)), Failure(failure.value))
    else
      var device := db.trust.devices[req.deviceId.value];
      (RecordNonce(db, NonceKey(req)), Success(VerifiedDevice(req.deviceId.value, device.nodeId, device.permissions)))
  }

  /** A rejected request leaves exactly one audit row and uses no nonce up; an accepted one leaves
      no row, and its nonce is good for nothing afterwards. */
  lemma VerifyOutcome(db: Db, req: SignedRequest, header: Option<string>, now: Time)
    ensures var r := Verify(db, req, header, now);
            if Accepts(db, req, now)
            then r.0.log == db.log && NonceKey(req) !in db.trust.nonces && !Accepts(r.0, req, now)
            else && r.0.trust == db.trust && r.0.log.events == db.log.events
                 && |r.0.log.audit| == |db.log.audit| + 1
                 && r.0.log.audit[|db.log.audit|].content.kind == SignatureFailed
                 && r.0.log.audit[|db.log.audit|].content.payload.failure == r.1.error
  {
  }
}
