/** Who is let in and who is not, spelled out: signatures, permissions and grants, pairing, tokens,
    revocation, with the constants as numbers and the tables by constructor. */
module TrustOutcomes {
  import opened Wrappers
  import opened Records
  import opened Tables
  import opened Machine
  import Base64Url
  import Canonical
  import Capabilities
  import Decimal
  import Devices
  import DeviceTrust
  import Signing

  // ----- signed requests -----

  predicate HasHeaders(req: Signing.SignedRequest) {
    && req.deviceId.Some? && req.deviceId.value != "" && req.timestamp.Some? && req.timestamp.value != ""
    && req.nonce.Some? && req.nonce.value != "" && req.signature.Some? && req.signature.value != ""
  }

  /** The time stamp is a number of seconds at most 300 away from the clock, which runs in microseconds. */
  predicate Recent(timestamp: string, now: Time) {
    var t := Decimal.ParseInt(timestamp);
    t.Some? && -300 <= now / 1_000_000 - t.value <= 300
  }

  /** The signature is one, under the key, of these six lines. */
  predicate SignedWith(config: Config, publicKey: string, req: Signing.SignedRequest)
    requires HasHeaders(req)
  {
    var key, signature := Base64Url.Decode(publicKey), Base64Url.Decode(req.signature.value);
    && key.Some? && |key.value| == 32 && signature.Some?
    && config.ed25519(key.value, signature.value,
                      "HMCP-SIGN-V1" + "\n" + Canonical.Upper(req.verb) + "\n" + req.path + "\n" + req.timestamp.value
                      + "\n" + req.nonce.value + "\n" + config.sha256Hex(req.body))
  }

  lemma SixLines(m: Canonical.Message, sha256Hex: seq<Base64Url.Byte> -> string)
    ensures Canonical.Request(m, sha256Hex) ==
            "HMCP-SIGN-V1" + "\n" + Canonical.Upper(m.verb) + "\n" + m.path + "\n" + m.timestamp + "\n" + m.nonce + "\n"
            + sha256Hex(m.body)
  {
    var a, b, c := [sha256Hex(m.body)], [m.nonce, sha256Hex(m.body)], [m.timestamp, m.nonce, sha256Hex(m.body)];
    var d, e := [m.path] + c, [Canonical.Upper(m.verb), m.path] + c;
    assert b[1..] == a && c[1..] == b && d[1..] == c && e[1..] == d && (["HMCP-SIGN-V1"] + e)[1..] == e;
    assert Canonical.JoinLines(a) == a[0];
    assert Canonical.JoinLines(b) == m.nonce + "\n" + a[0];
    assert Canonical.JoinLines(c) == m.timestamp + "\n" + Canonical.JoinLines(b);
    assert Canonical.JoinLines(d) == m.path + "\n" + Canonical.JoinLines(c);
    assert Canonical.JoinLines(e) == Canonical.Upper(m.verb) + "\n" + Canonical.JoinLines(d);
    assert Canonical.JoinLines(["HMCP-SIGN-V1"] + e) == "HMCP-SIGN-V1" + "\n" + Canonical.JoinLines(e);
    assert [Canonical.VERSION, Canonical.Upper(m.verb), m.path, m.timestamp, m.nonce, sha256Hex(m.body)] ==
           ["HMCP-SIGN-V1"] + e;
  }

  lemma SignatureSpelled(config: Config, publicKey: string, req: Signing.SignedRequest)
    requires HasHeaders(req)
    ensures Signing.SignatureValid(config, publicKey, req) <==> SignedWith(config, publicKey, req)
  {
    SixLines(Canonical.Message(req.verb, req.path, req.timestamp.value, req.nonce.value, req.body), config.sha256Hex);
  }

  /** Whom the gateway takes for a device: headers, an active device, an unused nonce, a signature by its
      key over the six lines, and a time stamp at most 300 seconds off. */
  lemma AcceptedExactlyWhen(db: Db, req: Signing.SignedRequest, now: Time)
    ensures Signing.Accepts(db, req, now) <==>
            && HasHeaders(req)
            && req.deviceId.value in db.trust.devices
            && db.trust.devices[req.deviceId.value].status == DeviceActive
            && (req.deviceId.value, req.nonce.value) !in db.trust.nonces
            && SignedWith(db.config, db.trust.devices[req.deviceId.value].publicKey, req)
            && Recent(req.timestamp.value, now)
  {
    if HasHeaders(req) && req.deviceId.value in db.trust.devices {
      SignatureSpelled(db.config, db.trust.devices[req.deviceId.value].publicKey, req);
    }
  }

  /** On the edges of the window: 300 seconds early or late is accepted, 301 is not. */
  lemma WindowEdges(db: Db, req: Signing.SignedRequest, t: int)
    requires HasHeaders(req) && Decimal.ParseInt(req.timestamp.value) == Some(t)
    requires req.deviceId.value in db.trust.devices
    requires db.trust.devices[req.deviceId.value].status == DeviceActive
    requires (req.deviceId.value, req.nonce.value) !in db.trust.nonces
    requires SignedWith(db.config, db.trust.devices[req.deviceId.value].publicKey, req)
    ensures Signing.Accepts(db, req, (t + 300) * 1_000_000) && Signing.Accepts(db, req, (t - 300) * 1_000_000)
    ensures !Signing.Accepts(db, req, (t + 301) * 1_000_000) && !Signing.Accepts(db, req, (t - 301) * 1_000_000)
  {
    AcceptedExactlyWhen(db, req, (t + 300) * 1_000_000);
    AcceptedExactlyWhen(db, req, (t - 300) * 1_000_000);
    AcceptedExactlyWhen(db, req, (t + 301) * 1_000_000);
    AcceptedExactlyWhen(db, req, (t - 301) * 1_000_000);
  }

  /** In a run. */
  lemma AcceptedStepsAreRecent(run: Run, i: nat)
    requires IsRun(run) && i < |run.steps| && DeviceTrust.AcceptedStep(run.states[i], run.steps[i])
    ensures var req := run.steps[i].action.request;
            req.timestamp.Some? && Recent(req.timestamp.value, run.steps[i].now)
  {
    AcceptedExactlyWhen(run.states[i], run.steps[i].action.request, run.steps[i].now);
  }

  /** Why a request that is not accepted is rejected: the first of seven reasons that applies. */
  function ReasonFor(db: Db, req: Signing.SignedRequest, now: Time): FailureReason {
    if !HasHeaders(req) then MissingHeaders
    else if req.deviceId.value !in db.trust.devices then UnknownDevice
    else if db.trust.devices[req.deviceId.value].status == DeviceRevoked then DeviceNotActive
    else if Decimal.ParseInt(req.timestamp.value).None? then InvalidTimestamp
    else if !Recent(req.timestamp.value, now) then OutsideWindow
    else if !SignedWith(db.config, db.trust.devices[req.deviceId.value].publicKey, req) then InvalidSignature
    else ReplayedNonce
  }

  lemma ReasonSpelled(db: Db, req: Signing.SignedRequest, now: Time)
    requires !Signing.Accepts(db, req, now)
    ensures Signing.FirstFailure(db, req, now) == Some(ReasonFor(db, req, now))
  {
    if HasHeaders(req) && req.deviceId.value in db.trust.devices {
      SignatureSpelled(db.config, db.trust.devices[req.deviceId.value].publicKey, req);
    }
  }

  /** The answer to a rejected request, and the one audit row it leaves. */
  lemma RejectionAnswers(db: Db, req: Signing.SignedRequest, call: DeviceCall, header: Option<string>, now: Time)
    requires CallOk(call) && !Signing.Accepts(db, req, now)
    ensures var reason := ReasonFor(db, req, now);
            var nonceHash := if req.nonce.Some? && req.nonce.value != "" then Some(db.config.textHash(req.nonce.value))
                             else None;
            NextSigned(db, req, call, header, now) ==
            (AppendAudit(db, AuditEntry(SignatureFailed, "gateway", "gateway", db.config.nodeId, header,
                                        AuthFailure(reason, req.deviceId, req.verb, req.path, nonceHash),
                                        AuditRefs(None, None, None))),
             Refused(if reason == DeviceNotActive then 403 else if reason == ReplayedNonce then 409 else 401))
  {
    ReasonSpelled(db, req, now);
  }

  /** An accepted one uses its nonce up and runs the route as the device of its header, with that
      device's node and permissions. */
  lemma AcceptedRuns(db: Db, req: Signing.SignedRequest, call: DeviceCall, header: Option<string>, now: Time)
    requires CallOk(call) && Signing.Accepts(db, req, now)
    ensures var id := req.deviceId.value;
            var used := db.(trust := db.trust.(nonces := db.trust.nonces + {(id, req.nonce.value)}));
            NextSigned(db, req, call, header, now) ==
            HandleDevice(used, VerifiedDevice(id, db.trust.devices[id].nodeId, db.trust.devices[id].permissions), call,
                         header, now)
  {
  }

  /** A caller that is not local gets 403 and one audit row, and nothing else happens. */
  lemma StrangersAreTurnedAway(db: Db, call: RuntimeCall, header: Option<string>, now: Time)
    requires RuntimeCallOk(call)
    ensures NextLocal(db, false, call, header, now) ==
            (AppendAudit(db, AuditEntry(LocalCallerRejected, "gateway", "gateway", db.config.nodeId, header, Empty,
                                        AuditRefs(None, None, None))), Refused(403))
    ensures NextLocal(db, true, call, header, now) == HandleRuntime(db, call, header, now)
  {
  }

  // ----- capabilities -----

  /** A stored grant to this subject: granted, for the node, for the agent unless either side names none,
      and not run out. */
  predicate GrantsTo(g: GrantRow, subjectType: SubjectType, subjectId: Id, capability: Capability, nodeId: Id,
                     agentId: Option<Id>, now: Time) {
    && g.granted && g.subjectType == subjectType && g.subjectId == subjectId && g.capability == capability
    && g.nodeId == nodeId && (g.expiresAt.Some? ==> now < g.expiresAt.value)
    && (g.agentId.None? || g.agentId.value == "" || agentId.None? || agentId.value == ""
        || g.agentId.value == agentId.value)
  }

  predicate Granted(db: Db, subjectType: SubjectType, subjectId: Id, capability: Capability, nodeId: Id,
                    agentId: Option<Id>, now: Time) {
    exists g | g in db.trust.grants :: GrantsTo(g, subjectType, subjectId, capability, nodeId, agentId, now)
  }

  lemma GrantSpelled(db: Db, q: Capabilities.Question, now: Time)
    ensures Capabilities.HasGrant(db.trust.grants, q, now) <==>
            Granted(db, q.subjectType, q.subjectId, q.capability, q.nodeId, q.agentId, now)
  {
    forall g | g in db.trust.grants
      ensures Capabilities.Answers(g, q, now) <==>
              GrantsTo(g, q.subjectType, q.subjectId, q.capability, q.nodeId, q.agentId, now)
    {
    }
  }

  function NodeOr(nodeId: Option<Id>, default: Id): Id {
    if nodeId.Some? && nodeId.value != "" then nodeId.value else default
  }

  /** The permission that stands for each capability, or a grant of the capability to the device. */
  lemma DeviceCheck(db: Db, device: VerifiedDevice, capability: Capability, header: Option<string>,
                    nodeId: Option<Id>, agentId: Option<Id>, now: Time)
    ensures var node := NodeOr(nodeId, db.config.nodeId);
            var permitted :=
              match capability
              case Approvals => MayApprove in device.permissions
              case TuiAccess => UseTui in device.permissions
              case TuaAccess => Intervene in device.permissions
              case BrowserAccess => BrowserAssist in device.permissions
              case VoiceAccess => UseVoice in device.permissions
              case Notifications => ReadState in device.permissions;
            var holds := permitted || Granted(db, DeviceSubject, device.deviceId, capability, node, agentId, now);
            && (Capabilities.DeviceHolds(db, device, capability, nodeId, agentId, now) <==> holds)
            && Capabilities.RequireDevice(db, device, capability, header, nodeId, agentId, now) ==
               if holds then (db, true)
               else (AppendAudit(db, AuditEntry(CapabilityDenied, "device", device.deviceId, node, header,
                                                Denial(capability, true), AuditRefs(agentId, None, None))), false)
  {
    GrantSpelled(db, Capabilities.Question(DeviceSubject, device.deviceId, capability,
                                           NodeOr(nodeId, db.config.nodeId), agentId), now);
  }

  /** With no grants stored, exactly the permission decides. */
  lemma PermissionAloneDecides(db: Db, device: VerifiedDevice, header: Option<string>, nodeId: Option<Id>,
                               agentId: Option<Id>, now: Time)
    requires db.trust.grants == []
    ensures Capabilities.RequireDevice(db, device, Approvals, header, nodeId, agentId, now).1 <==>
            MayApprove in device.permissions
    ensures Capabilities.RequireDevice(db, device, TuiAccess, header, nodeId, agentId, now).1 <==>
            UseTui in device.permissions
    ensures Capabilities.RequireDevice(db, device, TuaAccess, header, nodeId, agentId, now).1 <==>
            Intervene in device.permissions
    ensures Capabilities.RequireDevice(db, device, BrowserAccess, header, nodeId, agentId, now).1 <==>
            BrowserAssist in device.permissions
    ensures Capabilities.RequireDevice(db, device, VoiceAccess, header, nodeId, agentId, now).1 <==>
            UseVoice in device.permissions
    ensures Capabilities.RequireDevice(db, device, Notifications, header, nodeId, agentId, now).1 <==>
            ReadState in device.permissions
  {
    DeviceCheck(db, device, Approvals, header, nodeId, agentId, now);
    DeviceCheck(db, device, TuiAccess, header, nodeId, agentId, now);
    DeviceCheck(db, device, TuaAccess, header, nodeId, agentId, now);
    DeviceCheck(db, device, BrowserAccess, header, nodeId, agentId, now);
    DeviceCheck(db, device, VoiceAccess, header, nodeId, agentId, now);
    DeviceCheck(db, device, Notifications, header, nodeId, agentId, now);
  }

  predicate ListsAvailable(items: seq<CapabilityItem>, name: string) {
    CapabilityItem(name, true) in items
  }

  /** The node or the agent offers the capability under the name records use for it. */
  predicate OfferedBy(db: Db, nodeId: Id, agentId: Id, name: string) {
    || (nodeId in db.fleet.nodes && ListsAvailable(db.fleet.nodes[nodeId], name))
    || (AgentKey(nodeId, agentId) in db.fleet.agents
        && ListsAvailable(db.fleet.agents[AgentKey(nodeId, agentId)].capabilities, name))
  }

  lemma OffersSpelled(items: seq<CapabilityItem>, name: string)
    ensures Capabilities.Offers(items, name) <==> ListsAvailable(items, name)
  {
    if item :| item in items && item.name == name && item.available {
      assert item == CapabilityItem(name, true);
    }
  }

  /** A runtime: approvals and notifications always, else the record of its node or agent, or a grant to
      the runtime, the agent or the node. */
  lemma RuntimeCheck(db: Db, actorId: Id, capability: Capability, header: Option<string>, nodeId: Option<Id>,
                     agentId: Option<Id>, now: Time)
    ensures var node := NodeOr(nodeId, db.config.nodeId);
            var known := agentId.Some? && agentId.value != "";
            var name :=
              match capability
              case Approvals => "approvals"
              case TuiAccess => "tui"
              case TuaAccess => "tua"
              case BrowserAccess => "browser_assist"
              case VoiceAccess => "voice"
              case Notifications => "notifications";
            var holds :=
              || capability == Approvals || capability == Notifications
              || (known && OfferedBy(db, node, agentId.value, name))
              || Granted(db, RuntimeSubject, actorId, capability, node, agentId, now)
              || (known && Granted(db, AgentSubject, agentId.value, capability, node, agentId, now))
              || Granted(db, NodeSubject, node, capability, node, agentId, now);
            Capabilities.RequireRuntime(db, actorId, capability, header, nodeId, agentId, now) ==
            if holds then (db, true)
            else (AppendAudit(db, AuditEntry(CapabilityDenied, "hermes", actorId, node, header,
                                             Denial(capability, false), AuditRefs(agentId, None, None))), false)
  {
    var node := NodeOr(nodeId, db.config.nodeId);
    var name := Capabilities.RecordName(capability);
    GrantSpelled(db, Capabilities.Question(RuntimeSubject, actorId, capability, node, agentId), now);
    GrantSpelled(db, Capabilities.Question(NodeSubject, node, capability, node, agentId), now);
    if node in db.fleet.nodes {
      OffersSpelled(db.fleet.nodes[node], name);
    }
    if agentId.Some? {
      GrantSpelled(db, Capabilities.Question(AgentSubject, agentId.value, capability, node, agentId), now);
      if AgentKey(node, agentId.value) in db.fleet.agents {
        OffersSpelled(db.fleet.agents[AgentKey(node, agentId.value)].capabilities, name);
      }
    }
  }

  lemma GrantingStores(db: Db, step: Step)
    requires step.action.GrantCapability?
    ensures Next(db, step) == (db.(trust := db.trust.(grants := db.trust.grants + [step.action.grant])), Done)
  {
  }

  // ----- pairing -----

  lemma PairingBegins(db: Db, id: Id, token: string, permissions: set<Permission>, ttl: Option<int>,
                      header: Option<string>, now: Time)
    ensures var seconds := if ttl.Some? then ttl.value else db.config.pairingTtl;
            var row := PairingRow(db.config.tokenHash(token), PairingPending, db.config.nodeId, permissions,
                                  now + seconds * 1_000_000);
            HandlePairing(db, BeginPairing(id, token, permissions, ttl), header, now) ==
            (AppendAudit(db.(trust := db.trust.(pairings := db.trust.pairings[id := row])),
                         AuditEntry(PairingStarted, "gateway", "gateway", db.config.nodeId, header, About(id),
                                    AuditRefs(None, None, None))), Done)
  {
  }

  /** A pending session past its time is expired by whoever looks at it. */
  function Looked(db: Db, id: Id, now: Time): Db
    requires id in db.trust.pairings
  {
    var row := db.trust.pairings[id];
    if row.status == PairingPending && row.expiresAt <= now
    then db.(trust := db.trust.(pairings := db.trust.pairings[id := row.(status := PairingExpired)])) else db
  }

  lemma PairingPolled(db: Db, id: Id, header: Option<string>, now: Time)
    ensures HandlePairing(db, PollPairing(id), header, now) ==
            if id in db.trust.pairings then (Looked(db, id, now), Done) else (db, Refused(404))
  {
  }

  /** The two tokens of a device: fifteen minutes and thirty days. */
  function WithTokens(db: Db, access: string, refresh: string, deviceId: Id, now: Time): Db {
    var hash := db.config.tokenHash;
    db.(trust := db.trust.(tokens := db.trust.tokens
      [hash(access) := TokenRow(Access, deviceId, now + 900 * 1_000_000, None)]
      [hash(refresh) := TokenRow(TokenType.Refresh, deviceId, now + 2_592_000 * 1_000_000, None)]))
  }

  /** Every way to end a pairing; the device gets what the session asked for, or the four defaults. */
  lemma PairingEnds(db: Db, c: Devices.Completion, header: Option<string>, now: Time)
    ensures HandlePairing(db, EndPairing(c), header, now) ==
            if c.pairingId !in db.trust.pairings then (db, Refused(400))
            else
              var p := db.trust.pairings[c.pairingId];
              var none := AuditRefs(None, None, None);
              if p.status != PairingPending || p.expiresAt <= now then (Looked(db, c.pairingId, now), Refused(400))
              else if db.config.tokenHash(c.challengeResponse) != p.tokenHash then
                (AppendAudit(db, AuditEntry(PairingRejected, "gateway", "gateway", p.nodeId, header,
                                            About(c.pairingId), none)), Refused(400))
              else
                var granted := if p.permissions == {} then {ReadState, Chat, MayApprove, Intervene} else p.permissions;
                var device := DeviceRow(p.nodeId, c.publicKey, DeviceActive, granted);
                var d1 := db.(trust := db.trust.(devices := db.trust.devices[c.deviceId := device]));
                var d2 := WithTokens(d1, c.access, c.refresh, c.deviceId, now);
                var d3 := d2.(trust := d2.trust.(
                  pairings := db.trust.pairings[c.pairingId := p.(status := PairingCompleted)]));
                var d4 := AppendAudit(d3, AuditEntry(DeviceRegistered, "device", c.deviceId, p.nodeId, header,
                                                     PairingDetails(c.pairingId, granted), none));
                (CreateEvent(d4, p.nodeId, Note("system.health", "device_registered")), Tokens(c.deviceId))
  {
  }

  // ----- tokens and revocation -----

  /** A stored token of the type asked for, not revoked, not run out, of an active device. */
  predicate LiveToken(db: Db, token: string, tokenType: TokenType, now: Time) {
    var hash := db.config.tokenHash(token);
    && hash in db.trust.tokens
    && var row := db.trust.tokens[hash];
    && row.tokenType == tokenType && row.revokedAt == None && now < row.expiresAt
    && row.deviceId in db.trust.devices && db.trust.devices[row.deviceId].status == DeviceActive
  }

  /** The event socket opens exactly for a live access token, and announces itself. */
  lemma StreamOpensExactlyWhen(db: Db, token: string, header: Option<string>, now: Time)
    ensures Next(db, Step(now, header, StreamConnect(token))) ==
            if token != "" && LiveToken(db, token, Access, now)
            then (CreateEvent(db, db.config.nodeId, Note("system.health", "websocket_connected")), Done)
            else (db, Refused(1008))
  {
  }

  /** A refresh answers exactly a live refresh token of the signer, and stores two more tokens. */
  lemma RefreshAnswersExactlyWhen(db: Db, device: VerifiedDevice, token: string, access: string, refresh: string,
                                  header: Option<string>, now: Time)
    ensures HandleTrust(db, device, TrustCall.Refresh(token, access, refresh), header, now) ==
            if !LiveToken(db, token, TokenType.Refresh, now) then (db, Refused(401))
            else if db.trust.tokens[db.config.tokenHash(token)].deviceId != device.deviceId then (db, Refused(403))
            else (WithTokens(db, access, refresh, device.deviceId, now), Tokens(device.deviceId))
  {
  }

  /** A revocation stamps every token of the device, also of an unknown one, and nothing of any other. */
  lemma RevocationLeaves(db: Db, device: VerifiedDevice, id: Id, header: Option<string>, now: Time)
    ensures var (r, reply) := HandleTrust(db, device, Revoke(id), header, now);
            && r.trust.tokens == (map h | h in db.trust.tokens ::
                 if db.trust.tokens[h].deviceId == id then db.trust.tokens[h].(revokedAt := Some(now))
                 else db.trust.tokens[h])
            && (if id in db.trust.devices
                then && reply == Done
                     && r.trust.devices == db.trust.devices[id := db.trust.devices[id].(status := DeviceRevoked)]
                     && r.log == AppendAudit(db, AuditEntry(DeviceRevocation, "device", device.deviceId,
                                                            db.config.nodeId, header, About(id),
                                                            AuditRefs(None, None, None))).log
                else reply == Refused(404) && r.trust.devices == db.trust.devices && r.log == db.log)
  {
  }

  /** In a run: no stream opens, and no refresh is answered, with a token of a revoked device. */
  lemma RevokedTokensOpenNothing(run: Run, i: nat, j: nat, deviceId: Id, token: string)
    requires IsRun(run) && i <= j < |run.steps| && DeviceTrust.Revoked(run.states[i], deviceId)
    requires var db := run.states[j];
             && db.config.tokenHash(token) in db.trust.tokens
             && db.trust.tokens[db.config.tokenHash(token)].deviceId == deviceId
    ensures run.steps[j].action == StreamConnect(token) ==> run.replies[j] == Refused(1008)
    ensures forall access, refresh, header, device ::
              HandleTrust(run.states[j], device, TrustCall.Refresh(token, access, refresh), header,
                          run.steps[j].now).1 == Refused(401)
  {
    DeviceTrust.RevocationIsPermanent(run, i, j, deviceId);
    var db, step := run.states[j], run.steps[j];
    assert Follows(run, j);
    if step.action == StreamConnect(token) {
      StreamOpensExactlyWhen(db, token, step.header, step.now);
    }
    forall access, refresh, header, device
      ensures HandleTrust(db, device, TrustCall.Refresh(token, access, refresh), header, step.now).1 == Refused(401)
    {
      RefreshAnswersExactlyWhen(db, device, token, access, refresh, header, step.now);
    }
  }
}
