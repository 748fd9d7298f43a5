/** Capability checks on devices and runtimes, and the grant table they fall back on. */
module Capabilities {
  import opened Wrappers
  import opened Records
  import opened Tables

  function PermissionFor(capability: Capability): Permission {
    match capability
    case Approvals => MayApprove
    case TuiAccess => UseTui
    case TuaAccess => Intervene
    case BrowserAccess => BrowserAssist
    case VoiceAccess => UseVoice
    case Notifications => ReadState
  }

  /** The name under which a node or agent record lists a capability. */
  function RecordName(capability: Capability): string {
    match capability
    case Approvals => "approvals"
    case TuiAccess => "tui"
    case TuaAccess => "tua"
    case BrowserAccess => "browser_assist"
    case VoiceAccess => "voice"
    case Notifications => "notifications"
  }

  predicate Unexpired(expiresAt: Option<Time>, now: Time) {
    expiresAt.Some? ==> now < expiresAt.value
  }

  /** A grant for one agent also serves requests that name no agent, and the other way round. */
  predicate AgentsAgree(granted: Option<Id>, asked: Option<Id>) {
    Given(granted) && Given(asked) ==> granted.value == asked.value
  }

  datatype Question = Question(
    subjectType: SubjectType, subjectId: Id, capability: Capability, nodeId: Id, agentId: Option<Id>)

  predicate Listed(g: GrantRow, q: Question) {
    g.subjectType == q.subjectType && g.subjectId == q.subjectId && g.capability == q.capability && g.granted
  }

  predicate Answers(g: GrantRow, q: Question, now: Time) {
    Listed(g, q) && g.nodeId == q.nodeId && AgentsAgree(g.agentId, q.agentId) && Unexpired(g.expiresAt, now)
  }

  predicate HasGrant(grants: seq<GrantRow>, q: Question, now: Time) {
    exists g | g in grants :: Answers(g, q, now)
  }

  predicate DeviceHolds(db: Db, device: VerifiedDevice, capability: Capability, nodeId: Option<Id>,
                        agentId: Option<Id>, now: Time) {
    || PermissionFor(capability) in device.permissions
    || HasGrant(db.trust.grants,
                Question(DeviceSubject, device.deviceId, capability, Or(nodeId, db.config.nodeId), agentId), now)
  }

  predicate Offers(items: seq<CapabilityItem>, name: string) {
    exists item | item in items :: item.name == name && item.available
  }

  predicate RecordHas(db: Db, nodeId: Id, agentId: Id, capability: Capability) {
    || (nodeId in db.fleet.nodes && Offers(db.fleet.nodes[nodeId], RecordName(capability)))
    || (AgentKey(nodeId, agentId) in db.fleet.agents
        && Offers(db.fleet.agents[AgentKey(nodeId, agentId)].capabilities, RecordName(capability)))
  }

  predicate RuntimeHolds(db: Db, actorId: Id, capability: Capability, nodeId: Option<Id>, agentId: Option<Id>,
                         now: Time) {
    var node := Or(nodeId, db.config.nodeId);
    var grants := db.trust.grants;
    || capability == Approvals || capability == Notifications
    || (Given(agentId) && RecordHas(db, node, agentId.value, capability))
    || HasGrant(grants, Question(RuntimeSubject, actorId, capability, node, agentId), now)
    || (Given(agentId) && HasGrant(grants, Question(AgentSubject, agentId.value, capability, node, agentId), now))
    || HasGrant(grants, Question(NodeSubject, node, capability, node, agentId), now)
  }

  function DeviceDenial(db: Db, device: VerifiedDevice, capability: Capability, header: Option<string>,
                        nodeId: Option<Id>, agentId: Option<Id>): AuditEntry {
    AuditEntry(CapabilityDenied, "device", device.deviceId, Or(nodeId, db.config.nodeId), header,
               Denial(capability, true), AuditRefs(agentId, None, None))
  }

  function RuntimeDenial(db: Db, actorId: Id, capability: Capability, header: Option<string>,
                         nodeId: Option<Id>, agentId: Option<Id>): AuditEntry {
    AuditEntry(CapabilityDenied, "hermes", actorId, Or(nodeId, db.config.nodeId), header,
               Denial(capability, false), AuditRefs(agentId, None, None))
  }

  /** Granted silently, or refused with one audit row. */
  function RequireDevice(db: Db, device: VerifiedDevice, capability: Capability, header: Option<string>,
                         nodeId: Option<Id>, agentId: Option<Id>, now: Time): (r: (Db, bool))
    ensures Quiet(db, r.0) && r.0 == db.(log := r.0.log)
    ensures r.1 ==> r.0 == db
  {
    if DeviceHolds(db, device, capability, nodeId, agentId, now) then (db, true)
    else (AppendAudit(db, DeviceDenial(db, device, capability, header, nodeId, agentId)), false)
  }

  function RequireRuntime(db: Db, actorId: Id, capability: Capability, header: Option<string>,
                          nodeId: Option<Id>, agentId: Option<Id>, now: Time): (r: (Db, bool))
    ensures Quiet(db, r.0) && r.0 == db.(log := r.0.log)
    ensures r.1 ==> r.0 == db
  {
    if RuntimeHolds(db, actorId, capability, nodeId, agentId, now) then (db, true)
    else (AppendAudit(db, RuntimeDenial(db, actorId, capability, header, nodeId, agentId)), false)
  }

  /** The database with one more grant. */
  function AddGrant(db: Db, g: GrantRow): (r: Db)
    ensures Quiet(db, r)
  {
    db.(trust := db.trust.(grants := db.trust.grants + [g]))
  }

  /** A new grant never takes access away, and the passing of time never gives any. */
  lemma AccessIsMonotone(db: Db, g: GrantRow, device: VerifiedDevice, actorId: Id, capability: Capability,
                         nodeId: Option<Id>, agentId: Option<Id>, early: Time, late: Time)
    requires early <= late
    ensures DeviceHolds(db, device, capability, nodeId, agentId, late) ==>
              DeviceHolds(db, device, capability, nodeId, agentId, early)
    ensures DeviceHolds(db, device, capability, nodeId, agentId, early) ==>
              DeviceHolds(AddGrant(db, g), device, capability, nodeId, agentId, early)
    ensures RuntimeHolds(db, actorId, capability, nodeId, agentId, late) ==>
              RuntimeHolds(db, actorId, capability, nodeId, agentId, early)
    ensures RuntimeHolds(db, actorId, capability, nodeId, agentId, early) ==>
              RuntimeHolds(AddGrant(db, g), actorId, capability, nodeId, agentId, early)
  {
    forall q: Question
      ensures HasGrant(db.trust.grants, q, late) ==> HasGrant(db.trust.grants, q, early)
      ensures HasGrant(db.trust.grants, q, early) ==> HasGrant(AddGrant(db, g).trust.grants, q, early)
    {
      GrantsAreMonotone(db.trust.grants, g, q, early, late);
    }
  }

  lemma GrantsAreMonotone(grants: seq<GrantRow>, g: GrantRow, q: Question, early: Time, late: Time)
    requires early <= late
    ensures HasGrant(grants, q, late) ==> HasGrant(grants, q, early)
    ensures HasGrant(grants + [g], q, early) <==> HasGrant(grants, q, early) || Answers(g, q, early)
  {
    if HasGrant(grants, q, late) {
      var x :| x in grants && Answers(x, q, late);
      assert Answers(x, q, early);
    }
    if HasGrant(grants, q, early) {
      var x :| x in grants && Answers(x, q, early);
      assert x in grants + [g];
    }
    assert g in grants + [g];
  }

  /** An audit row appears exactly on refusal, and says who was refused what. */
  lemma DenialRowExactlyOnRefusal(db: Db, device: VerifiedDevice, actorId: Id, capability: Capability,
                                  header: Option<string>, nodeId: Option<Id>, agentId: Option<Id>, now: Time)
    ensures var (d, ok) := RequireDevice(db, device, capability, header, nodeId, agentId, now);
            && (ok <==> DeviceHolds(db, device, capability, nodeId, agentId, now))
            && |d.log.audit| == |db.log.audit| + (if ok then 0 else 1)
            && (!ok ==> d.log.audit[|db.log.audit|].content.payload == Denial(capability, true))
    ensures var (d, ok) := RequireRuntime(db, actorId, capability, header, nodeId, agentId, now);
            && (ok <==> RuntimeHolds(db, actorId, capability, nodeId, agentId, now))
            && |d.log.audit| == |db.log.audit| + (if ok then 0 else 1)
            && (!ok ==> d.log.audit[|db.log.audit|].content.payload == Denial(capability, false))
  {
  }
}
