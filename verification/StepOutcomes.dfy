/** Which handler serves which step, and what the small steps do. */
module StepOutcomes {
  import opened Wrappers
  import opened Records
  import opened Tables
  import opened Machine
  import Cursor
  import Paging

  /** Every step goes to its handler with its own time and request id. */
  lemma StepsAreServed(db: Db, now: Time, header: Option<string>, action: Action)
    requires StepOk(Step(now, header, action))
    ensures Next(db, Step(now, header, action)) ==
            match action
            case Signed(request, call) => NextSigned(db, request, call, header, now)
            case Local(allowed, call) => NextLocal(db, allowed, call, header, now)
            case OnPairing(call) => HandlePairing(db, call, header, now)
            case StreamConnect(token) => StreamHello(db, token, now)
            case Heartbeat => (CreateEvent(db, db.config.nodeId, Note("system.health", "heartbeat")), Done)
            case GrantCapability(g) =>
              (db.(trust := db.trust.(grants := db.trust.grants + [g])), Done)
            case OnTerminalEvent(event) => HandleTerminalEvent(db, event, now)
            case Restart => (StartAgain(db), Done)
  {
  }

  lemma CallsAreServed(db: Db, device: VerifiedDevice, call: DeviceCall, header: Option<string>, now: Time)
    requires CallOk(call)
    ensures HandleDevice(db, device, call, header, now) ==
            match call
            case OnClearances(c) => HandleClearance(db, device, c, header, now)
            case OnTrust(c) => HandleTrust(db, device, c, header, now)
            case OnDesk(c) => HandleDesk(db, device, c, header, now)
            case OnTerminals(c) => HandleTerminal(db, device, c, header, now)
            case ReadEvents(after, limit) => (db, PageOf(db, after, limit))
            case OtherDeviceRoute(entry, note) => (Written(db, entry, note), Done)
  {
  }

  lemma LocalCallsAreServed(db: Db, call: RuntimeCall, header: Option<string>, now: Time)
    requires RuntimeCallOk(call)
    ensures HandleRuntime(db, call, header, now) ==
            match call
            case OnFleet(c) => HandleReport(db, c, header)
            case OnBackend(c) => HandleBackend(db, c, header, now)
            case OnHandoff(c) => HandleAsk(db, c, header, now)
            case OtherRuntimeRoute(entry, note) => (Written(db, entry, note), Done)
  {
  }

  function Written(db: Db, entry: Option<AuditEntry>, note: Option<string>): Db {
    match (entry, note)
    case (None, None) => db
    case (Some(e), None) => AppendAudit(db, e)
    case (None, Some(n)) => CreateEvent(db, db.config.nodeId, Note(n, ""))
    case (Some(e), Some(n)) => CreateEvent(AppendAudit(db, e), db.config.nodeId, Note(n, ""))
  }

  /** The page answered, with the cursor of its last row. */
  function PageOf(db: Db, after: Option<string>, limit: int): Reply {
    var n := Cursor.Sequence(after);
    if n < -9223372036854775808 || 9223372036854775807 < n
       || limit < -9223372036854775808 || 9223372036854775807 < limit then Refused(500)
    else
      var page := ListEventsAfter(db.log.events, after, limit);
      Page(page, if page == [] then after else Some(page[|page| - 1].cursor))
  }

  /** A page is what lies behind the cursor's position, cut to a limit that is not negative. */
  lemma PageHolds(rows: seq<EventRow>, after: Option<string>, limit: int)
    requires Paging.Stored(rows)
    ensures var p := if Cursor.Sequence(after) < 0 then 0 else Cursor.Sequence(after);
            var behind := if p <= |rows| then rows[p..] else [];
            ListEventsAfter(rows, after, limit) ==
            if limit < 0 || |behind| <= limit then behind else behind[..limit]
  {
    Paging.OnePage(rows, after, limit);
  }
}
