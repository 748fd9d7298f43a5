/** What the two logs store, column by column. */
module LogRows {
  import opened Wrappers
  import opened Records
  import opened Tables
  import Cursor

  /** One row behind all others: it names the hash of the row before it and hashes its own content, and
      takes a fresh request id only where the request brought none. */
  lemma AuditRowStored(db: Db, e: AuditEntry)
    ensures var n := |db.log.audit|;
            var stamp := db.config.stamp(n);
            var content := AuditContent(
              stamp.auditEventId, e.kind, e.actorType, e.actorId, e.nodeId,
              if e.requestId.Some? && e.requestId.value != "" then e.requestId.value else stamp.requestId,
              if n == 0 then None else Some(db.log.audit[n - 1].hash), e.payload, stamp.createdAt);
            AppendAudit(db, e) ==
            db.(log := Log(db.log.audit + [AuditRow(content, e.refs, db.config.contentHash(content))], db.log.events))
  {
  }

  lemma EventRowStored(db: Db, nodeId: Id, payload: EventPayload)
    ensures var n := |db.log.events| + 1;
            CreateEvent(db, nodeId, payload) ==
            db.(log := Log(db.log.audit,
                           db.log.events + [EventRow(n, Cursor.Print(nodeId, n), nodeId, payload)]))
  {
  }
}
