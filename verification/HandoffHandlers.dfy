/** The operator-session routes as the code runs them. */
module HandoffHandlers {
  import opened Wrappers
  import opened Records
  import opened Tables
  import opened Store
  import opened Handoffs
  import Handlers

  method Audit(store: SQLiteStore, kind: HandoffKind, what: string, deviceId: Id, row: HandoffRow,
               payload: AuditPayload, header: Option<string>)
    modifies store
    ensures store.Contents() ==
            AppendAudit(old(store.Contents()), HandoffEntry(kind, what, "device", deviceId, row.nodeId, row.agentId,
                                                            payload, header))
  {
    var _ := store.AppendAuditEvent(
      AuditEntry(HandoffAudit(kind, what), "device", deviceId, row.nodeId, header, payload,
                 RefsOf(row.agentId, None, None)));
  }

  method CreateTuaSession(store: SQLiteStore, device: VerifiedDevice, requestId: Id, id: Id, header: Option<string>,
                          now: Time)
      returns (reply: Reply)
    modifies store
    ensures (store.Contents(), reply) == OpenTua(old(store.Contents()), device, requestId, id, header, now)
  {
    if requestId !in store.requests {
      return Refused(404);
    }
    var q := store.requests[requestId];
    var granted := Handlers.RequireDeviceCapability(store, device, TuaAccess, header, Some(q.nodeId), Some(q.agentId),
                                                    now);
    if !granted {
      return Refused(403);
    }
    var row := NewSession(q.nodeId, q.agentId, Active);
    store.CreateAssistanceSession(id, requestId, row);
    Audit(store, Tua, "tua_session_created", device.deviceId, row, About(id), header);
    store.CreateOperatorSession(id, OperatorRow(Handoff(Tua), q.agentId, Active, Some(device.deviceId), None));
    store.CreateEvent(q.nodeId, Note("tua.session.created", id));
    reply := Done;
  }

  method ReturnTuaControl(store: SQLiteStore, device: VerifiedDevice, id: Id, summary: string, header: Option<string>,
                          now: Time)
      returns (reply: Reply)
    modifies store
    ensures (store.Contents(), reply) == UpdateSession(old(store.Contents()), device, Tua, id, ReturnControl(summary),
                                                       header, now)
  {
    if id !in store.tua {
      return Refused(404);
    }
    var row := store.tua[id];
    var granted := Handlers.RequireDeviceCapability(store, device, TuaAccess, header, Some(row.nodeId),
                                                    Some(row.agentId), now);
    if !granted {
      return Refused(403);
    }
    store.UpdateAssistanceSessionState(id, ReturnedToAgent, Some(summary), now);
    Audit(store, Tua, "returned_to_agent", device.deviceId, row, Size(|summary|), header);
    store.CreateEvent(row.nodeId, Note("tua.returned_to_agent", id));
    var _ := store.UpdateOperatorSessionState(id, ReturnedToAgent, Some(device.deviceId), Some(summary));
    reply := Done;
  }

  method CloseTuaSession(store: SQLiteStore, device: VerifiedDevice, id: Id, header: Option<string>, now: Time)
      returns (reply: Reply)
    modifies store
    ensures (store.Contents(), reply) == UpdateSession(old(store.Contents()), device, Tua, id, CloseSession, header,
                                                       now)
  {
    if id !in store.tua {
      return Refused(404);
    }
    var row := store.tua[id];
    var granted := Handlers.RequireDeviceCapability(store, device, TuaAccess, header, Some(row.nodeId),
                                                    Some(row.agentId), now);
    if !granted {
      return Refused(403);
    }
    store.UpdateAssistanceSessionState(id, Closed, None, now);
    Audit(store, Tua, "closed", device.deviceId, row, Empty, header);
    store.CreateEvent(row.nodeId, Note("tua.closed", id));
    var _ := store.UpdateOperatorSessionState(id, Closed, Some(device.deviceId), None);
    reply := Done;
  }

  method AddBrowserEvent(store: SQLiteStore, device: VerifiedDevice, id: Id, note: string, header: Option<string>,
                         now: Time)
      returns (reply: Reply)
    modifies store
    ensures (store.Contents(), reply) == UpdateSession(old(store.Contents()), device, Browser, id, AddNote(note),
                                                       header, now)
  {
    if id !in store.browser {
      return Refused(404);
    }
    var row := store.browser[id];
    var granted := Handlers.RequireDeviceCapability(store, device, BrowserAccess, header, Some(row.nodeId),
                                                    Some(row.agentId), now);
    if !granted {
      return Refused(403);
    }
    store.AddBrowserAssistanceNote(id, note);
    Audit(store, Browser, "event_recorded", device.deviceId, row, Size(|note|), header);
    store.CreateEvent(row.nodeId, Note("browser_assistance.event", id));
    var _ := store.UpdateOperatorSessionState(id, UserControlling, Some(device.deviceId), None);
    reply := Done;
  }

  method ReturnBrowserControl(store: SQLiteStore, device: VerifiedDevice, id: Id, summary: string,
                              header: Option<string>, now: Time)
      returns (reply: Reply)
    modifies store
    ensures (store.Contents(), reply) == UpdateSession(old(store.Contents()), device, Browser, id,
                                                       ReturnControl(summary), header, now)
  {
    if id !in store.browser {
      return Refused(404);
    }
    var row := store.browser[id];
    var granted := Handlers.RequireDeviceCapability(store, device, BrowserAccess, header, Some(row.nodeId),
                                                    Some(row.agentId), now);
    if !granted {
      return Refused(403);
    }
    store.UpdateBrowserAssistanceState(id, ReturnedToAgent, Some(summary), now);
    Audit(store, Browser, "returned_to_agent", device.deviceId, row, Size(|summary|), header);
    store.CreateEvent(row.nodeId, Note("browser_assistance.returned_to_agent", id));
    var _ := store.UpdateOperatorSessionState(id, ReturnedToAgent, Some(device.deviceId), Some(summary));
    reply := Done;
  }

  method CloseBrowserSession(store: SQLiteStore, device: VerifiedDevice, id: Id, header: Option<string>, now: Time)
      returns (reply: Reply)
    modifies store
    ensures (store.Contents(), reply) == UpdateSession(old(store.Contents()), device, Browser, id, CloseSession,
                                                       header, now)
  {
    if id !in store.browser {
      return Refused(404);
    }
    var row := store.browser[id];
    var granted := Handlers.RequireDeviceCapability(store, device, BrowserAccess, header, Some(row.nodeId),
                                                    Some(row.agentId), now);
    if !granted {
      return Refused(403);
    }
    store.UpdateBrowserAssistanceState(id, Closed, None, now);
    Audit(store, Browser, "closed", device.deviceId, row, Empty, header);
    store.CreateEvent(row.nodeId, Note("browser_assistance.closed", id));
    var _ := store.UpdateOperatorSessionState(id, Closed, Some(device.deviceId), None);
    reply := Done;
  }

  method CloseVoiceSession(store: SQLiteStore, device: VerifiedDevice, id: Id, header: Option<string>, now: Time)
      returns (reply: Reply)
    modifies store
    ensures (store.Contents(), reply) == UpdateSession(old(store.Contents()), device, Voice, id, CloseSession, header,
                                                       now)
  {
    if id !in store.voice {
      return Refused(404);
    }
    var row := store.voice[id];
    var granted := Handlers.RequireDeviceCapability(store, device, VoiceAccess, header, Some(row.nodeId),
                                                    Some(row.agentId), now);
    if !granted {
      return Refused(403);
    }
    store.UpdateVoiceSessionState(id, Closed, now);
    Audit(store, Voice, "closed", device.deviceId, row, Empty, header);
    store.CreateEvent(row.nodeId, Note("voice.session.closed", id));
    var _ := store.UpdateOperatorSessionState(id, Closed, Some(device.deviceId), None);
    reply := Done;
  }

  // ----- requests by the agent's runtime -----

  method AuditByRuntime(store: SQLiteStore, kind: HandoffKind, what: string, nodeId: Id, agentId: Id, id: Id,
                        header: Option<string>)
    modifies store
    ensures store.Contents() ==
            AppendAudit(old(store.Contents()), HandoffEntry(kind, what, "hermes", agentId, nodeId, agentId, About(id),
                                                            header))
  {
    var _ := store.AppendAuditEvent(
      AuditEntry(HandoffAudit(kind, what), "hermes", agentId, nodeId, header, About(id), RefsOf(agentId, None, None)));
  }

  method CreateTuaRequest(store: SQLiteStore, o: Opening, header: Option<string>)
    modifies store
    ensures store.Contents() == RequestTua(old(store.Contents()), o, header)
  {
    var nodeId := Or(o.nodeId, store.config.nodeId);
    store.CreateAssistanceRequest(o.id, AssistanceRequestRow(nodeId, o.agentId, o.sessionId, Requested));
    AuditByRuntime(store, Tua, "tua_request_created", nodeId, o.agentId, o.id, header);
    store.CreateEvent(nodeId, Note("tua.requested", o.id));
  }

  /** The adapter's route marks the agent as waiting once the row is there; the order of those two
      writes does not show. */
  method CreateTuaRequestFromRuntime(store: SQLiteStore, o: Opening, header: Option<string>, now: Time)
      returns (reply: Reply)
    modifies store
    ensures (store.Contents(), reply) == RequestTuaFromRuntime(old(store.Contents()), o, header, now)
  {
    var nodeId := Or(o.nodeId, store.config.nodeId);
    var granted := Handlers.RequireRuntimeCapability(store, o.agentId, TuaAccess, header, Some(nodeId),
                                                     Some(o.agentId), now);
    if !granted {
      return Refused(403);
    }
    store.CreateAssistanceRequest(o.id, AssistanceRequestRow(nodeId, o.agentId, o.sessionId, Requested));
    Handlers.SetAgentRuntimeState(store, nodeId, o.agentId, Some(o.sessionId), "waiting_assistance", None);
    AuditByRuntime(store, Tua, "tua_request_created", nodeId, o.agentId, o.id, header);
    store.CreateEvent(nodeId, Note("tua.requested", o.id));
    reply := Done;
  }

  method CreateBrowserSession(store: SQLiteStore, o: Opening, header: Option<string>)
    modifies store
    ensures store.Contents() == OpenBrowser(old(store.Contents()), o, header)
  {
    var nodeId := Or(o.nodeId, store.config.nodeId);
    store.CreateBrowserAssistanceSession(o.id, NewSession(nodeId, o.agentId, Requested));
    AuditByRuntime(store, Browser, "browser_assistance_requested", nodeId, o.agentId, o.id, header);
    store.CreateOperatorSession(o.id, OperatorRow(Handoff(Browser), o.agentId, Requested, None, None));
    store.CreateEvent(nodeId, Note("browser_assistance.requested", o.id));
  }

  method CreateBrowserSessionFromRuntime(store: SQLiteStore, o: Opening, header: Option<string>, now: Time)
      returns (reply: Reply)
    modifies store
    ensures (store.Contents(), reply) == OpenBrowserFromRuntime(old(store.Contents()), o, header, now)
  {
    var nodeId := Or(o.nodeId, store.config.nodeId);
    var granted := Handlers.RequireRuntimeCapability(store, o.agentId, BrowserAccess, header, Some(nodeId),
                                                     Some(o.agentId), now);
    if !granted {
      return Refused(403);
    }
    store.CreateBrowserAssistanceSession(o.id, NewSession(nodeId, o.agentId, Requested));
    store.CreateOperatorSession(o.id, OperatorRow(Handoff(Browser), o.agentId, Requested, None, None));
    Handlers.SetAgentRuntimeState(store, nodeId, o.agentId, Some(o.sessionId), "waiting_assistance", None);
    AuditByRuntime(store, Browser, "browser_assistance_requested", nodeId, o.agentId, o.id, header);
    store.CreateEvent(nodeId, Note("browser_assistance.requested", o.id));
    reply := Done;
  }

  method CreateVoiceSession(store: SQLiteStore, device: VerifiedDevice, o: Opening, header: Option<string>, now: Time)
      returns (reply: Reply)
    modifies store
    ensures (store.Contents(), reply) == OpenVoice(old(store.Contents()), device, o, header, now)
  {
    var granted := Handlers.RequireDeviceCapability(store, device, VoiceAccess, header, None, Some(o.agentId), now);
    if !granted {
      return Refused(403);
    }
    var row := NewSession(store.config.nodeId, o.agentId, Active);
    store.CreateVoiceSession(o.id, row);
    Audit(store, Voice, "voice_session_created", device.deviceId, row, About(o.id), header);
    store.CreateOperatorSession(o.id, OperatorRow(Handoff(Voice), o.agentId, Active, Some(device.deviceId), None));
    store.CreateEvent(store.config.nodeId, Note("voice.session.created", o.id));
    reply := Done;
  }

  method CreateVoiceSessionFromRuntime(store: SQLiteStore, o: Opening, header: Option<string>, now: Time)
      returns (reply: Reply)
    modifies store
    ensures (store.Contents(), reply) == OpenVoiceFromRuntime(old(store.Contents()), o, header, now)
  {
    var nodeId := Or(o.nodeId, store.config.nodeId);
    var granted := Handlers.RequireRuntimeCapability(store, o.agentId, VoiceAccess, header, Some(nodeId),
                                                     Some(o.agentId), now);
    if !granted {
      return Refused(403);
    }
    store.CreateVoiceSession(o.id, NewSession(nodeId, o.agentId, Active));
    store.CreateOperatorSession(o.id, OperatorRow(Handoff(Voice), o.agentId, Active, None, None));
    AuditByRuntime(store, Voice, "voice_session_created", nodeId, o.agentId, o.id, header);
    store.CreateEvent(nodeId, Note("voice.session.created", o.id));
    reply := Done;
  }
}
