/** The connection service as it runs: it reads copies of records from its store, changes them step by
    step, writes them back and announces the change. Each method is held to the function of the same
    name in Connections. Fresh identifiers, DIDs and keys come in as parameters. */
module ConnectionServices {
  import opened Results
  import C = Connections
  import Storage

  class ConnectionService {
    var records: map<C.ConnectionId, C.ConnectionRecord>
    var events: seq<C.StateChanged>
    const config: C.Config

    ghost function State(): C.Agent
      reads this
    {
      C.Agent(records, events, config)
    }

    constructor (config: C.Config)
      ensures State() == C.Agent(map[], [], config)
    {
      this.config := config;
      records, events := map[], [];
    }

    method UpdateState(record: C.ConnectionRecord, newState: C.State) returns (r: C.ConnectionRecord)
      modifies this
      ensures var c := C.UpdateState(old(State()), record, newState); State() == c.agent && r == c.record
    {
      var previousState := record.state;
      r := record.(state := newState);
      records := records[r.id := r];
      events := events + [C.StateChanged(r, Some(previousState))];
    }

    method CreateConnection(id: C.ConnectionId, did: C.Did, verkey: C.Verkey, role: C.Role,
                            invitation: Option<C.Invitation>, autoAccept: Option<bool>, invitationKey: Option<C.Verkey>)
      returns (r: C.ConnectionRecord)
      modifies this
      ensures r == C.NewRecord(config, id, did, verkey, role, invitation, autoAccept, invitationKey)
      ensures var key := C.PublicKey(C.KeyId(did, 1), did, "Ed25519VerificationKey2018", verkey);
              r.didDoc == C.DidDoc(did, [key], [C.ReferencedAuthentication(key, "Ed25519SignatureAuthentication2018")],
                                   [C.IndyAgentService(config.endpoint, [verkey], config.routingKeys)])
      ensures r == C.ConnectionRecord(id, did, r.didDoc, verkey, None, None, invitation, C.Invited, role, autoAccept,
                                      C.Tags(Some(verkey), invitationKey, None, None))
      ensures records == old(records)[id := r] && events == old(events)
    {
      var service := C.IndyAgentService(config.endpoint, [verkey], config.routingKeys);
      var publicKey := C.PublicKey(C.KeyId(did, 1), did, C.KEY_TYPE, verkey);
      var auth := C.ReferencedAuthentication(publicKey, C.AUTHENTICATION_TYPE);
      var didDoc := C.DidDoc(did, [publicKey], [auth], [service]);
      r := C.ConnectionRecord(id, did, didDoc, verkey, None, None, invitation, C.Invited, role, autoAccept,
                              C.Tags(Some(verkey), invitationKey, None, None));
      records := records[id := r];
    }

    method CreateInvitation(id: C.ConnectionId, did: C.Did, verkey: C.Verkey, autoAccept: Option<bool>)
      returns (r: C.ConnectionRecord, invitation: C.Invitation)
      modifies this
      ensures var c := C.CreateInvitation(old(State()), id, did, verkey, autoAccept); State() == c.agent && r == c.record
      ensures invitation == C.Invitation([verkey], config.routingKeys, config.endpoint) && r.invitation == Some(invitation)
      ensures r == C.ConnectionRecord(id, did, r.didDoc, verkey, None, None, Some(invitation), C.Invited, C.Inviter, autoAccept,
                                      C.Tags(Some(verkey), None, None, None))
      ensures r.didDoc.service == [C.IndyAgentService(config.endpoint, [verkey], config.routingKeys)]
    {
      r := CreateConnection(id, did, verkey, C.Inviter, None, autoAccept, None);
      var service := C.FirstAgentService(r.didDoc.service).value;
      invitation := C.Invitation(service.recipientKeys, service.routingKeys, service.serviceEndpoint);
      r := r.(invitation := Some(invitation));
      records := records[r.id := r];
      events := events + [C.StateChanged(r, None)];
    }

    method ProcessInvitation(id: C.ConnectionId, did: C.Did, verkey: C.Verkey, invitation: C.Invitation, autoAccept: Option<bool>)
      returns (r: C.ConnectionRecord)
      modifies this
      ensures var c := C.ProcessInvitation(old(State()), id, did, verkey, invitation, autoAccept);
              State() == c.agent && r == c.record
      ensures r.invitation == Some(invitation) && r.role == C.Invitee && r.autoAcceptConnection == autoAccept
      ensures r.tags.invitationKey == if invitation.recipientKeys == [] then None else Some(invitation.recipientKeys[0])
    {
      var key := None;
      if |invitation.recipientKeys| > 0 {
        key := Some(invitation.recipientKeys[0]);
      }
      r := CreateConnection(id, did, verkey, C.Invitee, Some(invitation), autoAccept, key);
      records := records[r.id := r];
      events := events + [C.StateChanged(r, None)];
    }

    method CreateRequest(id: C.ConnectionId, messageId: C.MessageId)
      returns (result: Result<(C.ConnectionRecord, C.Message), C.Error>)
      modifies this
      ensures match C.CreateRequest(old(State()), id, messageId)
              case Err(e) => result == Err(e) && State() == old(State())
              case Ok(c) => result == Ok((c.record, c.message)) && State() == c.agent
    {
      if id !in records { return Err(C.ConnectionNotFound); }
      var record := records[id];
      if record.state != C.Invited { return Err(C.InvalidState); }
      if record.role != C.Invitee { return Err(C.InvalidRole); }
      var message := C.ConnectionRequest(messageId, Some(C.Connection(record.did, Some(record.didDoc))));
      record := UpdateState(record, C.Requested);
      return Ok((record, message));
    }

    method ProcessRequest(connection: Option<C.ConnectionRecord>, message: C.Message)
      returns (result: Result<C.ConnectionRecord, C.Error>)
      requires message.ConnectionRequest?
      modifies this
      ensures match C.ProcessRequest(old(State()), connection, message)
              case Err(e) => result == Err(e) && State() == old(State())
              case Ok(c) => result == Ok(c.record) && State() == c.agent
    {
      if connection.None? { return Err(C.ConnectionNotFound); }
      var record := connection.value;
      if record.state != C.Invited { return Err(C.InvalidState); }
      if record.role != C.Inviter { return Err(C.InvalidRole); }
      if message.connection.None? { return Err(C.InvalidMessage); }
      record := record.(theirDid := Some(message.connection.value.did));
      record := record.(theirDidDoc := message.connection.value.didDoc);
      if record.TheirKey().None? { return Err(C.NoRecipientKeys); }
      record := record.(tags := record.tags.(theirKey := record.TheirKey(), threadId := Some(message.id)));
      record := UpdateState(record, C.Requested);
      return Ok(record);
    }

    method CreateResponse(id: C.ConnectionId)
      returns (result: Result<(C.ConnectionRecord, C.Message), C.Error>)
      modifies this
      ensures match C.CreateResponse(old(State()), id)
              case Err(e) => result == Err(e) && State() == old(State())
              case Ok(c) => result == Ok((c.record, c.message)) && State() == c.agent
    {
      if id !in records { return Err(C.ConnectionNotFound); }
      var record := records[id];
      if record.state != C.Requested { return Err(C.InvalidState); }
      if record.role != C.Inviter { return Err(C.InvalidRole); }
      var connection := C.Connection(record.did, Some(record.didDoc));
      var message := C.ConnectionResponse(record.tags.threadId.GetOr(0), C.SignData(connection, record.verkey));
      record := UpdateState(record, C.Responded);
      return Ok((record, message));
    }

    method ProcessResponse(connection: Option<C.ConnectionRecord>, message: C.Message)
      returns (result: Result<C.ConnectionRecord, C.Error>)
      requires message.ConnectionResponse?
      modifies this
      ensures match C.ProcessResponse(old(State()), connection, message)
              case Err(e) => result == Err(e) && State() == old(State())
              case Ok(c) => result == Ok(c.record) && State() == c.agent
    {
      if connection.None? { return Err(C.ConnectionNotFound); }
      var record := connection.value;
      if record.state != C.Requested { return Err(C.InvalidState); }
      if record.role != C.Invitee { return Err(C.InvalidRole); }
      if !C.Verifies(message.connectionSig) { return Err(C.InvalidSignature); }
      var signed := message.connectionSig.data;
      if Some(message.connectionSig.signer) != record.tags.invitationKey { return Err(C.WrongSigner); }
      record := record.(theirDid := Some(signed.did));
      record := record.(theirDidDoc := signed.didDoc);
      if record.TheirKey().None? { return Err(C.NoRecipientKeys); }
      record := record.(tags := record.tags.(theirKey := record.TheirKey(), threadId := Some(message.threadId)));
      record := UpdateState(record, C.Responded);
      return Ok(record);
    }

    method CreateTrustPing(id: C.ConnectionId)
      returns (result: Result<(C.ConnectionRecord, C.Message), C.Error>)
      modifies this
      ensures match C.CreateTrustPing(old(State()), id)
              case Err(e) => result == Err(e) && State() == old(State())
              case Ok(c) => result == Ok((c.record, c.message)) && State() == c.agent
    {
      if id !in records { return Err(C.ConnectionNotFound); }
      var record := records[id];
      if !record.IsReady() { return Err(C.InvalidState); }
      record := UpdateState(record, C.Complete);
      return Ok((record, C.TrustPing(true)));
    }

    method ProcessAck(connection: Option<C.ConnectionRecord>) returns (result: Result<C.ConnectionRecord, C.Error>)
      modifies this
      ensures match C.ProcessAck(old(State()), connection)
              case Err(e) => result == Err(e) && State() == old(State())
              case Ok(c) => result == Ok(c.record) && State() == c.agent
    {
      if connection.None? { return Err(C.ConnectionNotFound); }
      var record := connection.value;
      if record.state == C.Responded && record.role == C.Inviter {
        record := UpdateState(record, C.Complete);
      }
      return Ok(record);
    }

    method FindByVerkey(verkey: C.Verkey) returns (result: Result<Option<C.ConnectionRecord>, C.Error>)
      ensures result == C.Find(records, C.ByVerkey(verkey))
    {
      var found := Storage.Search(records, C.ByVerkey(verkey));
      match found
      case Many => return Err(C.MoreThanOneConnection);
      case NoMatch => return Ok(None);
      case One(id) => return Ok(Some(records[id]));
    }

    method FindByTheirKey(verkey: C.Verkey) returns (result: Result<Option<C.ConnectionRecord>, C.Error>)
      ensures result == C.Find(records, C.ByTheirKey(verkey))
    {
      var found := Storage.Search(records, C.ByTheirKey(verkey));
      match found
      case Many => return Err(C.MoreThanOneConnection);
      case NoMatch => return Ok(None);
      case One(id) => return Ok(Some(records[id]));
    }
  }

  /** The message receiver and the handlers that it dispatches connection messages to. */
  class MessageReceiver {
    const service: ConnectionService

    constructor (service: ConnectionService)
      ensures this.service == service
    {
      this.service := service;
    }

    method ReceiveMessage(u: C.Unpacked) returns (sent: Option<C.Packet>, error: Option<C.Error>)
      modifies service
      ensures C.Outcome(service.State(), sent, error) == C.Receive(old(service.State()), u)
    {
      var connection: Option<C.ConnectionRecord> := None;
      if u.sender.Some? && u.recipient.Some? {
        var found := service.FindByVerkey(u.recipient.value);
        if found.Err? { return None, Some(found.error); }
        connection := found.value;
        if connection.Some? && connection.value.TheirKey().Some? && connection.value.TheirKey() != u.sender {
          return None, Some(C.WrongSender);
        }
      }
      match u.message
      case ConnectionRequest(_, _) => sent, error := HandleRequest(connection, u.message);
      case ConnectionResponse(_, _) => sent, error := HandleResponse(connection, u.message);
      case TrustPing(_) => sent, error := HandlePing(connection, u.message);
      case TrustPingResponse => sent, error := None, None;
      case Ack =>
        var result := service.ProcessAck(connection);
        sent, error := None, if result.Err? then Some(result.error) else None;
    }

    method Send(record: C.ConnectionRecord, message: C.Message) returns (sent: Option<C.Packet>, error: Option<C.Error>)
      ensures C.Outcome(service.State(), sent, error) == C.Send(service.State(), record, message, None)
    {
      var packet := C.CreateOutboundMessage(record, message, None);
      match packet
      case Ok(p) => return Some(p), None;
      case Err(e) => return None, Some(e);
    }

    method HandleRequest(connection: Option<C.ConnectionRecord>, message: C.Message)
      returns (sent: Option<C.Packet>, error: Option<C.Error>)
      requires message.ConnectionRequest?
      modifies service
      ensures C.Outcome(service.State(), sent, error) == C.HandleRequest(old(service.State()), connection, message)
    {
      sent, error := None, None;
      var processed := service.ProcessRequest(connection, message);
      if processed.Err? { return None, Some(processed.error); }
      var record := processed.value;
      if record.autoAcceptConnection.GetOr(service.config.autoAcceptConnections) {
        var response := service.CreateResponse(record.id);
        if response.Err? { return None, Some(response.error); }
        sent, error := Send(record, response.value.1);
      }
    }

    method HandleResponse(connection: Option<C.ConnectionRecord>, message: C.Message)
      returns (sent: Option<C.Packet>, error: Option<C.Error>)
      requires message.ConnectionResponse?
      modifies service
      ensures C.Outcome(service.State(), sent, error) == C.HandleResponse(old(service.State()), connection, message)
    {
      sent, error := None, None;
      var processed := service.ProcessResponse(connection, message);
      if processed.Err? { return None, Some(processed.error); }
      var record := processed.value;
      if record.autoAcceptConnection.GetOr(service.config.autoAcceptConnections) {
        var ping := service.CreateTrustPing(record.id);
        if ping.Err? { return None, Some(ping.error); }
        sent, error := Send(record, ping.value.1);
      }
    }

    method HandlePing(connection: Option<C.ConnectionRecord>, message: C.Message)
      returns (sent: Option<C.Packet>, error: Option<C.Error>)
      requires message.TrustPing?
      modifies service
      ensures C.Outcome(service.State(), sent, error) == C.HandlePing(old(service.State()), connection, message)
    {
      sent, error := None, None;
      if connection.None? { return None, Some(C.ConnectionNotFound); }
      var record := connection.value;
      if record.state == C.Responded {
        record := service.UpdateState(record, C.Complete);
      }
      if message.responseRequested {
        sent, error := Send(record, C.TrustPingResponse);
      }
    }
  }
}
