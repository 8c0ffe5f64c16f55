/** Connection records and the steps of the connection service, as functions on one agent's state
    (src/modules/connections/services/ConnectionService.ts and its handlers). */
module Connections {
  import opened Results
  import Storage

  // Keys and DIDs are symbolic. A key made by a wallet carries that wallet's number, so that two
  // wallets never make the same key; no step of the program looks at the tag.
  datatype Verkey = Verkey(owner: nat, n: nat)
  datatype Did = Did(owner: nat, n: nat)
  type MessageId = nat
  type ConnectionId = nat

  datatype Service =
    | IndyAgentService(serviceEndpoint: string, recipientKeys: seq<Verkey>, routingKeys: seq<Verkey>)
    | OtherService(serviceEndpoint: string)

  // A DID document, without the ids of its services. A key's id is its DID and a number.
  datatype KeyId = KeyId(did: Did, fragment: nat)
  datatype PublicKey = PublicKey(id: KeyId, controller: Did, keyType: string, publicKeyBase58: Verkey)
  datatype ReferencedAuthentication = ReferencedAuthentication(publicKey: PublicKey, authType: string)
  datatype DidDoc = DidDoc(id: Did, publicKey: seq<PublicKey>, authentication: seq<ReferencedAuthentication>, service: seq<Service>)

  const KEY_TYPE := "Ed25519VerificationKey2018"
  const AUTHENTICATION_TYPE := "Ed25519SignatureAuthentication2018"

  function FirstAgentService(services: seq<Service>): (first: Option<Service>)
    ensures first.Some? ==> first.value in services && first.value.IndyAgentService?
    ensures first.None? <==> forall service :: service in services ==> !service.IndyAgentService?
  {
    if services == [] then None
    else if services[0].IndyAgentService? then Some(services[0])
    else FirstAgentService(services[1..])
  }

  /** The first recipient key of the first agent service; what `myKey` and `theirKey` read. */
  function ServiceKey(doc: Option<DidDoc>): Option<Verkey> {
    if doc.None? then None
    else
      var service := FirstAgentService(doc.value.service);
      if service.None? || |service.value.recipientKeys| == 0 then None
      else Some(service.value.recipientKeys[0])
  }

  datatype Connection = Connection(did: Did, didDoc: Option<DidDoc>)

  datatype Signature = Signature(key: Verkey, data: Connection)
  datatype SignatureDecorator = SignatureDecorator(signer: Verkey, data: Connection, signature: Signature)

  function SignData(data: Connection, key: Verkey): SignatureDecorator {
    SignatureDecorator(key, data, Signature(key, data))
  }

  /** Verification accepts exactly what signing with the named key made. */
  predicate Verifies(sig: SignatureDecorator) {
    sig.signature == Signature(sig.signer, sig.data)
  }

  datatype Invitation = Invitation(recipientKeys: seq<Verkey>, routingKeys: seq<Verkey>, serviceEndpoint: string)

  datatype Message =
    | ConnectionRequest(id: MessageId, connection: Option<Connection>)
    | ConnectionResponse(threadId: MessageId, connectionSig: SignatureDecorator)
    | TrustPing(responseRequested: bool)
    | TrustPingResponse
    | Ack

  datatype State = Init | Invited | Requested | Responded | Complete
  datatype Role = Inviter | Invitee

  /** How far along the protocol a state is. */
  function Rank(s: State): nat {
    match s case Init => 0 case Invited => 1 case Requested => 2 case Responded => 3 case Complete => 4
  }

  datatype Tags = Tags(verkey: Option<Verkey>, invitationKey: Option<Verkey>,
                       threadId: Option<MessageId>, theirKey: Option<Verkey>)

  datatype ConnectionRecord = ConnectionRecord(
    id: ConnectionId, did: Did, didDoc: DidDoc, verkey: Verkey,
    theirDid: Option<Did>, theirDidDoc: Option<DidDoc>, invitation: Option<Invitation>,
    state: State, role: Role, autoAcceptConnection: Option<bool>, tags: Tags)
  {
    function MyKey(): Option<Verkey> { ServiceKey(Some(didDoc)) }
    function TheirKey(): Option<Verkey> { ServiceKey(theirDidDoc) }
    predicate IsReady() { state in {Responded, Complete} }
  }

  datatype Error =
    | ConnectionNotFound | InvalidState | InvalidRole | InvalidMessage | NoRecipientKeys
    | InvalidSignature | WrongSigner | NoDidDoc | MoreThanOneConnection | WrongSender

  datatype StateChanged = StateChanged(record: ConnectionRecord, previousState: Option<State>)
  datatype Config = Config(endpoint: string, routingKeys: seq<Verkey>, autoAcceptConnections: bool)

  /** Everything one agent's connection service keeps. */
  datatype Agent = Agent(records: map<ConnectionId, ConnectionRecord>, events: seq<StateChanged>, config: Config)

  datatype Changed = Changed(agent: Agent, record: ConnectionRecord)
  datatype Created = Created(agent: Agent, record: ConnectionRecord, message: Message)

  // A message on its way: it opens for the wallets that hold one of the recipient keys.
  datatype Packet = Packet(recipients: seq<Verkey>, sender: Verkey, message: Message)
  datatype Unpacked = Unpacked(message: Message, sender: Option<Verkey>, recipient: Option<Verkey>)

  // What one entry point does: the new state, what it sends, and the error it ends with, if any.
  datatype Outcome = Outcome(agent: Agent, sent: Option<Packet>, error: Option<Error>)

  // ----- services ---------------------------------------------------------------------------

  function UpdateState(a: Agent, r: ConnectionRecord, newState: State): Changed {
    var r' := r.(state := newState);
    Changed(a.(records := a.records[r.id := r'], events := a.events + [StateChanged(r', Some(r.state))]), r')
  }

  /** The document of a new record lists its key, which also authenticates it, and one agent service. */
  function NewDidDoc(config: Config, did: Did, verkey: Verkey): DidDoc {
    var publicKey := PublicKey(KeyId(did, 1), did, KEY_TYPE, verkey);
    DidDoc(did, [publicKey], [ReferencedAuthentication(publicKey, AUTHENTICATION_TYPE)],
           [IndyAgentService(config.endpoint, [verkey], config.routingKeys)])
  }

  /** The record that createConnection builds for a freshly made DID and key. */
  function NewRecord(config: Config, id: ConnectionId, did: Did, verkey: Verkey, role: Role,
                     invitation: Option<Invitation>, autoAccept: Option<bool>, invitationKey: Option<Verkey>)
    : ConnectionRecord
  {
    ConnectionRecord(id, did, NewDidDoc(config, did, verkey), verkey,
                     None, None, invitation, Invited, role, autoAccept,
                     Tags(Some(verkey), invitationKey, None, None))
  }

  function Announce(a: Agent, r: ConnectionRecord): Agent {
    a.(records := a.records[r.id := r], events := a.events + [StateChanged(r, None)])
  }

  /** The invitation carries the keys, routing keys and endpoint of the record's own agent service. */
  function InvitationOf(r: ConnectionRecord): Invitation {
    var service := FirstAgentService(r.didDoc.service);
    if service.None? then Invitation([], [], "")
    else Invitation(service.value.recipientKeys, service.value.routingKeys, service.value.serviceEndpoint)
  }

  function CreateInvitation(a: Agent, id: ConnectionId, did: Did, verkey: Verkey, autoAccept: Option<bool>): Changed {
    var made := NewRecord(a.config, id, did, verkey, Inviter, None, autoAccept, None);
    var r := made.(invitation := Some(InvitationOf(made)));
    Changed(Announce(a, r), r)
  }

  function ProcessInvitation(a: Agent, id: ConnectionId, did: Did, verkey: Verkey,
                             invitation: Invitation, autoAccept: Option<bool>): Changed
  {
    var key := if |invitation.recipientKeys| == 0 then None else Some(invitation.recipientKeys[0]);
    var r := NewRecord(a.config, id, did, verkey, Invitee, Some(invitation), autoAccept, key);
    Changed(Announce(a, r), r)
  }

  function CreateRequest(a: Agent, id: ConnectionId, messageId: MessageId): Result<Created, Error> {
    if id !in a.records then Err(ConnectionNotFound)
    else
      var r := a.records[id];
      if r.state != Invited then Err(InvalidState)
      else if r.role != Invitee then Err(InvalidRole)
      else
        var c := UpdateState(a, r, Requested);
        Ok(Created(c.agent, c.record, ConnectionRequest(messageId, Some(Connection(r.did, Some(r.didDoc))))))
  }

  function ProcessRequest(a: Agent, connection: Option<ConnectionRecord>, message: Message): Result<Changed, Error>
    requires message.ConnectionRequest?
  {
    if connection.None? then Err(ConnectionNotFound)
    else
      var r := connection.value;
      if r.state != Invited then Err(InvalidState)
      else if r.role != Inviter then Err(InvalidRole)
      else if message.connection.None? then Err(InvalidMessage)
      else
        var r1 := r.(theirDid := Some(message.connection.value.did), theirDidDoc := message.connection.value.didDoc);
        if r1.TheirKey().None? then Err(NoRecipientKeys)
        else
          var r2 := r1.(tags := r1.tags.(theirKey := r1.TheirKey(), threadId := Some(message.id)));
          Ok(UpdateState(a, r2, Requested))
  }

  function CreateResponse(a: Agent, id: ConnectionId): Result<Created, Error> {
    if id !in a.records then Err(ConnectionNotFound)
    else
      var r := a.records[id];
      if r.state != Requested then Err(InvalidState)
      else if r.role != Inviter then Err(InvalidRole)
      else
        var sig := SignData(Connection(r.did, Some(r.didDoc)), r.verkey);
        var c := UpdateState(a, r, Responded);
        // The thread id tag is read with `!`: a requested inviter record always has one.
        Ok(Created(c.agent, c.record, ConnectionResponse(r.tags.threadId.GetOr(0), sig)))
  }

  function ProcessResponse(a: Agent, connection: Option<ConnectionRecord>, message: Message): Result<Changed, Error>
    requires message.ConnectionResponse?
  {
    if connection.None? then Err(ConnectionNotFound)
    else
      var r := connection.value;
      var sig := message.connectionSig;
      if r.state != Requested then Err(InvalidState)
      else if r.role != Invitee then Err(InvalidRole)
      else if !Verifies(sig) then Err(InvalidSignature)
      else if Some(sig.signer) != r.tags.invitationKey then Err(WrongSigner)
      else
        var r1 := r.(theirDid := Some(sig.data.did), theirDidDoc := sig.data.didDoc);
        if r1.TheirKey().None? then Err(NoRecipientKeys)
        else
          var r2 := r1.(tags := r1.tags.(theirKey := r1.TheirKey(), threadId := Some(message.threadId)));
          Ok(UpdateState(a, r2, Responded))
  }

  function CreateTrustPing(a: Agent, id: ConnectionId): Result<Created, Error> {
    if id !in a.records then Err(ConnectionNotFound)
    else if !a.records[id].IsReady() then Err(InvalidState)
    else
      var c := UpdateState(a, a.records[id], Complete);
      Ok(Created(c.agent, c.record, TrustPing(true)))
  }

  function ProcessAck(a: Agent, connection: Option<ConnectionRecord>): Result<Changed, Error> {
    if connection.None? then Err(ConnectionNotFound)
    else if connection.value.state == Responded && connection.value.role == Inviter then
      Ok(UpdateState(a, connection.value, Complete))
    else Ok(Changed(a, connection.value))
  }

  function ByVerkey(key: Verkey): ConnectionRecord -> bool {
    (r: ConnectionRecord) => r.tags.verkey == Some(key)
  }

  function ByTheirKey(key: Verkey): ConnectionRecord -> bool {
    (r: ConnectionRecord) => r.tags.theirKey == Some(key)
  }

  ghost function Find(records: map<ConnectionId, ConnectionRecord>, query: ConnectionRecord -> bool)
    : Result<Option<ConnectionRecord>, Error>
  {
    match Storage.Lookup(records, query)
    case NoMatch => Ok(None)
    case One(i) => Ok(Some(records[i]))
    case Many => Err(MoreThanOneConnection)
  }

  // ----- handlers and module calls ----------------------------------------------------------

  /** Recipient keys come from the invitation if one is passed, and from their DID document otherwise. */
  function CreateOutboundMessage(r: ConnectionRecord, message: Message, invitation: Option<Invitation>)
    : Result<Packet, Error>
  {
    if invitation.Some? then Ok(Packet(invitation.value.recipientKeys, r.verkey, message))
    else if r.theirDidDoc.None? then Err(NoDidDoc)
    else
      var service := FirstAgentService(r.theirDidDoc.value.service);
      if service.None? then Err(NoRecipientKeys)
      else Ok(Packet(service.value.recipientKeys, r.verkey, message))
  }

  function Send(a: Agent, r: ConnectionRecord, message: Message, invitation: Option<Invitation>): Outcome {
    match CreateOutboundMessage(r, message, invitation)
    case Ok(p) => Outcome(a, Some(p), None)
    case Err(e) => Outcome(a, None, Some(e))
  }

  function AcceptInvitation(a: Agent, id: ConnectionId, messageId: MessageId): Outcome {
    match CreateRequest(a, id, messageId)
    case Err(e) => Outcome(a, None, Some(e))
    case Ok(c) => Send(c.agent, c.record, c.message, c.record.invitation)
  }

  function AcceptRequest(a: Agent, id: ConnectionId): Outcome {
    match CreateResponse(a, id)
    case Err(e) => Outcome(a, None, Some(e))
    case Ok(c) => Send(c.agent, c.record, c.message, None)
  }

  function AcceptResponse(a: Agent, id: ConnectionId): Outcome {
    match CreateTrustPing(a, id)
    case Err(e) => Outcome(a, None, Some(e))
    case Ok(c) => Send(c.agent, c.record, c.message, None)
  }

  predicate AutoAccepts(config: Config, r: ConnectionRecord) {
    r.autoAcceptConnection.GetOr(config.autoAcceptConnections)
  }

  function ReceiveInvitation(a: Agent, id: ConnectionId, did: Did, verkey: Verkey, invitation: Invitation,
                             autoAccept: Option<bool>, messageId: MessageId): Outcome
  {
    var c := ProcessInvitation(a, id, did, verkey, invitation, autoAccept);
    if AutoAccepts(a.config, c.record) then AcceptInvitation(c.agent, id, messageId)
    else Outcome(c.agent, None, None)
  }

  function HandleRequest(a: Agent, connection: Option<ConnectionRecord>, message: Message): Outcome
    requires message.ConnectionRequest?
  {
    match ProcessRequest(a, connection, message)
    case Err(e) => Outcome(a, None, Some(e))
    case Ok(c) =>
      if !AutoAccepts(a.config, c.record) then Outcome(c.agent, None, None)
      else
        match CreateResponse(c.agent, c.record.id)
        case Err(e) => Outcome(c.agent, None, Some(e))
        case Ok(d) => Send(d.agent, c.record, d.message, None)
  }

  function HandleResponse(a: Agent, connection: Option<ConnectionRecord>, message: Message): Outcome
    requires message.ConnectionResponse?
  {
    match ProcessResponse(a, connection, message)
    case Err(e) => Outcome(a, None, Some(e))
    case Ok(c) =>
      if !AutoAccepts(a.config, c.record) then Outcome(c.agent, None, None)
      else
        match CreateTrustPing(c.agent, c.record.id)
        case Err(e) => Outcome(c.agent, None, Some(e))
        case Ok(d) => Send(d.agent, c.record, d.message, None)
  }

  function HandlePing(a: Agent, connection: Option<ConnectionRecord>, message: Message): Outcome
    requires message.TrustPing?
  {
    if connection.None? then Outcome(a, None, Some(ConnectionNotFound))
    else
      var c := if connection.value.state == Responded then UpdateState(a, connection.value, Complete)
               else Changed(a, connection.value);
      if message.responseRequested then Send(c.agent, c.record, TrustPingResponse, None)
      else Outcome(c.agent, None, None)
  }

  function HandleAck(a: Agent, connection: Option<ConnectionRecord>): Outcome {
    match ProcessAck(a, connection)
    case Err(e) => Outcome(a, None, Some(e))
    case Ok(c) => Outcome(c.agent, None, None)
  }

  function Dispatch(a: Agent, connection: Option<ConnectionRecord>, message: Message): Outcome {
    match message
    case ConnectionRequest(_, _) => HandleRequest(a, connection, message)
    case ConnectionResponse(_, _) => HandleResponse(a, connection, message)
    case TrustPing(_) => HandlePing(a, connection, message)
    case TrustPingResponse => Outcome(a, None, None)
    case Ack => HandleAck(a, connection)
  }

  /** The connection a message belongs to: looked up by the recipient key, and refused when the record
      already knows its peer's key and the sender used another one. */
  ghost function SenderChecked(a: Agent, u: Unpacked): Result<Option<ConnectionRecord>, Error> {
    if u.sender.None? || u.recipient.None? then Ok(None)
    else
      match Find(a.records, ByVerkey(u.recipient.value))
      case Err(e) => Err(e)
      case Ok(connection) =>
        if connection.Some? && connection.value.TheirKey().Some? && connection.value.TheirKey() != u.sender then Err(WrongSender)
        else Ok(connection)
  }

  ghost function Receive(a: Agent, u: Unpacked): Outcome {
    match SenderChecked(a, u)
    case Err(e) => Outcome(a, None, Some(e))
    case Ok(connection) => Dispatch(a, connection, u.message)
  }
}
