/** The connection protocol between any number of agents over a network that may lose, reorder and
    duplicate: the set of packets ever sent only grows, and any of them may arrive, at any time, any
    number of times, or never. */
module Handshake {
  import opened Results
  import opened Connections
  import Storage

  datatype System = System(agents: map<nat, Agent>, invitations: set<Invitation>, sent: set<Packet>)

  // One atomic step of one agent. `n` numbers a fresh record, DID and key of that agent's wallet.
  datatype Step =
    | MakeInvitation(agent: nat, n: nat, autoAccept: Option<bool>)
    | UseInvitation(agent: nat, n: nat, invitation: Invitation, autoAccept: Option<bool>, messageId: MessageId)
    | SendRequest(agent: nat, id: ConnectionId, messageId: MessageId)
    | SendResponse(agent: nat, id: ConnectionId)
    | SendPing(agent: nat, id: ConnectionId)
    | Deliver(packet: Packet, key: Verkey)

  ghost predicate Has(g: System, k: Verkey) {
    k.owner in g.agents && k.n in g.agents[k.owner].records
  }

  ghost function Rec(g: System, k: Verkey): ConnectionRecord
    requires Has(g, k)
  {
    g.agents[k.owner].records[k.n]
  }

  ghost predicate Enabled(g: System, s: Step) {
    match s
    case MakeInvitation(a, n, _) => a in g.agents && n !in g.agents[a].records
    case UseInvitation(a, n, inv, _, _) => a in g.agents && n !in g.agents[a].records && inv in g.invitations
    case SendRequest(a, _, _) => a in g.agents
    case SendResponse(a, _) => a in g.agents
    case SendPing(a, _) => a in g.agents
    case Deliver(p, k) => p in g.sent && k in p.recipients && Has(g, k)
  }

  ghost function Acting(s: Step): nat {
    match s
    case MakeInvitation(a, _, _) => a
    case UseInvitation(a, _, _, _, _) => a
    case SendRequest(a, _, _) => a
    case SendResponse(a, _) => a
    case SendPing(a, _) => a
    case Deliver(_, k) => k.owner
  }

  /** What the acting agent does in a step. */
  ghost function Act(g: System, s: Step): Outcome
    requires Enabled(g, s)
  {
    var a := g.agents[Acting(s)];
    match s
    case MakeInvitation(i, n, auto) => Outcome(CreateInvitation(a, n, Did(i, n), Verkey(i, n), auto).agent, None, None)
    case UseInvitation(i, n, inv, auto, m) => ReceiveInvitation(a, n, Did(i, n), Verkey(i, n), inv, auto, m)
    case SendRequest(_, id, m) => AcceptInvitation(a, id, m)
    case SendResponse(_, id) => AcceptRequest(a, id)
    case SendPing(_, id) => AcceptResponse(a, id)
    case Deliver(p, k) => Receive(a, Unpacked(p.message, Some(p.sender), Some(k)))
  }

  ghost function NewInvitations(g: System, s: Step): set<Invitation>
    requires Enabled(g, s)
  {
    match s
    case MakeInvitation(i, n, auto) =>
      var r := CreateInvitation(g.agents[i], n, Did(i, n), Verkey(i, n), auto).record;
      if r.invitation.Some? then {r.invitation.value} else {}
    case _ => {}
  }

  /** The system once agent `a` has acted: its new state, and its packet on the network. */
  ghost function After(g: System, a: nat, o: Outcome): System {
    System(g.agents[a := o.agent], g.invitations, if o.sent.Some? then g.sent + {o.sent.value} else g.sent)
  }

  ghost function Apply(g: System, s: Step): System
    requires Enabled(g, s)
  {
    var g' := After(g, Acting(s), Act(g, s));
    g'.(invitations := g.invitations + NewInvitations(g, s))
  }

  ghost predicate Initial(g: System) {
    g.sent == {} && g.invitations == {} && forall a | a in g.agents :: g.agents[a].records == map[]
  }

  /** A run: consecutive systems are one enabled step apart. */
  ghost predicate Next(g: System, g': System) {
    exists s :: Enabled(g, s) && g' == Apply(g, s)
  }

  ghost predicate Run(gs: seq<System>) {
    |gs| > 0 && Initial(gs[0]) && forall i :: 0 <= i < |gs| - 1 ==> Next(gs[i], gs[i + 1])
  }

  // ----- the invariant ----------------------------------------------------------------------

  /** The document of record `k`: its own key, to authenticate with, and one agent service, at its agent's endpoint,
      for that key, behind its agent's routing keys. */
  ghost function OwnDoc(k: Verkey, config: Config): DidDoc {
    var did := Did(k.owner, k.n);
    var key := PublicKey(KeyId(did, 1), did, "Ed25519VerificationKey2018", k);
    DidDoc(did, [key], [ReferencedAuthentication(key, "Ed25519SignatureAuthentication2018")],
           [IndyAgentService(config.endpoint, [k], config.routingKeys)])
  }

  ghost predicate OwnFields(g: System, k: Verkey)
    requires Has(g, k)
  {
    var r := Rec(g, k);
    && r.id == k.n && r.verkey == k && r.did == Did(k.owner, k.n) && r.tags.verkey == Some(k)
    && r.didDoc == OwnDoc(k, g.agents[k.owner].config)
  }

  /** The invitation of inviter `k`, which tells the same. */
  ghost function OwnInvitation(k: Verkey, config: Config): Invitation {
    Invitation([k], config.routingKeys, config.endpoint)
  }

  ghost predicate Unbound(r: ConnectionRecord) {
    r.theirDid == None && r.theirDidDoc == None && r.tags.theirKey == None && r.tags.threadId == None
  }

  /** `r` names `peer` as its other side: DID, document and key, in the fields and in the tags. */
  ghost predicate BoundTo(r: ConnectionRecord, peer: ConnectionRecord) {
    && r.theirDid == Some(peer.did) && r.theirDidDoc == Some(peer.didDoc)
    && r.tags.theirKey == Some(peer.verkey) && r.tags.threadId.Some?
  }

  ghost function RequestPacket(r: ConnectionRecord, to: Verkey, id: MessageId): Packet {
    Packet([to], r.verkey, ConnectionRequest(id, Some(Connection(r.did, Some(r.didDoc)))))
  }

  ghost function ResponsePacket(r: ConnectionRecord, to: Verkey, threadId: MessageId): Packet {
    Packet([to], r.verkey, ConnectionResponse(threadId, SignData(Connection(r.did, Some(r.didDoc)), r.verkey)))
  }

  ghost predicate InviterOk(g: System, k: Verkey)
    requires Has(g, k)
  {
    var r := Rec(g, k);
    && r.tags.invitationKey == None && r.invitation == Some(OwnInvitation(k, g.agents[k.owner].config))
    && r.state != Init
    && if r.state == Invited then Unbound(r)
       else
         && r.tags.theirKey.Some? && Has(g, r.tags.theirKey.value)
         && BoundTo(r, Rec(g, r.tags.theirKey.value))
         && RequestPacket(Rec(g, r.tags.theirKey.value), k, r.tags.threadId.value) in g.sent
         && (r.state == Complete ==> Rec(g, r.tags.theirKey.value).IsReady() || PingedByItself(g, k))
  }

  /** The record's own agent has sent a ping from it, which createTrustPing allows either role. */
  ghost predicate PingedByItself(g: System, k: Verkey)
    requires Has(g, k)
  {
    Rec(g, k).tags.theirKey.Some? && Packet([Rec(g, k).tags.theirKey.value], k, TrustPing(true)) in g.sent
  }

  ghost predicate InviteeOk(g: System, k: Verkey)
    requires Has(g, k)
  {
    var r := Rec(g, k);
    && r.tags.invitationKey.Some? && Has(g, r.tags.invitationKey.value)
    && Rec(g, r.tags.invitationKey.value).role == Inviter
    && r.invitation == Rec(g, r.tags.invitationKey.value).invitation
    && r.invitation == Some(OwnInvitation(r.tags.invitationKey.value, g.agents[r.tags.invitationKey.value.owner].config))
    && r.state != Init
    && if r.state in {Invited, Requested} then Unbound(r)
       else
         && BoundTo(r, Rec(g, r.tags.invitationKey.value))
         && ResponsePacket(Rec(g, r.tags.invitationKey.value), k, r.tags.threadId.value) in g.sent
  }

  ghost predicate RecordOk(g: System, k: Verkey)
    requires Has(g, k)
  {
    && OwnFields(g, k)
    && (Rec(g, k).role == Inviter ==> InviterOk(g, k))
    && (Rec(g, k).role == Invitee ==> InviteeOk(g, k))
  }

  ghost predicate PacketOk(g: System, p: Packet) {
    && Has(g, p.sender)
    && var r := Rec(g, p.sender);
       match p.message
       case ConnectionRequest(id, _) =>
         && r.role == Invitee && r.state !in {Init, Invited} && r.tags.invitationKey.Some?
         && p == RequestPacket(r, r.tags.invitationKey.value, id)
       case ConnectionResponse(threadId, _) =>
         && r.role == Inviter && r.IsReady() && r.tags.theirKey.Some?
         && r.tags.threadId == Some(threadId) && p == ResponsePacket(r, r.tags.theirKey.value, threadId)
       case TrustPing(_) => r.IsReady() && r.tags.theirKey.Some? && p.recipients == [r.tags.theirKey.value]
       case TrustPingResponse => r.tags.theirKey.Some? && p.recipients == [r.tags.theirKey.value]
       case Ack => false
  }

  /** An invitee record sends one request in its life. */
  ghost predicate OneRequest(sent: set<Packet>) {
    forall p, q ::
      p in sent && q in sent && p.message.ConnectionRequest? && q.message.ConnectionRequest? && p.sender == q.sender ==>
      p == q
  }

  ghost predicate InvitationOk(g: System, inv: Invitation) {
    && |inv.recipientKeys| == 1 && Has(g, inv.recipientKeys[0])
    && Rec(g, inv.recipientKeys[0]).role == Inviter && Rec(g, inv.recipientKeys[0]).invitation == Some(inv)
    && inv == OwnInvitation(inv.recipientKeys[0], g.agents[inv.recipientKeys[0].owner].config)
  }

  ghost predicate Inv(g: System) {
    && (forall k :: Has(g, k) ==> RecordOk(g, k))
    && (forall p :: p in g.sent ==> PacketOk(g, p))
    && OneRequest(g.sent)
    && (forall inv :: inv in g.invitations ==> InvitationOk(g, inv))
  }
}
