/** What one agent's connection records go through, whatever its users ask for and whatever messages arrive,
    honest or not. */
module ConnectionHistories {
  import opened Results
  import opened Connections
  import X = Exchange
  import Histories
  import Storage

  // ----- what the lookups and the documents show ----------------------------------------------

  /** The first agent service is the one that no other agent service precedes. */
  lemma {:induction false} FirstServiceExactly(services: seq<Service>) returns (i: nat)
    ensures FirstAgentService(services).Some? ==>
              i < |services| && FirstAgentService(services) == Some(services[i]) && services[i].IndyAgentService?
              && forall j :: 0 <= j < i ==> services[j].OtherService?
  {
    if services == [] || services[0].IndyAgentService? {
      i := 0;
    } else {
      var rest := FirstServiceExactly(services[1..]);
      i := rest + 1;
      if FirstAgentService(services).Some? {
        forall j | 0 <= j < i ensures services[j].OtherService? {
          if j > 0 { assert services[j] == services[1..][j - 1]; }
        }
      }
    }
  }

  /** The key a document shows is the first recipient key of its first agent service. */
  lemma {:induction false} KeyExactly(doc: DidDoc, before: seq<Service>, endpoint: string, keys: seq<Verkey>, routing: seq<Verkey>,
                                      after: seq<Service>)
    requires forall j :: 0 <= j < |before| ==> before[j].OtherService?
    ensures ServiceKey(Some(doc.(service := before + [IndyAgentService(endpoint, keys, routing)] + after))) ==
            if keys == [] then None else Some(keys[0])
    ensures ServiceKey(None) == None && ServiceKey(Some(doc.(service := before))) == None
  {
    var services := before + [IndyAgentService(endpoint, keys, routing)] + after;
    var i := FirstServiceExactly(services);
    assert services[|before|].IndyAgentService? && services[|before|] in services;
    forall j | 0 <= j < |before| ensures services[j].OtherService? { assert services[j] == before[j]; }
  }

  /** A tag query answers with the one record that meets it, with none, or with an error if two do. */
  lemma FindExactly(records: map<ConnectionId, ConnectionRecord>, query: ConnectionRecord -> bool)
    ensures Find(records, query) == Err(MoreThanOneConnection) <==>
            exists i, j :: i in records && j in records && i != j && query(records[i]) && query(records[j])
    ensures Find(records, query) == Ok(None) <==> forall i :: i in records ==> !query(records[i])
    ensures forall i :: i in records && query(records[i]) && Find(records, query).Ok? ==> Find(records, query) == Ok(Some(records[i]))
  {
    assert forall i :: Storage.Hit(records, query, i) <==> i in records && query(records[i]);
  }

  /** Which connection a message is dispatched with: none without both keys; else that of the record tagged with the
      recipient key, unless two are, or the record shows another key of its peer than the sender's. */
  lemma SenderExactly(a: Agent, u: Unpacked)
    ensures u.sender.None? || u.recipient.None? ==> SenderChecked(a, u) == Ok(None)
    ensures u.sender.Some? && u.recipient.Some? ==>
              match Find(a.records, (r: ConnectionRecord) => r.tags.verkey == u.recipient)
              case Err(_) => SenderChecked(a, u) == Err(MoreThanOneConnection)
              case Ok(None) => SenderChecked(a, u) == Ok(None)
              case Ok(Some(r)) =>
                SenderChecked(a, u) ==
                if ServiceKey(r.theirDidDoc) in {None, u.sender} then Ok(Some(r)) else Err(WrongSender)
  {
    if u.sender.Some? && u.recipient.Some? {
      var q := (r: ConnectionRecord) => r.tags.verkey == u.recipient;
      SameQuery(a.records, q, ByVerkey(u.recipient.value));
    }
  }

  lemma SameQuery(records: map<ConnectionId, ConnectionRecord>, q: ConnectionRecord -> bool, q': ConnectionRecord -> bool)
    requires forall r :: q(r) == q'(r)
    ensures Find(records, q) == Find(records, q')
  {
    assert forall i :: Storage.Hit(records, q, i) <==> Storage.Hit(records, q', i);
  }

  // ----- one call -----------------------------------------------------------------------------

  // What a user or the network can make an agent do. Fresh ids, DIDs and keys come with the call.
  datatype Call =
    | Invite(id: ConnectionId, did: Did, verkey: Verkey, autoAccept: Option<bool>)
    | UseInvitation(id: ConnectionId, did: Did, verkey: Verkey, invitation: Invitation, autoAccept: Option<bool>, messageId: MessageId)
    | SendRequest(id: ConnectionId, messageId: MessageId)
    | SendResponse(id: ConnectionId)
    | SendPing(id: ConnectionId)
    | Inbound(unpacked: Unpacked)

  ghost function Do(a: Agent, c: Call): Outcome {
    match c
    case Invite(id, did, key, auto) => Outcome(CreateInvitation(a, id, did, key, auto).agent, None, None)
    case UseInvitation(id, did, key, invitation, auto, m) => ReceiveInvitation(a, id, did, key, invitation, auto, m)
    case SendRequest(id, m) => AcceptInvitation(a, id, m)
    case SendResponse(id) => AcceptRequest(a, id)
    case SendPing(id) => AcceptResponse(a, id)
    case Inbound(u) => Receive(a, u)
  }

  predicate Fresh(a: Agent, c: Call) {
    c.Invite? || c.UseInvitation? ==> c.id !in a.records
  }

  predicate Automatic(a: Agent, own: Option<bool>) {
    own == Some(true) || (own == None && a.config.autoAcceptConnections)
  }

  /** The document of a new record: the new key, to authenticate with, and one agent service with the agent's endpoint
      and routing keys and the new key. */
  function NewDoc(a: Agent, did: Did, key: Verkey): DidDoc {
    var publicKey := PublicKey(KeyId(did, 1), did, "Ed25519VerificationKey2018", key);
    DidDoc(did, [publicKey], [ReferencedAuthentication(publicKey, "Ed25519SignatureAuthentication2018")],
           [IndyAgentService(a.config.endpoint, [key], a.config.routingKeys)])
  }

  /** What a message of record `r` is packed for: the recipient keys of its peer's first agent service. */
  ghost predicate Addresses(r: ConnectionRecord, sent: Option<Packet>, m: Message) {
    && r.theirDidDoc.Some? && FirstAgentService(r.theirDidDoc.value.service).Some?
    && sent == Some(Packet(FirstAgentService(r.theirDidDoc.value.service).value.recipientKeys, r.verkey, m))
  }

  /** To whom a message goes: to all keys of the invitation if one is passed, and else to those of the first agent
      service in the peer's document; and with which error it fails if there is none. */
  lemma SendExactly(a: Agent, r: ConnectionRecord, m: Message, invitation: Option<Invitation>)
    ensures Send(a, r, m, invitation).agent == a
    ensures invitation.Some? ==> Send(a, r, m, invitation) == Outcome(a, Some(Packet(invitation.value.recipientKeys, r.verkey, m)), None)
    ensures var o := Send(a, r, m, None);
            if r.theirDidDoc.None? then o.sent == None && o.error == Some(NoDidDoc)
            else if forall service :: service in r.theirDidDoc.value.service ==> service.OtherService?
            then o.sent == None && o.error == Some(NoRecipientKeys)
            else Addresses(r, o.sent, m) && o.error == None
  {
  }

  /** A new invitation is the agent's own: its new record's key, behind the agent's routing keys, at its endpoint. */
  lemma InviteExactly(a: Agent, id: ConnectionId, did: Did, key: Verkey, auto: Option<bool>)
    ensures var a' := Do(a, Invite(id, did, key, auto)).agent;
            var r := ConnectionRecord(id, did, NewDoc(a, did, key), key, None, None,
                                      Some(Invitation([key], a.config.routingKeys, a.config.endpoint)),
                                      Invited, Inviter, auto, Tags(Some(key), None, None, None));
            a' == Agent(a.records[id := r], a.events + [StateChanged(r, None)], a.config)
  {
  }

  /** An invitation that is used makes an invitee record with its first key as tag; with automatic acceptance the
      request goes out at once, to all of the invitation's keys, with the new record's own DID and document. */
  lemma UseExactly(a: Agent, c: Call)
    requires c.UseInvitation? && c.id !in a.records
    ensures var o := Do(a, c);
            var keys := c.invitation.recipientKeys;
            var r := ConnectionRecord(c.id, c.did, NewDoc(a, c.did, c.verkey), c.verkey, None, None, Some(c.invitation),
                                      Invited, Invitee, c.autoAccept,
                                      Tags(Some(c.verkey), if keys == [] then None else Some(keys[0]), None, None));
            && o.error.None?
            && if Automatic(a, c.autoAccept) then
                 && o.agent.records == a.records[c.id := r.(state := Requested)]
                 && o.sent == Some(Packet(keys, c.verkey, ConnectionRequest(c.messageId, Some(Connection(c.did, Some(r.didDoc))))))
               else o.agent.records == a.records[c.id := r] && o.sent == None
  {
  }

  /** A request goes out from an Invited invitee, and from no other record. */
  lemma RequestExactly(a: Agent, id: ConnectionId, m: MessageId)
    ensures var o := Do(a, SendRequest(id, m));
            if id in a.records && a.records[id].state == Invited && a.records[id].role == Invitee then
              var r, m := a.records[id], ConnectionRequest(m, Some(Connection(a.records[id].did, Some(a.records[id].didDoc))));
              && o.agent.records == a.records[r.id := r.(state := Requested)]
              && (r.invitation.Some? ==> o.error == None && o.sent == Some(Packet(r.invitation.value.recipientKeys, r.verkey, m)))
            else
              && o.agent == a && o.sent == None
              && o.error == Some(if id !in a.records then ConnectionNotFound
                                 else if a.records[id].state != Invited then InvalidState else InvalidRole)
  {
  }

  /** A response goes out from a Requested inviter, signed with its own key over its own DID and document. */
  lemma ResponseExactly(a: Agent, id: ConnectionId)
    ensures var o := Do(a, SendResponse(id));
            if id in a.records && a.records[id].state == Requested && a.records[id].role == Inviter then
              var r := a.records[id];
              var own := Connection(r.did, Some(r.didDoc));
              && o.agent.records == a.records[r.id := r.(state := Responded)]
              && (r.TheirKey().Some? && r.tags.threadId.Some? ==>
                    o.error == None && Addresses(r, o.sent, ConnectionResponse(
                      r.tags.threadId.value, SignatureDecorator(r.verkey, own, Signature(r.verkey, own)))))
            else
              && o.agent == a && o.sent == None
              && o.error == Some(if id !in a.records then ConnectionNotFound
                                 else if a.records[id].state != Requested then InvalidState else InvalidRole)
  {
  }

  /** A ping goes out from any ready record, and asks for an answer. */
  lemma PingExactly(a: Agent, id: ConnectionId)
    ensures var o := Do(a, SendPing(id));
            if id in a.records && a.records[id].state in {Responded, Complete} then
              var r := a.records[id];
              && o.agent.records == a.records[r.id := r.(state := Complete)]
              && (r.TheirKey().Some? ==> o.error == None && Addresses(r, o.sent, TrustPing(true)))
            else
              && o.agent == a && o.sent == None
              && o.error == Some(if id !in a.records then ConnectionNotFound else InvalidState)
  {
  }

  // ----- one message --------------------------------------------------------------------------

  /** A request is taken in by an Invited inviter if it has a document that shows a key, and by no other record; with
      automatic acceptance the signed response goes out at once, on the thread of the request. */
  lemma RequestTaken(a: Agent, r: ConnectionRecord, id: MessageId, connection: Option<Connection>)
    requires r.id in a.records && a.records[r.id] == r
    ensures var o := Dispatch(a, Some(r), ConnectionRequest(id, connection));
            var key := if connection.Some? then ServiceKey(connection.value.didDoc) else None;
            if r.state == Invited && r.role == Inviter && key.Some? then
              var auto := Automatic(a, r.autoAcceptConnection);
              var r' := r.(state := if auto then Responded else Requested, theirDid := Some(connection.value.did),
                           theirDidDoc := connection.value.didDoc, tags := Tags(r.tags.verkey, r.tags.invitationKey, Some(id), key));
              var own := Connection(r.did, Some(r.didDoc));
              && o.agent.records == a.records[r.id := r'] && o.error == None
              && if auto then Addresses(r', o.sent, ConnectionResponse(id, SignatureDecorator(r.verkey, own, Signature(r.verkey, own))))
                 else o.sent == None
            else
              && o.agent == a && o.sent == None
              && o.error == Some(if r.state != Invited then InvalidState else if r.role != Inviter then InvalidRole
                                 else if connection.None? then InvalidMessage else NoRecipientKeys)
  {
  }

  /** A response is taken in by a Requested invitee if it is signed, by the very key that signs it for that very
      data, with the key of the invitation, and if the signed document shows a key; and by no other record. */
  lemma ResponseTaken(a: Agent, r: ConnectionRecord, thread: MessageId, sig: SignatureDecorator)
    requires r.id in a.records && a.records[r.id] == r
    ensures var o := Dispatch(a, Some(r), ConnectionResponse(thread, sig));
            var genuine := sig.signature.key == sig.signer && sig.signature.data == sig.data;
            var key := ServiceKey(sig.data.didDoc);
            if r.state == Requested && r.role == Invitee && genuine && r.tags.invitationKey == Some(sig.signer) && key.Some? then
              var auto := Automatic(a, r.autoAcceptConnection);
              var r' := r.(state := if auto then Complete else Responded, theirDid := Some(sig.data.did),
                           theirDidDoc := sig.data.didDoc, tags := Tags(r.tags.verkey, r.tags.invitationKey, Some(thread), key));
              && o.agent.records == a.records[r.id := r'] && o.error == None
              && if auto then Addresses(r', o.sent, TrustPing(true)) else o.sent == None
            else
              && o.agent == a && o.sent == None
              && o.error == Some(if r.state != Requested then InvalidState else if r.role != Invitee then InvalidRole
                                 else if !genuine then InvalidSignature
                                 else if r.tags.invitationKey != Some(sig.signer) then WrongSigner else NoRecipientKeys)
  {
  }

  /** A ping completes a Responded record, and is answered exactly if it asks for an answer and the record's peer can
      be addressed. */
  lemma PingTaken(a: Agent, r: ConnectionRecord, responseRequested: bool)
    requires r.id in a.records && a.records[r.id] == r
    ensures var o := Dispatch(a, Some(r), TrustPing(responseRequested));
            && o.agent.records == a.records[r.id := r.(state := if r.state == Responded then Complete else r.state)]
            && if responseRequested && r.theirDidDoc.Some? && FirstAgentService(r.theirDidDoc.value.service).Some?
               then Addresses(r, o.sent, TrustPingResponse) && o.error == None
               else o.sent == None && (o.error == None <==> !responseRequested)
  {
  }

  /** An acknowledgement completes a Responded inviter; it and the answer to a ping are otherwise without effect. */
  lemma AckTaken(a: Agent, r: ConnectionRecord)
    requires r.id in a.records && a.records[r.id] == r
    ensures Dispatch(a, Some(r), Ack).agent.records ==
            a.records[r.id := r.(state := if r.state == Responded && r.role == Inviter then Complete else r.state)]
    ensures Dispatch(a, Some(r), Ack).sent == None && Dispatch(a, Some(r), Ack).error == None
    ensures Dispatch(a, Some(r), TrustPingResponse) == Outcome(a, None, None)
  {
  }

  /** Without a connection every message but the answer to a ping fails. */
  lemma Unconnected(a: Agent, m: Message)
    ensures Dispatch(a, None, m) == Outcome(a, None, if m.TrustPingResponse? then None else Some(ConnectionNotFound))
  {
  }

  // ----- any number of calls ------------------------------------------------------------------

  // An agent's records and announcements as a store of the kind that the exchanges use too.
  type ConnectionStore = X.Store<State, ConnectionRecord>

  function Wrapped(r: ConnectionRecord): X.Record<State, ConnectionRecord> {
    X.Record(r.id, 0, 0, r.state, r.(state := Init))
  }

  function Unwrapped(w: X.Record<State, ConnectionRecord>): ConnectionRecord {
    w.data.(state := w.state)
  }

  ghost function StoreOf(a: Agent): ConnectionStore {
    X.Store(map id | id in a.records :: Wrapped(a.records[id]),
            seq(|a.events|, n requires 0 <= n < |a.events| =>
              X.StateChanged(Wrapped(a.events[n].record), a.events[n].previousState)))
  }

  /** The state changes of RFC 0160; a ping of a Complete record is announced too. */
  predicate Moves(from: State, to: State) {
    (from, to) in {(Invited, Requested), (Requested, Responded), (Responded, Complete), (Complete, Complete)}
  }

  ghost predicate InOrder(events: seq<X.StateChanged<State, ConnectionRecord>>) {
    forall n :: 0 <= n < |events| ==>
      match events[n].previousState
      case None => events[n].record.state == Invited
      case Some(from) => Moves(from, events[n].record.state)
  }

  predicate IsBound(r: ConnectionRecord) {
    if r.role == Inviter then r.state in {Requested, Responded, Complete} else r.state in {Responded, Complete}
  }

  /** Tags show the record's own key, the first key of the invitation it was made for, and its peer's key; a record
      names a peer, on a thread, exactly once it has taken in the peer's document. */
  predicate Formed(r: ConnectionRecord) {
    && r.state != Init && r.tags.verkey == Some(r.verkey) && r.invitation.Some? && r.tags.theirKey == r.TheirKey()
    && r.tags.invitationKey ==
       (if r.role == Inviter || r.invitation.value.recipientKeys == [] then None else Some(r.invitation.value.recipientKeys[0]))
    && (IsBound(r) <==> r.theirDid.Some?) && (IsBound(r) <==> r.TheirKey().Some?) && (IsBound(r) <==> r.tags.threadId.Some?)
  }

  ghost predicate Sound(s: ConnectionStore) {
    && X.History(s) && InOrder(s.events)
    && forall id :: id in s.records ==> s.records[id].id == id == s.records[id].data.id && Formed(Unwrapped(s.records[id]))
  }

  /** What calls make of a record: its own side stays, its state goes forwards, its peer is written once, and once
      Complete it never changes. */
  predicate Follows(r: ConnectionRecord, r': ConnectionRecord) {
    && r' == r.(state := r'.state, theirDid := r'.theirDid, theirDidDoc := r'.theirDidDoc,
                tags := r.tags.(theirKey := r'.tags.theirKey, threadId := r'.tags.threadId))
    && Rank(r.state) <= Rank(r'.state)
    && (IsBound(r) ==> r' == r.(state := r'.state))
  }

  ghost function FollowsAs(): (X.Record<State, ConnectionRecord>, X.Record<State, ConnectionRecord>) -> bool {
    (w: X.Record<State, ConnectionRecord>, w': X.Record<State, ConnectionRecord>) => Follows(Unwrapped(w), Unwrapped(w'))
  }

  ghost predicate SoundStep(a: Agent, a': Agent) {
    Sound(StoreOf(a')) && Histories.Advances(StoreOf(a), StoreOf(a'), FollowsAs())
  }

  lemma Updated(a: Agent, r: ConnectionRecord, state: State)
    requires Sound(StoreOf(a)) && r.id in a.records && a.records[r.id].state == r.state && Moves(r.state, state)
    requires Follows(a.records[r.id], r.(state := state)) && Formed(r.(state := state))
    ensures SoundStep(a, UpdateState(a, r, state).agent)
  {
    hide Follows, Formed, X.History;
    var s, a' := StoreOf(a), UpdateState(a, r, state).agent;
    var s' := X.UpdateState(s, Wrapped(r), state).store;
    assert StoreOf(a').records == s'.records && StoreOf(a').events == s'.events;
    X.UpdateKeepsHistory(s, Wrapped(r), state);
    FollowsItself();
  }

  lemma Added(a: Agent, r: ConnectionRecord)
    requires Sound(StoreOf(a)) && r.id !in a.records && r.state == Invited && Formed(r)
    ensures SoundStep(a, Announce(a, r))
  {
    hide Follows, Formed, X.History;
    var s := StoreOf(a);
    var s' := X.Save(s, Wrapped(r));
    assert StoreOf(Announce(a, r)).records == s'.records && StoreOf(Announce(a, r)).events == s'.events;
    X.SaveKeepsHistory(s, Wrapped(r));
    FollowsItself();
  }

  lemma FollowsItself()
    ensures forall r :: Follows(r, r)
  {
  }

  lemma SoundTwice(a: Agent, a1: Agent, a2: Agent)
    requires SoundStep(a, a1) && SoundStep(a1, a2)
    ensures SoundStep(a, a2)
  {
    hide Sound, Follows, StoreOf;
    FollowsTwice();
  }

  lemma FollowsTwice()
    ensures forall r, r', r'' :: Follows(r, r') && Follows(r', r'') ==> Follows(r, r'')
  {
  }

  lemma StaysSound(a: Agent, a': Agent)
    requires SoundStep(a, a')
    ensures Sound(StoreOf(a'))
  {
  }

  lemma Idle(a: Agent)
    requires Sound(StoreOf(a))
    ensures SoundStep(a, a)
  {
    hide Sound, Follows;
    FollowsItself();
  }

  /** A stored record of a sound agent. */
  lemma StoredRecord(a: Agent, id: ConnectionId)
    requires Sound(StoreOf(a)) && id in a.records
    ensures a.records[id].id == id && Formed(a.records[id])
  {
    hide X.History, Formed;
    assert StoreOf(a).records[id] == Wrapped(a.records[id]);
    assert Unwrapped(Wrapped(a.records[id])) == a.records[id];
  }

  lemma OwnCallStep(a: Agent, c: Call)
    requires Sound(StoreOf(a)) && (c.SendRequest? || c.SendResponse? || c.SendPing?)
    ensures SoundStep(a, Do(a, c).agent) && (Do(a, c).error.Some? ==> Do(a, c).agent == a)
  {
    Idle(a);
    if c.id in a.records {
      StoredRecord(a, c.id);
      hide SoundStep, Sound, StoreOf;
      var r := a.records[c.id];
      match c
      case SendRequest(id, m) =>
        RequestExactly(a, id, m);
        if r.state == Invited && r.role == Invitee { Updated(a, r, Requested); }
      case SendResponse(id) =>
        ResponseExactly(a, id);
        if r.state == Requested && r.role == Inviter { Updated(a, r, Responded); }
      case SendPing(id) =>
        PingExactly(a, id);
        if r.IsReady() { Updated(a, r, Complete); }
    }
  }

  lemma NewRecordStep(a: Agent, c: Call)
    requires Sound(StoreOf(a)) && Fresh(a, c) && (c.Invite? || c.UseInvitation?)
    ensures SoundStep(a, Do(a, c).agent) && Do(a, c).error == None
  {
    hide SoundStep, Sound, StoreOf;
    if c.Invite? {
      Added(a, CreateInvitation(a, c.id, c.did, c.verkey, c.autoAccept).record);
    } else {
      var made := ProcessInvitation(a, c.id, c.did, c.verkey, c.invitation, c.autoAccept);
      UseExactly(a, c);
      Added(a, made.record);
      if AutoAccepts(a.config, made.record) {
        StaysSound(a, made.agent);
        OwnCallStep(made.agent, SendRequest(c.id, c.messageId));
        SoundTwice(a, made.agent, Do(a, c).agent);
      }
    }
  }

  /** A record that a request or a response binds to its peer. */
  lemma BindingStep(a: Agent, r: ConnectionRecord, did: Did, doc: Option<DidDoc>, thread: MessageId, state: State)
    requires Sound(StoreOf(a)) && r.id in a.records && a.records[r.id] == r && ServiceKey(doc).Some?
    requires if r.role == Inviter then r.state == Invited && state == Requested else r.state == Requested && state == Responded
    ensures var r' := r.(theirDid := Some(did), theirDidDoc := doc,
                         tags := r.tags.(theirKey := ServiceKey(doc), threadId := Some(thread)));
            && SoundStep(a, UpdateState(a, r', state).agent)
            && UpdateState(a, r', state).agent.records == a.records[r.id := r'.(state := state)]
  {
    StoredRecord(a, r.id);
    hide SoundStep, Sound, StoreOf;
    Updated(a, r.(theirDid := Some(did), theirDidDoc := doc,
                  tags := r.tags.(theirKey := ServiceKey(doc), threadId := Some(thread))), state);
  }

  lemma RequestStep(a: Agent, r: ConnectionRecord, m: Message)
    requires Sound(StoreOf(a)) && r.id in a.records && a.records[r.id] == r && m.ConnectionRequest?
    ensures var o := Dispatch(a, Some(r), m); SoundStep(a, o.agent) && (o.error.Some? ==> o.agent == a)
  {
    Idle(a);
    RequestTaken(a, r, m.id, m.connection);
    match ProcessRequest(a, Some(r), m)
    case Err(_) =>
    case Ok(c) =>
      var doc := m.connection.value.didDoc;
      hide SoundStep, Sound, StoreOf;
      BindingStep(a, r, m.connection.value.did, doc, m.id, Requested);
      if AutoAccepts(a.config, r) {
        StaysSound(a, c.agent);
        OwnCallStep(c.agent, SendResponse(r.id));
        SoundTwice(a, c.agent, Dispatch(a, Some(r), m).agent);
      }
  }

  lemma ResponseStep(a: Agent, r: ConnectionRecord, m: Message)
    requires Sound(StoreOf(a)) && r.id in a.records && a.records[r.id] == r && m.ConnectionResponse?
    ensures var o := Dispatch(a, Some(r), m); SoundStep(a, o.agent) && (o.error.Some? ==> o.agent == a)
  {
    Idle(a);
    ResponseTaken(a, r, m.threadId, m.connectionSig);
    match ProcessResponse(a, Some(r), m)
    case Err(_) =>
    case Ok(c) =>
      var data := m.connectionSig.data;
      hide SoundStep, Sound, StoreOf;
      BindingStep(a, r, data.did, data.didDoc, m.threadId, Responded);
      if AutoAccepts(a.config, r) {
        StaysSound(a, c.agent);
        OwnCallStep(c.agent, SendPing(r.id));
        SoundTwice(a, c.agent, Dispatch(a, Some(r), m).agent);
      }
  }

  lemma FinishingStep(a: Agent, r: ConnectionRecord, m: Message)
    requires Sound(StoreOf(a)) && r.id in a.records && a.records[r.id] == r
    requires m.TrustPing? || m.TrustPingResponse? || m.Ack?
    ensures var o := Dispatch(a, Some(r), m); SoundStep(a, o.agent) && (o.error.Some? ==> o.agent == a)
  {
    Idle(a);
    StoredRecord(a, r.id);
    hide SoundStep, Sound, StoreOf;
    if r.state == Responded { Updated(a, r, Complete); }
  }

  lemma Step(a: Agent, c: Call)
    requires Sound(StoreOf(a)) && Fresh(a, c)
    ensures SoundStep(a, Do(a, c).agent)
    ensures Do(a, c).error.Some? ==> Do(a, c).agent == a
  {
    match c
    case Invite(_, _, _, _) => NewRecordStep(a, c);
    case UseInvitation(_, _, _, _, _, _) => NewRecordStep(a, c);
    case Inbound(u) =>
      Idle(a);
      if SenderChecked(a, u).Ok? {
        if SenderChecked(a, u).value.None? { Unconnected(a, u.message); }
        else {
          var r := SenderChecked(a, u).value.value;
          CheckedIsStored(a, u);
          hide SoundStep, Sound, StoreOf, SenderChecked;
          match u.message
          case ConnectionRequest(_, _) => RequestStep(a, r, u.message);
          case ConnectionResponse(_, _) => ResponseStep(a, r, u.message);
          case _ => FinishingStep(a, r, u.message);
        }
      }
    case _ => OwnCallStep(a, c);
  }

  lemma CheckedIsStored(a: Agent, u: Unpacked)
    requires Sound(StoreOf(a)) && SenderChecked(a, u).Ok? && SenderChecked(a, u).value.Some?
    ensures var r := SenderChecked(a, u).value.value; r.id in a.records && a.records[r.id] == r
  {
    var q := ByVerkey(u.recipient.value);
    assert Storage.Lookup(a.records, q).One?;
    StoredRecord(a, Storage.Lookup(a.records, q).id);
  }

  /** An agent's life: any calls and any messages at all, one after another, from an empty store. */
  ghost predicate Life(ags: seq<Agent>, cs: seq<Call>) {
    && |ags| == |cs| + 1 && ags[0].records == map[] && ags[0].events == []
    && forall i :: 0 <= i < |cs| ==> Fresh(ags[i], cs[i]) && ags[i + 1] == Do(ags[i], cs[i]).agent
  }

  ghost function StoresOf(ags: seq<Agent>): (ss: seq<ConnectionStore>)
    ensures |ss| == |ags| && forall n :: 0 <= n < |ags| ==> ss[n] == StoreOf(ags[n])
  {
    seq(|ags|, n requires 0 <= n < |ags| => StoreOf(ags[n]))
  }

  lemma BornSound(a: Agent)
    requires a.records == map[] && a.events == []
    ensures Sound(StoreOf(a))
  {
    assert StoreOf(a) == X.Store(map[], []);
  }

  lemma LifeIsLawful(ags: seq<Agent>, cs: seq<Call>)
    requires Life(ags, cs)
    ensures Histories.Lawful(StoresOf(ags), Sound, FollowsAs())
  {
    BornSound(ags[0]);
    hide Sound, Do, StoreOf, FollowsAs;
    forall n: nat | n + 1 < |ags| ensures Histories.LawfulStep(StoresOf(ags), n, Sound, FollowsAs()) {
      if Sound(StoreOf(ags[n])) { Step(ags[n], cs[n]); }
    }
  }

  lemma SoundInLife(ags: seq<Agent>, cs: seq<Call>, i: nat)
    requires Life(ags, cs) && i < |ags|
    ensures Sound(StoreOf(ags[i]))
  {
    LifeIsLawful(ags, cs);
    hide Life, Sound, FollowsAs, StoreOf;
    Histories.AllSound(StoresOf(ags), Sound, FollowsAs(), i);
  }

  /** Whatever happens to an agent: its announcements chain from nothing, move as RFC 0160 lets them and replay to
      what it stores; tags show the keys in the record's documents; and from any point on, a record keeps its own
      side and goes forwards only, names one peer for good, and once Complete never changes again. */
  lemma RecordHistory(ags: seq<Agent>, cs: seq<Call>, i: nat, j: nat, id: ConnectionId)
    requires Life(ags, cs) && i <= j < |ags| && id in ags[i].records
    ensures X.Recorded(StoreOf(ags[i]), id) && InOrder(StoreOf(ags[i]).events) && Formed(ags[i].records[id])
    ensures id in ags[j].records && Follows(ags[i].records[id], ags[j].records[id])
  {
    SoundInLife(ags, cs, i);
    StoredRecord(ags[i], id);
    LifeIsLawful(ags, cs);
    FollowsItself();
    FollowsTwice();
    hide Life, Follows, Formed, X.Recorded, InOrder;
    Histories.Persists(StoresOf(ags), Sound, FollowsAs(), FollowsAs(), i, j, id);
    assert Unwrapped(Wrapped(ags[i].records[id])) == ags[i].records[id];
    assert Unwrapped(Wrapped(ags[j].records[id])) == ags[j].records[id];
  }

  // ----- whose document a record holds --------------------------------------------------------

  /** An inviter's peer is the sender's own word in a request; an invitee's peer is what was signed with the key of
      the invitation it used. */
  ghost predicate BoundBy(r: ConnectionRecord, m: Message) {
    match r.role
    case Inviter =>
      && m.ConnectionRequest? && m.connection.Some? && r.tags.threadId == Some(m.id)
      && r.theirDid == Some(m.connection.value.did) && r.theirDidDoc == m.connection.value.didDoc
    case Invitee =>
      && m.ConnectionResponse? && r.tags.threadId == Some(m.threadId)
      && m.connectionSig.signature == Signature(m.connectionSig.signer, m.connectionSig.data)
      && r.tags.invitationKey == Some(m.connectionSig.signer)
      && r.theirDid == Some(m.connectionSig.data.did) && r.theirDidDoc == m.connectionSig.data.didDoc
  }

  ghost predicate BoundIn(a: Agent, id: ConnectionId) {
    id in a.records && IsBound(a.records[id])
  }

  lemma CallsDoNotBind(a: Agent, c: Call, id: ConnectionId)
    requires Sound(StoreOf(a)) && Fresh(a, c) && !c.Inbound? && !BoundIn(a, id)
    ensures !BoundIn(Do(a, c).agent, id)
  {
    if id in a.records { StoredRecord(a, id); }
    if c.Invite? || c.UseInvitation? {
      hide Sound, StoreOf;
      if c.UseInvitation? { UseExactly(a, c); }
    } else if c.id in a.records {
      StoredRecord(a, c.id);
      hide Sound, StoreOf;
      match c
      case SendRequest(n, m) => RequestExactly(a, n, m);
      case SendResponse(n) => ResponseExactly(a, n);
      case SendPing(n) => PingExactly(a, n);
    }
  }

  lemma MessageBinds(a: Agent, r: ConnectionRecord, m: Message, id: ConnectionId)
    requires r.id in a.records && a.records[r.id] == r && Formed(r)
    requires BoundIn(Dispatch(a, Some(r), m).agent, id) && !BoundIn(a, id)
    ensures BoundBy(Dispatch(a, Some(r), m).agent.records[id], m)
  {
    match m
    case ConnectionRequest(n, connection) => RequestTaken(a, r, n, connection);
    case ConnectionResponse(thread, sig) => ResponseTaken(a, r, thread, sig);
    case TrustPing(b) => PingTaken(a, r, b);
    case _ => AckTaken(a, r);
  }

  lemma Binds(a: Agent, c: Call, id: ConnectionId)
    requires Sound(StoreOf(a)) && Fresh(a, c) && BoundIn(Do(a, c).agent, id) && !BoundIn(a, id)
    ensures c.Inbound? && BoundBy(Do(a, c).agent.records[id], c.unpacked.message)
  {
    if c.Inbound? {
      var u := c.unpacked;
      if SenderChecked(a, u).Ok? {
        if SenderChecked(a, u).value.None? { Unconnected(a, u.message); }
        else {
          CheckedIsStored(a, u);
          StoredRecord(a, SenderChecked(a, u).value.value.id);
          hide Sound, StoreOf, SenderChecked, BoundIn, BoundBy, Dispatch;
          MessageBinds(a, SenderChecked(a, u).value.value, u.message, id);
        }
      }
    } else {
      CallsDoNotBind(a, c, id);
    }
  }

  lemma StaysBound(r: ConnectionRecord, r': ConnectionRecord, m: Message)
    requires Follows(r, r') && IsBound(r) && BoundBy(r, m)
    ensures BoundBy(r', m)
  {
  }

  /** Whatever messages arrive, forged or not: what a record holds of its peer came with one message the agent got,
      and an invitee's came signed, by the very key that its invitation named, over that very DID and document. */
  lemma {:induction false} PeerFromMessage(ags: seq<Agent>, cs: seq<Call>, i: nat, id: ConnectionId) returns (k: nat)
    requires Life(ags, cs) && i < |ags| && BoundIn(ags[i], id)
    ensures k < i && cs[k].Inbound? && BoundBy(ags[i].records[id], cs[k].unpacked.message)
  {
    assert i > 0;
    hide Do, BoundBy, IsBound, Follows, Fresh;
    if BoundIn(ags[i - 1], id) {
      k := PeerFromMessage(ags, cs, i - 1, id);
      RecordHistory(ags, cs, i - 1, i, id);
      StaysBound(ags[i - 1].records[id], ags[i].records[id], cs[k].unpacked.message);
    } else {
      k := i - 1;
      SoundInLife(ags, cs, k);
      Binds(ags[k], cs[k], id);
    }
  }
}
