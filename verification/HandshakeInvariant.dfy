/** Every step of the handshake keeps the invariant. */
module HandshakeInvariant {
  import opened Results
  import opened Connections
  import opened Handshake
  import Storage

  /** What may happen to a record: its own side never changes, its state never goes back, and
      once it names a peer it names that peer for good. */
  ghost predicate Evolves(r: ConnectionRecord, r': ConnectionRecord) {
    && r' == r.(state := r'.state, theirDid := r'.theirDid, theirDidDoc := r'.theirDidDoc,
                tags := r.tags.(theirKey := r'.tags.theirKey, threadId := r'.tags.threadId))
    && Rank(r.state) <= Rank(r'.state)
    && (Unbound(r) || (r'.theirDid == r.theirDid && r'.theirDidDoc == r.theirDidDoc && r'.tags == r.tags))
  }

  /** The same agents, with the same settings. */
  ghost predicate SameConfigs(g: System, g': System) {
    g'.agents.Keys == g.agents.Keys && forall a :: a in g.agents ==> g'.agents[a].config == g.agents[a].config
  }

  ghost predicate Grows(g: System, g': System) {
    && SameConfigs(g, g')
    && (forall k :: Has(g, k) ==> Has(g', k) && Evolves(Rec(g, k), Rec(g', k)))
    && g.sent <= g'.sent && g.invitations <= g'.invitations
  }

  /** `g'` differs from `g` at most in record `k`. */
  ghost predicate Differs(g: System, g': System, k: Verkey) {
    && Has(g', k) && (Has(g, k) ==> Evolves(Rec(g, k), Rec(g', k)))
    && (forall j :: j != k ==> (Has(g', j) <==> Has(g, j)))
    && (forall j :: j != k && Has(g, j) ==> Rec(g', j) == Rec(g, j))
    && SameConfigs(g, g') && g.sent <= g'.sent && g.invitations <= g'.invitations
  }

  lemma DiffersGrows(g: System, g': System, k: Verkey)
    requires Differs(g, g', k)
    ensures Grows(g, g')
  {
    forall j | Has(g, j) ensures Has(g', j) && Evolves(Rec(g, j), Rec(g', j)) {
      if j != k { assert Rec(g', j) == Rec(g, j); }
    }
  }

  lemma PacketStays(g: System, g': System, p: Packet)
    requires PacketOk(g, p) && Grows(g, g')
    ensures PacketOk(g', p)
  {
    hide OwnDoc, OwnInvitation;
    assert Evolves(Rec(g, p.sender), Rec(g', p.sender));
  }

  lemma RecordStays(g: System, g': System, k: Verkey)
    requires Has(g, k) && RecordOk(g, k) && Grows(g, g') && Rec(g', k) == Rec(g, k)
    ensures RecordOk(g', k)
  {
    hide OwnDoc, OwnInvitation;
    var r := Rec(g, k);
    if r.role == Inviter && r.state != Invited {
      assert Evolves(Rec(g, r.tags.theirKey.value), Rec(g', r.tags.theirKey.value));
    }
    if r.role == Invitee {
      assert Evolves(Rec(g, r.tags.invitationKey.value), Rec(g', r.tags.invitationKey.value));
    }
  }

  /** One changed record and a few new packets: only those need to be looked at. */
  lemma OneChange(g: System, g': System, k: Verkey)
    requires Inv(g) && Differs(g, g', k)
    requires RecordOk(g', k)
    requires forall p :: p in g'.sent && p !in g.sent ==> PacketOk(g', p)
    requires OneRequest(g'.sent)
    requires forall i :: i in g'.invitations && i !in g.invitations ==> InvitationOk(g', i)
    ensures Inv(g')
  {
    hide OwnDoc, OwnInvitation;
    DiffersGrows(g, g', k);
    forall j | Has(g', j) ensures RecordOk(g', j) {
      if j != k { RecordStays(g, g', j); }
    }
    forall p | p in g'.sent ensures PacketOk(g', p) {
      if p in g.sent { PacketStays(g, g', p); }
    }
    forall i | i in g'.invitations ensures InvitationOk(g', i) {
      if i in g.invitations {
        assert InvitationOk(g, i);
        assert Evolves(Rec(g, i.recipientKeys[0]), Rec(g', i.recipientKeys[0]));
      }
    }
  }

  /** The system after agent `k.owner` has stored `r` under `k.n` and sent `sent`. */
  lemma Stored(g: System, g': System, k: Verkey, r: ConnectionRecord)
    requires k.owner in g.agents && g.sent <= g'.sent && g.invitations <= g'.invitations
    requires k.owner in g'.agents && g'.agents == g.agents[k.owner := g'.agents[k.owner]]
    requires g'.agents[k.owner].records == g.agents[k.owner].records[k.n := r] && g'.agents[k.owner].config == g.agents[k.owner].config
    requires Has(g, k) ==> Evolves(Rec(g, k), r)
    ensures Differs(g, g', k) && Rec(g', k) == r
  {
  }

  lemma Untouched(g: System, g': System)
    requires Inv(g) && g'.sent == g.sent && g'.invitations == g.invitations
    requires SameConfigs(g, g')
    requires forall a :: a in g.agents ==> g'.agents[a].records == g.agents[a].records
    ensures Inv(g') && Grows(g, g')
  {
    assert forall k :: Has(g', k) <==> Has(g, k);
    assert forall k :: Has(g, k) ==> Rec(g', k) == Rec(g, k);
    forall k | Has(g', k) ensures RecordOk(g', k) { RecordStays(g, g', k); }
    forall p | p in g'.sent ensures PacketOk(g', p) { PacketStays(g, g', p); }
  }

  // ----- one lemma per step -----------------------------------------------------------------

  lemma FindOwn(g: System, k: Verkey)
    requires Inv(g) && Has(g, k)
    ensures Find(g.agents[k.owner].records, ByVerkey(k)) == Ok(Some(Rec(g, k)))
  {
    var records := g.agents[k.owner].records;
    assert RecordOk(g, k);
    assert Storage.Hit(records, ByVerkey(k), k.n);
    forall j | Storage.Hit(records, ByVerkey(k), j) ensures j == k.n {
      assert RecordOk(g, Verkey(k.owner, j));
    }
  }

  lemma KeepsMakeInvitation(g: System, a: nat, n: nat, auto: Option<bool>, g': System)
    requires Inv(g) && a in g.agents && n !in g.agents[a].records
    requires var c := CreateInvitation(g.agents[a], n, Did(a, n), Verkey(a, n), auto);
             g' == System(g.agents[a := c.agent], g.invitations + {InvitationOf(c.record)}, g.sent)
    ensures Inv(g') && Grows(g, g')
  {
    var k := Verkey(a, n);
    Stored(g, g', k, CreateInvitation(g.agents[a], n, Did(a, n), k, auto).record);
    OneChange(g, g', k);
    DiffersGrows(g, g', k);
  }

  lemma RequestSettles(g: System, g': System, k: Verkey, p: Packet)
    requires Inv(g) && Has(g, k) && Rec(g, k).role == Invitee && Rec(g, k).state == Invited
    requires Differs(g, g', k) && Rec(g', k) == Rec(g, k).(state := Requested)
    requires p.message.ConnectionRequest? && g'.sent == g.sent + {p} && g'.invitations == g.invitations
    requires Rec(g, k).tags.invitationKey.Some?
    requires p == RequestPacket(Rec(g, k), Rec(g, k).tags.invitationKey.value, p.message.id)
    ensures Inv(g') && Grows(g, g')
  {
    hide OwnDoc, OwnInvitation;
    DiffersGrows(g, g', k);
    assert RecordOk(g, k);
    var i := Rec(g, k).tags.invitationKey.value;
    assert Evolves(Rec(g, i), Rec(g', i));
    forall q | q in g.sent && q.message.ConnectionRequest? ensures q.sender != k {
      assert PacketOk(g, q);
    }
    OneChange(g, g', k);
  }

  lemma KeepsSendRequest(g: System, a: nat, id: ConnectionId, m: MessageId, g': System)
    requires Inv(g) && a in g.agents && g' == After(g, a, AcceptInvitation(g.agents[a], id, m))
    ensures Inv(g') && Grows(g, g')
  {
    hide OwnDoc;
    var k := Verkey(a, id);
    match CreateRequest(g.agents[a], id, m)
    case Err(_) => Untouched(g, g');
    case Ok(c) =>
      var r := Rec(g, k);
      assert RecordOk(g, k);
      Stored(g, g', k, r.(state := Requested));
      RequestSettles(g, g', k, RequestPacket(r, r.tags.invitationKey.value, m));
  }

  lemma NewInvitee(g: System, a: nat, n: nat, inv: Invitation, auto: Option<bool>, g1: System)
    requires Inv(g) && a in g.agents && n !in g.agents[a].records && inv in g.invitations
    requires g1 == After(g, a, Outcome(ProcessInvitation(g.agents[a], n, Did(a, n), Verkey(a, n), inv, auto).agent, None, None))
    ensures Inv(g1) && Grows(g, g1)
  {
    var k := Verkey(a, n);
    var c := ProcessInvitation(g.agents[a], n, Did(a, n), k, inv, auto);
    assert InvitationOk(g, inv);
    Stored(g, g1, k, c.record);
    assert RecordOk(g1, k);
    hide OwnDoc, OwnInvitation, InvitationOk;
    OneChange(g, g1, k);
    DiffersGrows(g, g1, k);
  }

  lemma AcceptsInvitation(a: Agent, n: ConnectionId, did: Did, key: Verkey, inv: Invitation, auto: Option<bool>, m: MessageId)
    ensures var c := ProcessInvitation(a, n, did, key, inv, auto);
            ReceiveInvitation(a, n, did, key, inv, auto, m) ==
            if AutoAccepts(a.config, c.record) then AcceptInvitation(c.agent, n, m) else Outcome(c.agent, None, None)
  {
  }

  lemma KeepsUseInvitation(g: System, a: nat, n: nat, inv: Invitation, auto: Option<bool>, m: MessageId, g': System)
    requires Inv(g) && a in g.agents && n !in g.agents[a].records && inv in g.invitations
    requires g' == After(g, a, ReceiveInvitation(g.agents[a], n, Did(a, n), Verkey(a, n), inv, auto, m))
    ensures Inv(g') && Grows(g, g')
  {
    var k := Verkey(a, n);
    var c := ProcessInvitation(g.agents[a], n, Did(a, n), k, inv, auto);
    var g1 := After(g, a, Outcome(c.agent, None, None));
    NewInvitee(g, a, n, inv, auto, g1);
    AcceptsInvitation(g.agents[a], n, Did(a, n), k, inv, auto, m);
    hide Inv, Grows, ProcessInvitation, ReceiveInvitation;
    if AutoAccepts(g.agents[a].config, c.record) {
      KeepsSendRequest(g1, a, n, m, g');
      GrowsTwice(g, g1, g');
    }
  }

  lemma GrowsTwice(g: System, g1: System, g2: System)
    requires Grows(g, g1) && Grows(g1, g2)
    ensures Grows(g, g2)
  {
    forall k | Has(g, k) ensures Has(g2, k) && Evolves(Rec(g, k), Rec(g2, k)) {
      assert Evolves(Rec(g, k), Rec(g1, k));
      assert Evolves(Rec(g1, k), Rec(g2, k));
    }
  }

  lemma ResponseSettles(g: System, g': System, k: Verkey)
    requires Inv(g) && Has(g, k) && Rec(g, k).role == Inviter && Rec(g, k).state == Requested
    requires Differs(g, g', k) && Rec(g', k) == Rec(g, k).(state := Responded) && g'.invitations == g.invitations
    requires Rec(g, k).tags.theirKey.Some? && Rec(g, k).tags.threadId.Some?
    requires g'.sent == g.sent + {ResponsePacket(Rec(g, k), Rec(g, k).tags.theirKey.value, Rec(g, k).tags.threadId.value)}
    ensures Inv(g') && Grows(g, g')
  {
    DiffersGrows(g, g', k);
    Restates(g, g', k, Responded);
    hide RecordOk, Grows, OwnDoc;
    OneChange(g, g', k);
  }

  lemma KeepsSendResponse(g: System, a: nat, id: ConnectionId, g': System)
    requires Inv(g) && a in g.agents && g' == After(g, a, AcceptRequest(g.agents[a], id))
    ensures Inv(g') && Grows(g, g')
  {
    hide OwnDoc, OwnInvitation;
    var k := Verkey(a, id);
    match CreateResponse(g.agents[a], id)
    case Err(_) => Untouched(g, g');
    case Ok(c) =>
      var r := Rec(g, k);
      assert r.theirDidDoc.Some? && OwnFields(g, k) by { assert RecordOk(g, k); }
      Addressed(g, k);
      Stored(g, g', k, r.(state := Responded));
      ResponseSettles(g, g', k);
  }

  /** The peer a bound record names is a record with the key, DID and document it was told. */
  lemma Addressed(g: System, k: Verkey)
    requires Inv(g) && Has(g, k) && Rec(g, k).theirDidDoc.Some?
    ensures Rec(g, k).tags.theirKey.Some? && Has(g, Rec(g, k).tags.theirKey.value)
    ensures BoundTo(Rec(g, k), Rec(g, Rec(g, k).tags.theirKey.value))
    ensures Rec(g, k).TheirKey() == Rec(g, k).tags.theirKey
    ensures forall m :: CreateOutboundMessage(Rec(g, k), m, None) == Ok(Packet([Rec(g, k).tags.theirKey.value], k, m))
  {
    assert RecordOk(g, k);
    var r := Rec(g, k);
    var peer := if r.role == Inviter then r.tags.theirKey.value else r.tags.invitationKey.value;
    assert RecordOk(g, peer);
  }

  lemma PingsPeer(g: System, g': System, k: Verkey)
    requires Inv(g) && Has(g, k) && Rec(g, k).IsReady()
    requires Differs(g, g', k) && Rec(g', k) == Rec(g, k).(state := Complete) && g'.invitations == g.invitations
    requires Rec(g, k).tags.theirKey.Some?
    requires g'.sent == g.sent + {Packet([Rec(g, k).tags.theirKey.value], k, TrustPing(true))}
    ensures Inv(g') && Grows(g, g')
  {
    hide OwnDoc, OwnInvitation;
    DiffersGrows(g, g', k);
    Restates(g, g', k, Complete);
    OneChange(g, g', k);
  }

  lemma KeepsSendPing(g: System, a: nat, id: ConnectionId, g': System)
    requires Inv(g) && a in g.agents && g' == After(g, a, AcceptResponse(g.agents[a], id))
    ensures Inv(g') && Grows(g, g')
  {
    hide OwnDoc, OwnInvitation;
    var k := Verkey(a, id);
    match CreateTrustPing(g.agents[a], id)
    case Err(_) => Untouched(g, g');
    case Ok(c) =>
      var r := Rec(g, k);
      assert r.theirDidDoc.Some? && OwnFields(g, k) by { assert RecordOk(g, k); }
      Addressed(g, k);
      Stored(g, g', k, r.(state := Complete));
      PingsPeer(g, g', k);
  }

  /** What a Complete inviter can rely on. */
  ghost predicate Closed(g: System, k: Verkey)
    requires Has(g, k)
  {
    var j := Rec(g, k).tags.theirKey;
    PingedByItself(g, k) || (j.Some? && Has(g, j.value) && Rec(g, j.value).IsReady())
  }

  /** Moving a bound record on to a later state leaves it well formed. */
  lemma Restates(g: System, g': System, k: Verkey, s: State)
    requires Inv(g) && Has(g, k) && Grows(g, g') && Rec(g', k) == Rec(g, k).(state := s)
    requires Rec(g, k).state in {Requested, Responded} || s == Rec(g, k).state
    requires Rec(g, k).state == Requested ==> Rec(g, k).role == Inviter
    requires Rank(Rec(g, k).state) <= Rank(s)
    requires Rec(g, k).role == Inviter && s == Complete ==> Closed(g', k)
    ensures RecordOk(g', k)
  {
    hide OwnDoc, OwnInvitation;
    assert RecordOk(g, k);
    var r := Rec(g, k);
    var peer := if r.role == Inviter then r.tags.theirKey else r.tags.invitationKey;
    if peer.Some? {
      assert Evolves(Rec(g, peer.value), Rec(g', peer.value));
    }
  }

  // ----- delivery ---------------------------------------------------------------------------

  ghost predicate Arrives(g: System, p: Packet, k: Verkey) {
    Inv(g) && Enabled(g, Deliver(p, k))
  }

  ghost predicate FromStranger(r: ConnectionRecord, p: Packet) {
    r.TheirKey().Some? && r.TheirKey() != Some(p.sender)
  }

  /** Delivery finds the record that owns the recipient key, and a record that knows its peer lets
      only that peer's packets through. */
  lemma Admitted(g: System, p: Packet, k: Verkey)
    requires Arrives(g, p, k)
    ensures var a := g.agents[k.owner];
            Receive(a, Unpacked(p.message, Some(p.sender), Some(k))) ==
            if FromStranger(Rec(g, k), p) then Outcome(a, None, Some(WrongSender))
            else Dispatch(a, Some(Rec(g, k)), p.message)
  {
    FindOwn(g, k);
  }

  lemma ShowsOwnKey(g: System, k: Verkey)
    requires Has(g, k) && OwnFields(g, k)
    ensures ServiceKey(Some(Rec(g, k).didDoc)) == Some(k)
  {
  }

  /** A request that is taken in binds the inviter's record to the record that sent it. */
  lemma TakesRequest(g: System, p: Packet, k: Verkey, c: Changed, g1: System)
    requires Arrives(g, p, k) && p.message.ConnectionRequest?
    requires ProcessRequest(g.agents[k.owner], Some(Rec(g, k)), p.message) == Ok(c)
    requires g1 == After(g, k.owner, Outcome(c.agent, None, None))
    ensures Inv(g1) && Grows(g, g1) && Differs(g, g1, k)
    ensures Rec(g1, k) == c.record && c.record.state == Requested && BoundTo(c.record, Rec(g, p.sender))
    ensures c.record.tags.threadId == Some(p.message.id) && p.sender != k && c.record.id == k.n
  {
    assert RecordOk(g, k);
    assert PacketOk(g, p);
    ShowsOwnKey(g, p.sender);
    hide OwnDoc, OwnInvitation, ServiceKey;
    assert RecordOk(g, p.sender);
    Stored(g, g1, k, c.record);
    OneChange(g, g1, k);
    DiffersGrows(g, g1, k);
  }

  /** A response that is taken in comes from the inviter whose key the invitation named, and that
      inviter is bound to this very record. */
  lemma TakesResponse(g: System, p: Packet, k: Verkey, c: Changed, g1: System)
    requires Arrives(g, p, k) && p.message.ConnectionResponse?
    requires ProcessResponse(g.agents[k.owner], Some(Rec(g, k)), p.message) == Ok(c)
    requires g1 == After(g, k.owner, Outcome(c.agent, None, None))
    ensures Inv(g1) && Grows(g, g1) && Differs(g, g1, k)
    ensures Rec(g1, k) == c.record && c.record.state == Responded && BoundTo(c.record, Rec(g, p.sender))
    ensures p.sender != k && Rec(g, p.sender).tags.theirKey == Some(k) && c.record.id == k.n
  {
    assert RecordOk(g, k);
    assert PacketOk(g, p);
    ShowsOwnKey(g, p.sender);
    hide OwnDoc, OwnInvitation, ServiceKey;
    assert RecordOk(g, p.sender);
    Stored(g, g1, k, c.record);
    OneChange(g, g1, k);
    DiffersGrows(g, g1, k);
  }

  /** Automatic acceptance is processing followed by the module call a user would have made. */
  lemma AcceptsRequest(a: Agent, r: ConnectionRecord, m: Message, c: Changed)
    requires m.ConnectionRequest? && ProcessRequest(a, Some(r), m) == Ok(c)
    ensures HandleRequest(a, Some(r), m) ==
            if AutoAccepts(a.config, r) then AcceptRequest(c.agent, r.id) else Outcome(c.agent, None, None)
  {
  }

  lemma AcceptsResponse(a: Agent, r: ConnectionRecord, m: Message, c: Changed)
    requires m.ConnectionResponse? && ProcessResponse(a, Some(r), m) == Ok(c)
    ensures HandleResponse(a, Some(r), m) ==
            if AutoAccepts(a.config, r) then AcceptResponse(c.agent, r.id) else Outcome(c.agent, None, None)
  {
  }

  lemma KeepsRequest(g: System, p: Packet, k: Verkey, g': System)
    requires Arrives(g, p, k) && p.message.ConnectionRequest?
    requires g' == After(g, k.owner, HandleRequest(g.agents[k.owner], Some(Rec(g, k)), p.message))
    ensures Inv(g') && Grows(g, g')
  {
    hide Inv, Grows, ProcessRequest;
    var a, r := g.agents[k.owner], Rec(g, k);
    match ProcessRequest(a, Some(r), p.message)
    case Err(_) => Untouched(g, g');
    case Ok(c) =>
      var g1 := After(g, k.owner, Outcome(c.agent, None, None));
      TakesRequest(g, p, k, c, g1);
      AcceptsRequest(a, r, p.message, c);
      if AutoAccepts(a.config, r) {
        KeepsSendResponse(g1, k.owner, k.n, g');
        GrowsTwice(g, g1, g');
      }
  }

  lemma KeepsResponse(g: System, p: Packet, k: Verkey, g': System)
    requires Arrives(g, p, k) && p.message.ConnectionResponse?
    requires g' == After(g, k.owner, HandleResponse(g.agents[k.owner], Some(Rec(g, k)), p.message))
    ensures Inv(g') && Grows(g, g')
  {
    hide Inv, Grows, ProcessResponse;
    var a, r := g.agents[k.owner], Rec(g, k);
    match ProcessResponse(a, Some(r), p.message)
    case Err(_) => Untouched(g, g');
    case Ok(c) =>
      var g1 := After(g, k.owner, Outcome(c.agent, None, None));
      TakesResponse(g, p, k, c, g1);
      AcceptsResponse(a, r, p.message, c);
      if AutoAccepts(a.config, r) {
        KeepsSendPing(g1, k.owner, k.n, g');
        GrowsTwice(g, g1, g');
      }
  }

  /** What a ping does to the state of the record it reaches, and what it sends back. */
  lemma Pinged(a: Agent, r: ConnectionRecord, m: Message)
    requires m.TrustPing? && r.id in a.records && a.records[r.id] == r
    ensures HandlePing(a, Some(r), m).agent.records ==
            a.records[r.id := if r.state == Responded then r.(state := Complete) else r]
    ensures HandlePing(a, Some(r), m).sent.Some? ==>
              r.theirDidDoc.Some? &&
              CreateOutboundMessage(r, TrustPingResponse, None) == Ok(HandlePing(a, Some(r), m).sent.value)
  {
  }

  lemma PingSettles(g: System, g': System, k: Verkey)
    requires Inv(g) && Has(g, k) && g'.invitations == g.invitations
    requires Differs(g, g', k)
    requires Rec(g', k) == if Rec(g, k).state == Responded then Rec(g, k).(state := Complete) else Rec(g, k)
    requires forall p :: p in g'.sent && p !in g.sent ==>
               Rec(g, k).tags.theirKey.Some? && p == Packet([Rec(g, k).tags.theirKey.value], k, TrustPingResponse)
    requires Rec(g, k).role == Inviter && Rec(g, k).state == Responded ==> Closed(g', k)
    ensures Inv(g') && Grows(g, g')
  {
    hide OwnDoc, OwnInvitation;
    DiffersGrows(g, g', k);
    if Rec(g, k).state == Responded { Restates(g, g', k, Complete); } else { RecordStays(g, g', k); }
    OneChange(g, g', k);
  }

  /** A ping that gets through comes from a peer that is ready. */
  lemma PingCloses(g: System, p: Packet, k: Verkey, g': System)
    requires Arrives(g, p, k) && p.message.TrustPing? && !FromStranger(Rec(g, k), p) && Differs(g, g', k)
    requires Rec(g, k).role == Inviter && Rec(g, k).state == Responded && Rec(g', k).tags == Rec(g, k).tags
    ensures Closed(g', k)
  {
    hide OwnDoc, OwnInvitation;
    assert RecordOk(g, k);
    assert PacketOk(g, p);
    Addressed(g, k);
    DiffersGrows(g, g', k);
    assert Evolves(Rec(g, p.sender), Rec(g', p.sender));
  }

  lemma KeepsPing(g: System, p: Packet, k: Verkey, g': System)
    requires Arrives(g, p, k) && p.message.TrustPing? && !FromStranger(Rec(g, k), p)
    requires g' == After(g, k.owner, HandlePing(g.agents[k.owner], Some(Rec(g, k)), p.message))
    ensures Inv(g') && Grows(g, g')
  {
    hide OwnDoc, OwnInvitation;
    var r := Rec(g, k);
    assert OwnFields(g, k) by { assert RecordOk(g, k); }
    Pinged(g.agents[k.owner], r, p.message);
    Stored(g, g', k, if r.state == Responded then r.(state := Complete) else r);
    if r.role == Inviter && r.state == Responded { PingCloses(g, p, k, g'); }
    if r.theirDidDoc.Some? { Addressed(g, k); }
    PingSettles(g, g', k);
  }

  lemma KeepsDispatch(g: System, p: Packet, k: Verkey, g': System)
    requires Arrives(g, p, k) && !FromStranger(Rec(g, k), p)
    requires g' == After(g, k.owner, Dispatch(g.agents[k.owner], Some(Rec(g, k)), p.message))
    ensures Inv(g') && Grows(g, g')
  {
    assert PacketOk(g, p);
    match p.message
    case ConnectionRequest(_, _) => KeepsRequest(g, p, k, g');
    case ConnectionResponse(_, _) => KeepsResponse(g, p, k, g');
    case TrustPing(_) => KeepsPing(g, p, k, g');
    case TrustPingResponse => Untouched(g, g');
    case Ack =>
  }

  lemma KeepsDeliver(g: System, p: Packet, k: Verkey, g': System)
    requires Arrives(g, p, k)
    requires g' == After(g, k.owner, Receive(g.agents[k.owner], Unpacked(p.message, Some(p.sender), Some(k))))
    ensures Inv(g') && Grows(g, g')
  {
    Admitted(g, p, k);
    hide Inv, Grows, Dispatch, Receive, RecordOk, PacketOk;
    if FromStranger(Rec(g, k), p) {
      Untouched(g, g');
    } else {
      KeepsDispatch(g, p, k, g');
    }
  }

  lemma {:induction false} Kept(g: System, s: Step)
    requires Inv(g) && Enabled(g, s)
    ensures Inv(Apply(g, s)) && Grows(g, Apply(g, s))
  {
    var g' := Apply(g, s);
    match s
    case MakeInvitation(a, n, auto) => KeepsMakeInvitation(g, a, n, auto, g');
    case UseInvitation(a, n, inv, auto, m) => KeepsUseInvitation(g, a, n, inv, auto, m, g');
    case SendRequest(a, id, m) => KeepsSendRequest(g, a, id, m, g');
    case SendResponse(a, id) => KeepsSendResponse(g, a, id, g');
    case SendPing(a, id) => KeepsSendPing(g, a, id, g');
    case Deliver(p, k) => KeepsDeliver(g, p, k, g');
  }

  lemma FirstSystem(gs: seq<System>)
    requires Run(gs)
    ensures |gs| > 0 && Inv(gs[0])
  {
    assert forall k :: !Has(gs[0], k);
  }

  lemma NextInRun(gs: seq<System>, i: nat) returns (s: Step)
    requires Run(gs) && i + 1 < |gs|
    ensures Enabled(gs[i], s) && gs[i + 1] == Apply(gs[i], s)
  {
    assert Next(gs[i], gs[i + 1]);
    s :| Enabled(gs[i], s) && gs[i + 1] == Apply(gs[i], s);
  }

  /** Every system a run reaches satisfies the invariant. */
  lemma {:induction false} Reached(gs: seq<System>, i: nat)
    requires Run(gs) && i < |gs|
    ensures Inv(gs[i])
  {
    hide *;
    if i == 0 {
      FirstSystem(gs);
    } else {
      Reached(gs, i - 1);
      var s := NextInRun(gs, i - 1);
      Kept(gs[i - 1], s);
    }
  }

  lemma OneStep(gs: seq<System>, i: nat)
    requires Run(gs) && i + 1 < |gs|
    ensures Grows(gs[i], gs[i + 1])
  {
    hide *;
    Reached(gs, i);
    var s := NextInRun(gs, i);
    Kept(gs[i], s);
  }

  lemma GrowsSelf(g: System)
    ensures Grows(g, g)
  {
  }

  /** Along a run records persist and only evolve. */
  lemma {:induction false} Persists(gs: seq<System>, i: nat, j: nat)
    requires Run(gs) && i <= j < |gs|
    ensures Grows(gs[i], gs[j])
  {
    hide *;
    if i == j {
      GrowsSelf(gs[i]);
    } else {
      Persists(gs, i, j - 1);
      OneStep(gs, j - 1);
      GrowsTwice(gs[i], gs[j - 1], gs[j]);
    }
  }
}
