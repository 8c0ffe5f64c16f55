/** Whether the invitee of a Complete inviter is ready: not always, and exactly when. */
module CompleteInviters {
  import opened Results
  import opened Connections
  import opened Handshake
  import opened HandshakeInvariant
  import opened HandshakeTheorems
  import Storage

  /** createTrustPing does not look at the role, so an inviter can be Complete although its invitee
      never got the response; this happens only if the inviter itself has sent a ping. */
  lemma CompleteInviter(gs: seq<System>, i: nat, k: Verkey) returns (j: Verkey)
    requires Run(gs) && i < |gs| && Has(gs[i], k)
    requires Rec(gs[i], k).role == Inviter && Rec(gs[i], k).state == Complete
    ensures Rec(gs[i], k).TheirKey() == Some(j) && Has(gs[i], j) && Rec(gs[i], j).role == Invitee
    ensures (Rec(gs[i], j).IsReady() && Paired(gs[i], j, k)) || Packet([j], k, TrustPing(true)) in gs[i].sent
  {
    Reached(gs, i);
    assert RecordOk(gs[i], k);
    KeysTagged(gs[i], k);
    PeerOf(gs[i], k);
    j := Rec(gs[i], k).tags.theirKey.value;
    assert RecordOk(gs[i], j);
    if Rec(gs[i], j).IsReady() {
      var l, _ := MutualAgreement(gs, i, j);
    }
  }

  /** Pinging from a Responded inviter always makes it Complete and leaves its invitee where it was. */
  lemma InviterPing(gs: seq<System>, i: nat, k: Verkey)
    requires Run(gs) && i < |gs| && Has(gs[i], k)
    requires Rec(gs[i], k).role == Inviter && Rec(gs[i], k).state == Responded
    ensures var s, j := SendPing(k.owner, k.n), Rec(gs[i], k).TheirKey();
            && Enabled(gs[i], s) && Rec(Apply(gs[i], s), k).state == Complete
            && j.Some? && Has(gs[i], j.value) && Has(Apply(gs[i], s), j.value)
            && Rec(Apply(gs[i], s), j.value) == Rec(gs[i], j.value)
  {
    Reached(gs, i);
    assert RecordOk(gs[i], k);
    KeysTagged(gs[i], k);
    PeerOf(gs[i], k);
    Kept(gs[i], SendPing(k.owner, k.n));
  }

  // ----- which steps complete an inviter ----------------------------------------------------

  /** An entry point of the agent that takes it from `a` to `b` does not complete record `n`. */
  predicate NotCompleted(a: Agent, b: Agent, n: ConnectionId) {
    n in a.records && a.records[n].state != Complete ==> n in b.records && b.records[n].state != Complete
  }

  /** Of the agent's own calls, only a ping completes a record, and only the ready one it names. */
  lemma CallsComplete(a: Agent, id: ConnectionId, n: ConnectionId, m: MessageId)
    requires id in a.records ==> a.records[id].id == id
    ensures NotCompleted(a, AcceptInvitation(a, id, m).agent, n)
    ensures NotCompleted(a, AcceptRequest(a, id).agent, n)
    ensures id != n || (n in a.records && a.records[n].state != Responded) ==> NotCompleted(a, AcceptResponse(a, id).agent, n)
  {
  }

  lemma NewRecordsComplete(a: Agent, id: ConnectionId, did: Did, key: Verkey, inv: Invitation, auto: Option<bool>,
                           n: ConnectionId, m: MessageId)
    requires id !in a.records
    ensures NotCompleted(a, CreateInvitation(a, id, did, key, auto).agent, n)
    ensures NotCompleted(a, ReceiveInvitation(a, id, did, key, inv, auto, m).agent, n)
  {
    CallsComplete(ProcessInvitation(a, id, did, key, inv, auto).agent, id, n, m);
  }

  /** Of the messages that are dispatched, only a ping completes an inviter, and only a Responded one it is for. */
  lemma MessagesComplete(a: Agent, r: ConnectionRecord, m: Message, n: ConnectionId)
    requires r.id in a.records && a.records[r.id] == r && !m.Ack?
    requires n in a.records && a.records[n].role == Inviter && !(r.id == n && m.TrustPing? && r.state == Responded)
    ensures NotCompleted(a, Dispatch(a, Some(r), m).agent, n)
  {
  }

  /** Exactly how an inviter gets Complete: from Responded, by its own ping or by one from its peer. */
  lemma OnlyPingsComplete(g: System, s: Step, k: Verkey)
    requires Inv(g) && Enabled(g, s) && Has(g, k) && Rec(g, k).role == Inviter && Rec(g, k).state != Complete
    requires Has(Apply(g, s), k) && Rec(Apply(g, s), k).state == Complete
    ensures Rec(g, k).state == Responded
    ensures s == SendPing(k.owner, k.n) ||
            (s.Deliver? && s.key == k && s.packet.message.TrustPing? && !FromStranger(Rec(g, k), s.packet))
  {
    forall n | n in g.agents[k.owner].records ensures g.agents[k.owner].records[n].id == n {
      assert RecordOk(g, Verkey(k.owner, n));
    }
    if Acting(s) == k.owner {
      var a := g.agents[k.owner];
      match s
      case MakeInvitation(_, n, auto) =>
        NewRecordsComplete(a, n, Did(k.owner, n), Verkey(k.owner, n), Invitation([], [], ""), auto, k.n, 0);
      case UseInvitation(_, n, inv, auto, m) =>
        NewRecordsComplete(a, n, Did(k.owner, n), Verkey(k.owner, n), inv, auto, k.n, m);
      case SendRequest(_, id, m) => CallsComplete(a, id, k.n, m);
      case SendResponse(_, id) => CallsComplete(a, id, k.n, 0);
      case SendPing(_, id) => CallsComplete(a, id, k.n, 0);
      case Deliver(p, key) =>
        assert PacketOk(g, p);
        Admitted(g, p, key);
        if !FromStranger(Rec(g, key), p) && !(key == k && p.message.TrustPing? && Rec(g, k).state == Responded) {
          MessagesComplete(a, Rec(g, key), p.message, k.n);
        }
    }
  }

  /** Exactly when both ends are ready as an inviter gets Complete: unless it is the inviter's own ping that
      completes it, always; and with its own ping, if and only if the invitee was ready before. */
  lemma InviterCompletes(gs: seq<System>, i: nat, k: Verkey, s: Step) returns (j: Verkey)
    requires Run(gs) && i < |gs| && Enabled(gs[i], s)
    requires Has(gs[i], k) && Rec(gs[i], k).role == Inviter && Rec(gs[i], k).state != Complete
    requires Has(Apply(gs[i], s), k) && Rec(Apply(gs[i], s), k).state == Complete
    ensures Rec(gs[i], k).TheirKey() == Some(j) && Has(gs[i], j) && Has(Apply(gs[i], s), j)
    ensures Rec(Apply(gs[i], s), j).IsReady() <==> (s == SendPing(k.owner, k.n) ==> Rec(gs[i], j).IsReady())
  {
    var g := gs[i];
    Reached(gs, i);
    OnlyPingsComplete(g, s, k);
    InviterPing(gs, i, k);
    j := Rec(g, k).TheirKey().value;
    if s != SendPing(k.owner, k.n) {
      SenderReady(g, s.packet, k);
      Kept(g, s);
      assert Evolves(Rec(g, j), Rec(Apply(g, s), j));
    }
  }

  lemma SenderReady(g: System, p: Packet, k: Verkey)
    requires Arrives(g, p, k) && p.message.TrustPing? && !FromStranger(Rec(g, k), p) && Rec(g, k).TheirKey().Some?
    ensures Rec(g, k).TheirKey() == Some(p.sender) && Rec(g, p.sender).IsReady()
  {
    assert PacketOk(g, p);
  }

  // ----- the failing run --------------------------------------------------------------------

  const CONFIG := Config("", [], false)
  const INVITER := Verkey(0, 0)
  const INVITEE := Verkey(1, 1)

  const INVITATION := Invitation([INVITER], [], "")
  const MADE := NewRecord(CONFIG, 0, Did(0, 0), INVITER, Inviter, None, None, None).(invitation := Some(INVITATION))
  const USED := NewRecord(CONFIG, 1, Did(1, 1), INVITEE, Invitee, Some(INVITATION), Some(true), Some(INVITER))
  const REQUEST := Packet([INVITER], INVITEE, ConnectionRequest(7, Some(Connection(USED.did, Some(USED.didDoc)))))

  /** What the two agents hold. */
  ghost predicate Holds(g: System, mine: map<ConnectionId, ConnectionRecord>, yours: map<ConnectionId, ConnectionRecord>) {
    && 0 in g.agents && 1 in g.agents && g.agents[0].config == CONFIG && g.agents[1].config == CONFIG
    && g.agents[0].records == mine && g.agents[1].records == yours
  }

  lemma Invites(g: System) returns (g': System)
    requires Holds(g, map[], map[])
    ensures Next(g, g') && Holds(g', map[0 := MADE], map[]) && INVITATION in g'.invitations
  {
    var s := MakeInvitation(0, 0, None);
    assert Enabled(g, s);
    g' := Apply(g, s);
  }

  lemma Requests(g: System) returns (g': System)
    requires Holds(g, map[0 := MADE], map[]) && INVITATION in g.invitations
    ensures Next(g, g') && Holds(g', map[0 := MADE], map[1 := USED.(state := Requested)]) && REQUEST in g'.sent
  {
    var s := UseInvitation(1, 1, INVITATION, Some(true), 7);
    assert Enabled(g, s);
    g' := Apply(g, s);
  }

  /** The inviter's record once the request is taken in. */
  function Bound(): ConnectionRecord {
    MADE.(state := Requested, theirDid := Some(USED.did), theirDidDoc := Some(USED.didDoc),
          tags := MADE.tags.(theirKey := Some(INVITEE), threadId := Some(7)))
  }

  lemma TakesIn(g: System) returns (g': System)
    requires Inv(g) && Holds(g, map[0 := MADE], map[1 := USED.(state := Requested)]) && REQUEST in g.sent
    ensures Next(g, g') && Holds(g', map[0 := Bound()], map[1 := USED.(state := Requested)])
  {
    var s := Deliver(REQUEST, INVITER);
    assert Enabled(g, s);
    g' := Apply(g, s);
    Admitted(g, REQUEST, INVITER);
  }

  lemma Responds(g: System) returns (g': System)
    requires Holds(g, map[0 := Bound()], map[1 := USED.(state := Requested)])
    ensures Next(g, g') && Holds(g', map[0 := Bound().(state := Responded)], map[1 := USED.(state := Requested)])
  {
    var s := SendResponse(0, 0);
    assert Enabled(g, s);
    g' := Apply(g, s);
  }

  lemma Pings(g: System) returns (g': System)
    requires Holds(g, map[0 := Bound().(state := Responded)], map[1 := USED.(state := Requested)])
    ensures Next(g, g') && Holds(g', map[0 := Bound().(state := Complete)], map[1 := USED.(state := Requested)])
  {
    var s := SendPing(0, 0);
    assert Enabled(g, s);
    g' := Apply(g, s);
  }

  /** Two agents; one makes an invitation, the other uses it, the request arrives and is answered, and the
      inviter pings before the response has arrived: it is Complete, and its peer still Requested. */
  lemma EarlyPing() returns (gs: seq<System>)
    ensures Run(gs) && |gs| == 6
    ensures var g := gs[5];
            && Has(g, INVITER) && Rec(g, INVITER).role == Inviter && Rec(g, INVITER).state == Complete
            && Rec(g, INVITER).TheirKey() == Some(INVITEE)
            && Has(g, INVITEE) && Rec(g, INVITEE).state == Requested
  {
    hide Next, Inv, Bound;
    var g0 := System(map[0 := Agent(map[], [], CONFIG), 1 := Agent(map[], [], CONFIG)], {}, {});
    var g1 := Invites(g0);
    var g2 := Requests(g1);
    assert Run([g0, g1, g2]);
    Reached([g0, g1, g2], 2);
    var g3 := TakesIn(g2);
    var g4 := Responds(g3);
    var g5 := Pings(g4);
    gs := [g0, g1, g2, g3, g4, g5];
    BoundToInvitee();
  }

  lemma BoundToInvitee()
    ensures Bound().(state := Complete).TheirKey() == Some(INVITEE) && Bound().(state := Complete).role == Inviter
  {
  }
}
