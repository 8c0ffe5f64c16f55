/** The handshake with automatic acceptance over a network that delivers everything exactly once, in
    any order: it stops by itself, and when it has stopped every accepted request is a finished connection. */
module Quiescence {
  import opened Results
  import opened Connections
  import opened Handshake
  import opened HandshakeInvariant
  import opened HandshakeTheorems

  // The packets still to be delivered, next to the system they run on.
  datatype Auto = Auto(sys: System, inflight: seq<Packet>)

  datatype AutoStep =
    | Start(s: Step)               // a user makes or uses an invitation
    | Arrive(i: nat, key: Verkey)  // packet number i arrives, and is gone from the network

  ghost predicate AutoEnabled(q: Auto, t: AutoStep) {
    match t
    case Start(s) => (s.MakeInvitation? || s.UseInvitation?) && s.autoAccept != Some(false) && Enabled(q.sys, s)
    case Arrive(i, k) => i < |q.inflight| && Enabled(q.sys, Deliver(q.inflight[i], k))
  }

  ghost function StepOf(q: Auto, t: AutoStep): Step
    requires AutoEnabled(q, t)
  {
    match t case Start(s) => s case Arrive(i, k) => Deliver(q.inflight[i], k)
  }

  function Listed(sent: Option<Packet>): seq<Packet> {
    if sent.Some? then [sent.value] else []
  }

  ghost function AutoApply(q: Auto, t: AutoStep): Auto
    requires AutoEnabled(q, t)
  {
    var left := if t.Arrive? then q.inflight[..t.i] + q.inflight[t.i + 1..] else q.inflight;
    Auto(Apply(q.sys, StepOf(q, t)), left + Listed(Act(q.sys, StepOf(q, t)).sent))
  }

  ghost predicate AutoInitial(q: Auto) {
    Initial(q.sys) && q.inflight == [] && forall a | a in q.sys.agents :: q.sys.agents[a].config.autoAcceptConnections
  }

  /** A run from `qs[0]` taking the steps `ts` in order. */
  ghost predicate AutoRun(qs: seq<Auto>, ts: seq<AutoStep>) {
    && |qs| == |ts| + 1 && AutoInitial(qs[0])
    && forall i :: 0 <= i < |ts| ==> AutoEnabled(qs[i], ts[i]) && qs[i + 1] == AutoApply(qs[i], ts[i])
  }

  // ----- termination ------------------------------------------------------------------------

  function Weight(m: Message): nat {
    match m
    case ConnectionRequest(_, _) => 4
    case ConnectionResponse(_, _) => 3
    case TrustPing(_) => 2
    case TrustPingResponse => 1
    case Ack => 1
  }

  function TotalWeight(ps: seq<Packet>): nat {
    if ps == [] then 0 else Weight(ps[0].message) + TotalWeight(ps[1..])
  }

  lemma {:induction false} WeightOfJoin(ps: seq<Packet>, qs: seq<Packet>)
    ensures TotalWeight(ps + qs) == TotalWeight(ps) + TotalWeight(qs)
  {
    if ps == [] {
      assert ps + qs == qs;
    } else {
      assert (ps + qs)[1..] == ps[1..] + qs;
      WeightOfJoin(ps[1..], qs);
    }
  }

  /** Whatever the state, an answer weighs less than the message it answers. */
  lemma AnswersAreLighter(a: Agent, u: Unpacked)
    ensures Receive(a, u).sent.Some? ==> Weight(Receive(a, u).sent.value.message) < Weight(u.message)
  {
  }

  lemma WeightWithout(ps: seq<Packet>, i: nat)
    requires i < |ps|
    ensures TotalWeight(ps) == TotalWeight(ps[..i] + ps[i + 1..]) + Weight(ps[i].message)
  {
    WeightOfJoin(ps[..i], ps[i + 1..]);
    WeightOfJoin(ps[..i], ps[i..]);
    assert ps == ps[..i] + ps[i..];
    assert ps[i..][1..] == ps[i + 1..];
  }

  lemma ArrivalWeighs(q: Auto, t: AutoStep)
    requires AutoEnabled(q, t) && t.Arrive?
    ensures TotalWeight(AutoApply(q, t).inflight) < TotalWeight(q.inflight)
  {
    var p, a := q.inflight[t.i], q.sys.agents[t.key.owner];
    var u := Unpacked(p.message, Some(p.sender), Some(t.key));
    ArrivalLists(q, t);
    hide *;
    AnswersAreLighter(a, u);
    WeightWithout(q.inflight, t.i);
    WeightOfJoin(q.inflight[..t.i] + q.inflight[t.i + 1..], Listed(Receive(a, u).sent));
    ListedWeight(Receive(a, u).sent);
  }

  lemma ArrivalLists(q: Auto, t: AutoStep)
    requires AutoEnabled(q, t) && t.Arrive?
    ensures var p := q.inflight[t.i];
            AutoApply(q, t).inflight ==
            (q.inflight[..t.i] + q.inflight[t.i + 1..])
            + Listed(Receive(q.sys.agents[t.key.owner], Unpacked(p.message, Some(p.sender), Some(t.key))).sent)
  {
  }

  lemma ListedWeight(sent: Option<Packet>)
    ensures TotalWeight(Listed(sent)) == if sent.Some? then Weight(sent.value.message) else 0
  {
  }

  lemma StartWeighs(q: Auto, t: AutoStep)
    requires AutoEnabled(q, t) && t.Start?
    ensures TotalWeight(AutoApply(q, t).inflight) <= TotalWeight(q.inflight) + (if t.s.UseInvitation? then 4 else 0)
  {
    WeightOfJoin(q.inflight, Listed(Act(q.sys, t.s).sent));
  }

  function Arrivals(ts: seq<AutoStep>): nat {
    if ts == [] then 0 else Arrivals(ts[..|ts| - 1]) + (if ts[|ts| - 1].Arrive? then 1 else 0)
  }

  function Uses(ts: seq<AutoStep>): nat {
    if ts == [] then 0
    else Uses(ts[..|ts| - 1]) + (if ts[|ts| - 1].Start? && ts[|ts| - 1].s.UseInvitation? then 1 else 0)
  }

  /** However the network orders its deliveries, there are at most four for each use of an invitation. */
  lemma {:induction false} Terminates(qs: seq<Auto>, ts: seq<AutoStep>)
    requires AutoRun(qs, ts)
    ensures Arrivals(ts) + TotalWeight(qs[|ts|].inflight) <= 4 * Uses(ts)
    decreases |ts|
  {
    if ts == [] {
      FirstAuto(qs, ts);
    } else {
      var n := |ts| - 1;
      AutoStepAt(qs, ts, n);
      AutoPrefix(qs, ts);
      hide AutoRun, AutoApply, AutoEnabled, TotalWeight;
      Terminates(qs[..n + 1], ts[..n]);
      if ts[n].Arrive? { ArrivalWeighs(qs[n], ts[n]); } else { StartWeighs(qs[n], ts[n]); }
    }
  }

  lemma FirstAuto(qs: seq<Auto>, ts: seq<AutoStep>)
    requires AutoRun(qs, ts)
    ensures |qs| == |ts| + 1 && AutoInitial(qs[0])
  {
  }

  lemma AutoStepAt(qs: seq<Auto>, ts: seq<AutoStep>, i: nat)
    requires AutoRun(qs, ts) && i < |ts|
    ensures |qs| == |ts| + 1 && AutoEnabled(qs[i], ts[i]) && qs[i + 1] == AutoApply(qs[i], ts[i])
  {
  }

  lemma AutoPrefix(qs: seq<Auto>, ts: seq<AutoStep>)
    requires AutoRun(qs, ts) && ts != []
    ensures AutoRun(qs[..|ts|], ts[..|ts| - 1])
  {
    hide AutoApply, AutoEnabled, AutoInitial;
  }

  // ----- what is left when nothing is in flight ---------------------------------------------

  ghost predicate Automatic(g: System) {
    && (forall a :: a in g.agents ==> g.agents[a].config.autoAcceptConnections)
    && (forall k :: Has(g, k) ==> Rec(g, k).autoAcceptConnection != Some(false))
  }

  /** The inviter's answer is still under way, or its invitee has got it. */
  ghost predicate Progressing(q: Auto, k: Verkey)
    requires Has(q.sys, k)
  {
    var r := Rec(q.sys, k);
    r.role == Inviter ==>
      && r.state != Requested
      && (r.state in {Responded, Complete} ==>
            r.tags.theirKey.Some? && r.tags.threadId.Some? && Has(q.sys, r.tags.theirKey.value))
      && (r.state == Complete ==> Rec(q.sys, r.tags.theirKey.value).state == Complete)
      && (r.state == Responded ==> Answered(q, r, r.tags.theirKey.value))
  }

  ghost predicate Answered(q: Auto, r: ConnectionRecord, e: Verkey)
    requires Has(q.sys, e) && r.tags.threadId.Some?
  {
    || (Rec(q.sys, e).state == Requested && ResponsePacket(r, e, r.tags.threadId.value) in q.inflight)
    || (Rec(q.sys, e).state == Complete && Packet([r.verkey], e, TrustPing(true)) in q.inflight)
  }

  ghost predicate Settled(g: System, k: Verkey)
    requires Has(g, k)
  {
    Rec(g, k).role == Invitee ==> Rec(g, k).state in {Requested, Complete}
  }

  ghost predicate AutoInv(q: Auto) {
    && Inv(q.sys) && Automatic(q.sys)
    && (forall p :: p in q.inflight ==> p in q.sys.sent)
    && (forall k :: Has(q.sys, k) ==> Settled(q.sys, k) && Progressing(q, k))
  }

  /** An accepted request is answered at once, to the record that sent it. */
  lemma RequestEffect(g: System, p: Packet, k: Verkey, o: Outcome, g': System)
    requires Arrives(g, p, k) && Automatic(g) && p.message.ConnectionRequest? && !FromStranger(Rec(g, k), p)
    requires o == HandleRequest(g.agents[k.owner], Some(Rec(g, k)), p.message) && g' == After(g, k.owner, o)
    requires ProcessRequest(g.agents[k.owner], Some(Rec(g, k)), p.message).Ok?
    ensures Rec(g, k).role == Inviter && Rec(g, k).state == Invited
    ensures Differs(g, g', k) && Rec(g', k).state == Responded && Rec(g', k).role == Inviter && p.sender != k
    ensures BoundTo(Rec(g', k), Rec(g, p.sender)) && Rec(g, p.sender).verkey == p.sender
    ensures o.sent == Some(ResponsePacket(Rec(g', k), p.sender, Rec(g', k).tags.threadId.value))
  {
    var a, r := g.agents[k.owner], Rec(g, k);
    var c := ProcessRequest(a, Some(r), p.message).value;
    var g1 := After(g, k.owner, Outcome(c.agent, None, None));
    TakesRequest(g, p, k, c, g1);
    AcceptsRequest(a, r, p.message, c);
    assert PacketOk(g, p);
    assert OwnFields(g, p.sender) by { assert RecordOk(g, p.sender); }
    Addressed(g1, k);
    Stored(g1, g', k, c.record.(state := Responded));
  }

  /** An accepted response is answered with a ping to the inviter that sent it. */
  lemma ResponseEffect(g: System, p: Packet, k: Verkey, o: Outcome, g': System)
    requires Arrives(g, p, k) && Automatic(g) && p.message.ConnectionResponse? && !FromStranger(Rec(g, k), p)
    requires o == HandleResponse(g.agents[k.owner], Some(Rec(g, k)), p.message) && g' == After(g, k.owner, o)
    requires ProcessResponse(g.agents[k.owner], Some(Rec(g, k)), p.message).Ok?
    ensures Rec(g, k).role == Invitee && Rec(g, k).state == Requested
    ensures Differs(g, g', k) && Rec(g', k).state == Complete && Rec(g', k).role == Invitee && p.sender != k
    ensures Rec(g, p.sender).tags.theirKey == Some(k) && Rec(g, p.sender).verkey == p.sender
    ensures o.sent == Some(Packet([p.sender], k, TrustPing(true)))
  {
    var a, r := g.agents[k.owner], Rec(g, k);
    var c := ProcessResponse(a, Some(r), p.message).value;
    var g1 := After(g, k.owner, Outcome(c.agent, None, None));
    TakesResponse(g, p, k, c, g1);
    AcceptsResponse(a, r, p.message, c);
    assert PacketOk(g, p);
    assert OwnFields(g, p.sender) by { assert RecordOk(g, p.sender); }
    Addressed(g1, k);
    Stored(g1, g', k, c.record.(state := Complete));
  }

  /** What a step in which packet `p` is used up means for the packets that are left. */
  ghost predicate Consumes(q: Auto, q': Auto, p: Packet, sent: Option<Packet>) {
    && (forall x :: x in q.inflight && x != p ==> x in q'.inflight)
    && (forall x :: x in q'.inflight ==> x in q.inflight || sent == Some(x))
    && (sent.Some? ==> sent.value in q'.inflight)
  }

  /** Packet `p` is not what the inviter's record `j` is waiting on. */
  ghost predicate Unrelated(g: System, j: Verkey, p: Packet)
    requires Has(g, j)
  {
    var r := Rec(g, j);
    r.tags.theirKey.Some? && r.tags.threadId.Some? ==>
      && p != ResponsePacket(r, r.tags.theirKey.value, r.tags.threadId.value)
      && p != Packet([j], r.tags.theirKey.value, TrustPing(true))
  }

  /** A record that a step does not change keeps its answer, unless the step used that answer up. */
  lemma StillProgressing(q: Auto, q': Auto, k: Verkey, j: Verkey, p: Packet, sent: Option<Packet>)
    requires AutoInv(q) && Differs(q.sys, q'.sys, k) && Consumes(q, q', p, sent)
    requires j != k && Has(q.sys, j) && Unrelated(q.sys, j, p)
    requires Rec(q.sys, j).role == Inviter && Rec(q.sys, j).tags.theirKey == Some(k) ==>
               Has(q.sys, k) && Rec(q'.sys, k) == Rec(q.sys, k)
    ensures Settled(q'.sys, j) && Progressing(q', j)
  {
    hide OwnDoc, OwnInvitation;
    assert Settled(q.sys, j) && Progressing(q, j);
    assert OwnFields(q.sys, j) by { assert RecordOk(q.sys, j); }
    DiffersGrows(q.sys, q'.sys, k);
    var r := Rec(q.sys, j);
    if r.role == Inviter && r.state in {Responded, Complete} {
      var e := r.tags.theirKey.value;
      assert Evolves(Rec(q.sys, e), Rec(q'.sys, e));
    }
  }

  lemma RequestProgress(q: Auto, q': Auto, p: Packet, k: Verkey, sent: Option<Packet>)
    requires AutoInv(q) && PacketOk(q.sys, p) && p.message.ConnectionRequest? && p.recipients == [k]
    requires Differs(q.sys, q'.sys, k) && Has(q.sys, k) && p.sender != k
    requires Rec(q.sys, k).role == Inviter && Rec(q.sys, k).state == Invited
    requires Rec(q'.sys, k).state == Responded && BoundTo(Rec(q'.sys, k), Rec(q.sys, p.sender))
    requires Rec(q.sys, p.sender).verkey == p.sender
    requires sent == Some(ResponsePacket(Rec(q'.sys, k), p.sender, Rec(q'.sys, k).tags.threadId.value))
    requires Consumes(q, q', p, sent)
    ensures forall j :: Has(q'.sys, j) ==> Settled(q'.sys, j) && Progressing(q', j)
  {
    hide OwnDoc, OwnInvitation;
    Unanswered(q.sys, p.sender, k);
    assert Settled(q.sys, p.sender);
    forall j | Has(q'.sys, j) ensures Settled(q'.sys, j) && Progressing(q', j) {
      if j != k {
        if Rec(q.sys, j).role == Inviter && Rec(q.sys, j).tags.theirKey.Some? { PeerOf(q.sys, j); }
        StillProgressing(q, q', k, j, p, sent);
      }
    }
  }

  /** An invitee is ready only when its inviter is. */
  lemma Unanswered(g: System, e: Verkey, k: Verkey)
    requires Inv(g) && Has(g, e) && Has(g, k)
    requires Rec(g, e).role == Invitee && Rec(g, e).tags.invitationKey == Some(k)
    ensures Rec(g, e).IsReady() ==> Rec(g, k).IsReady()
  {
    assert RecordOk(g, e) && OwnFields(g, k) by { assert RecordOk(g, k); }
    if Rec(g, e).IsReady() {
      assert PacketOk(g, ResponsePacket(Rec(g, k), e, Rec(g, e).tags.threadId.value));
    }
  }

  lemma ResponseProgress(q: Auto, q': Auto, p: Packet, k: Verkey, sent: Option<Packet>)
    requires AutoInv(q) && PacketOk(q.sys, p) && p.message.ConnectionResponse? && p.recipients == [k]
    requires Differs(q.sys, q'.sys, k) && Has(q.sys, k) && p.sender != k
    requires Rec(q.sys, k).role == Invitee && Rec(q'.sys, k).state == Complete
    requires Rec(q.sys, p.sender).tags.theirKey == Some(k) && Rec(q.sys, p.sender).verkey == p.sender
    requires sent == Some(Packet([p.sender], k, TrustPing(true)))
    requires Consumes(q, q', p, sent)
    ensures forall j :: Has(q'.sys, j) ==> Settled(q'.sys, j) && Progressing(q', j)
  {
    hide OwnDoc, OwnInvitation;
    forall j | Has(q'.sys, j) ensures Settled(q'.sys, j) && Progressing(q', j) {
      if j == p.sender {
        assert Progressing(q, j);
      } else if j != k {
        if Rec(q.sys, j).tags.theirKey == Some(k) { PeersDiffer(q.sys, j, p.sender); }
        assert OwnFields(q.sys, j) by { assert RecordOk(q.sys, j); }
        StillProgressing(q, q', k, j, p, sent);
      }
    }
  }

  /** A ping finishes the inviter it reaches, and changes nothing else. */
  lemma PingProgress(q: Auto, q': Auto, p: Packet, k: Verkey, sent: Option<Packet>)
    requires AutoInv(q) && PacketOk(q.sys, p) && p.message.TrustPing? && p.recipients == [k]
    requires Differs(q.sys, q'.sys, k) && Has(q.sys, k) && !FromStranger(Rec(q.sys, k), p)
    requires Rec(q'.sys, k) == if Rec(q.sys, k).state == Responded then Rec(q.sys, k).(state := Complete) else Rec(q.sys, k)
    requires Consumes(q, q', p, sent)
    ensures forall j :: Has(q'.sys, j) ==> Settled(q'.sys, j) && Progressing(q', j)
  {
    hide OwnDoc, OwnInvitation;
    PingedInviter(q, q', p, k);
    forall j | Has(q'.sys, j) ensures Settled(q'.sys, j) && Progressing(q', j) {
      if j != k {
        if Rec(q.sys, j).role == Inviter && Rec(q.sys, j).tags.theirKey.Some? { PeerOf(q.sys, j); }
        StillProgressing(q, q', k, j, p, sent);
      }
    }
  }

  lemma PingedInviter(q: Auto, q': Auto, p: Packet, k: Verkey)
    requires AutoInv(q) && PacketOk(q.sys, p) && p.message.TrustPing? && p.recipients == [k]
    requires Differs(q.sys, q'.sys, k) && Has(q.sys, k) && !FromStranger(Rec(q.sys, k), p)
    requires Rec(q'.sys, k) == if Rec(q.sys, k).state == Responded then Rec(q.sys, k).(state := Complete) else Rec(q.sys, k)
    ensures Settled(q'.sys, k) && Progressing(q', k)
    ensures Rec(q.sys, k).role == Invitee ==> Rec(q'.sys, k) == Rec(q.sys, k)
  {
    var r := Rec(q.sys, k);
    assert Settled(q.sys, k) && Progressing(q, k);
    KeysTagged(q.sys, k);
    DiffersGrows(q.sys, q'.sys, k);
    if r.role == Inviter && r.state in {Responded, Complete} {
      PeerOf(q.sys, k);
      var e := r.tags.theirKey.value;
      assert Settled(q.sys, e);
      assert Evolves(Rec(q.sys, e), Rec(q'.sys, e));
    }
  }

  /** The response to a waiting invitee is always taken in. */
  lemma ResponseWelcome(g: System, p: Packet, k: Verkey)
    requires Inv(g) && PacketOk(g, p) && p.message.ConnectionResponse? && p.recipients == [k] && Has(g, k)
    requires Rec(g, k).role == Invitee && Rec(g, k).state == Requested
    ensures !FromStranger(Rec(g, k), p)
    ensures ProcessResponse(g.agents[k.owner], Some(Rec(g, k)), p.message).Ok?
  {
    PeerOf(g, p.sender);
    assert RecordOk(g, k) && RecordOk(g, p.sender);
  }

  /** A packet that changes nothing was not what anyone was waiting for. */
  lemma IdleProgress(q: Auto, q': Auto, p: Packet, k: Verkey)
    requires AutoInv(q) && PacketOk(q.sys, p) && Has(q.sys, k) && p.recipients == [k]
    requires q'.sys.sent == q.sys.sent && q'.sys.invitations == q.sys.invitations
    requires q'.sys.agents.Keys == q.sys.agents.Keys
    requires forall a :: a in q.sys.agents ==> q'.sys.agents[a].records == q.sys.agents[a].records
    requires Consumes(q, q', p, None)
    requires p.message.TrustPing? ==> FromStranger(Rec(q.sys, k), p)
    requires p.message.ConnectionResponse? ==> Rec(q.sys, k).role == Inviter || Rec(q.sys, k).state != Requested
    ensures forall j :: Has(q'.sys, j) ==> Settled(q'.sys, j) && Progressing(q', j)
  {
    var g, g' := q.sys, q'.sys;
    assert forall j :: Has(g', j) <==> Has(g, j);
    assert forall j :: Has(g, j) ==> Rec(g', j) == Rec(g, j);
    forall j | Has(g', j) ensures Settled(g', j) && Progressing(q', j) {
      assert Settled(g, j) && Progressing(q, j);
      assert OwnFields(g, j) by { assert RecordOk(g, j); }
      KeysTagged(g, j);
      if Rec(g, j).role == Inviter && Rec(g, j).tags.theirKey.Some? { PeerOf(g, j); }
    }
  }

  /** A new record waits for nothing yet. */
  lemma NewProgress(q: Auto, q': Auto, k: Verkey, sent: Option<Packet>)
    requires AutoInv(q) && Differs(q.sys, q'.sys, k) && !Has(q.sys, k)
    requires Consumes(q, q', Packet([], k, Ack), sent)
    requires if Rec(q'.sys, k).role == Inviter then Rec(q'.sys, k).state == Invited
             else Rec(q'.sys, k).state == Requested
    ensures forall j :: Has(q'.sys, j) ==> Settled(q'.sys, j) && Progressing(q', j)
  {
    hide OwnDoc, OwnInvitation;
    forall j | Has(q'.sys, j) ensures Settled(q'.sys, j) && Progressing(q', j) {
      if j != k {
        if Rec(q.sys, j).role == Inviter && Rec(q.sys, j).tags.theirKey.Some? { PeerOf(q.sys, j); }
        StillProgressing(q, q', k, j, Packet([], k, Ack), sent);
      }
    }
  }

  // ----- the steps --------------------------------------------------------------------------

  lemma StartsUse(q: Auto, q': Auto, a: nat, n: nat, inv: Invitation, auto: Option<bool>, m: MessageId, o: Outcome)
    requires AutoInv(q) && a in q.sys.agents && n !in q.sys.agents[a].records && inv in q.sys.invitations
    requires auto != Some(false)
    requires o == ReceiveInvitation(q.sys.agents[a], n, Did(a, n), Verkey(a, n), inv, auto, m)
    requires q'.sys == After(q.sys, a, o) && Consumes(q, q', Packet([], Verkey(a, n), Ack), o.sent)
    ensures Automatic(q'.sys) && forall j :: Has(q'.sys, j) ==> Settled(q'.sys, j) && Progressing(q', j)
  {
    var k := Verkey(a, n);
    var c := ProcessInvitation(q.sys.agents[a], n, Did(a, n), k, inv, auto);
    Stored(q.sys, q'.sys, k, c.record.(state := Requested));
    NewProgress(q, q', k, o.sent);
  }

  lemma StartsMake(q: Auto, q': Auto, a: nat, n: nat, auto: Option<bool>)
    requires AutoInv(q) && a in q.sys.agents && n !in q.sys.agents[a].records && auto != Some(false)
    requires var c := CreateInvitation(q.sys.agents[a], n, Did(a, n), Verkey(a, n), auto);
             q'.sys.agents == q.sys.agents[a := c.agent]
    requires q'.sys.sent == q.sys.sent && q.sys.invitations <= q'.sys.invitations
    requires Consumes(q, q', Packet([], Verkey(a, n), Ack), None)
    ensures Automatic(q'.sys) && forall j :: Has(q'.sys, j) ==> Settled(q'.sys, j) && Progressing(q', j)
  {
    var k := Verkey(a, n);
    Stored(q.sys, q'.sys, k, CreateInvitation(q.sys.agents[a], n, Did(a, n), k, auto).record);
    NewProgress(q, q', k, None);
  }

  lemma RequestArrives(q: Auto, q': Auto, p: Packet, k: Verkey, o: Outcome)
    requires AutoInv(q) && Arrives(q.sys, p, k) && p.recipients == [k] && !FromStranger(Rec(q.sys, k), p)
    requires p.message.ConnectionRequest?
    requires o == HandleRequest(q.sys.agents[k.owner], Some(Rec(q.sys, k)), p.message)
    requires q'.sys == After(q.sys, k.owner, o) && Consumes(q, q', p, o.sent)
    ensures forall j :: Has(q'.sys, j) ==> Settled(q'.sys, j) && Progressing(q', j)
  {
    hide OwnDoc, OwnInvitation;
    assert PacketOk(q.sys, p);
    if ProcessRequest(q.sys.agents[k.owner], Some(Rec(q.sys, k)), p.message).Ok? {
      RequestEffect(q.sys, p, k, o, q'.sys);
      RequestProgress(q, q', p, k, o.sent);
    } else {
      IdleProgress(q, q', p, k);
    }
  }

  lemma ResponseArrives(q: Auto, q': Auto, p: Packet, k: Verkey, o: Outcome)
    requires AutoInv(q) && Arrives(q.sys, p, k) && p.recipients == [k] && !FromStranger(Rec(q.sys, k), p)
    requires p.message.ConnectionResponse?
    requires o == HandleResponse(q.sys.agents[k.owner], Some(Rec(q.sys, k)), p.message)
    requires q'.sys == After(q.sys, k.owner, o) && Consumes(q, q', p, o.sent)
    ensures forall j :: Has(q'.sys, j) ==> Settled(q'.sys, j) && Progressing(q', j)
  {
    hide OwnDoc, OwnInvitation;
    assert PacketOk(q.sys, p);
    if ProcessResponse(q.sys.agents[k.owner], Some(Rec(q.sys, k)), p.message).Ok? {
      ResponseEffect(q.sys, p, k, o, q'.sys);
      ResponseProgress(q, q', p, k, o.sent);
    } else {
      if Rec(q.sys, k).role == Invitee && Rec(q.sys, k).state == Requested { ResponseWelcome(q.sys, p, k); }
      IdleProgress(q, q', p, k);
    }
  }

  lemma PingArrives(q: Auto, q': Auto, p: Packet, k: Verkey, o: Outcome)
    requires AutoInv(q) && Arrives(q.sys, p, k) && p.recipients == [k] && !FromStranger(Rec(q.sys, k), p)
    requires p.message.TrustPing?
    requires o == HandlePing(q.sys.agents[k.owner], Some(Rec(q.sys, k)), p.message)
    requires q'.sys == After(q.sys, k.owner, o) && Consumes(q, q', p, o.sent)
    ensures forall j :: Has(q'.sys, j) ==> Settled(q'.sys, j) && Progressing(q', j)
  {
    hide OwnDoc, OwnInvitation;
    var r := Rec(q.sys, k);
    assert PacketOk(q.sys, p);
    assert OwnFields(q.sys, k) by { assert RecordOk(q.sys, k); }
    Pinged(q.sys.agents[k.owner], r, p.message);
    Stored(q.sys, q'.sys, k, if r.state == Responded then r.(state := Complete) else r);
    PingProgress(q, q', p, k, o.sent);
  }

  lemma DispatchProgress(q: Auto, q': Auto, p: Packet, k: Verkey, o: Outcome)
    requires AutoInv(q) && Arrives(q.sys, p, k) && p.recipients == [k] && !FromStranger(Rec(q.sys, k), p)
    requires o == Dispatch(q.sys.agents[k.owner], Some(Rec(q.sys, k)), p.message)
    requires q'.sys == After(q.sys, k.owner, o) && Consumes(q, q', p, o.sent)
    ensures forall j :: Has(q'.sys, j) ==> Settled(q'.sys, j) && Progressing(q', j)
  {
    hide OwnDoc, OwnInvitation;
    assert PacketOk(q.sys, p);
    match p.message
    case ConnectionRequest(_, _) => RequestArrives(q, q', p, k, o);
    case ConnectionResponse(_, _) => ResponseArrives(q, q', p, k, o);
    case TrustPing(_) => PingArrives(q, q', p, k, o);
    case TrustPingResponse => IdleProgress(q, q', p, k);
    case Ack =>
  }

  lemma OnlyRecipient(g: System, p: Packet, k: Verkey)
    requires Arrives(g, p, k)
    ensures p.recipients == [k]
  {
    assert PacketOk(g, p);
  }

  lemma ArrivalProgress(q: Auto, q': Auto, p: Packet, k: Verkey, o: Outcome)
    requires AutoInv(q) && Arrives(q.sys, p, k)
    requires o == Receive(q.sys.agents[k.owner], Unpacked(p.message, Some(p.sender), Some(k)))
    requires q'.sys == After(q.sys, k.owner, o) && Consumes(q, q', p, o.sent)
    ensures forall j :: Has(q'.sys, j) ==> Settled(q'.sys, j) && Progressing(q', j)
  {
    hide AutoInv, Inv, Progressing, Settled, Consumes, Receive, Dispatch, FromStranger;
    Admitted(q.sys, p, k);
    OnlyRecipient(q.sys, p, k);
    if FromStranger(Rec(q.sys, k), p) {
      StrangerProgress(q, q', p, k);
    } else {
      DispatchProgress(q, q', p, k, o);
    }
  }

  lemma StrangerProgress(q: Auto, q': Auto, p: Packet, k: Verkey)
    requires AutoInv(q) && Arrives(q.sys, p, k) && p.recipients == [k] && FromStranger(Rec(q.sys, k), p)
    requires q'.sys == After(q.sys, k.owner, Outcome(q.sys.agents[k.owner], None, Some(WrongSender)))
    requires Consumes(q, q', p, None)
    ensures forall j :: Has(q'.sys, j) ==> Settled(q'.sys, j) && Progressing(q', j)
  {
    hide RecordOk, OneRequest, InvitationOk, Progressing, Settled;
    assert PacketOk(q.sys, p);
    hide PacketOk, Inv, FromStranger, Automatic;
    var r := Rec(q.sys, k);
    if p.message.ConnectionResponse? && r.role == Invitee && r.state == Requested { ResponseWelcome(q.sys, p, k); }
    IdleProgress(q, q', p, k);
  }

  /** A dispatched message changes neither the agent's settings nor the set of its records. */
  lemma DispatchKeepsKeys(a: Agent, r: ConnectionRecord, m: Message)
    requires r.id in a.records
    ensures Dispatch(a, Some(r), m).agent.config == a.config
    ensures Dispatch(a, Some(r), m).agent.records.Keys == a.records.Keys
  {
  }

  lemma ArrivalKeepsAutomatic(g: System, g': System, p: Packet, k: Verkey, o: Outcome)
    requires Arrives(g, p, k) && Automatic(g) && Grows(g, g')
    requires o == Receive(g.agents[k.owner], Unpacked(p.message, Some(p.sender), Some(k)))
    requires g'.agents == g.agents[k.owner := o.agent]
    ensures Automatic(g')
  {
    hide OwnDoc, OwnInvitation;
    Admitted(g, p, k);
    assert OwnFields(g, k) by { assert RecordOk(g, k); }
    DispatchKeepsKeys(g.agents[k.owner], Rec(g, k), p.message);
    forall j | Has(g', j) ensures Rec(g', j).autoAcceptConnection != Some(false) {
      assert Has(g, j);
      assert Evolves(Rec(g, j), Rec(g', j));
    }
  }

  lemma InflightSent(q: Auto, q': Auto, p: Packet, sent: Option<Packet>)
    requires (forall x :: x in q.inflight ==> x in q.sys.sent) && Consumes(q, q', p, sent)
    requires q.sys.sent <= q'.sys.sent && (sent.Some? ==> sent.value in q'.sys.sent)
    ensures forall x :: x in q'.inflight ==> x in q'.sys.sent
  {
  }

  lemma ArrivalSettles(q: Auto, q': Auto, p: Packet, k: Verkey, o: Outcome)
    requires AutoInv(q) && Arrives(q.sys, p, k)
    requires o == Receive(q.sys.agents[k.owner], Unpacked(p.message, Some(p.sender), Some(k)))
    requires q'.sys == After(q.sys, k.owner, o) && Consumes(q, q', p, o.sent)
    ensures AutoInv(q')
  {
    KeepsDeliver(q.sys, p, k, q'.sys);
    ArrivalKeepsAutomatic(q.sys, q'.sys, p, k, o);
    InflightSent(q, q', p, o.sent);
    ArrivalProgress(q, q', p, k, o);
  }

  lemma ArrivalKept(q: Auto, i: nat, k: Verkey, q': Auto)
    requires AutoInv(q) && AutoEnabled(q, Arrive(i, k)) && q' == AutoApply(q, Arrive(i, k))
    ensures AutoInv(q')
  {
    var p := q.inflight[i];
    var o := Receive(q.sys.agents[k.owner], Unpacked(p.message, Some(p.sender), Some(k)));
    assert q'.inflight == q.inflight[..i] + q.inflight[i + 1..] + Listed(o.sent);
    Removed(q.inflight, i);
    ArrivalSettles(q, q', p, k, o);
  }

  lemma Removed(ps: seq<Packet>, i: nat)
    requires i < |ps|
    ensures forall x :: x in ps && x != ps[i] ==> x in ps[..i] + ps[i + 1..]
    ensures forall x :: x in ps[..i] + ps[i + 1..] ==> x in ps
  {
    assert ps == ps[..i] + [ps[i]] + ps[i + 1..];
  }

  lemma MakeKept(q: Auto, t: AutoStep)
    requires AutoInv(q) && AutoEnabled(q, t) && t.Start? && t.s.MakeInvitation?
    ensures AutoInv(AutoApply(q, t))
  {
    var q' := AutoApply(q, t);
    KeepsMakeInvitation(q.sys, t.s.agent, t.s.n, t.s.autoAccept, q'.sys);
    assert q'.inflight == q.inflight;
    StartsMake(q, q', t.s.agent, t.s.n, t.s.autoAccept);
  }

  lemma UseSettles(q: Auto, q': Auto, a: nat, n: nat, inv: Invitation, auto: Option<bool>, m: MessageId, o: Outcome)
    requires AutoInv(q) && a in q.sys.agents && n !in q.sys.agents[a].records && inv in q.sys.invitations
    requires auto != Some(false)
    requires o == ReceiveInvitation(q.sys.agents[a], n, Did(a, n), Verkey(a, n), inv, auto, m)
    requires q'.sys == After(q.sys, a, o) && Consumes(q, q', Packet([], Verkey(a, n), Ack), o.sent)
    ensures AutoInv(q')
  {
    KeepsUseInvitation(q.sys, a, n, inv, auto, m, q'.sys);
    InflightSent(q, q', Packet([], Verkey(a, n), Ack), o.sent);
    StartsUse(q, q', a, n, inv, auto, m, o);
  }

  lemma UseKept(q: Auto, t: AutoStep, q': Auto)
    requires AutoInv(q) && AutoEnabled(q, t) && t.Start? && t.s.UseInvitation? && q' == AutoApply(q, t)
    ensures AutoInv(q')
  {
    var a, n := t.s.agent, t.s.n;
    var o := ReceiveInvitation(q.sys.agents[a], n, Did(a, n), Verkey(a, n), t.s.invitation, t.s.autoAccept, t.s.messageId);
    assert q'.inflight == q.inflight + Listed(o.sent);
    UseSettles(q, q', a, n, t.s.invitation, t.s.autoAccept, t.s.messageId, o);
  }

  lemma {:induction false} AutoReached(qs: seq<Auto>, ts: seq<AutoStep>, i: nat)
    requires AutoRun(qs, ts) && i < |qs|
    ensures AutoInv(qs[i])
  {
    hide *;
    FirstAuto(qs, ts);
    if i == 0 {
      AutoStarts(qs[0]);
    } else {
      AutoReached(qs, ts, i - 1);
      AutoStepAt(qs, ts, i - 1);
      AutoKept(qs[i - 1], ts[i - 1]);
    }
  }

  lemma AutoStarts(q: Auto)
    requires AutoInitial(q)
    ensures AutoInv(q)
  {
    assert forall k :: !Has(q.sys, k);
  }

  lemma AutoKept(q: Auto, t: AutoStep)
    requires AutoInv(q) && AutoEnabled(q, t)
    ensures AutoInv(AutoApply(q, t))
  {
    hide AutoInv;
    if t.Arrive? {
      ArrivalKept(q, t.i, t.key, AutoApply(q, t));
    } else if t.s.MakeInvitation? {
      MakeKept(q, t);
    } else {
      UseKept(q, t, AutoApply(q, t));
    }
  }

  /** While anything is in flight, the first packet can be delivered; so a run that has stopped has
      nothing in flight. */
  lemma NeverStuck(qs: seq<Auto>, ts: seq<AutoStep>, i: nat)
    requires AutoRun(qs, ts) && i < |qs| && qs[i].inflight != []
    ensures qs[i].inflight[0].recipients != [] && AutoEnabled(qs[i], Arrive(0, qs[i].inflight[0].recipients[0]))
  {
    hide *;
    AutoReached(qs, ts, i);
    Deliverable(qs[i]);
  }

  lemma Deliverable(q: Auto)
    requires AutoInv(q) && q.inflight != []
    ensures q.inflight[0].recipients != [] && AutoEnabled(q, Arrive(0, q.inflight[0].recipients[0]))
  {
    hide OwnDoc, OwnInvitation;
    var g, p := q.sys, q.inflight[0];
    assert p in g.sent && PacketOk(g, p);
    hide Settled, Progressing;
    if Rec(g, p.sender).tags.theirKey.Some? { PeerOf(g, p.sender); }
    assert RecordOk(g, p.sender);
  }

  /** When nothing is in flight, every inviter that accepted a request is Complete, and so is the
      invitee it is paired with. */
  lemma Quiescent(qs: seq<Auto>, ts: seq<AutoStep>, i: nat, k: Verkey) returns (e: Verkey)
    requires AutoRun(qs, ts) && i < |qs| && qs[i].inflight == []
    requires Has(qs[i].sys, k) && Rec(qs[i].sys, k).role == Inviter && Rec(qs[i].sys, k).state != Invited
    ensures Rec(qs[i].sys, k).state == Complete
    ensures Has(qs[i].sys, e) && Rec(qs[i].sys, e).role == Invitee && Rec(qs[i].sys, e).state == Complete
    ensures Paired(qs[i].sys, e, k)
  {
    AutoReached(qs, ts, i);
    var g := qs[i].sys;
    assert Progressing(qs[i], k);
    assert RecordOk(g, k);
    e := Rec(g, k).tags.theirKey.value;
    PeerOf(g, k);
    KeysTagged(g, k);
    assert RecordOk(g, e);
    KeysTagged(g, e);
    assert PacketOk(g, ResponsePacket(Rec(g, k), e, Rec(g, e).tags.threadId.value));
  }
}
