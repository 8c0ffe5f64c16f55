/** Every step of present-proof keeps both ends of every thread in agreement. */
module ProofAgreement {
  import opened Results
  import opened Exchange
  import opened Encoding
  import opened ProofRequests
  import opened ProofSelection
  import opened Proofs
  import opened Threads
  import opened ThreadSteps
  import opened ProofExchange
  import ProofHistories
  import Storage

  // ----- one thread -------------------------------------------------------------------------

  /** What a user's call makes of the record it names, and the message that goes out with it. */
  ghost predicate Turn(c: Call, r: ProofRecord, r': ProofRecord, m: Msg, sha256: Digest) {
    && r'.id == r.id && r'.threadId == r.threadId && r'.connectionId == r.connectionId && m.thread == Some(r.threadId)
    && match c
       case CounterPropose(_, _, _) =>
         && r.state == RequestReceived && m.body.ProposePresentation?
         && r' == r.(state := ProposalSent, data := r.data.(proposalMessage := Some(m)))
       case CounterRequest(_, _, _) =>
         && r.state == ProposalReceived && m.body.RequestPresentation? && m.body.indyRequest.Some?
         && r' == r.(state := RequestSent, data := r.data.(requestMessage := Some(m)))
       case AcceptProposal(_, _, _, _, _, _) =>
         && r.state == ProposalReceived && m.body.RequestPresentation? && m.body.indyRequest.Some?
         && Answers(Some(m), r.data.proposalMessage)
         && r' == r.(state := RequestSent, data := r.data.(requestMessage := Some(m)))
       case AcceptRequest(_, _, _, _) =>
         && r.state == RequestReceived && PresentationMade(r', sha256)
         && r' == r.(state := PresentationSent, data := r.data.(presentationMessage := Some(m)))
       case AcceptPresentation(_, _) => r.state == PresentationReceived && m.body.PresentationAck? && r' == r.(state := Done)
       case _ => false
  }

  lemma Accepted(s: ProofStore, r: ProofRecord, c: Call, sha256: Digest) returns (r': ProofRecord, m: Msg)
    requires !c.Propose? && !c.Request? && !c.Inbound? && Accept(s, r, c).sent.Some?
    requires c.AcceptProposal? ==> Distinct(c.uuid)
    requires c.AcceptRequest? && c.revealed.Some? ==> AllIssued(c.revealed.value, sha256)
    ensures Accept(s, r, c).store.records == s.records[r.id := r']
    ensures Accept(s, r, c).sent == Some(Sent(r.connectionId, m)) && Turn(c, r, r', m, sha256)
  {
    if c.AcceptRequest? { IssuedPass(c.revealed.value, sha256); }
    if c.AcceptProposal? { RequestIsBuilt(r.data.proposalMessage.value.body.preview, c.name, c.version, c.nonce, c.uuid); }
    var created := match c
      case CounterPropose(_, n, preview) => CreateProposalAsResponse(s, r, n, preview)
      case CounterRequest(_, n, request) => CreateRequestAsResponse(s, r, n, request)
      case AcceptProposal(_, n, name, version, nonce, uuid) => AcceptProposalOf(s, r, n, name, version, nonce, uuid)
      case AcceptRequest(_, n, chosen, revealed) => CreatePresentation(s, r, n, chosen, revealed)
      case AcceptPresentation(_, n) => CreateAck(s, r, n);
    r', m := created.value.record, created.value.message;
  }

  /** A user can act only when nothing is on its way on the thread, and leaves both ends in agreement. */
  lemma UserTurn(p: Pair, th: OneThread, front: bool, c: Call, r': ProofRecord, m: Msg, sha256: Digest, mode: Mode)
    requires Agrees(p, th, sha256, mode) && Held(th, front).Some? && Turn(c, Held(th, front).value, r', m, sha256)
    requires mode.asProposed ==> !c.CounterRequest?
    ensures th.wire.None?
    ensures Agrees(p, Put(th, front, r', Some(Packet(End(p, !front), m))), sha256, mode)
  {
  }

  /** The record is in the one state that accepts the message, or there is none where one may be made. */
  ghost predicate Expected(r: Option<ProofRecord>, connection: nat, m: Msg, sha256: Digest) {
    && (r.Some? ==> r.value.connectionId == connection)
    && match m.body
       case ProposePresentation(_) => r.Some? ==> r.value.state == RequestSent
       case RequestPresentation(request) => request.Some? && (r.Some? ==> r.value.state == ProposalSent)
       case Presentation(proof) =>
         && r.Some? && r.value.state == RequestSent && AttachedRequest(r.value).Some?
         && proof.Some? && proof.value.request == AttachedRequest(r.value).value && EncodingsPass(proof.value.revealed, sha256)
       case PresentationAck => r.Some? && r.value.state == PresentationSent
  }

  /** The record after an expected message. */
  ghost function TakenIn(r: Option<ProofRecord>, connection: nat, m: Msg, newId: nat, sha256: Digest): ProofRecord
    requires Expected(r, connection, m, sha256)
  {
    var base := if r.Some? then r.value else Record(newId, connection, m.ThreadId(), Done, NO_DATA);
    match m.body
    case ProposePresentation(_) => base.(state := ProposalReceived, data := base.data.(proposalMessage := Some(m)))
    case RequestPresentation(_) => base.(state := RequestReceived, data := base.data.(requestMessage := Some(m)))
    case Presentation(_) =>
      base.(state := PresentationReceived, data := base.data.(isVerified := Some(true), presentationMessage := Some(m)))
    case PresentationAck => base.(state := Done)
  }

  /** An expected message is taken in without error, and a record is made only on an unknown thread. */
  lemma Handled(s: ProofStore, connection: nat, m: Msg, newId: nat, sha256: Digest)
    requires Clean(s) && Expected(View(s, m.ThreadId()), connection, m, sha256)
    ensures var o := Handle(s, Some(Connection(connection, true)), m, newId, sha256);
            var r' := TakenIn(View(s, m.ThreadId()), connection, m, newId, sha256);
            o.error.None? && o.store.records == s.records[r'.id := r']
  {
    ViewFinds(s, m.ThreadId());
  }

  /** What is on its way on a thread is expected where it is going. */
  lemma WireExpected(p: Pair, th: OneThread, sha256: Digest) returns (front: bool)
    requires Agreed(p, th, sha256) && th.wire.Some? && p.front != p.back
    ensures th.wire.value.to == End(p, front)
    ensures Expected(Held(th, front), End(p, front).connection, th.wire.value.message, sha256)
  {
    front := th.wire.value.to == p.front;
  }

  lemma DeliveryTurn(p: Pair, th: OneThread, front: bool, newId: nat, sha256: Digest, mode: Mode)
    requires Agrees(p, th, sha256, mode) && th.wire.Some? && th.wire.value.to == End(p, front)
    requires Expected(Held(th, front), End(p, front).connection, th.wire.value.message, sha256)
    ensures var r' := TakenIn(Held(th, front), End(p, front).connection, th.wire.value.message, newId, sha256);
            Agrees(p, Put(th, front, r', None), sha256, mode)
  {
  }

  lemma LossTurn(p: Pair, th: OneThread, sha256: Digest, mode: Mode)
    requires Agrees(p, th, sha256, mode) && !mode.lossless
    ensures Agrees(p, th.(wire := None), sha256, mode)
  {
  }

  // ----- one step of the system -------------------------------------------------------------

  lemma UserMayAct(c: Call, r: ProofRecord, r': ProofRecord, m: Msg, sha256: Digest, mode: Mode)
    requires Turn(c, r, r', m, sha256) && (mode.asProposed ==> !c.CounterRequest?)
    ensures MayAct(Agreement(sha256, mode), r, r', m)
  {
    hide Turn;
    forall p: Pair, th: OneThread, front: bool | Agrees(p, th, sha256, mode) && Held(th, front) == Some(r)
      ensures th.wire.None? && Agrees(p, Put(th, front, r', Some(Packet(End(p, !front), m))), sha256, mode)
    {
      hide Agrees;
      UserTurn(p, th, front, c, r', m, sha256, mode);
    }
  }

  lemma UserKeeps(g: Net, a: nat, c: Call, sha256: Digest, mode: Mode)
    requires Inv(g, sha256, mode) && Enabled(g, User(a, c), sha256) && !c.Propose? && !c.Request?
    requires mode.asProposed ==> !c.CounterRequest?
    ensures Inv(Apply(g, User(a, c), sha256), sha256, mode)
  {
    hide Placed, Agreement, Turn, Accept;
    var s := g.stores[a];
    var o := Do(s, c, sha256);
    var g' := Apply(g, User(a, c), sha256);
    if o.sent.None? {
      SilentCall(s, c, sha256);
      assert g.stores[a := s] == g.stores;
      assert g' == g;
    } else {
      var r := s.records[c.id];
      var front, p, th := AtEnd(g, a, c.id);
      var r', m := Accepted(s, r, c, sha256);
      UserMayAct(c, r, r', m, sha256, mode);
      TurnKeepsThread(c, r, r', m, sha256);
      Acts(g, g', Agreement(sha256, mode), a, r, r', m);
    }
  }

  lemma SilentCall(s: ProofStore, c: Call, sha256: Digest)
    requires Do(s, c, sha256).sent.None? && !c.Inbound?
    ensures Do(s, c, sha256).store == s
  {
  }

  lemma TurnKeepsThread(c: Call, r: ProofRecord, r': ProofRecord, m: Msg, sha256: Digest)
    requires Turn(c, r, r', m, sha256)
    ensures r'.id == r.id && r'.threadId == r.threadId && r'.connectionId == r.connectionId && m.ThreadId() == r.threadId
  {
  }

  /** A first proposal or request makes the only record of a new thread. */
  lemma Opened(s: ProofStore, c: Call, sha256: Digest, mode: Mode) returns (r: ProofRecord, m: Msg)
    requires (c.Propose? || c.Request?) && Do(s, c, sha256).sent.Some?
    ensures Do(s, c, sha256).store.records == s.records[c.newId := r] && r.id == c.newId
    ensures Do(s, c, sha256).sent == Some(Sent(r.connectionId, m)) && r.connectionId == c.connection.id
    ensures r.threadId == c.messageId == m.ThreadId()
    ensures var front := c.Request?;
            forall p: Pair :: End(p, front).connection == r.connectionId ==>
              Agrees(p, Put(Thread(None, None, None), front, r, Some(Packet(End(p, !front), m))), sha256, mode)
  {
    var created := if c.Propose? then CreateProposal(s, c.connection, c.newId, c.messageId, c.preview)
                   else CreateRequest(s, c.connection, c.newId, c.messageId, c.request);
    r, m := created.value.record, created.value.message;
  }

  lemma StartKeeps(g: Net, a: nat, c: Call, sha256: Digest, mode: Mode)
    requires Inv(g, sha256, mode) && Enabled(g, User(a, c), sha256) && (c.Propose? || c.Request?)
    ensures Inv(Apply(g, User(a, c), sha256), sha256, mode)
  {
    hide Placed, Agrees;
    var s := g.stores[a];
    var g' := Apply(g, User(a, c), sha256);
    if Do(s, c, sha256).sent.None? {
      SilentCall(s, c, sha256);
      assert g.stores[a := s] == g.stores;
      assert g' == g;
    } else {
      var r, m := Opened(s, c, sha256, mode);
      var e := Endpoint(a, r.connectionId);
      var p := if c.Request? then Pair(e, g.links[e]) else Pair(g.links[e], e);
      assert End(p, c.Request?).connection == r.connectionId;
      Starts(g, g', Agreement(sha256, mode), a, r, m, c.Request?);
    }
  }

  lemma ProofMayBeLost(sha256: Digest, mode: Mode)
    requires !mode.lossless
    ensures MayBeLost(Agreement(sha256, mode))
  {
    forall p: Pair, th: OneThread | Agrees(p, th, sha256, mode) ensures Agrees(p, th.(wire := None), sha256, mode) {
      hide Agrees;
      LossTurn(p, th, sha256, mode);
    }
  }

  lemma LossKeeps(g: Net, p: Packet<Body>, sha256: Digest, mode: Mode)
    requires Inv(g, sha256, mode) && p in g.inflight && !mode.lossless
    ensures Inv(g.(inflight := g.inflight - {p}), sha256, mode)
  {
    hide Placed;
    ProofMayBeLost(sha256, mode);
    Loses(g, g.(inflight := g.inflight - {p}), Agreement(sha256, mode), p);
  }

  /** What is in flight is expected by its recipient, which is an end of the thread. */
  lemma ExpectedThere(g: Net, packet: Packet<Body>, sha256: Digest, mode: Mode) returns (front: bool)
    requires Inv(g, sha256, mode) && packet in g.inflight
    ensures var t := packet.message.ThreadId();
            && t in g.threads && packet.to == End(g.threads[t], front) && packet.to.agent in g.stores
            && Clean(g.stores[packet.to.agent])
            && Expected(View(g.stores[packet.to.agent], t), packet.to.connection, packet.message, sha256)
  {
    hide Placed, Agreed, Expected;
    var p, th := InFlight(g, packet);
    front := WireExpected(p, th, sha256);
  }

  lemma ProofMayArrive(packet: Packet<Body>, front: bool, r: Option<ProofRecord>, newId: nat, sha256: Digest, mode: Mode)
    requires Expected(r, packet.to.connection, packet.message, sha256)
    ensures MayArrive(Agreement(sha256, mode), packet, front, r, TakenIn(r, packet.to.connection, packet.message, newId, sha256))
  {
    hide Expected, TakenIn;
    forall p: Pair, th: OneThread
      | Agrees(p, th, sha256, mode) && th.wire == Some(packet) && packet.to == End(p, front) && Held(th, front) == r
      ensures Agrees(p, Put(th, front, TakenIn(r, packet.to.connection, packet.message, newId, sha256), None), sha256, mode)
    {
      hide Agrees;
      DeliveryTurn(p, th, front, newId, sha256, mode);
    }
  }

  lemma TakenInThread(r: Option<ProofRecord>, connection: nat, m: Msg, newId: nat, sha256: Digest)
    requires Expected(r, connection, m, sha256) && (r.Some? ==> r.value.threadId == m.ThreadId())
    ensures var r' := TakenIn(r, connection, m, newId, sha256);
            && r'.id == (if r.Some? then r.value.id else newId)
            && r'.threadId == m.ThreadId() && r'.connectionId == connection
  {
  }

  lemma DeliveryKeeps(g: Net, packet: Packet<Body>, newId: nat, sha256: Digest, mode: Mode)
    requires Inv(g, sha256, mode) && Enabled(g, Deliver(packet, newId), sha256)
    ensures Inv(Apply(g, Deliver(packet, newId), sha256), sha256, mode)
  {
    hide Placed, Agrees, Expected, Handle, View, Clean;
    var t := packet.message.ThreadId();
    var front := ExpectedThere(g, packet, sha256, mode);
    var s := g.stores[packet.to.agent];
    var r, r' := View(s, t), TakenIn(View(s, t), packet.to.connection, packet.message, newId, sha256);
    ProofMayArrive(packet, front, r, newId, sha256, mode);
    TakenInThread(r, packet.to.connection, packet.message, newId, sha256);
    Handled(s, packet.to.connection, packet.message, newId, sha256);
    Arrives(g, Apply(g, Deliver(packet, newId), sha256), Agreement(sha256, mode), packet, front, r');
  }

  lemma ConnectKeeps(g: Net, links: map<Endpoint, Endpoint>, sha256: Digest, mode: Mode)
    requires Inv(g, sha256, mode) && Extends(g, links)
    ensures Inv(g.(links := links), sha256, mode)
  {
    hide Placed, AllAgree, Extends;
    Connects(g, links, Agreement(sha256, mode));
  }

  lemma StepKeeps(g: Net, s: Event, sha256: Digest, mode: Mode)
    requires Inv(g, sha256, mode) && Enabled(g, s, sha256) && Allowed(s, mode)
    ensures Inv(Apply(g, s, sha256), sha256, mode)
  {
    hide Inv;
    match s
    case User(a, c) =>
      hide Apply;
      if c.Propose? || c.Request? { StartKeeps(g, a, c, sha256, mode); } else { UserKeeps(g, a, c, sha256, mode); }
    case Deliver(p, newId) =>
      hide Apply;
      DeliveryKeeps(g, p, newId, sha256, mode);
    case Lose(p) => LossKeeps(g, p, sha256, mode);
    case Connect(links) => ConnectKeeps(g, links, sha256, mode);
  }

  lemma StartsInAgreement(g: Net, sha256: Digest, mode: Mode)
    requires Initial(g)
    ensures Inv(g, sha256, mode)
  {
  }

  lemma OneStep(gs: seq<Net>, ss: seq<Event>, sha256: Digest, i: nat)
    requires Run(gs, ss, sha256) && i + 1 < |gs|
    ensures i < |ss| && Enabled(gs[i], ss[i], sha256) && gs[i + 1] == Apply(gs[i], ss[i], sha256)
  {
  }

  lemma FirstNet(gs: seq<Net>, ss: seq<Event>, sha256: Digest)
    requires Run(gs, ss, sha256)
    ensures |gs| > 0 && Initial(gs[0])
  {
  }

  lemma ObeysAt(ss: seq<Event>, mode: Mode, i: nat)
    requires Obeys(ss, mode) && i < |ss|
    ensures Allowed(ss[i], mode)
  {
  }

  /** In a run that obeys a mode, every system has all that the mode promises. */
  lemma {:induction false} ReachedIn(gs: seq<Net>, ss: seq<Event>, sha256: Digest, mode: Mode, i: nat)
    requires Run(gs, ss, sha256) && Obeys(ss, mode) && i < |gs|
    ensures Inv(gs[i], sha256, mode)
  {
    hide *;
    if i == 0 {
      FirstNet(gs, ss, sha256);
      StartsInAgreement(gs[0], sha256, mode);
    } else {
      OneStep(gs, ss, sha256, i - 1);
      ObeysAt(ss, mode, i - 1);
      ReachedIn(gs, ss, sha256, mode, i - 1);
      StepKeeps(gs[i - 1], ss[i - 1], sha256, mode);
    }
  }

  lemma Reached(gs: seq<Net>, ss: seq<Event>, sha256: Digest, i: nat)
    requires Run(gs, ss, sha256) && i < |gs|
    ensures Inv(gs[i], sha256, ANY)
  {
    ReachedIn(gs, ss, sha256, ANY, i);
  }

  // ----- what every run guarantees ----------------------------------------------------------

  lemma VerifierHas(p: Pair, th: OneThread, front: bool, sha256: Digest)
    requires Agreed(p, th, sha256) && Held(th, front).Some? && Held(th, front).value.data.isVerified.Some?
    ensures front && th.back.Some? && th.back.value.connectionId == p.back.connection
    ensures var f, b := th.front.value, th.back.value;
            && f.state in {PresentationReceived, Done} && b.state in {PresentationSent, Done}
            && (b.state == Done ==> f.state == Done) && SamePresentation(f, b, sha256)
  {
  }

  /** Once a verifier has judged a presentation, it was judged valid, it was made for the very request that
      the verifier still holds, and the agent at the other end of the connection holds exactly one record on
      the thread, with the same request and the same presentation. */
  lemma PresentationAgreement(gs: seq<Net>, ss: seq<Event>, sha256: Digest, i: nat, a: nat, id: nat)
    requires Run(gs, ss, sha256) && i < |gs| && a in gs[i].stores && id in gs[i].stores[a].records
    requires var f := gs[i].stores[a].records[id]; f.data.isVerified.Some?
    ensures var g, f := gs[i], gs[i].stores[a].records[id];
            && f.state in {PresentationReceived, Done} && f.data.isVerified == Some(true)
            && Endpoint(a, f.connectionId) in g.links && g.links[Endpoint(a, f.connectionId)].agent in g.stores
            && var peer := g.links[Endpoint(a, f.connectionId)];
               var found := GetByThreadId(g.stores[peer.agent], f.threadId);
               && found.Ok? && found.value.connectionId == peer.connection
               && found.value.state in {PresentationSent, Done} && found.value.data.isVerified.None?
               && found.value.data.requestMessage == f.data.requestMessage
               && found.value.data.presentationMessage == f.data.presentationMessage
               && PresentationMade(f, sha256)
  {
    hide Placed, Agreed, Run, PresentationMade, GetByThreadId;
    Reached(gs, ss, sha256, i);
    var front, p, th := AtEnd(gs[i], a, id);
    VerifierHas(p, th, front, sha256);
    SameMade(th.front.value, th.back.value, sha256);
    BackUnverified(p, th, sha256);
  }

  lemma SameMade(f: ProofRecord, b: ProofRecord, sha256: Digest)
    requires SamePresentation(f, b, sha256)
    ensures PresentationMade(f, sha256)
  {
  }

  lemma BackUnverified(p: Pair, th: OneThread, sha256: Digest)
    requires Agreed(p, th, sha256) && th.back.Some?
    ensures th.back.value.data.isVerified.None?
  {
  }

  lemma ProverFinished(p: Pair, th: OneThread, front: bool, sha256: Digest)
    requires Agreed(p, th, sha256) && Held(th, front).Some?
    requires Held(th, front).value.state == Done && ProofHistories.SideOf(Held(th, front).value) == ProofHistories.Prover
    ensures !front && th.front.Some? && th.wire.None? && th.front.value.state == Done
    ensures SamePresentation(th.front.value, th.back.value, sha256)
  {
  }

  /** A prover is done only after its verifier is, with a presentation found valid. */
  lemma ProverLast(gs: seq<Net>, ss: seq<Event>, sha256: Digest, i: nat, a: nat, id: nat)
    requires Run(gs, ss, sha256) && i < |gs| && a in gs[i].stores && id in gs[i].stores[a].records
    requires var b := gs[i].stores[a].records[id];
             b.state == Done && ProofHistories.SideOf(b) == ProofHistories.Prover
    ensures var g, b := gs[i], gs[i].stores[a].records[id];
            && Endpoint(a, b.connectionId) in g.links && g.links[Endpoint(a, b.connectionId)].agent in g.stores
            && var found := GetByThreadId(g.stores[g.links[Endpoint(a, b.connectionId)].agent], b.threadId);
               && found.Ok? && found.value.state == Done && found.value.data.isVerified == Some(true)
               && found.value.data.requestMessage == b.data.requestMessage
               && found.value.data.presentationMessage == b.data.presentationMessage
  {
    hide Placed, Agreed, Run, GetByThreadId;
    Reached(gs, ss, sha256, i);
    var front, p, th := AtEnd(gs[i], a, id);
    ProverFinished(p, th, front, sha256);
  }

  /** At most one message per thread is undelivered; its recipient has no record on the thread or one in
      the state that accepts it; so no delivery ever fails, and a delivery makes a record only where there
      was none. */
  lemma TurnTaking(gs: seq<Net>, ss: seq<Event>, sha256: Digest, i: nat, p: Packet<Body>, newId: nat)
    requires Run(gs, ss, sha256) && i < |gs| && p in gs[i].inflight
    ensures forall q :: q in gs[i].inflight && q.message.ThreadId() == p.message.ThreadId() ==> q == p
    ensures p.to.agent in gs[i].stores
    ensures var s := gs[i].stores[p.to.agent];
            var found := GetByThreadId(s, p.message.ThreadId());
            var o := Handle(s, Some(Connection(p.to.connection, true)), p.message, newId, sha256);
            && (if found.Ok? then Expected(Some(found.value), p.to.connection, p.message, sha256)
                else found.error == NotFound && Expected(None, p.to.connection, p.message, sha256))
            && o.error.None?
            && o.store.records.Keys == s.records.Keys + (if found.Ok? then {} else {newId})
  {
    hide Agreed, Run, Handle, View, Clean, Expected, GetByThreadId;
    Reached(gs, ss, sha256, i);
    var front := ExpectedThere(gs[i], p, sha256, ANY);
    var s, t := gs[i].stores[p.to.agent], p.message.ThreadId();
    ViewFinds(s, t);
    Handled(s, p.to.connection, p.message, newId, sha256);
    TakenInThread(View(s, t), p.to.connection, p.message, newId, sha256);
  }

  lemma OneRecordPerThread(gs: seq<Net>, ss: seq<Event>, sha256: Digest, i: nat, a: nat, t: nat)
    requires Run(gs, ss, sha256) && i < |gs| && a in gs[i].stores
    ensures GetByThreadId(gs[i].stores[a], t) != Err(MultipleRecords)
  {
    hide Agreed, Run, GetByThreadId;
    Reached(gs, ss, sha256, i);
    ViewFinds(gs[i].stores[a], t);
  }

  /** What a call on a record needs: its state, and a wallet that makes the proof. */
  predicate Possible(c: Call, r: ProofRecord)
    requires !c.Propose? && !c.Request? && !c.Inbound?
  {
    match c
    case CounterPropose(_, _, _) => r.state == RequestReceived
    case CounterRequest(_, _, _) => r.state == ProposalReceived
    case AcceptProposal(_, _, _, _, _, _) => r.state == ProposalReceived
    case AcceptRequest(_, _, _, revealed) => r.state == RequestReceived && revealed.Some?
    case AcceptPresentation(_, _) => r.state == PresentationReceived
  }

  function Gives(c: Call): State
    requires !c.Propose? && !c.Request? && !c.Inbound?
  {
    match c
    case CounterPropose(_, _, _) => ProposalSent
    case CounterRequest(_, _, _) => RequestSent
    case AcceptProposal(_, _, _, _, _, _) => RequestSent
    case AcceptRequest(_, _, _, _) => PresentationSent
    case AcceptPresentation(_, _) => Done
  }

  lemma MessagesThere(p: Pair, th: OneThread, front: bool, sha256: Digest)
    requires Agreed(p, th, sha256) && Held(th, front).Some?
    ensures var r := Held(th, front).value;
            && (r.state == RequestReceived ==> AttachedRequest(r).Some?)
            && (r.state == ProposalReceived ==> r.data.proposalMessage.Some? && r.data.proposalMessage.value.body.ProposePresentation?)
  {
  }

  lemma Answered(s: ProofStore, c: Call, sha256: Digest)
    requires !c.Propose? && !c.Request? && !c.Inbound? && c.id in s.records && s.records[c.id].id == c.id
    requires s.records[c.id].state == RequestReceived ==> AttachedRequest(s.records[c.id]).Some?
    requires s.records[c.id].state == ProposalReceived ==>
               s.records[c.id].data.proposalMessage.Some? && s.records[c.id].data.proposalMessage.value.body.ProposePresentation?
    ensures var o := Do(s, c, sha256);
            && (o.error.None? <==> Possible(c, s.records[c.id]))
            && (o.error.None? ==> c.id in o.store.records && o.store.records[c.id].state == Gives(c) && o.sent.Some?)
  {
  }

  /** In every run a call on a record succeeds, and takes it on, exactly if the record is in the state for it and
      the wallet makes the proof it asks for; the messages a call works on are never missing. */
  lemma CallSucceeds(gs: seq<Net>, ss: seq<Event>, sha256: Digest, i: nat, a: nat, c: Call)
    requires Run(gs, ss, sha256) && i < |gs| && a in gs[i].stores
    requires !c.Propose? && !c.Request? && !c.Inbound? && c.id in gs[i].stores[a].records
    ensures var s, o := gs[i].stores[a], Do(gs[i].stores[a], c, sha256);
            && (o.error.None? <==> Possible(c, s.records[c.id]))
            && (o.error.None? ==> c.id in o.store.records && o.store.records[c.id].state == Gives(c) && o.sent.Some?)
  {
    hide Placed, Agreed, Run, Do, Possible, Gives;
    Reached(gs, ss, sha256, i);
    var front, p, th := AtEnd(gs[i], a, c.id);
    MessagesThere(p, th, front, sha256);
    Answered(gs[i].stores[a], c, sha256);
  }

  lemma BuiltFromProposal(p: Pair, th: OneThread, front: bool, sha256: Digest)
    requires Agreed(p, th, sha256) && AsProposed(p, th)
    requires Held(th, front).Some? && ProofHistories.SideOf(Held(th, front).value) == ProofHistories.Prover
    requires Held(th, front).value.state != ProposalSent && Held(th, front).value.data.proposalMessage.Some?
    ensures Answers(Held(th, front).value.data.requestMessage, Held(th, front).value.data.proposalMessage)
  {
  }

  /** Where proposals are answered by the module call, what a prover is asked for is what it proposed last, if it
      proposed anything: its stored request was built from its stored proposal. */
  lemma RequestAnswersProposal(gs: seq<Net>, ss: seq<Event>, sha256: Digest, i: nat, a: nat, id: nat)
    requires Run(gs, ss, sha256) && i < |gs| && a in gs[i].stores && id in gs[i].stores[a].records
    requires Obeys(ss, ANY.(asProposed := true))
    requires var b := gs[i].stores[a].records[id];
             ProofHistories.SideOf(b) == ProofHistories.Prover && b.state != ProposalSent && b.data.proposalMessage.Some?
    ensures Answers(gs[i].stores[a].records[id].data.requestMessage, gs[i].stores[a].records[id].data.proposalMessage)
  {
    hide Placed, Agreed, AsProposed, Run, Answers, Obeys;
    ReachedIn(gs, ss, sha256, ANY.(asProposed := true), i);
    var front, p, th := AtEnd(gs[i], a, id);
    BuiltFromProposal(p, th, front, sha256);
  }

  /** A module call that takes record `id` on. */
  ghost predicate CallOn(c: Call, id: nat) {
    && !c.Propose? && !c.Request? && !c.Inbound? && !c.CounterRequest? && c.id == id
    && (c.AcceptProposal? ==> Distinct(c.uuid))
  }

  ghost predicate Movable(s: ProofStore, id: nat, sha256: Digest) {
    exists c :: CallOn(c, id) && Do(s, c, sha256).error.None?
  }

  /** Exactly which records a user can take on: those with a proposal, a request or a presentation to answer. */
  lemma CanGoOn(gs: seq<Net>, ss: seq<Event>, sha256: Digest, i: nat, a: nat, id: nat)
    requires Run(gs, ss, sha256) && i < |gs| && a in gs[i].stores && id in gs[i].stores[a].records
    ensures Movable(gs[i].stores[a], id, sha256) <==>
            gs[i].stores[a].records[id].state in {ProposalReceived, RequestReceived, PresentationReceived}
  {
    hide Run, Do;
    var s, r := gs[i].stores[a], gs[i].stores[a].records[id];
    forall c | CallOn(c, id) ensures Do(s, c, sha256).error.None? <==> Possible(c, r) {
      CallSucceeds(gs, ss, sha256, i, a, c);
    }
    var uuid := (n: nat) => seq(n, _ => 'u');
    assert forall n :: |uuid(n)| == n;
    assert CallOn(AcceptProposal(id, 0, "", "", "", uuid), id);
    assert CallOn(AcceptRequest(id, 0, RequestedCredentials(map[], map[], map[]), Some([])), id);
    assert CallOn(AcceptPresentation(id, 0), id);
  }

  lemma Turns(p: Pair, th: OneThread, sha256: Digest)
    requires Agreed(p, th, sha256) && Alive(th) && th.wire.None?
    ensures th.front.Some? && th.back.Some?
    ensures var f, b := th.front.value, th.back.value;
            || (f.state == Done && b.state == Done)
            || f.state in {ProposalReceived, PresentationReceived} || b.state == RequestReceived
  {
  }

  /** While no message is lost, an exchange does not get stuck: a thread with nothing under way is finished at
      both ends, or one end can be taken on. */
  lemma Progress(gs: seq<Net>, ss: seq<Event>, sha256: Digest, i: nat, t: nat)
    requires Run(gs, ss, sha256) && Obeys(ss, ANY.(lossless := true)) && i < |gs| && t in gs[i].threads
    requires forall q :: q in gs[i].inflight ==> q.message.ThreadId() != t
    ensures var g, p := gs[i], gs[i].threads[t];
            && p.front.agent in g.stores && p.back.agent in g.stores
            && var f, b := GetByThreadId(g.stores[p.front.agent], t), GetByThreadId(g.stores[p.back.agent], t);
               && f.Ok? && b.Ok?
               && ((f.value.state == Done && b.value.state == Done)
                   || Movable(g.stores[p.front.agent], f.value.id, sha256) || Movable(g.stores[p.back.agent], b.value.id, sha256))
  {
    hide Agreed, Run, Obeys, View, Wire, Clean, Movable, GetByThreadId;
    ReachedIn(gs, ss, sha256, ANY.(lossless := true), i);
    var g, p, th := gs[i], gs[i].threads[t], ThreadOf(gs[i], t);
    assert Linked(g, p.front, p.back);
    assert Agreed(p, th, sha256) && Alive(th);
    NoWire(g, t);
    Turns(p, th, sha256);
    ViewFinds(g.stores[p.front.agent], t);
    ViewFinds(g.stores[p.back.agent], t);
    CanGoOn(gs, ss, sha256, i, p.front.agent, th.front.value.id);
    CanGoOn(gs, ss, sha256, i, p.back.agent, th.back.value.id);
  }

  lemma NoWire(g: Net, t: nat)
    requires forall q :: q in g.inflight ==> q.message.ThreadId() != t
    ensures Wire(g.inflight, t) == None
  {
  }

  // ----- why each message may arrive only once ----------------------------------------------

  /** Delivering an old proposal again takes back the request that answered it. */
  lemma ReplayedProposal(s: ProofStore, id: nat, m: Msg, newId: nat, sha256: Digest)
    requires Clean(s) && id in s.records && s.records[id].state == RequestSent
    requires m.body.ProposePresentation? && m.ThreadId() == s.records[id].threadId
    ensures var o := Handle(s, Some(Connection(s.records[id].connectionId, true)), m, newId, sha256);
            var r := s.records[id];
            o.store.records == s.records[id := r.(state := ProposalReceived, data := r.data.(proposalMessage := Some(m)))]
  {
    ViewStored(s, id);
    ViewFinds(s, m.ThreadId());
  }

  /** Exactly when a proposal or request leaves two records on its thread, after which the lookup fails: there is
      one already, and it is not in the state for the message or not on the connection it came over. So it is when
      a first message comes twice, and when both ends of a connection are at one agent. */
  lemma TwoRecords(s: ProofStore, connection: nat, m: Msg, newId: nat, sha256: Digest)
    requires Clean(s) && newId !in s.records
    requires m.body.ProposePresentation? || (m.body.RequestPresentation? && m.body.indyRequest.Some?)
    ensures var s' := Handle(s, Some(Connection(connection, true)), m, newId, sha256).store;
            var state := if m.body.ProposePresentation? then RequestSent else ProposalSent;
            GetByThreadId(s', m.ThreadId()) == Err(MultipleRecords) <==>
            exists id :: id in s.records && s.records[id].threadId == m.ThreadId() &&
                         !(s.records[id].state == state && s.records[id].connectionId == connection)
  {
    var t, state := m.ThreadId(), if m.body.ProposePresentation? then RequestSent else ProposalSent;
    var s' := Handle(s, Some(Connection(connection, true)), m, newId, sha256).store;
    ViewFinds(s, t);
    if id :| id in s.records && s.records[id].threadId == t {
      ViewStored(s, id);
      if s.records[id].state == state && s.records[id].connectionId == connection {
        WriteShows(s, s', s'.records[id]);
        ViewFinds(s', t);
      } else {
        assert Storage.Hit(s'.records, ByThread<State, Data>(t), id) && Storage.Hit(s'.records, ByThread<State, Data>(t), newId);
      }
    } else {
      ViewNone(s, t);
      WriteShows(s, s', s'.records[newId]);
      ViewFinds(s', t);
    }
  }
}
