/** Every step of issue-credential keeps both ends of every thread in agreement. */
module CredentialAgreement {
  import opened Results
  import opened Exchange
  import opened Encoding
  import opened Credentials
  import opened Threads
  import opened ThreadSteps
  import opened CredentialExchange
  import CredentialHistories
  import Storage

  // ----- one thread -------------------------------------------------------------------------

  /** What a user's call makes of the record it names, and the message that goes out with it. */
  ghost predicate Turn(c: Call, r: CredentialRecord, r': CredentialRecord, m: Msg, sha256: Digest) {
    && r'.id == r.id && r'.threadId == r.threadId && r'.connectionId == r.connectionId && m.thread == Some(r.threadId)
    && match c
       case CounterPropose(_, _, _) =>
         && r.state == OfferReceived && m.body.ProposeCredential?
         && r' == r.(state := ProposalSent, data := r.data.(proposalMessage := Some(m)))
       case CounterOffer(_, _, _, _) =>
         && r.state == ProposalReceived && m.body.OfferCredential? && m.body.indyOffer.Some?
         && r' == r.(state := OfferSent, data := r.data.(offerMessage := Some(m)))
       case AcceptProposal(_, _, _, _) =>
         && r.state == ProposalReceived && m.body.OfferCredential? && m.body.indyOffer.Some?
         && Answers(Some(m), r.data.proposalMessage)
         && r' == r.(state := OfferSent, data := r.data.(offerMessage := Some(m)))
       case AcceptOffer(_, _, _, _) =>
         && r.state == OfferReceived && r'.state == RequestSent && RequestMade(r')
         && r'.data.requestMessage == Some(m) && r'.data.offerMessage == r.data.offerMessage
         && r'.data.proposalMessage == r.data.proposalMessage
       case AcceptRequest(_, _, _) =>
         && r.state == RequestReceived && CredentialMade(r', sha256)
         && r' == r.(state := CredentialIssued, data := r.data.(credentialMessage := Some(m)))
       case AcceptCredential(_, _) => r.state == CredentialReceived && m.body.CredentialAck? && r' == r.(state := Done)
       case _ => false
  }

  lemma Accepted(s: CredentialStore, r: CredentialRecord, c: Call, sha256: Digest) returns (r': CredentialRecord, m: Msg)
    requires !c.Propose? && !c.Offer? && !c.Inbound? && Accept(s, r, c, sha256).sent.Some?
    ensures Accept(s, r, c, sha256).store.records == s.records[r.id := r']
    ensures Accept(s, r, c, sha256).sent == Some(Sent(r.connectionId, m)) && Turn(c, r, r', m, sha256)
  {
    var created := match c
      case CounterPropose(_, n, proposal) => CreateProposalAsResponse(s, r, n, proposal)
      case CounterOffer(_, n, template, nonce) => CreateOfferAsResponse(s, r, n, template, nonce)
      case AcceptProposal(_, n, definition, nonce) => AcceptProposalOf(s, r, n, definition, nonce)
      case AcceptOffer(_, n, did, nonce) => CreateRequest(s, r, n, did, nonce)
      case AcceptRequest(_, n, issues) => CreateCredential(s, r, n, issues, sha256)
      case AcceptCredential(_, n) => CreateAck(s, r, n);
    r', m := created.value.record, created.value.message;
  }

  /** A user can act only when nothing is on its way on the thread, and leaves both ends in agreement. */
  lemma UserTurn(p: Pair, th: OneThread, front: bool, c: Call, r': CredentialRecord, m: Msg, sha256: Digest, mode: Mode)
    requires Agrees(p, th, sha256, mode) && Held(th, front).Some? && Turn(c, Held(th, front).value, r', m, sha256)
    requires mode.asProposed ==> !c.CounterOffer?
    ensures th.wire.None?
    ensures Agrees(p, Put(th, front, r', Some(Packet(End(p, !front), m))), sha256, mode)
  {
  }

  /** The record is in the one state that accepts the message, or there is none where one may be made. */
  ghost predicate Expected(r: Option<CredentialRecord>, connection: nat, m: Msg) {
    && (r.Some? ==> r.value.connectionId == connection)
    && match m.body
       case ProposeCredential(_) => r.Some? ==> r.value.state == OfferSent
       case OfferCredential(_, offer) => offer.Some? && if r.Some? then r.value.state == ProposalSent else m.id == m.ThreadId()
       case RequestCredential(request) => request.Some? && r.Some? && r.value.state == OfferSent
       case IssueCredential(credential) =>
         && credential.Some? && r.Some? && r.value.state == RequestSent && r.value.data.requestMetadata.Some?
         && credential.value.request == r.value.data.requestMetadata.value.request
       case CredentialAck => r.Some? && r.value.state == CredentialIssued
  }

  /** The record after an expected message. */
  ghost function TakenIn(r: Option<CredentialRecord>, connection: nat, m: Msg, newId: nat): CredentialRecord
    requires Expected(r, connection, m)
  {
    var base := if r.Some? then r.value else Record(newId, connection, m.ThreadId(), Done, NO_DATA);
    match m.body
    case ProposeCredential(_) => base.(state := ProposalReceived, data := base.data.(proposalMessage := Some(m)))
    case OfferCredential(_, _) => base.(state := OfferReceived, data := base.data.(offerMessage := Some(m)))
    case RequestCredential(_) => base.(state := RequestReceived, data := base.data.(requestMessage := Some(m)))
    case IssueCredential(_) =>
      base.(state := CredentialReceived, data := base.data.(credentialId := Some(newId), credentialMessage := Some(m)))
    case CredentialAck => base.(state := Done)
  }

  /** An expected message is taken in without error, and a record is made only on an unknown thread. */
  lemma Handled(s: CredentialStore, connection: nat, m: Msg, newId: nat)
    requires Clean(s) && Expected(View(s, m.ThreadId()), connection, m)
    ensures var o := Handle(s, Some(Connection(connection, true)), m, newId);
            var r' := TakenIn(View(s, m.ThreadId()), connection, m, newId);
            o.error.None? && o.store.records == s.records[r'.id := r']
  {
    ViewFinds(s, m.ThreadId());
  }

  /** What is on its way on a thread is expected where it is going. */
  lemma WireExpected(p: Pair, th: OneThread, sha256: Digest) returns (front: bool)
    requires Agreed(p, th, sha256) && th.wire.Some? && p.front != p.back
    requires th.front.Some? ==> th.front.value.threadId == th.wire.value.message.ThreadId()
    ensures th.wire.value.to == End(p, front)
    ensures Expected(Held(th, front), End(p, front).connection, th.wire.value.message)
  {
    front := th.wire.value.to == p.front;
  }

  lemma DeliveryTurn(p: Pair, th: OneThread, front: bool, newId: nat, sha256: Digest, mode: Mode)
    requires Agrees(p, th, sha256, mode) && th.wire.Some? && th.wire.value.to == End(p, front)
    requires Expected(Held(th, front), End(p, front).connection, th.wire.value.message)
    ensures var r' := TakenIn(Held(th, front), End(p, front).connection, th.wire.value.message, newId);
            Agrees(p, Put(th, front, r', None), sha256, mode)
  {
  }

  lemma LossTurn(p: Pair, th: OneThread, sha256: Digest, mode: Mode)
    requires Agrees(p, th, sha256, mode) && !mode.lossless
    ensures Agrees(p, th.(wire := None), sha256, mode)
  {
  }

  // ----- one step of the system -------------------------------------------------------------

  lemma UserMayAct(c: Call, r: CredentialRecord, r': CredentialRecord, m: Msg, sha256: Digest, mode: Mode)
    requires Turn(c, r, r', m, sha256) && (mode.asProposed ==> !c.CounterOffer?)
    ensures MayAct(Agreement(sha256, mode), r, r', m)
  {
    hide Turn;
    forall p: Pair, th: OneThread, front: bool | Agrees(p, th, sha256, mode) && Held(th, front) == Some(r)
      ensures th.wire.None? && Agrees(p, Put(th, front, r', Some(Packet(End(p, !front), m))), sha256, mode)
    {
      hide Agrees;
      UserTurn(p, th, front, c, r', m, sha256, mode);
    }
  }

  lemma UserKeeps(g: Net, a: nat, c: Call, sha256: Digest, mode: Mode)
    requires Inv(g, sha256, mode) && Enabled(g, User(a, c)) && !c.Propose? && !c.Offer?
    requires mode.asProposed ==> !c.CounterOffer?
    ensures Inv(Apply(g, User(a, c), sha256), sha256, mode)
  {
    hide Placed, Agreement, Turn, Accept;
    var s := g.stores[a];
    var o := Do(s, c, sha256);
    var g' := Apply(g, User(a, c), sha256);
    if o.sent.None? {
      SilentCall(s, c, sha256);
      assert g.stores[a := s] == g.stores;
      assert g' == g;
    } else {
      var r := s.records[c.id];
      var front, p, th := AtEnd(g, a, c.id);
      var r', m := Accepted(s, r, c, sha256);
      UserMayAct(c, r, r', m, sha256, mode);
      TurnKeepsThread(c, r, r', m, sha256);
      Acts(g, g', Agreement(sha256, mode), a, r, r', m);
    }
  }

  lemma SilentCall(s: CredentialStore, c: Call, sha256: Digest)
    requires Do(s, c, sha256).sent.None? && !c.Inbound?
    ensures Do(s, c, sha256).store == s
  {
  }

  lemma TurnKeepsThread(c: Call, r: CredentialRecord, r': CredentialRecord, m: Msg, sha256: Digest)
    requires Turn(c, r, r', m, sha256)
    ensures r'.id == r.id && r'.threadId == r.threadId && r'.connectionId == r.connectionId && m.ThreadId() == r.threadId
  {
  }

  /** A first proposal or offer makes the only record of a new thread. */
  lemma Opened(s: CredentialStore, c: Call, sha256: Digest, mode: Mode) returns (r: CredentialRecord, m: Msg)
    requires (c.Propose? || c.Offer?) && Do(s, c, sha256).sent.Some?
    ensures Do(s, c, sha256).store.records == s.records[c.newId := r] && r.id == c.newId
    ensures Do(s, c, sha256).sent == Some(Sent(r.connectionId, m)) && r.connectionId == c.connection.id
    ensures r.threadId == c.messageId == m.ThreadId()
    ensures var front := c.Offer?;
            forall p: Pair :: End(p, front).connection == r.connectionId ==>
              Agrees(p, Put(Thread(None, None, None), front, r, Some(Packet(End(p, !front), m))), sha256, mode)
  {
    var created := if c.Propose? then CreateProposal(s, c.connection, c.newId, c.messageId, c.proposal)
                   else CreateOffer(s, c.connection, c.newId, c.messageId, c.template, c.nonce);
    r, m := created.value.record, created.value.message;
  }

  lemma StartKeeps(g: Net, a: nat, c: Call, sha256: Digest, mode: Mode)
    requires Inv(g, sha256, mode) && Enabled(g, User(a, c)) && (c.Propose? || c.Offer?)
    ensures Inv(Apply(g, User(a, c), sha256), sha256, mode)
  {
    hide Placed, Agrees;
    var s := g.stores[a];
    var g' := Apply(g, User(a, c), sha256);
    if Do(s, c, sha256).sent.None? {
      SilentCall(s, c, sha256);
      assert g.stores[a := s] == g.stores;
      assert g' == g;
    } else {
      var r, m := Opened(s, c, sha256, mode);
      var e := Endpoint(a, r.connectionId);
      var p := if c.Offer? then Pair(e, g.links[e]) else Pair(g.links[e], e);
      assert End(p, c.Offer?).connection == r.connectionId;
      Starts(g, g', Agreement(sha256, mode), a, r, m, c.Offer?);
    }
  }

  lemma CredentialMayBeLost(sha256: Digest, mode: Mode)
    requires !mode.lossless
    ensures MayBeLost(Agreement(sha256, mode))
  {
    forall p: Pair, th: OneThread | Agrees(p, th, sha256, mode) ensures Agrees(p, th.(wire := None), sha256, mode) {
      hide Agrees;
      LossTurn(p, th, sha256, mode);
    }
  }

  lemma LossKeeps(g: Net, p: Packet<Body>, sha256: Digest, mode: Mode)
    requires Inv(g, sha256, mode) && p in g.inflight && !mode.lossless
    ensures Inv(g.(inflight := g.inflight - {p}), sha256, mode)
  {
    hide Placed;
    CredentialMayBeLost(sha256, mode);
    Loses(g, g.(inflight := g.inflight - {p}), Agreement(sha256, mode), p);
  }

  /** What is in flight is expected by its recipient, which is an end of the thread. */
  lemma ExpectedThere(g: Net, packet: Packet<Body>, sha256: Digest, mode: Mode) returns (front: bool)
    requires Inv(g, sha256, mode) && packet in g.inflight
    ensures var t := packet.message.ThreadId();
            && t in g.threads && packet.to == End(g.threads[t], front) && packet.to.agent in g.stores
            && Clean(g.stores[packet.to.agent])
            && Expected(View(g.stores[packet.to.agent], t), packet.to.connection, packet.message)
  {
    hide Placed, Agreed, Expected;
    var p, th := InFlight(g, packet);
    front := WireExpected(p, th, sha256);
  }

  lemma CredentialMayArrive(packet: Packet<Body>, front: bool, r: Option<CredentialRecord>, newId: nat, sha256: Digest, mode: Mode)
    requires Expected(r, packet.to.connection, packet.message)
    ensures MayArrive(Agreement(sha256, mode), packet, front, r, TakenIn(r, packet.to.connection, packet.message, newId))
  {
    hide Expected, TakenIn;
    forall p: Pair, th: OneThread
      | Agrees(p, th, sha256, mode) && th.wire == Some(packet) && packet.to == End(p, front) && Held(th, front) == r
      ensures Agrees(p, Put(th, front, TakenIn(r, packet.to.connection, packet.message, newId), None), sha256, mode)
    {
      hide Agrees;
      DeliveryTurn(p, th, front, newId, sha256, mode);
    }
  }

  lemma TakenInThread(r: Option<CredentialRecord>, connection: nat, m: Msg, newId: nat)
    requires Expected(r, connection, m) && (r.Some? ==> r.value.threadId == m.ThreadId())
    ensures var r' := TakenIn(r, connection, m, newId);
            && r'.id == (if r.Some? then r.value.id else newId)
            && r'.threadId == m.ThreadId() && r'.connectionId == connection
  {
  }

  lemma DeliveryKeeps(g: Net, packet: Packet<Body>, newId: nat, sha256: Digest, mode: Mode)
    requires Inv(g, sha256, mode) && Enabled(g, Deliver(packet, newId))
    ensures Inv(Apply(g, Deliver(packet, newId), sha256), sha256, mode)
  {
    hide Placed, Agrees, Expected, Handle, View, Clean;
    var t := packet.message.ThreadId();
    var front := ExpectedThere(g, packet, sha256, mode);
    var s := g.stores[packet.to.agent];
    var r, r' := View(s, t), TakenIn(View(s, t), packet.to.connection, packet.message, newId);
    CredentialMayArrive(packet, front, r, newId, sha256, mode);
    TakenInThread(r, packet.to.connection, packet.message, newId);
    Handled(s, packet.to.connection, packet.message, newId);
    Arrives(g, Apply(g, Deliver(packet, newId), sha256), Agreement(sha256, mode), packet, front, r');
  }

  lemma ConnectKeeps(g: Net, links: map<Endpoint, Endpoint>, sha256: Digest, mode: Mode)
    requires Inv(g, sha256, mode) && Extends(g, links)
    ensures Inv(g.(links := links), sha256, mode)
  {
    hide Placed, AllAgree, Extends;
    Connects(g, links, Agreement(sha256, mode));
  }

  lemma StepKeeps(g: Net, s: Event, sha256: Digest, mode: Mode)
    requires Inv(g, sha256, mode) && Enabled(g, s) && Allowed(s, mode)
    ensures Inv(Apply(g, s, sha256), sha256, mode)
  {
    hide Inv;
    match s
    case User(a, c) =>
      hide Apply;
      if c.Propose? || c.Offer? { StartKeeps(g, a, c, sha256, mode); } else { UserKeeps(g, a, c, sha256, mode); }
    case Deliver(p, newId) =>
      hide Apply;
      DeliveryKeeps(g, p, newId, sha256, mode);
    case Lose(p) => LossKeeps(g, p, sha256, mode);
    case Connect(links) => ConnectKeeps(g, links, sha256, mode);
  }

  lemma StartsInAgreement(g: Net, sha256: Digest, mode: Mode)
    requires Initial(g)
    ensures Inv(g, sha256, mode)
  {
  }

  lemma OneStep(gs: seq<Net>, ss: seq<Event>, sha256: Digest, i: nat)
    requires Run(gs, ss, sha256) && i + 1 < |gs|
    ensures i < |ss| && Enabled(gs[i], ss[i]) && gs[i + 1] == Apply(gs[i], ss[i], sha256)
  {
  }

  lemma FirstNet(gs: seq<Net>, ss: seq<Event>, sha256: Digest)
    requires Run(gs, ss, sha256)
    ensures |gs| > 0 && Initial(gs[0])
  {
  }

  lemma ObeysAt(ss: seq<Event>, mode: Mode, i: nat)
    requires Obeys(ss, mode) && i < |ss|
    ensures Allowed(ss[i], mode)
  {
  }

  /** In a run that obeys a mode, every system has all that the mode promises. */
  lemma {:induction false} ReachedIn(gs: seq<Net>, ss: seq<Event>, sha256: Digest, mode: Mode, i: nat)
    requires Run(gs, ss, sha256) && Obeys(ss, mode) && i < |gs|
    ensures Inv(gs[i], sha256, mode)
  {
    hide *;
    if i == 0 {
      FirstNet(gs, ss, sha256);
      StartsInAgreement(gs[0], sha256, mode);
    } else {
      OneStep(gs, ss, sha256, i - 1);
      ObeysAt(ss, mode, i - 1);
      ReachedIn(gs, ss, sha256, mode, i - 1);
      StepKeeps(gs[i - 1], ss[i - 1], sha256, mode);
    }
  }

  lemma Reached(gs: seq<Net>, ss: seq<Event>, sha256: Digest, i: nat)
    requires Run(gs, ss, sha256) && i < |gs|
    ensures Inv(gs[i], sha256, ANY)
  {
    ReachedIn(gs, ss, sha256, ANY, i);
  }

  // ----- what every run guarantees ----------------------------------------------------------

  lemma HolderHas(p: Pair, th: OneThread, front: bool, sha256: Digest)
    requires Agreed(p, th, sha256) && Held(th, front).Some?
    requires var h := Held(th, front).value;
             h.state == CredentialReceived || (h.state == Done && CredentialHistories.SideOf(h) == CredentialHistories.Holder)
    ensures !front && th.front.Some? && th.front.value.connectionId == p.front.connection
    ensures var h, f := th.back.value, th.front.value;
            && f.state in {CredentialIssued, Done} && CredentialHistories.SideOf(f) == CredentialHistories.Issuer
            && h.data.offerMessage == f.data.offerMessage && h.data.requestMessage == f.data.requestMessage
            && h.data.credentialMessage == f.data.credentialMessage && CredentialMade(h, sha256)
  {
  }

  /** Once a holder has its credential, the agent at the other end of its connection holds exactly one
      record on the thread, has issued on it, and both hold the same offer, request and credential; the
      issued values are those of the preview the holder accepted. Where proposals are answered by the module
      call, that is the preview the holder proposed last, if it proposed any. */
  lemma OfferAgreement(gs: seq<Net>, ss: seq<Event>, sha256: Digest, i: nat, a: nat, id: nat)
    requires Run(gs, ss, sha256) && i < |gs| && a in gs[i].stores && id in gs[i].stores[a].records
    requires var h := gs[i].stores[a].records[id];
             h.state == CredentialReceived || (h.state == Done && CredentialHistories.SideOf(h) == CredentialHistories.Holder)
    ensures var g, h := gs[i], gs[i].stores[a].records[id];
            && Endpoint(a, h.connectionId) in g.links && g.links[Endpoint(a, h.connectionId)].agent in g.stores
            && var peer := g.links[Endpoint(a, h.connectionId)];
               var found := GetByThreadId(g.stores[peer.agent], h.threadId);
               && found.Ok? && found.value.connectionId == peer.connection
               && found.value.state in {CredentialIssued, Done}
               && CredentialHistories.SideOf(found.value) == CredentialHistories.Issuer
               && h.data.offerMessage == found.value.data.offerMessage
               && h.data.requestMessage == found.value.data.requestMessage
               && h.data.credentialMessage == found.value.data.credentialMessage
               && CredentialMade(h, sha256)
               && (Obeys(ss, ANY.(asProposed := true)) && h.data.proposalMessage.Some? ==>
                     Answers(h.data.offerMessage, h.data.proposalMessage))
  {
    hide Placed, Agreed, Run, CredentialMade, Answers, GetByThreadId, Obeys;
    Reached(gs, ss, sha256, i);
    var front, p, th := AtEnd(gs[i], a, id);
    HolderHas(p, th, front, sha256);
    if Obeys(ss, ANY.(asProposed := true)) {
      ReachedIn(gs, ss, sha256, ANY.(asProposed := true), i);
      assert AsProposed(p, th);
    }
  }

  lemma IssuerFinished(p: Pair, th: OneThread, front: bool, sha256: Digest)
    requires Agreed(p, th, sha256) && Held(th, front).Some?
    requires Held(th, front).value.state == Done && CredentialHistories.SideOf(Held(th, front).value) == CredentialHistories.Issuer
    ensures front && th.back.Some? && th.back.value.state == Done && th.wire.None?
    ensures th.back.value.data.credentialMessage == th.front.value.data.credentialMessage
  {
  }

  /** An issuer is done only after its holder is. */
  lemma IssuerLast(gs: seq<Net>, ss: seq<Event>, sha256: Digest, i: nat, a: nat, id: nat)
    requires Run(gs, ss, sha256) && i < |gs| && a in gs[i].stores && id in gs[i].stores[a].records
    requires var f := gs[i].stores[a].records[id];
             f.state == Done && CredentialHistories.SideOf(f) == CredentialHistories.Issuer
    ensures var g, f := gs[i], gs[i].stores[a].records[id];
            && Endpoint(a, f.connectionId) in g.links && g.links[Endpoint(a, f.connectionId)].agent in g.stores
            && var found := GetByThreadId(g.stores[g.links[Endpoint(a, f.connectionId)].agent], f.threadId);
               && found.Ok? && found.value.state == Done
               && found.value.data.credentialMessage == f.data.credentialMessage
  {
    hide Placed, Agreed, Run, GetByThreadId;
    Reached(gs, ss, sha256, i);
    var front, p, th := AtEnd(gs[i], a, id);
    IssuerFinished(p, th, front, sha256);
  }

  /** At most one message per thread is undelivered; its recipient has no record on the thread or one in
      the state that accepts it; so no delivery ever fails, and a delivery makes a record only where there
      was none. */
  lemma TurnTaking(gs: seq<Net>, ss: seq<Event>, sha256: Digest, i: nat, p: Packet<Body>, newId: nat)
    requires Run(gs, ss, sha256) && i < |gs| && p in gs[i].inflight
    ensures forall q :: q in gs[i].inflight && q.message.ThreadId() == p.message.ThreadId() ==> q == p
    ensures p.to.agent in gs[i].stores
    ensures var s := gs[i].stores[p.to.agent];
            var found := GetByThreadId(s, p.message.ThreadId());
            var o := Handle(s, Some(Connection(p.to.connection, true)), p.message, newId);
            && (if found.Ok? then Expected(Some(found.value), p.to.connection, p.message)
                else found.error == NotFound && Expected(None, p.to.connection, p.message))
            && o.error.None?
            && o.store.records.Keys == s.records.Keys + (if found.Ok? then {} else {newId})
  {
    hide Agreed, Run, Handle, View, Clean, Expected, GetByThreadId;
    Reached(gs, ss, sha256, i);
    var front := ExpectedThere(gs[i], p, sha256, ANY);
    var s, t := gs[i].stores[p.to.agent], p.message.ThreadId();
    ViewFinds(s, t);
    Handled(s, p.to.connection, p.message, newId);
    TakenInThread(View(s, t), p.to.connection, p.message, newId);
  }

  lemma OneRecordPerThread(gs: seq<Net>, ss: seq<Event>, sha256: Digest, i: nat, a: nat, t: nat)
    requires Run(gs, ss, sha256) && i < |gs| && a in gs[i].stores
    ensures GetByThreadId(gs[i].stores[a], t) != Err(MultipleRecords)
  {
    hide Agreed, Run, GetByThreadId;
    Reached(gs, ss, sha256, i);
    ViewFinds(gs[i].stores[a], t);
  }

  function ProposalOf(r: CredentialRecord): Option<Proposal> {
    if r.data.proposalMessage.Some? && r.data.proposalMessage.value.body.ProposeCredential?
    then Some(r.data.proposalMessage.value.body.proposal) else None
  }

  /** What a call on a record needs. Only accepting a proposal needs more than the state and the wallet: a
      proposed preview, and a definition id that is passed or proposed. */
  predicate Possible(c: Call, r: CredentialRecord)
    requires !c.Propose? && !c.Offer? && !c.Inbound?
  {
    match c
    case CounterPropose(_, _, _) => r.state == OfferReceived
    case CounterOffer(_, _, _, nonce) => r.state == ProposalReceived && nonce.Some?
    case AcceptProposal(_, _, passed, nonce) =>
      && r.state == ProposalReceived && nonce.Some?
      && ProposalOf(r).Some? && ProposalOf(r).value.preview.Some?
      && (if passed.Some? then passed.value != "" else ProposalOf(r).value.credentialDefinitionId.GetOr("") != "")
    case AcceptOffer(_, _, _, nonce) => r.state == OfferReceived && nonce.Some?
    case AcceptRequest(_, _, walletIssues) => r.state == RequestReceived && walletIssues
    case AcceptCredential(_, _) => r.state == CredentialReceived
  }

  function Gives(c: Call): State
    requires !c.Propose? && !c.Offer? && !c.Inbound?
  {
    match c
    case CounterPropose(_, _, _) => ProposalSent
    case CounterOffer(_, _, _, _) => OfferSent
    case AcceptProposal(_, _, _, _) => OfferSent
    case AcceptOffer(_, _, _, _) => RequestSent
    case AcceptRequest(_, _, _) => CredentialIssued
    case AcceptCredential(_, _) => Done
  }

  lemma AttachmentsThere(p: Pair, th: OneThread, front: bool, sha256: Digest)
    requires Agreed(p, th, sha256) && Held(th, front).Some?
    ensures var r := Held(th, front).value;
            && (r.state in {OfferReceived, RequestReceived} ==> AttachedOffer(r).Some?)
            && (r.state == RequestReceived ==> AttachedRequest(r).Some?)
            && (r.state == ProposalReceived ==> ProposalOf(r).Some?)
  {
  }

  lemma Answered(s: CredentialStore, c: Call, sha256: Digest)
    requires !c.Propose? && !c.Offer? && !c.Inbound? && c.id in s.records && s.records[c.id].id == c.id
    requires s.records[c.id].state in {OfferReceived, RequestReceived} ==> AttachedOffer(s.records[c.id]).Some?
    requires s.records[c.id].state == RequestReceived ==> AttachedRequest(s.records[c.id]).Some?
    ensures var o := Do(s, c, sha256);
            && (o.error.None? <==> Possible(c, s.records[c.id]))
            && (o.error.None? ==> c.id in o.store.records && o.store.records[c.id].state == Gives(c) && o.sent.Some?)
  {
  }

  /** In every run a call on a record succeeds, and takes it on, exactly if it is possible: a record never lacks
      an attachment, so besides the state and the wallet only a proposal without a preview, or without any
      definition id, stands in the way. */
  lemma CallSucceeds(gs: seq<Net>, ss: seq<Event>, sha256: Digest, i: nat, a: nat, c: Call)
    requires Run(gs, ss, sha256) && i < |gs| && a in gs[i].stores
    requires !c.Propose? && !c.Offer? && !c.Inbound? && c.id in gs[i].stores[a].records
    ensures var s, o := gs[i].stores[a], Do(gs[i].stores[a], c, sha256);
            && (o.error.None? <==> Possible(c, s.records[c.id]))
            && (o.error.None? ==> c.id in o.store.records && o.store.records[c.id].state == Gives(c) && o.sent.Some?)
  {
    hide Placed, Agreed, Run, Do, Possible, Gives;
    Reached(gs, ss, sha256, i);
    var front, p, th := AtEnd(gs[i], a, c.id);
    AttachmentsThere(p, th, front, sha256);
    Answered(gs[i].stores[a], c, sha256);
  }

  /** A call that takes record `id` on; a counter-offer is not one, as the module has no call for it. */
  ghost predicate CallOn(c: Call, id: nat) {
    !c.Propose? && !c.Offer? && !c.Inbound? && !c.CounterOffer? && c.id == id
  }

  ghost predicate Movable(s: CredentialStore, id: nat, sha256: Digest) {
    exists c :: CallOn(c, id) && Do(s, c, sha256).error.None?
  }

  /** Exactly which records a user can take on: those with an offer, a request or a credential to answer, and
      those with a proposal that has a preview. */
  lemma CanGoOn(gs: seq<Net>, ss: seq<Event>, sha256: Digest, i: nat, a: nat, id: nat)
    requires Run(gs, ss, sha256) && i < |gs| && a in gs[i].stores && id in gs[i].stores[a].records
    ensures var s, r := gs[i].stores[a], gs[i].stores[a].records[id];
            Movable(s, id, sha256) <==>
            (r.state in {OfferReceived, RequestReceived, CredentialReceived}
             || (r.state == ProposalReceived && ProposalOf(r).Some? && ProposalOf(r).value.preview.Some?))
  {
    hide Run, Do;
    var s, r := gs[i].stores[a], gs[i].stores[a].records[id];
    forall c | CallOn(c, id) ensures Do(s, c, sha256).error.None? <==> Possible(c, r) {
      CallSucceeds(gs, ss, sha256, i, a, c);
    }
    assert CallOn(AcceptOffer(id, 0, 0, Some(0)), id);
    assert CallOn(AcceptRequest(id, 0, true), id);
    assert CallOn(AcceptCredential(id, 0), id);
    assert CallOn(AcceptProposal(id, 0, Some("id"), Some(0)), id);
  }

  lemma Turns(p: Pair, th: OneThread, sha256: Digest)
    requires Agreed(p, th, sha256) && Alive(th) && th.wire.None?
    ensures th.front.Some? && th.back.Some?
    ensures var f, b := th.front.value, th.back.value;
            || (f.state == Done && b.state == Done)
            || f.state in {RequestReceived, ProposalReceived} || b.state in {OfferReceived, CredentialReceived}
    ensures th.front.value.state == ProposalReceived ==> ProposalOf(th.front.value).Some?
  {
  }

  /** While no message is lost, an exchange does not get stuck: a thread with nothing under way is finished at
      both ends, or one end can be taken on, or it waits on a proposal that has no preview. */
  lemma Progress(gs: seq<Net>, ss: seq<Event>, sha256: Digest, i: nat, t: nat)
    requires Run(gs, ss, sha256) && Obeys(ss, ANY.(lossless := true)) && i < |gs| && t in gs[i].threads
    requires forall q :: q in gs[i].inflight ==> q.message.ThreadId() != t
    ensures var g, p := gs[i], gs[i].threads[t];
            && p.front.agent in g.stores && p.back.agent in g.stores
            && var f, b := GetByThreadId(g.stores[p.front.agent], t), GetByThreadId(g.stores[p.back.agent], t);
               && f.Ok? && b.Ok?
               && ((f.value.state == Done && b.value.state == Done)
                   || Movable(g.stores[p.front.agent], f.value.id, sha256) || Movable(g.stores[p.back.agent], b.value.id, sha256)
                   || (f.value.state == ProposalReceived && ProposalOf(f.value).Some? && ProposalOf(f.value).value.preview.None?))
  {
    hide Agreed, Run, Obeys, View, Wire, Clean, Movable, GetByThreadId;
    ReachedIn(gs, ss, sha256, ANY.(lossless := true), i);
    var g, p, th := gs[i], gs[i].threads[t], ThreadOf(gs[i], t);
    assert Linked(g, p.front, p.back);
    assert Agreed(p, th, sha256) && Alive(th);
    NoWire(g, t);
    Turns(p, th, sha256);
    ViewFinds(g.stores[p.front.agent], t);
    ViewFinds(g.stores[p.back.agent], t);
    CanGoOn(gs, ss, sha256, i, p.front.agent, th.front.value.id);
    CanGoOn(gs, ss, sha256, i, p.back.agent, th.back.value.id);
  }

  lemma NoWire(g: Net, t: nat)
    requires forall q :: q in g.inflight ==> q.message.ThreadId() != t
    ensures Wire(g.inflight, t) == None
  {
  }

  const SILENT := Message(7, None, ProposeCredential(Proposal(None, None)))
  const SILENT_SENT := Record(0, 0, 7, ProposalSent, NO_DATA.(proposalMessage := Some(SILENT)))
  const SILENT_RECEIVED := Record(0, 0, 7, ProposalReceived, NO_DATA.(proposalMessage := Some(SILENT)))

  lemma SilentProposalSent(s: CredentialStore, sha256: Digest)
    requires s == Store(map[], [])
    ensures var o := Do(s, Propose(Connection(0, true), 0, 7, Proposal(None, None)), sha256);
            o.store.records == map[0 := SILENT_SENT] && o.sent == Some(Sent(0, SILENT))
  {
  }

  lemma SilentProposalReceived(s: CredentialStore)
    requires s == Store(map[], [])
    ensures Handle(s, Some(Connection(0, true)), SILENT, 0).store.records == map[0 := SILENT_RECEIVED]
  {
    ViewNone(s, 7);
    ViewFinds(s, 7);
  }

  lemma SilentRun(sha256: Digest) returns (gs: seq<Net>, ss: seq<Event>)
    ensures Run(gs, ss, sha256) && |gs| == 3 && gs[2].inflight == {}
    ensures 0 in gs[2].stores && 1 in gs[2].stores
    ensures gs[2].stores[0].records == map[0 := SILENT_SENT] && gs[2].stores[1].records == map[0 := SILENT_RECEIVED]
  {
    var holder, issuer := Endpoint(0, 0), Endpoint(1, 0);
    var empty: CredentialStore := Store(map[], []);
    SilentProposalSent(empty, sha256);
    SilentProposalReceived(empty);
    var g0: Net := System(map[0 := empty, 1 := empty], map[holder := issuer, issuer := holder], map[], {});
    var s0: Event := User(0, Propose(Connection(0, true), 0, 7, Proposal(None, None)));
    hide Do, Handle;
    var g1 := Apply(g0, s0, sha256);
    assert g1.inflight == {Packet(issuer, SILENT)};
    var s1: Event := Deliver(Packet(issuer, SILENT), 0);
    var g2 := Apply(g1, s1, sha256);
    gs, ss := [g0, g1, g2], [s0, s1];
  }

  /** A proposal may leave out its preview; then no module call takes its thread any further. */
  lemma UnanswerableProposal(sha256: Digest) returns (gs: seq<Net>, ss: seq<Event>)
    ensures Run(gs, ss, sha256) && |gs| == 3 && gs[2].inflight == {}
    ensures 0 in gs[2].stores && 1 in gs[2].stores
    ensures gs[2].stores[0].records == map[0 := SILENT_SENT] && gs[2].stores[1].records == map[0 := SILENT_RECEIVED]
    ensures forall a, c :: a in {0, 1} && CallOn(c, 0) ==> Do(gs[2].stores[a], c, sha256).error.Some?
  {
    gs, ss := SilentRun(sha256);
    hide Run, Do;
    forall a, c | a in {0, 1} && CallOn(c, 0) ensures Do(gs[2].stores[a], c, sha256).error.Some? {
      Answered(gs[2].stores[a], c, sha256);
    }
  }

  // ----- why each message may arrive only once ----------------------------------------------

  /** Delivering an old proposal again takes back the offer that answered it. */
  lemma ReplayedProposal(s: CredentialStore, id: nat, m: Msg, newId: nat)
    requires Clean(s) && id in s.records && s.records[id].state == OfferSent
    requires m.body.ProposeCredential? && m.ThreadId() == s.records[id].threadId
    ensures var o := Handle(s, Some(Connection(s.records[id].connectionId, true)), m, newId);
            var r := s.records[id];
            o.store.records == s.records[id := r.(state := ProposalReceived, data := r.data.(proposalMessage := Some(m)))]
  {
    ViewStored(s, id);
    ViewFinds(s, m.ThreadId());
  }

  /** Delivering a first offer again leaves two records on its thread, and the thread dead: every later
      request, credential or acknowledgement on it fails, wherever it comes from. */
  lemma ReplayedOffer(s: CredentialStore, id: nat, m: Msg, newId: nat, from: Option<Connection>, later: Msg, laterId: nat)
    requires Clean(s) && id in s.records && s.records[id].state != ProposalSent && newId !in s.records
    requires m.body.OfferCredential? && m.body.indyOffer.Some? && m.thread.None? && m.id == s.records[id].threadId
    requires later.ThreadId() == m.id && (later.body.RequestCredential? || later.body.IssueCredential? || later.body.CredentialAck?)
    ensures var s' := Handle(s, Some(Connection(s.records[id].connectionId, true)), m, newId).store;
            && GetByThreadId(s', m.id) == Err(MultipleRecords)
            && Handle(s', from, later, laterId).error.Some?
  {
    ViewStored(s, id);
    ViewFinds(s, m.id);
    var s' := Handle(s, Some(Connection(s.records[id].connectionId, true)), m, newId).store;
    assert Storage.Hit(s'.records, ByThread<State, Data>(m.id), id) && Storage.Hit(s'.records, ByThread<State, Data>(m.id), newId);
  }

  /** The lookup on this thread meets two records. */
  ghost predicate Crowded(s: CredentialStore, t: nat) {
    GetByThreadId(s, t) == Err(MultipleRecords)
  }

  /** Record `id` is the one that takes a message on this thread over this connection. */
  ghost predicate Waiting(s: CredentialStore, t: nat, state: State, connection: nat, id: nat) {
    id in s.records && s.records[id].threadId == t && s.records[id].state == state && s.records[id].connectionId == connection
  }

  lemma Crowds(s: CredentialStore, i: nat, j: nat)
    requires i in s.records && j in s.records && i != j && s.records[i].threadId == s.records[j].threadId
    ensures Crowded(s, s.records[i].threadId)
  {
    var q := ByThread<State, Data>(s.records[i].threadId);
    assert Storage.Hit(s.records, q, i) && Storage.Hit(s.records, q, j);
  }

  lemma Uncrowded(s: CredentialStore, t: nat)
    requires Clean(s)
    ensures !Crowded(s, t)
  {
    ViewFinds(s, t);
  }

  /** Exactly when a proposal, first or later, leaves two records on its thread, after which the lookup fails:
      there is one already, and it is not OfferSent or not on the connection the proposal came over. So it is
      when a message comes twice, and when both ends of a connection are at one agent. */
  lemma ProposalCrowds(s: CredentialStore, connection: nat, m: Msg, newId: nat)
    requires Clean(s) && newId !in s.records && m.body.ProposeCredential?
    ensures var s' := Handle(s, Some(Connection(connection, true)), m, newId).store;
            Crowded(s', m.ThreadId()) <==>
            exists id :: id in s.records && s.records[id].threadId == m.ThreadId() &&
                         !Waiting(s, m.ThreadId(), OfferSent, connection, id)
  {
    var t := m.ThreadId();
    var s' := Handle(s, Some(Connection(connection, true)), m, newId).store;
    ViewFinds(s, t);
    if id :| id in s.records && s.records[id].threadId == t {
      ViewStored(s, id);
      if Waiting(s, t, OfferSent, connection, id) {
        WriteShows(s, s', s'.records[id]);
        Uncrowded(s', t);
      } else {
        Crowds(s', id, newId);
      }
    } else {
      ViewNone(s, t);
      WriteShows(s, s', s'.records[newId]);
      Uncrowded(s', t);
    }
  }

  /** Exactly when an offer leaves two records on any thread: no record takes it, and there is one already on the
      thread of the offer's own id, which is where the new record goes. */
  lemma OfferCrowds(s: CredentialStore, connection: nat, m: Msg, newId: nat)
    requires Clean(s) && newId !in s.records && m.body.OfferCredential? && m.body.indyOffer.Some?
    ensures var s' := Handle(s, Some(Connection(connection, true)), m, newId).store;
            (exists t :: Crowded(s', t)) <==>
            (exists id :: id in s.records && s.records[id].threadId == m.id) &&
            forall id :: !Waiting(s, m.ThreadId(), ProposalSent, connection, id)
  {
    var s' := Handle(s, Some(Connection(connection, true)), m, newId).store;
    ViewFinds(s, m.ThreadId());
    if id :| Waiting(s, m.ThreadId(), ProposalSent, connection, id) {
      ViewStored(s, id);
      WriteShows(s, s', s'.records[id]);
      forall t ensures !Crowded(s', t) { Uncrowded(s', t); }
    } else {
      assert !Accepts(s, m.ThreadId(), ProposalSent, Connection(connection, true)) by {
        if Accepts(s, m.ThreadId(), ProposalSent, Connection(connection, true)) {
          assert Waiting(s, m.ThreadId(), ProposalSent, connection, GetByThreadId(s, m.ThreadId()).value.id);
        }
      }
      if id :| id in s.records && s.records[id].threadId == m.id {
        Crowds(s', id, newId);
      } else {
        ViewNone(s, m.id);
        WriteShows(s, s', s'.records[newId]);
        forall t ensures !Crowded(s', t) { Uncrowded(s', t); }
      }
    }
  }
}
