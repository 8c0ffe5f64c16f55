/** Present-proof between any number of agents, with any number of counter-proposals on a thread. */
module ProofExchange {
  import opened Results
  import opened Exchange
  import opened Encoding
  import opened ProofRequests
  import opened Proofs
  import opened Threads
  import opened ThreadSteps
  import ProofHistories

  type Net = System<State, Data, Body>
  type OneThread = Thread<State, Data, Body>
  type Event = Step<Call, Body>

  /** A revealed attribute that some issuer put into a credential from a preview. */
  ghost predicate Issued(r: Revealed, preview: Preview, name: string, sha256: Digest) {
    var values := ConvertPreviewToValues(preview, sha256);
    name in values && r.raw == Text(values[name].raw) && r.encoded == values[name].encoded
  }

  ghost predicate AllIssued(revealed: seq<Revealed>, sha256: Digest) {
    forall r :: r in revealed ==> exists preview, name :: Issued(r, preview, name, sha256)
  }

  /** Whatever was issued passes the verifier's check of encodings. */
  lemma IssuedPass(revealed: seq<Revealed>, sha256: Digest)
    requires AllIssued(revealed, sha256)
    ensures EncodingsPass(revealed, sha256)
  {
    forall r | r in revealed ensures CheckValidEncoding(r.raw, r.encoded, sha256) {
      var preview, name :| Issued(r, preview, name, sha256);
      EntryIsEncoded(preview, name, sha256);
    }
  }

  ghost predicate Enabled(g: Net, s: Event, sha256: Digest) {
    match s
    case User(a, c) =>
      && a in g.stores && !c.Inbound? && ProofHistories.Fresh(g.stores[a], c)
      && (c.Propose? || c.Request? ==>
            (c.connection.ready ==> Endpoint(a, c.connection.id) in g.links) && c.messageId !in g.threads)
      && (c.AcceptProposal? ==> Distinct(c.uuid))
      && (c.AcceptRequest? && c.revealed.Some? ==> AllIssued(c.revealed.value, sha256))
    case Deliver(p, newId) => p in g.inflight && p.to.agent in g.stores && newId !in g.stores[p.to.agent].records
    case Lose(p) => p in g.inflight
    case Connect(links) => Extends(g, links)
  }

  ghost function Apply(g: Net, s: Event, sha256: Digest): Net
    requires Enabled(g, s, sha256)
  {
    match s
    case User(a, c) =>
      var o := Do(g.stores[a], c, sha256);
      var threads := if (c.Propose? || c.Request?) && o.sent.Some? then Started(g, a, c.connection, c.messageId, c.Request?) else g.threads;
      System(g.stores[a := o.store], g.links, threads, g.inflight + Posted(g, a, o.sent))
    case Deliver(p, newId) =>
      var o := Handle(g.stores[p.to.agent], Some(Connection(p.to.connection, true)), p.message, newId, sha256);
      System(g.stores[p.to.agent := o.store], g.links, g.threads, g.inflight - {p})
    case Lose(p) => g.(inflight := g.inflight - {p})
    case Connect(links) => g.(links := links)
  }

  ghost predicate Run(gs: seq<Net>, ss: seq<Event>, sha256: Digest) {
    && |gs| == |ss| + 1 && Initial(gs[0])
    && forall i :: 0 <= i < |ss| ==> Enabled(gs[i], ss[i], sha256) && gs[i + 1] == Apply(gs[i], ss[i], sha256)
  }

  // ----- what the two ends of a thread agree on ---------------------------------------------

  ghost predicate Proposed(r: ProofRecord) {
    r.state == ProposalSent && r.data.proposalMessage.Some? && r.data.proposalMessage.value.body.ProposePresentation?
  }

  ghost predicate RequestMade(r: ProofRecord) {
    AttachedRequest(r).Some?
  }

  /** The presentation holds a proof made for the record's own request. */
  ghost predicate PresentationMade(r: ProofRecord, sha256: Digest) {
    && RequestMade(r) && r.data.presentationMessage.Some? && r.data.presentationMessage.value.body.Presentation?
    && var proof := r.data.presentationMessage.value.body.indyProof;
       proof.Some? && proof.value.request == AttachedRequest(r).value && EncodingsPass(proof.value.revealed, sha256)
  }

  /** The request was built from what was proposed. */
  ghost predicate Answers(request: Option<Msg>, proposal: Option<Msg>) {
    && request.Some? && request.value.body.RequestPresentation? && request.value.body.indyRequest.Some?
    && proposal.Some? && proposal.value.body.ProposePresentation?
    && exists uuid :: Distinct(uuid) && BuiltFrom(request.value.body.indyRequest.value, proposal.value.body.preview, uuid)
  }

  ghost predicate SameRequest(f: ProofRecord, b: ProofRecord) {
    RequestMade(f) && b.data.requestMessage == f.data.requestMessage
  }

  ghost predicate SamePresentation(f: ProofRecord, b: ProofRecord, sha256: Digest) {
    && SameRequest(f, b) && PresentationMade(b, sha256)
    && f.data.presentationMessage == b.data.presentationMessage && f.data.isVerified == Some(true)
  }

  /** The verifier has a request out: the prover has not seen it, or has, or has answered it either way. */
  ghost predicate RequestOut(p: Pair, f: ProofRecord, back: Option<ProofRecord>, w: Option<Packet<Body>>, sha256: Digest) {
    && RequestMade(f)
    && if back.None? then w.None? || Carries(w, p.back, f.data.requestMessage)
       else
         var b := back.value;
         match b.state
         case ProposalSent =>
           Proposed(b) && (w.None? || Carries(w, p.front, b.data.proposalMessage) || Carries(w, p.back, f.data.requestMessage))
         case RequestReceived => SameRequest(f, b) && w.None?
         case PresentationSent =>
           SameRequest(f, b) && PresentationMade(b, sha256) && (w.None? || Carries(w, p.front, b.data.presentationMessage))
         case _ => false
  }

  ghost predicate Agreed(p: Pair, th: OneThread, sha256: Digest) {
    && (th.front.Some? ==> th.front.value.connectionId == p.front.connection && ProofHistories.Sided(th.front.value))
    && (th.back.Some? ==> th.back.value.connectionId == p.back.connection && th.back.value.data.isVerified.None?)
    && if th.front.None? then
         th.back.Some? && Proposed(th.back.value) && (th.wire.None? || Carries(th.wire, p.front, th.back.value.data.proposalMessage))
       else
         var f := th.front.value;
         match f.state
         case ProposalReceived =>
           th.wire.None? && th.back.Some? && Proposed(th.back.value) && f.data.proposalMessage == th.back.value.data.proposalMessage
         case RequestSent => RequestOut(p, f, th.back, th.wire, sha256)
         case PresentationReceived =>
           && th.wire.None? && th.back.Some? && th.back.value.state == PresentationSent
           && SamePresentation(f, th.back.value, sha256)
         case Done =>
           && th.back.Some? && SamePresentation(f, th.back.value, sha256)
           && (if th.back.value.state == Done then th.wire.None?
               else th.back.value.state == PresentationSent &&
                    (th.wire.Some? ==> th.wire.value.to == p.back && th.wire.value.message.body.PresentationAck?))
         case _ => false
  }

  /** The request that the prover has, or is about to get, was built from what it proposed last, if it proposed
      anything. */
  ghost predicate AsProposed(p: Pair, th: OneThread) {
    th.front.Some? && th.back.Some? ==>
      var f, b := th.front.value, th.back.value;
      && (b.state in {RequestReceived, PresentationSent, Done} && b.data.proposalMessage.Some? ==>
            Answers(b.data.requestMessage, b.data.proposalMessage))
      && (b.state == ProposalSent && Carries(th.wire, p.back, f.data.requestMessage) ==>
            Answers(f.data.requestMessage, b.data.proposalMessage))
  }

  /** A message is under way, or it is the turn of one end, or both are done. */
  ghost predicate Alive(th: OneThread) {
    th.wire.Some? ||
    (th.front.Some? &&
     match th.front.value.state
     case RequestSent => th.back.Some? && th.back.value.state == RequestReceived
     case Done => th.back.Some? && th.back.value.state == Done
     case _ => true)
  }

  ghost predicate Agrees(p: Pair, th: OneThread, sha256: Digest, mode: Mode) {
    Agreed(p, th, sha256) && (mode.lossless ==> Alive(th)) && (mode.asProposed ==> AsProposed(p, th))
  }

  ghost function Agreement(sha256: Digest, mode: Mode): (Pair, OneThread) -> bool {
    (p: Pair, th: OneThread) => Agrees(p, th, sha256, mode)
  }

  ghost predicate Inv(g: Net, sha256: Digest, mode: Mode) {
    Placed(g) && AllAgree(g, Agreement(sha256, mode))
  }

  ghost predicate Allowed(s: Event, mode: Mode) {
    (mode.lossless ==> !s.Lose?) && (mode.asProposed ==> !(s.User? && s.call.CounterRequest?))
  }

  ghost predicate Obeys(ss: seq<Event>, mode: Mode) {
    forall n :: 0 <= n < |ss| ==> Allowed(ss[n], mode)
  }
}
