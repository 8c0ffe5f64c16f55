/** Issue-credential between any number of agents, with any number of counter-proposals on a thread. */
module CredentialExchange {
  import opened Results
  import opened Exchange
  import opened Encoding
  import opened Credentials
  import opened Threads
  import opened ThreadSteps
  import CredentialHistories

  type Net = System<State, Data, Body>
  type OneThread = Thread<State, Data, Body>
  type Event = Step<Call, Body>

  ghost predicate Enabled(g: Net, s: Event) {
    match s
    case User(a, c) =>
      && a in g.stores && !c.Inbound? && CredentialHistories.Fresh(g.stores[a], c)
      && (c.Propose? || c.Offer? ==>
            (c.connection.ready ==> Endpoint(a, c.connection.id) in g.links) && c.messageId !in g.threads)
    case Deliver(p, newId) => p in g.inflight && p.to.agent in g.stores && newId !in g.stores[p.to.agent].records
    case Lose(p) => p in g.inflight
    case Connect(links) => Extends(g, links)
  }

  ghost function Apply(g: Net, s: Event, sha256: Digest): Net
    requires Enabled(g, s)
  {
    match s
    case User(a, c) =>
      var o := Do(g.stores[a], c, sha256);
      var threads := if (c.Propose? || c.Offer?) && o.sent.Some? then Started(g, a, c.connection, c.messageId, c.Offer?) else g.threads;
      System(g.stores[a := o.store], g.links, threads, g.inflight + Posted(g, a, o.sent))
    case Deliver(p, newId) =>
      var o := Handle(g.stores[p.to.agent], Some(Connection(p.to.connection, true)), p.message, newId);
      System(g.stores[p.to.agent := o.store], g.links, g.threads, g.inflight - {p})
    case Lose(p) => g.(inflight := g.inflight - {p})
    case Connect(links) => g.(links := links)
  }

  ghost predicate Run(gs: seq<Net>, ss: seq<Event>, sha256: Digest) {
    && |gs| == |ss| + 1 && Initial(gs[0])
    && forall i :: 0 <= i < |ss| ==> Enabled(gs[i], ss[i]) && gs[i + 1] == Apply(gs[i], ss[i], sha256)
  }

  // ----- what the two ends of a thread agree on ---------------------------------------------

  ghost predicate OfferMade(r: CredentialRecord) {
    AttachedOffer(r).Some?
  }

  ghost predicate RequestMade(r: CredentialRecord) {
    AttachedRequest(r).Some? && r.data.requestMetadata == Some(Metadata(AttachedRequest(r).value))
  }

  /** The credential answers the record's request with the values of its offer's preview. */
  ghost predicate CredentialMade(r: CredentialRecord, sha256: Digest) {
    && OfferMade(r) && AttachedRequest(r).Some? && r.data.credentialMessage.Some?
    && r.data.credentialMessage.value.body ==
       IssueCredential(Some(Credential(AttachedOffer(r).value, AttachedRequest(r).value,
                                       ConvertPreviewToValues(r.data.offerMessage.value.body.preview, sha256))))
  }

  /** The offer has the preview that was proposed. */
  ghost predicate Answers(offer: Option<Msg>, proposal: Option<Msg>) {
    && offer.Some? && offer.value.body.OfferCredential? && proposal.Some? && proposal.value.body.ProposeCredential?
    && proposal.value.body.proposal.preview == Some(offer.value.body.preview)
  }

  ghost predicate SameOffer(f: CredentialRecord, b: CredentialRecord) {
    OfferMade(f) && b.data.offerMessage == f.data.offerMessage
  }

  ghost predicate SameRequest(f: CredentialRecord, b: CredentialRecord) {
    SameOffer(f, b) && RequestMade(b) && b.data.requestMessage == f.data.requestMessage
  }

  ghost predicate Proposed(r: CredentialRecord) {
    r.state == ProposalSent && r.data.proposalMessage.Some? && r.data.proposalMessage.value.body.ProposeCredential?
  }

  /** The issuer has an offer out: the holder has not seen it, or has, or has answered it either way. */
  ghost predicate OfferOut(p: Pair, f: CredentialRecord, back: Option<CredentialRecord>, w: Option<Packet<Body>>) {
    && OfferMade(f)
    && if back.None? then
         w.None? || (Carries(w, p.back, f.data.offerMessage) && w.value.message.id == f.threadId)
       else
         var b := back.value;
         match b.state
         case ProposalSent =>
           Proposed(b) && (w.None? || Carries(w, p.front, b.data.proposalMessage) || Carries(w, p.back, f.data.offerMessage))
         case OfferReceived => SameOffer(f, b) && w.None?
         case RequestSent => SameOffer(f, b) && RequestMade(b) && (w.None? || Carries(w, p.front, b.data.requestMessage))
         case _ => false
  }

  /** The credential is out: the holder has not seen it, or has it, or has acknowledged it. */
  ghost predicate CredentialOut(p: Pair, f: CredentialRecord, b: CredentialRecord, w: Option<Packet<Body>>, sha256: Digest) {
    && SameRequest(f, b) && CredentialMade(f, sha256)
    && match b.state
       case RequestSent => w.None? || Carries(w, p.back, f.data.credentialMessage)
       case CredentialReceived => w.None? && b.data.credentialMessage == f.data.credentialMessage
       case Done =>
         && b.data.credentialMessage == f.data.credentialMessage
         && (w.Some? ==> w.value.to == p.front && w.value.message.body.CredentialAck?)
       case _ => false
  }

  ghost predicate Agreed(p: Pair, th: OneThread, sha256: Digest) {
    && (th.front.Some? ==> th.front.value.connectionId == p.front.connection && th.front.value.data.requestMetadata.None?)
    && (th.back.Some? ==> th.back.value.connectionId == p.back.connection)
    && if th.front.None? then
         th.back.Some? && Proposed(th.back.value) && (th.wire.None? || Carries(th.wire, p.front, th.back.value.data.proposalMessage))
       else
         var f := th.front.value;
         match f.state
         case ProposalReceived =>
           th.wire.None? && th.back.Some? && Proposed(th.back.value) && f.data.proposalMessage == th.back.value.data.proposalMessage
         case OfferSent => OfferOut(p, f, th.back, th.wire)
         case RequestReceived => th.wire.None? && th.back.Some? && th.back.value.state == RequestSent && SameRequest(f, th.back.value)
         case CredentialIssued => th.back.Some? && CredentialOut(p, f, th.back.value, th.wire, sha256)
         case Done => th.wire.None? && th.back.Some? && th.back.value.state == Done && CredentialOut(p, f, th.back.value, None, sha256)
         case _ => false
  }

  /** The offer that the holder has, or is about to get, has the preview it proposed last, if it proposed any. */
  ghost predicate AsProposed(p: Pair, th: OneThread) {
    th.front.Some? && th.back.Some? ==>
      var f, b := th.front.value, th.back.value;
      && (b.state in {OfferReceived, RequestSent, CredentialReceived, Done} && b.data.proposalMessage.Some? ==>
            Answers(b.data.offerMessage, b.data.proposalMessage))
      && (b.state == ProposalSent && Carries(th.wire, p.back, f.data.offerMessage) ==>
            Answers(f.data.offerMessage, b.data.proposalMessage))
  }

  /** A message is under way, or it is the turn of one end, or both are done. */
  ghost predicate Alive(th: OneThread) {
    th.wire.Some? ||
    (th.front.Some? &&
     match th.front.value.state
     case OfferSent => th.back.Some? && th.back.value.state == OfferReceived
     case CredentialIssued => th.back.Some? && th.back.value.state == CredentialReceived
     case _ => true)
  }

  ghost predicate Agrees(p: Pair, th: OneThread, sha256: Digest, mode: Mode) {
    Agreed(p, th, sha256) && (mode.lossless ==> Alive(th)) && (mode.asProposed ==> AsProposed(p, th))
  }

  ghost function Agreement(sha256: Digest, mode: Mode): (Pair, OneThread) -> bool {
    (p: Pair, th: OneThread) => Agrees(p, th, sha256, mode)
  }

  ghost predicate Inv(g: Net, sha256: Digest, mode: Mode) {
    Placed(g) && AllAgree(g, Agreement(sha256, mode))
  }

  ghost predicate Allowed(s: Event, mode: Mode) {
    (mode.lossless ==> !s.Lose?) && (mode.asProposed ==> !(s.User? && s.call.CounterOffer?))
  }

  ghost predicate Obeys(ss: seq<Event>, mode: Mode) {
    forall n :: 0 <= n < |ss| ==> Allowed(ss[n], mode)
  }
}
