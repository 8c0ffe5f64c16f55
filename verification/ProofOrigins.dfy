/** Where the messages of present-proof come from: what each call says, and that a record's own side of the
    exchange holds nothing else. */
module ProofOrigins {
  import opened Results
  import opened Exchange
  import opened Encoding
  import opened ProofRequests
  import opened ProofSelection
  import opened Proofs
  import opened Threads
  import opened ThreadSteps
  import opened ProofExchange
  import opened ProofAgreement
  import Histories
  import H = ProofHistories
  import R = ProofReplays

  /** The record that a call makes or names. */
  function Target(c: Call): nat
    requires !c.Inbound?
  {
    if c.Propose? || c.Request? then c.newId else c.id
  }

  /** What a call says, from its arguments and the record it names: a first message on a thread of its own, an answer
      on the record's thread. */
  ghost predicate Says(s: ProofStore, c: Call, m: Msg) {
    match c
    case Propose(_, _, n, preview) => m == Message(n, None, ProposePresentation(preview))
    case Request(_, _, n, request) => m == Message(n, None, RequestPresentation(Some(request)))
    case Inbound(_, _, _) => false
    case _ => c.id in s.records && SaysOn(s.records[c.id], c, m)
  }

  ghost predicate SaysOn(r: ProofRecord, c: Call, m: Msg)
    requires !c.Propose? && !c.Request? && !c.Inbound?
  {
    && m.id == c.messageId && m.thread == Some(r.threadId)
    && match c
       case CounterPropose(_, _, preview) => m.body == ProposePresentation(preview)
       case CounterRequest(_, _, request) => m.body == RequestPresentation(Some(request))
       case AcceptProposal(_, _, name, version, nonce, uuid) =>
         && m.body.RequestPresentation? && m.body.indyRequest.Some?
         && var request := m.body.indyRequest.value;
            && request.name == name && request.version == version && request.nonce == nonce
            && r.data.proposalMessage.Some? && r.data.proposalMessage.value.body.ProposePresentation?
            && BuiltFrom(request, r.data.proposalMessage.value.body.preview, uuid)
       case AcceptRequest(_, _, chosen, revealed) =>
         && r.data.requestMessage.Some? && r.data.requestMessage.value.body.RequestPresentation?
         && var request := r.data.requestMessage.value.body.indyRequest;
            request.Some? && revealed.Some? && m.body == Presentation(Some(Proof(request.value, chosen, revealed.value)))
       case AcceptPresentation(_, _) => m.body == PresentationAck
  }

  /** A call that ends without error sends exactly one message, over its connection, and says just that. */
  lemma SentExactly(s: ProofStore, c: Call, sha256: Digest)
    requires !c.Inbound?
    ensures var o := Do(s, c, sha256);
            && (o.sent.Some? <==> o.error.None?)
            && (o.sent.Some? ==>
                  && Says(s, c, o.sent.value.message)
                  && o.sent.value.connectionId ==
                     (if c.Propose? || c.Request? then c.connection.id else s.records[c.id].connectionId))
  {
    if c.AcceptProposal? && c.id in s.records {
      var m := s.records[c.id].data.proposalMessage;
      if m.Some? && m.value.body.ProposePresentation? {
        RequestIsBuilt(m.value.body.preview, c.name, c.version, c.nonce, c.uuid);
        RequestNamed(m.value.body.preview, c.name, c.version, c.nonce, c.uuid);
      }
    }
    hide BuiltFrom, RequestFrom;
  }

  lemma RequestNamed(preview: PresentationPreview, name: string, version: string, nonce: string, uuid: nat -> string)
    ensures var request := RequestFrom(preview, name, version, nonce, uuid);
            request.name == name && request.version == version && request.nonce == nonce
  {
  }

  /** What a record's own side of the exchange has said last: a verifier its request, a prover its proposal and its
      presentation. */
  ghost predicate Own(r: ProofRecord, m: Msg) {
    match H.SideOf(r)
    case Verifier => r.data.requestMessage == Some(m)
    case Prover => Some(m) in {r.data.proposalMessage, r.data.presentationMessage}
  }

  /** Only what a call sends gets to be a record's own. */
  lemma OwnCall(s: ProofStore, c: Call, sha256: Digest, id: nat, m: Msg)
    requires H.Sound(s) && H.Fresh(s, c) && !c.Inbound?
    requires id in Do(s, c, sha256).store.records && Own(Do(s, c, sha256).store.records[id], m)
    requires !(id in s.records && Own(s.records[id], m))
    ensures Do(s, c, sha256).sent.Some? && Do(s, c, sha256).sent.value.message == m && id == Target(c)
  {
    hide History, RequestFrom;
  }

  lemma NoneOfIts(s: ProofStore, from: Option<Connection>, w: Msg, newId: nat, sha256: Digest, id: nat, m: Msg)
    requires H.Sound(s) && newId !in s.records
    requires id in Handle(s, from, w, newId, sha256).store.records && Own(Handle(s, from, w, newId, sha256).store.records[id], m)
    ensures id in s.records && Own(s.records[id], m)
  {
    if GetByThreadId(s, w.ThreadId()).Ok? { H.FoundIsStored(s, w.ThreadId()); }
    hide History, GetByThreadId, EncodingsPass;
    match w.body
    case ProposePresentation(_) =>
    case RequestPresentation(_) =>
    case Presentation(_) =>
    case PresentationAck =>
  }

  /** A call of agent `a` at time `n`, on record `id`, that succeeds and sends `m`. */
  ghost predicate Said(gs: seq<Net>, ss: seq<Event>, sha256: Digest, a: nat, n: nat, id: nat, m: Msg) {
    && n < |ss| && n < |gs| && ss[n].User? && ss[n].agent == a && a in gs[n].stores
    && !ss[n].call.Inbound? && Target(ss[n].call) == id
    && Do(gs[n].stores[a], ss[n].call, sha256).error.None? && Says(gs[n].stores[a], ss[n].call, m)
  }

  lemma OwnInRun(gs: seq<Net>, ss: seq<Event>, sha256: Digest, a: nat, n: nat, id: nat, m: Msg)
    requires Run(gs, ss, sha256) && n + 1 < |gs| && Histories.Newly(R.StoresOf(gs, a), Own, n, id, m)
    ensures Said(gs, ss, sha256, a, n, id, m)
  {
    R.StoresLawful(gs, ss, sha256, a);
    OneStep(gs, ss, sha256, n);
    hide Own, Do, Handle, Says, H.Sound, Run;
    Histories.AllSound(R.StoresOf(gs, a), H.Sound, H.Follows, n);
    var s := StoreOf(gs[n], a);
    match ss[n]
    case User(b, c) =>
      if a == b {
        OwnCall(s, c, sha256, id, m);
        SentExactly(s, c, sha256);
      }
    case Deliver(p, newId) =>
      if a == p.to.agent { NoneOfIts(s, Some(Connection(p.to.connection, true)), p.message, newId, sha256, id, m); }
    case Lose(_) =>
    case Connect(_) =>
  }

  /** In every run, whatever a record has of its own, a call of its own agent on that record said earlier. */
  lemma OwnWords(gs: seq<Net>, ss: seq<Event>, sha256: Digest, i: nat, a: nat, id: nat, m: Msg) returns (k: nat)
    requires Run(gs, ss, sha256) && i < |gs| && a in gs[i].stores && id in gs[i].stores[a].records
    requires Own(gs[i].stores[a].records[id], m)
    ensures k < i && Said(gs, ss, sha256, a, k, id, m)
  {
    var said := (n: nat, x: nat, w: Msg) => Said(gs, ss, sha256, a, n, x, w);
    var stores := R.StoresOf(gs, a);
    FirstNet(gs, ss, sha256);
    hide Own, Said, Run;
    forall n: nat, x: nat, w: Msg | n + 1 < |stores| && Histories.Newly(stores, Own, n, x, w) ensures said(n, x, w) {
      OwnInRun(gs, ss, sha256, a, n, x, w);
    }
    k := Histories.Traced(stores, Own, said, i, id, m);
  }

  // ----- what is verified ---------------------------------------------------------------------

  lemma LinksGrow(g: Net, s: Event, sha256: Digest, e: Endpoint)
    requires Enabled(g, s, sha256) && e in g.links
    ensures e in Apply(g, s, sha256).links && Apply(g, s, sha256).links[e] == g.links[e]
  {
  }

  lemma {:induction false} LinksStay(gs: seq<Net>, ss: seq<Event>, sha256: Digest, k: nat, i: nat, e: Endpoint)
    requires Run(gs, ss, sha256) && k <= i < |gs| && e in gs[k].links
    ensures e in gs[i].links && gs[i].links[e] == gs[k].links[e]
  {
    hide *;
    if k < i {
      LinksStay(gs, ss, sha256, k, i - 1, e);
      OneStep(gs, ss, sha256, i - 1);
      LinksGrow(gs[i - 1], ss[i - 1], sha256, e);
    }
  }

  lemma SameConnection(gs: seq<Net>, ss: seq<Event>, sha256: Digest, k: nat, i: nat, a: nat, id: nat)
    requires Run(gs, ss, sha256) && k <= i < |gs| && id in StoreOf(gs[k], a).records
    ensures id in StoreOf(gs[i], a).records
    ensures StoreOf(gs[i], a).records[id].connectionId == StoreOf(gs[k], a).records[id].connectionId
  {
    R.StoresLawful(gs, ss, sha256, a);
    H.FollowsKeeps();
    hide Run, StoreOf, H.Follows;
    Histories.Persists(R.StoresOf(gs, a), H.Sound, H.Follows, H.Keeps, k, i, id);
  }

  lemma Acceptable(s: ProofStore, c: Call, sha256: Digest)
    requires c.AcceptProposal? && Do(s, c, sha256).error.None?
    ensures c.id in s.records && s.records[c.id].state == ProposalReceived
  {
  }

  lemma ProposedAcross(p: Pair, th: OneThread, front: bool, sha256: Digest)
    requires Agreed(p, th, sha256) && Held(th, front).Some? && Held(th, front).value.state == ProposalReceived
    ensures front && th.back.Some? && Proposed(th.back.value)
    ensures th.back.value.data.proposalMessage == th.front.value.data.proposalMessage
  {
  }

  /** The proposal that a verifier accepts was made by the agent at the other end of its record's connection. */
  lemma ProposedByPeer(gs: seq<Net>, ss: seq<Event>, sha256: Digest, k: nat, b: nat, id: nat) returns (j: nat, n: nat)
    requires Run(gs, ss, sha256) && k < |gs| && b in gs[k].stores && id in gs[k].stores[b].records
    requires gs[k].stores[b].records[id].state == ProposalReceived
    ensures var r := gs[k].stores[b].records[id];
            && Endpoint(b, r.connectionId) in gs[k].links
            && r.data.proposalMessage.Some? && r.data.proposalMessage.value.body.ProposePresentation?
            && j < k && Said(gs, ss, sha256, gs[k].links[Endpoint(b, r.connectionId)].agent, j, n, r.data.proposalMessage.value)
  {
    hide Placed, Agreed, Run, Said, View;
    Reached(gs, ss, sha256, k);
    var front, p, th := AtEnd(gs[k], b, id);
    ProposedAcross(p, th, front, sha256);
    var a := p.back.agent;
    FoundIsPlaced(gs[k], a, gs[k].stores[b].records[id].threadId);
    n := th.back.value.id;
    j := OwnWords(gs, ss, sha256, k, a, n, th.back.value.data.proposalMessage.value);
  }

  /** What the requesting call of a verifier asked for: the request it was given, or one built from the proposal. */
  ghost predicate Requests(s: ProofStore, c: Call, request: ProofRequest) {
    match c
    case Request(_, _, _, given) => given == request
    case CounterRequest(_, _, given) => given == request
    case AcceptProposal(id, _, name, version, nonce, uuid) =>
      && id in s.records && s.records[id].data.proposalMessage.Some?
      && s.records[id].data.proposalMessage.value.body.ProposePresentation?
      && request.name == name && request.version == version && request.nonce == nonce
      && BuiltFrom(request, s.records[id].data.proposalMessage.value.body.preview, uuid)
    case _ => false
  }

  predicate MakesProposal(c: Call, preview: PresentationPreview) {
    (c.Propose? || c.CounterPropose?) && c.preview == preview
  }

  lemma RequestSaid(s: ProofStore, c: Call, m: Msg)
    requires Says(s, c, m) && m.body.RequestPresentation?
    ensures m.body.indyRequest.Some? && Requests(s, c, m.body.indyRequest.value)
  {
  }

  lemma ProposalSaid(s: ProofStore, c: Call, m: Msg)
    requires Says(s, c, m) && m.body.ProposePresentation?
    ensures MakesProposal(c, m.body.preview)
  {
  }

  lemma PresentationSaid(s: ProofStore, c: Call, m: Msg)
    requires Says(s, c, m) && m.body.Presentation?
    ensures c.AcceptRequest? && m.body.indyProof.Some?
    ensures m.body.indyProof.value.chosen == c.chosen && Some(m.body.indyProof.value.revealed) == c.revealed
  {
  }

  lemma MadeOfMessages(f: ProofRecord, sha256: Digest)
    requires PresentationMade(f, sha256)
    ensures f.data.requestMessage.Some? && f.data.requestMessage.value.body.RequestPresentation?
    ensures f.data.presentationMessage.Some? && f.data.presentationMessage.value.body.Presentation?
    ensures f.data.requestMessage.value.body.indyRequest.Some? && f.data.presentationMessage.value.body.indyProof.Some?
    ensures var proof := f.data.presentationMessage.value.body.indyProof.value;
            && proof.request == f.data.requestMessage.value.body.indyRequest.value
            && forall r :: r in proof.revealed ==> ReadsAs(r.raw, r.encoded, sha256)
  {
    AcceptedRead(f.data.presentationMessage.value.body.indyProof.value.revealed, sha256);
  }

  lemma SidesOfVerified(f: ProofRecord, b: ProofRecord)
    requires f.state in {PresentationReceived, Done} && f.data.isVerified.Some?
    requires b.state in {PresentationSent, Done} && b.data.isVerified.None?
    ensures f.data.requestMessage.Some? ==> Own(f, f.data.requestMessage.value)
    ensures b.data.presentationMessage.Some? ==> Own(b, b.data.presentationMessage.value)
  {
  }

  /** Where a verified proof comes from. The verifier's own agent asked for what the proof was made for: a request it
      was given, or, if it accepted a proposal, one built from what the prover's agent had proposed before. And the
      prover's agent, at the other end of the connection, made the proof with those credentials and values, each of
      which reads as its encoding. */
  lemma VerifiedAsRequested(gs: seq<Net>, ss: seq<Event>, sha256: Digest, i: nat, a: nat, id: nat)
    returns (k: nat, j: nat, l: nat, proof: Proof)
    requires Run(gs, ss, sha256) && i < |gs| && a in gs[i].stores && id in gs[i].stores[a].records
    requires gs[i].stores[a].records[id].data.isVerified.Some?
    ensures var f := gs[i].stores[a].records[id];
            && f.data.isVerified == Some(true)
            && f.data.presentationMessage.Some? && f.data.presentationMessage.value.body == Presentation(Some(proof))
            && forall r :: r in proof.revealed ==> ReadsAs(r.raw, r.encoded, sha256)
    ensures k < i && k < |ss| && ss[k].User? && ss[k].agent == a && a in gs[k].stores
            && Requests(gs[k].stores[a], ss[k].call, proof.request)
    ensures var e := Endpoint(a, gs[i].stores[a].records[id].connectionId);
            && e in gs[i].links && l < i && l < |ss| && ss[l].User? && ss[l].agent == gs[i].links[e].agent
            && ss[l].call.AcceptRequest? && ss[l].call.chosen == proof.chosen && ss[l].call.revealed == Some(proof.revealed)
            && (ss[k].call.AcceptProposal? ==>
                  j < k && ss[j].User? && ss[j].agent == gs[i].links[e].agent
                  && gs[k].stores[a].records[ss[k].call.id].data.proposalMessage.Some?
                  && gs[k].stores[a].records[ss[k].call.id].data.proposalMessage.value.body.ProposePresentation?
                  && MakesProposal(ss[j].call, gs[k].stores[a].records[ss[k].call.id].data.proposalMessage.value.body.preview))
  {
    hide Placed, Agreed, Run, PresentationMade, Says, Do, Requests, GetByThreadId, Own, ReadsAs;
    PresentationAgreement(gs, ss, sha256, i, a, id);
    Reached(gs, ss, sha256, i);
    var f := gs[i].stores[a].records[id];
    var peer := gs[i].links[Endpoint(a, f.connectionId)];
    FoundIsPlaced(gs[i], peer.agent, f.threadId);
    var b := GetByThreadId(gs[i].stores[peer.agent], f.threadId).value;
    MadeOfMessages(f, sha256);
    proof := f.data.presentationMessage.value.body.indyProof.value;
    SidesOfVerified(f, b);
    var m, w := f.data.requestMessage.value, f.data.presentationMessage.value;
    k := OwnWords(gs, ss, sha256, i, a, id, m);
    RequestSaid(gs[k].stores[a], ss[k].call, m);
    l := OwnWords(gs, ss, sha256, i, peer.agent, b.id, w);
    PresentationSaid(gs[l].stores[peer.agent], ss[l].call, w);
    j := 0;
    if ss[k].call.AcceptProposal? {
      Acceptable(gs[k].stores[a], ss[k].call, sha256);
      SameConnection(gs, ss, sha256, k, i, a, id);
      var n;
      j, n := ProposedByPeer(gs, ss, sha256, k, a, id);
      LinksStay(gs, ss, sha256, k, i, Endpoint(a, f.connectionId));
      ProposalSaid(gs[j].stores[peer.agent], ss[j].call, gs[k].stores[a].records[id].data.proposalMessage.value);
    }
  }
}
