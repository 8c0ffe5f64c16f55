/** Where the messages of issue-credential come from: what each call says, and that a record's own side of the
    exchange holds nothing else. */
module CredentialOrigins {
  import opened Results
  import opened Exchange
  import opened Encoding
  import opened Credentials
  import opened Threads
  import opened ThreadSteps
  import opened CredentialExchange
  import opened CredentialAgreement
  import Histories
  import H = CredentialHistories
  import R = CredentialReplays

  /** The offer that answers this record's proposal with this definition id passed. */
  ghost predicate OffersProposed(r: CredentialRecord, passed: Option<string>, preview: Preview, definition: string) {
    && r.data.proposalMessage.Some? && r.data.proposalMessage.value.body.ProposeCredential?
    && var proposal := r.data.proposalMessage.value.body.proposal;
       && proposal.preview == Some(preview)
       && Some(definition) == (if passed.Some? then passed else proposal.credentialDefinitionId) && definition != ""
  }

  /** The record that a call makes or names. */
  function Target(c: Call): nat
    requires !c.Inbound?
  {
    if c.Propose? || c.Offer? then c.newId else c.id
  }

  /** What a call says, from its arguments and the record it names: a first message on a thread of its own, an answer
      on the record's thread. */
  ghost predicate Says(s: CredentialStore, c: Call, m: Msg, sha256: Digest) {
    match c
    case Propose(_, _, n, proposal) => m == Message(n, None, ProposeCredential(proposal))
    case Offer(_, _, n, template, nonce) =>
      && nonce.Some?
      && m == Message(n, None, OfferCredential(template.preview, Some(CredOffer(template.credentialDefinitionId, nonce.value))))
    case Inbound(_, _, _) => false
    case _ => c.id in s.records && SaysOn(s.records[c.id], c, m, sha256)
  }

  ghost predicate SaysOn(r: CredentialRecord, c: Call, m: Msg, sha256: Digest)
    requires !c.Propose? && !c.Offer? && !c.Inbound?
  {
    && m.id == c.messageId && m.thread == Some(r.threadId)
    && match c
       case CounterPropose(_, _, proposal) => m.body == ProposeCredential(proposal)
       case CounterOffer(_, _, template, nonce) =>
         nonce.Some? && m.body == OfferCredential(template.preview, Some(CredOffer(template.credentialDefinitionId, nonce.value)))
       case AcceptProposal(_, _, passed, nonce) =>
         && nonce.Some? && m.body.OfferCredential? && m.body.indyOffer.Some? && m.body.indyOffer.value.nonce == nonce.value
         && OffersProposed(r, passed, m.body.preview, m.body.indyOffer.value.credentialDefinitionId)
       case AcceptOffer(_, _, did, nonce) =>
         && nonce.Some? && r.data.offerMessage.Some? && r.data.offerMessage.value.body.OfferCredential?
         && var offer := r.data.offerMessage.value.body.indyOffer;
            offer.Some? && m.body == RequestCredential(Some(CredRequest(did, offer.value, nonce.value)))
       case AcceptRequest(_, _, _) =>
         && r.data.offerMessage.Some? && r.data.offerMessage.value.body.OfferCredential?
         && r.data.requestMessage.Some? && r.data.requestMessage.value.body.RequestCredential?
         && var offer, request := r.data.offerMessage.value.body, r.data.requestMessage.value.body.indyRequest;
            && offer.indyOffer.Some? && request.Some? && m.body.IssueCredential? && m.body.indyCredential.Some?
            && var credential := m.body.indyCredential.value;
               && credential.offer == offer.indyOffer.value && credential.request == request.value
               && MadeFrom(credential.values, offer.preview, sha256)
       case AcceptCredential(_, _) => m.body == CredentialAck
  }

  /** A call that ends without error sends exactly one message, over its connection, and says just that. */
  lemma SentExactly(s: CredentialStore, c: Call, sha256: Digest)
    requires !c.Inbound?
    ensures var o := Do(s, c, sha256);
            && (o.sent.Some? <==> o.error.None?)
            && (o.sent.Some? ==>
                  && Says(s, c, o.sent.value.message, sha256)
                  && o.sent.value.connectionId ==
                     (if c.Propose? || c.Offer? then c.connection.id else s.records[c.id].connectionId))
  {
    if c.AcceptRequest? && c.id in s.records && AttachedOffer(s.records[c.id]).Some? {
      ConvertedMadeFrom(s.records[c.id].data.offerMessage.value.body.preview, sha256);
    }
    hide MadeFrom, ConvertPreviewToValues;
  }

  /** What a record's own side of the exchange has said last: an issuer its offer and its credential, a holder its
      proposal and its request. */
  ghost predicate Own(r: CredentialRecord, m: Msg) {
    match H.SideOf(r)
    case Issuer => Some(m) in {r.data.offerMessage, r.data.credentialMessage}
    case Holder => Some(m) in {r.data.proposalMessage, r.data.requestMessage}
  }

  /** Only what a call sends gets to be a record's own. */
  lemma OwnCall(s: CredentialStore, c: Call, sha256: Digest, id: nat, m: Msg)
    requires H.Sound(s) && H.Fresh(s, c) && !c.Inbound?
    requires id in Do(s, c, sha256).store.records && Own(Do(s, c, sha256).store.records[id], m)
    requires !(id in s.records && Own(s.records[id], m))
    ensures Do(s, c, sha256).sent.Some? && Do(s, c, sha256).sent.value.message == m && id == Target(c)
  {
    hide History, ConvertPreviewToValues;
  }

  lemma NoneOfIts(s: CredentialStore, from: Option<Connection>, w: Msg, newId: nat, id: nat, m: Msg)
    requires H.Sound(s) && newId !in s.records
    requires id in Handle(s, from, w, newId).store.records && Own(Handle(s, from, w, newId).store.records[id], m)
    ensures id in s.records && Own(s.records[id], m)
  {
    if GetByThreadId(s, w.ThreadId()).Ok? { H.FoundIsStored(s, w.ThreadId()); }
    hide History, GetByThreadId;
    match w.body
    case ProposeCredential(_) =>
    case OfferCredential(_, _) =>
    case RequestCredential(_) =>
    case IssueCredential(_) =>
    case CredentialAck =>
  }

  /** A call of agent `a` at time `n`, on record `id`, that succeeds and sends `m`. */
  ghost predicate Said(gs: seq<Net>, ss: seq<Event>, sha256: Digest, a: nat, n: nat, id: nat, m: Msg) {
    && n < |ss| && n < |gs| && ss[n].User? && ss[n].agent == a && a in gs[n].stores
    && !ss[n].call.Inbound? && Target(ss[n].call) == id
    && Do(gs[n].stores[a], ss[n].call, sha256).error.None? && Says(gs[n].stores[a], ss[n].call, m, sha256)
  }

  lemma OwnInRun(gs: seq<Net>, ss: seq<Event>, sha256: Digest, a: nat, n: nat, id: nat, m: Msg)
    requires Run(gs, ss, sha256) && n + 1 < |gs| && Histories.Newly(R.StoresOf(gs, a), Own, n, id, m)
    ensures Said(gs, ss, sha256, a, n, id, m)
  {
    R.StoresLawful(gs, ss, sha256, a);
    OneStep(gs, ss, sha256, n);
    hide Own, Do, Handle, Says, H.Sound, Run;
    Histories.AllSound(R.StoresOf(gs, a), H.Sound, H.Follows, n);
    var s := StoreOf(gs[n], a);
    match ss[n]
    case User(b, c) =>
      if a == b {
        OwnCall(s, c, sha256, id, m);
        SentExactly(s, c, sha256);
      }
    case Deliver(p, newId) =>
      if a == p.to.agent { NoneOfIts(s, Some(Connection(p.to.connection, true)), p.message, newId, id, m); }
    case Lose(_) =>
    case Connect(_) =>
  }

  /** In every run, whatever a record has of its own, a call of its own agent on that record said earlier. */
  lemma OwnWords(gs: seq<Net>, ss: seq<Event>, sha256: Digest, i: nat, a: nat, id: nat, m: Msg) returns (k: nat)
    requires Run(gs, ss, sha256) && i < |gs| && a in gs[i].stores && id in gs[i].stores[a].records
    requires Own(gs[i].stores[a].records[id], m)
    ensures k < i && Said(gs, ss, sha256, a, k, id, m)
  {
    var said := (n: nat, x: nat, w: Msg) => Said(gs, ss, sha256, a, n, x, w);
    var stores := R.StoresOf(gs, a);
    FirstNet(gs, ss, sha256);
    hide Own, Said, Run;
    forall n: nat, x: nat, w: Msg | n + 1 < |stores| && Histories.Newly(stores, Own, n, x, w) ensures said(n, x, w) {
      OwnInRun(gs, ss, sha256, a, n, x, w);
    }
    k := Histories.Traced(stores, Own, said, i, id, m);
  }

  // ----- what is issued -----------------------------------------------------------------------

  lemma LinksGrow(g: Net, s: Event, sha256: Digest, e: Endpoint)
    requires Enabled(g, s) && e in g.links
    ensures e in Apply(g, s, sha256).links && Apply(g, s, sha256).links[e] == g.links[e]
  {
  }

  lemma {:induction false} LinksStay(gs: seq<Net>, ss: seq<Event>, sha256: Digest, k: nat, i: nat, e: Endpoint)
    requires Run(gs, ss, sha256) && k <= i < |gs| && e in gs[k].links
    ensures e in gs[i].links && gs[i].links[e] == gs[k].links[e]
  {
    hide *;
    if k < i {
      LinksStay(gs, ss, sha256, k, i - 1, e);
      OneStep(gs, ss, sha256, i - 1);
      LinksGrow(gs[i - 1], ss[i - 1], sha256, e);
    }
  }

  lemma SameConnection(gs: seq<Net>, ss: seq<Event>, sha256: Digest, k: nat, i: nat, a: nat, id: nat)
    requires Run(gs, ss, sha256) && k <= i < |gs| && id in StoreOf(gs[k], a).records
    ensures id in StoreOf(gs[i], a).records
    ensures StoreOf(gs[i], a).records[id].connectionId == StoreOf(gs[k], a).records[id].connectionId
  {
    R.StoresLawful(gs, ss, sha256, a);
    H.FollowsKeeps();
    hide Run, StoreOf, H.Follows;
    Histories.Persists(R.StoresOf(gs, a), H.Sound, H.Follows, H.Keeps, k, i, id);
  }

  lemma Acceptable(s: CredentialStore, c: Call, sha256: Digest)
    requires c.AcceptProposal? && Do(s, c, sha256).error.None?
    ensures c.id in s.records && s.records[c.id].state == ProposalReceived
  {
  }

  lemma ProposedAcross(p: Pair, th: OneThread, front: bool, sha256: Digest)
    requires Agreed(p, th, sha256) && Held(th, front).Some? && Held(th, front).value.state == ProposalReceived
    ensures front && th.back.Some? && Proposed(th.back.value)
    ensures th.back.value.data.proposalMessage == th.front.value.data.proposalMessage
  {
  }

  /** The proposal that an issuer accepts was made by the agent at the other end of its record's connection. */
  lemma ProposedByPeer(gs: seq<Net>, ss: seq<Event>, sha256: Digest, k: nat, b: nat, id: nat) returns (j: nat, n: nat)
    requires Run(gs, ss, sha256) && k < |gs| && b in gs[k].stores && id in gs[k].stores[b].records
    requires gs[k].stores[b].records[id].state == ProposalReceived
    ensures var r := gs[k].stores[b].records[id];
            && Endpoint(b, r.connectionId) in gs[k].links
            && r.data.proposalMessage.Some? && r.data.proposalMessage.value.body.ProposeCredential?
            && j < k && Said(gs, ss, sha256, gs[k].links[Endpoint(b, r.connectionId)].agent, j, n, r.data.proposalMessage.value)
  {
    hide Placed, Agreed, Run, Said, View;
    Reached(gs, ss, sha256, k);
    var front, p, th := AtEnd(gs[k], b, id);
    ProposedAcross(p, th, front, sha256);
    var a := p.back.agent;
    FoundIsPlaced(gs[k], a, gs[k].stores[b].records[id].threadId);
    n := th.back.value.id;
    j := OwnWords(gs, ss, sha256, k, a, n, th.back.value.data.proposalMessage.value);
  }

  /** What the offering call of an issuer offered: what it was given, or what it took from the proposal. */
  ghost predicate Offers(s: CredentialStore, c: Call, preview: Preview, definition: string) {
    match c
    case Offer(_, _, _, template, _) => template == Template(preview, definition)
    case CounterOffer(_, _, template, _) => template == Template(preview, definition)
    case AcceptProposal(id, _, passed, _) => id in s.records && OffersProposed(s.records[id], passed, preview, definition)
    case _ => false
  }

  /** A call with which a holder proposed this preview. */
  predicate MakesProposal(c: Call, proposal: Proposal) {
    (c.Propose? || c.CounterPropose?) && c.proposal == proposal
  }

  lemma OfferSaid(s: CredentialStore, c: Call, m: Msg, sha256: Digest)
    requires Says(s, c, m, sha256) && m.body.OfferCredential?
    ensures m.body.indyOffer.Some? && Offers(s, c, m.body.preview, m.body.indyOffer.value.credentialDefinitionId)
  {
  }

  lemma ProposalSaid(s: CredentialStore, c: Call, m: Msg, sha256: Digest)
    requires Says(s, c, m, sha256) && m.body.ProposeCredential?
    ensures MakesProposal(c, m.body.proposal)
  {
  }

  lemma IssuedValues(h: CredentialRecord, sha256: Digest)
    requires CredentialMade(h, sha256)
    ensures h.data.offerMessage.Some? && h.data.offerMessage.value.body.OfferCredential? && h.data.offerMessage.value.body.indyOffer.Some?
    ensures h.data.credentialMessage.Some? && h.data.credentialMessage.value.body.IssueCredential?
            && h.data.credentialMessage.value.body.indyCredential.Some?
    ensures var offer, credential := h.data.offerMessage.value.body, h.data.credentialMessage.value.body.indyCredential.value;
            credential.offer == offer.indyOffer.value && MadeFrom(credential.values, offer.preview, sha256)
  {
    ConvertedMadeFrom(h.data.offerMessage.value.body.preview, sha256);
  }

  /** Where the values in a holder's credential come from. The agent at the other end of its connection made an
      offer, with a preview and a definition id: those it was given, or, if it accepted a proposal, the preview that
      the holder's own agent had proposed before. The credential has the values of that preview, and no others, and
      is of that definition. */
  lemma IssuedAsOffered(gs: seq<Net>, ss: seq<Event>, sha256: Digest, i: nat, a: nat, id: nat)
    returns (k: nat, j: nat, preview: Preview, definition: string)
    requires Run(gs, ss, sha256) && i < |gs| && a in gs[i].stores && id in gs[i].stores[a].records
    requires var h := gs[i].stores[a].records[id];
             h.state == CredentialReceived || (h.state == Done && H.SideOf(h) == H.Holder)
    ensures var h := gs[i].stores[a].records[id];
            && h.data.credentialMessage.Some? && h.data.credentialMessage.value.body.IssueCredential?
            && h.data.credentialMessage.value.body.indyCredential.Some?
            && var credential := h.data.credentialMessage.value.body.indyCredential.value;
               MadeFrom(credential.values, preview, sha256) && credential.offer.credentialDefinitionId == definition
    ensures var e := Endpoint(a, gs[i].stores[a].records[id].connectionId);
            && k < i && k < |ss| && e in gs[i].links && ss[k].User? && ss[k].agent == gs[i].links[e].agent
            && ss[k].agent in gs[k].stores && Offers(gs[k].stores[ss[k].agent], ss[k].call, preview, definition)
    ensures ss[k].call.AcceptProposal? ==>
              j < k && ss[j].User? && ss[j].agent == a
              && gs[k].stores[ss[k].agent].records[ss[k].call.id].data.proposalMessage.Some?
              && gs[k].stores[ss[k].agent].records[ss[k].call.id].data.proposalMessage.value.body.ProposeCredential?
              && MakesProposal(ss[j].call, gs[k].stores[ss[k].agent].records[ss[k].call.id].data.proposalMessage.value.body.proposal)
  {
    hide Placed, Agreed, Run, CredentialMade, Says, Do, Offers, MadeFrom, GetByThreadId;
    OfferAgreement(gs, ss, sha256, i, a, id);
    Reached(gs, ss, sha256, i);
    var h := gs[i].stores[a].records[id];
    var e := gs[i].links[Endpoint(a, h.connectionId)];
    var b := e.agent;
    EndLinked(gs[i], Endpoint(a, h.connectionId));
    FoundIsPlaced(gs[i], b, h.threadId);
    var f := GetByThreadId(gs[i].stores[b], h.threadId).value;
    IssuedValues(h, sha256);
    var m := h.data.offerMessage.value;
    k := OwnWords(gs, ss, sha256, i, b, f.id, m);
    OfferSaid(gs[k].stores[b], ss[k].call, m, sha256);
    preview, definition, j := m.body.preview, m.body.indyOffer.value.credentialDefinitionId, 0;
    if ss[k].call.AcceptProposal? {
      Acceptable(gs[k].stores[b], ss[k].call, sha256);
      SameConnection(gs, ss, sha256, k, i, b, f.id);
      var r := gs[k].stores[b].records[f.id];
      var n;
      j, n := ProposedByPeer(gs, ss, sha256, k, b, f.id);
      LinksStay(gs, ss, sha256, k, i, Endpoint(b, r.connectionId));
      ProposalSaid(gs[j].stores[a], ss[j].call, r.data.proposalMessage.value, sha256);
    }
  }
}
