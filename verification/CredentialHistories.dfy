/** What one agent's credential records go through, whatever its users ask for and whatever messages
    arrive, honest or not. */
module CredentialHistories {
  import opened Results
  import opened Exchange
  import Histories
  import opened Encoding
  import opened Credentials
  import Storage

  datatype Side = Issuer | Holder

  /** Which part a record plays; a finished record is the holder's if it made a request. */
  function SideOf(r: CredentialRecord): Side {
    match r.state
    case ProposalReceived => Issuer
    case OfferSent => Issuer
    case RequestReceived => Issuer
    case CredentialIssued => Issuer
    case Done => if r.data.requestMetadata.Some? then Holder else Issuer
    case _ => Holder
  }

  /** The state changes of RFC 0036. */
  predicate Moves(from: State, to: State) {
    || from == to
    || (from == OfferReceived && to in {ProposalSent, RequestSent})
    || (from == OfferSent && to in {ProposalReceived, RequestReceived})
    || (from == ProposalSent && to == OfferReceived)
    || (from == ProposalReceived && to == OfferSent)
    || (from == RequestReceived && to == CredentialIssued)
    || (from == RequestSent && to == CredentialReceived)
    || (from in {CredentialIssued, CredentialReceived} && to == Done)
  }

  predicate Sided(r: CredentialRecord) {
    && (r.state in {RequestSent, CredentialReceived} ==> r.data.requestMetadata.Some?)
    && (r.state != Done && SideOf(r) == Issuer ==> r.data.requestMetadata.None?)
  }

  ghost predicate Sound(s: CredentialStore) {
    History(s) && forall id :: id in s.records ==> s.records[id].id == id && Sided(s.records[id])
  }

  /** What one call does to one record. */
  predicate Follows(r: CredentialRecord, r': CredentialRecord) {
    && r'.id == r.id && r'.connectionId == r.connectionId && r'.threadId == r.threadId
    && Moves(r.state, r'.state) && SideOf(r') == SideOf(r)
    && (r.state == Done ==> r' == r)
  }

  ghost predicate Advances(s: CredentialStore, s': CredentialStore) {
    Histories.Advances(s, s', Follows)
  }

  predicate Fresh(s: CredentialStore, c: Call) {
    (c.Propose? || c.Offer? || c.Inbound?) ==> c.newId !in s.records
  }

  /** A stored record rewritten in a state it may move to. */
  lemma Rewritten(s: CredentialStore, r: CredentialRecord, state: State)
    requires Sound(s) && r.id in s.records && s.records[r.id].state == r.state
    requires Follows(s.records[r.id], r.(state := state)) && Sided(r.(state := state))
    ensures Sound(UpdateState(s, r, state).store) && Advances(s, UpdateState(s, r, state).store)
  {
    UpdateKeepsHistory(s, r, state);
  }

  lemma Added(s: CredentialStore, r: CredentialRecord)
    requires Sound(s) && r.id !in s.records && Sided(r)
    ensures Sound(Save(s, r)) && Advances(s, Save(s, r))
  {
    SaveKeepsHistory(s, r);
  }

  lemma AcceptStep(s: CredentialStore, c: Call, sha256: Digest)
    requires Sound(s) && !c.Propose? && !c.Offer? && !c.Inbound? && c.id in s.records
    ensures var s' := Accept(s, s.records[c.id], c, sha256).store; Sound(s') && Advances(s, s')
  {
    var r := s.records[c.id];
    match c
    case CounterPropose(_, m, proposal) =>
      if r.state == OfferReceived {
        var p := Message(m, Some(r.threadId), ProposeCredential(proposal));
        Rewritten(s, r.(data := r.data.(proposalMessage := Some(p))), ProposalSent);
      }
    case CounterOffer(_, m, template, nonce) =>
      if CreateOfferAsResponse(s, r, m, template, nonce).Ok? {
        var p := CreateOfferAsResponse(s, r, m, template, nonce).value.message;
        Rewritten(s, r.(data := r.data.(offerMessage := Some(p))), OfferSent);
      }
    case AcceptProposal(_, m, definition, nonce) =>
      if AcceptProposalOf(s, r, m, definition, nonce).Ok? {
        var p := AcceptProposalOf(s, r, m, definition, nonce).value.message;
        Rewritten(s, r.(data := r.data.(offerMessage := Some(p))), OfferSent);
      }
    case AcceptOffer(_, m, did, nonce) =>
      if CreateRequest(s, r, m, did, nonce).Ok? {
        var request := CredRequest(did, AttachedOffer(r).value, nonce.value);
        var p := Message(m, Some(r.threadId), RequestCredential(Some(request)));
        Rewritten(s, r.(data := r.data.(requestMetadata := Some(Metadata(request)), requestMessage := Some(p))), RequestSent);
      }
    case AcceptRequest(_, m, issues) =>
      if CreateCredential(s, r, m, issues, sha256).Ok? {
        var p := CreateCredential(s, r, m, issues, sha256).value.message;
        Rewritten(s, r.(data := r.data.(credentialMessage := Some(p))), CredentialIssued);
      }
    case AcceptCredential(_, m) =>
      if r.state == CredentialReceived { Rewritten(s, r, Done); }
  }

  /** The record found for a thread is a stored one. */
  lemma FoundIsStored(s: CredentialStore, t: nat)
    requires Sound(s) && GetByThreadId(s, t).Ok?
    ensures var r := GetByThreadId(s, t).value; r.id in s.records && s.records[r.id] == r && r.threadId == t
  {
  }

  /** Proposals and offers rewrite the record of their thread, or make one. */
  lemma NegotiationStep(s: CredentialStore, from: Option<Connection>, m: Msg, newId: nat)
    requires Sound(s) && newId !in s.records && (m.body.ProposeCredential? || m.body.OfferCredential?)
    ensures var s' := Handle(s, from, m, newId).store; Sound(s') && Advances(s, s')
  {
    var found := GetByThreadId(s, m.ThreadId());
    if found.Ok? { FoundIsStored(s, m.ThreadId()); }
    match m.body
    case ProposeCredential(_) =>
      if AssertReady(from).None? {
        if Accepts(s, m.ThreadId(), OfferSent, from.value) {
          var r := found.value;
          Rewritten(s, r.(data := r.data.(proposalMessage := Some(m))), ProposalReceived);
        } else {
          Added(s, ProcessProposal(s, from, m, newId).value.record);
        }
      }
    case OfferCredential(_, _) =>
      if AssertReady(from).None? && m.body.indyOffer.Some? {
        if Accepts(s, m.ThreadId(), ProposalSent, from.value) {
          var r := found.value;
          Rewritten(s, r.(data := r.data.(offerMessage := Some(m))), OfferReceived);
        } else {
          Added(s, ProcessOffer(s, from, m, newId).value.record);
        }
      }
    case _ =>
  }

  /** Requests, credentials and acknowledgements rewrite the record of their thread. */
  lemma SettlingStep(s: CredentialStore, from: Option<Connection>, m: Msg, newId: nat)
    requires Sound(s) && !m.body.ProposeCredential? && !m.body.OfferCredential?
    ensures var s' := Handle(s, from, m, newId).store; Sound(s') && Advances(s, s')
  {
    var found := GetByThreadId(s, m.ThreadId());
    if found.Ok? { FoundIsStored(s, m.ThreadId()); }
    match m.body
    case RequestCredential(_) =>
      if ProcessRequest(s, from, m).Ok? {
        var r := found.value;
        Rewritten(s, r.(data := r.data.(requestMessage := Some(m))), RequestReceived);
      }
    case IssueCredential(_) =>
      if ProcessCredential(s, from, m, newId).Ok? {
        var r := found.value;
        Rewritten(s, r.(data := r.data.(credentialId := Some(newId), credentialMessage := Some(m))), CredentialReceived);
      }
    case CredentialAck =>
      if ProcessAck(s, from, m).Ok? { Rewritten(s, found.value, Done); }
    case _ =>
  }

  lemma Step(s: CredentialStore, c: Call, sha256: Digest)
    requires Sound(s) && Fresh(s, c)
    ensures Sound(Do(s, c, sha256).store) && Advances(s, Do(s, c, sha256).store)
    ensures Do(s, c, sha256).error.Some? ==> Do(s, c, sha256).store == s
  {
    match c
    case Propose(connection, id, m, proposal) =>
      if connection.ready { Added(s, CreateProposal(s, connection, id, m, proposal).value.record); }
    case Offer(connection, id, m, template, nonce) =>
      if connection.ready && nonce.Some? { Added(s, CreateOffer(s, connection, id, m, template, nonce).value.record); }
    case Inbound(from, m, newId) =>
      if m.body.ProposeCredential? || m.body.OfferCredential? { NegotiationStep(s, from, m, newId); }
      else { SettlingStep(s, from, m, newId); }
    case _ => if c.id in s.records { AcceptStep(s, c, sha256); }
  }

  /** The inbound messages that may rewrite a stored record. A proposal, an offer and a request must come over
      the record's own connection; a credential and an acknowledgement may come over any ready one. */
  ghost predicate Takes(s: CredentialStore, from: Option<Connection>, m: Msg, r: CredentialRecord) {
    && from.Some? && from.value.ready && GetByThreadId(s, m.ThreadId()) == Ok(r)
    && match m.body
       case ProposeCredential(_) => r.state == OfferSent && r.connectionId == from.value.id
       case OfferCredential(_, offer) => offer.Some? && r.state == ProposalSent && r.connectionId == from.value.id
       case RequestCredential(request) => request.Some? && r.state == OfferSent && r.connectionId == from.value.id
       case IssueCredential(credential) =>
         && r.state == RequestSent && r.data.requestMetadata.Some? && credential.Some?
         && credential.value.request == r.data.requestMetadata.value.request
       case CredentialAck => r.state == CredentialIssued
  }

  /** The inbound messages that make a record of their own when there is none to rewrite. */
  ghost predicate Begins(from: Option<Connection>, m: Msg) {
    && from.Some? && from.value.ready
    && (m.body.ProposeCredential? || (m.body.OfferCredential? && m.body.indyOffer.Some?))
  }

  /** Whatever arrives, a stored record is rewritten if and only if it takes the message; a new record is made
      if and only if the message may begin an exchange and no record takes it; and every other message fails. */
  lemma InboundExactly(s: CredentialStore, from: Option<Connection>, m: Msg, newId: nat)
    requires Sound(s) && newId !in s.records
    ensures var found := GetByThreadId(s, m.ThreadId());
            var taken := found.Ok? && Takes(s, from, m, found.value);
            var o := Handle(s, from, m, newId);
            && (newId in o.store.records <==> Begins(from, m) && !taken)
            && (o.error.Some? <==> !taken && !Begins(from, m))
    ensures var o := Handle(s, from, m, newId);
            forall id :: id in s.records ==>
              id in o.store.records && (o.store.records[id] != s.records[id] <==> Takes(s, from, m, s.records[id]))
  {
    var found := GetByThreadId(s, m.ThreadId());
    if found.Ok? { FoundIsStored(s, m.ThreadId()); }
    hide History, GetByThreadId;
    var o := Handle(s, from, m, newId);
    match m.body
    case ProposeCredential(_) =>
    case OfferCredential(_, _) =>
    case RequestCredential(_) =>
    case IssueCredential(_) =>
    case CredentialAck =>
  }

  /** With which error a message fails, if it does. A proposal or offer that no record takes does not fail: it makes
      a record. */
  lemma FailsExactly(s: CredentialStore, from: Option<Connection>, m: Msg, newId: nat)
    ensures var found := GetByThreadId(s, m.ThreadId());
            Handle(s, from, m, newId).error ==
            if from.None? then Some(NoConnection)
            else if !from.value.ready then Some(NotReady)
            else match m.body
              case ProposeCredential(_) => None
              case OfferCredential(_, offer) => if offer.None? then Some(MissingAttachment) else None
              case RequestCredential(request) =>
                if request.None? then Some(MissingAttachment)
                else if found.Err? then Some(found.error)
                else if found.value.state != OfferSent then Some(InvalidState)
                else if found.value.connectionId != from.value.id then Some(WrongConnection) else None
              case IssueCredential(credential) =>
                if found.Err? then Some(found.error)
                else if found.value.state != RequestSent then Some(InvalidState)
                else if found.value.data.requestMetadata.None? then Some(MissingMetadata)
                else if credential.None? then Some(MissingAttachment)
                else if credential.value.request != found.value.data.requestMetadata.value.request then Some(WalletRejects) else None
              case CredentialAck =>
                if found.Err? then Some(found.error) else if found.value.state != CredentialIssued then Some(InvalidState) else None
    ensures Handle(s, from, m, newId).sent == None
  {
    hide GetByThreadId;
  }

  /** The state in which a record can be acted on by this call. */
  function Awaits(c: Call): State
    requires !c.Propose? && !c.Offer? && !c.Inbound?
  {
    match c
    case CounterPropose(_, _, _) => OfferReceived
    case CounterOffer(_, _, _, _) => ProposalReceived
    case AcceptProposal(_, _, _, _) => ProposalReceived
    case AcceptOffer(_, _, _, _) => OfferReceived
    case AcceptRequest(_, _, _) => RequestReceived
    case AcceptCredential(_, _) => CredentialReceived
  }

  predicate HasOffer(r: CredentialRecord) {
    r.data.offerMessage.Some? && r.data.offerMessage.value.body.OfferCredential? && r.data.offerMessage.value.body.indyOffer.Some?
  }

  predicate HasRequest(r: CredentialRecord) {
    && r.data.requestMessage.Some? && r.data.requestMessage.value.body.RequestCredential?
    && r.data.requestMessage.value.body.indyRequest.Some?
  }

  predicate HasProposal(r: CredentialRecord) {
    r.data.proposalMessage.Some? && r.data.proposalMessage.value.body.ProposeCredential?
  }

  /** With which error a call fails, if it does. Accepting a proposal looks at the proposal before the state. */
  lemma CallFailsExactly(s: CredentialStore, c: Call, sha256: Digest)
    requires !c.Inbound?
    ensures Do(s, c, sha256).error ==
            if c.Propose? then if c.connection.ready then None else Some(NotReady)
            else if c.Offer? then if !c.connection.ready then Some(NotReady) else if c.nonce.None? then Some(WalletRejects) else None
            else if c.id !in s.records then Some(NotFound)
            else
              var r := s.records[c.id];
              if c.AcceptProposal? && !(HasProposal(r) && r.data.proposalMessage.value.body.proposal.preview.Some?) then Some(MissingProposal)
              else if c.AcceptProposal? &&
                      (if c.credentialDefinitionId.Some? then c.credentialDefinitionId
                       else r.data.proposalMessage.value.body.proposal.credentialDefinitionId) in {None, Some("")}
                   then Some(MissingDefinition)
              else if r.state != Awaits(c) then Some(InvalidState)
              else if (c.AcceptOffer? && !HasOffer(r)) || (c.AcceptRequest? && !(HasOffer(r) && HasRequest(r))) then Some(MissingAttachment)
              else if ((c.CounterOffer? || c.AcceptProposal? || c.AcceptOffer?) && c.nonce.None?) || (c.AcceptRequest? && !c.walletIssues)
                   then Some(WalletRejects)
              else None
  {
    hide ConvertPreviewToValues;
  }

  /** An agent's life: any calls at all, one after another, from an empty store. */
  ghost predicate Life(ss: seq<CredentialStore>, cs: seq<Call>, sha256: Digest) {
    && |ss| == |cs| + 1 && ss[0] == Store(map[], [])
    && forall i :: 0 <= i < |cs| ==> Fresh(ss[i], cs[i]) && ss[i + 1] == Do(ss[i], cs[i], sha256).store
  }

  lemma LifeIsLawful(ss: seq<CredentialStore>, cs: seq<Call>, sha256: Digest)
    requires Life(ss, cs, sha256)
    ensures Histories.Lawful(ss, Sound, Follows)
  {
    hide Sound, Do;
    BornSound();
    forall n: nat | n + 1 < |ss| ensures Histories.LawfulStep(ss, n, Sound, Follows) {
      if Sound(ss[n]) { Step(ss[n], cs[n], sha256); }
    }
  }

  lemma BornSound()
    ensures Sound(Store(map[], []))
  {
  }

  /** What a record keeps: its thread, connection and side, and everything once it is done. */
  predicate Keeps(r: CredentialRecord, r': CredentialRecord) {
    && r'.threadId == r.threadId && r'.connectionId == r.connectionId && SideOf(r') == SideOf(r)
    && (r.state == Done ==> r' == r)
  }

  /** Whatever happens to an agent, its announcements chain from nothing and replay to what it stores; a
      holder that has sent a request has its metadata; and from any point on, a record keeps its thread,
      connection and side, and once done it never changes again. */
  lemma RecordHistory(ss: seq<CredentialStore>, cs: seq<Call>, sha256: Digest, i: nat, j: nat, id: nat)
    requires Life(ss, cs, sha256) && i <= j < |ss| && id in ss[i].records
    ensures Recorded(ss[i], id) && Sided(ss[i].records[id])
    ensures id in ss[j].records && Keeps(ss[i].records[id], ss[j].records[id])
  {
    LifeIsLawful(ss, cs, sha256);
    hide Life, Follows;
    Histories.AllSound(ss, Sound, Follows, i);
    FollowsKeeps();
    Histories.Persists(ss, Sound, Follows, Keeps, i, j, id);
  }

  lemma FollowsKeeps()
    ensures forall r, r', r'' :: Keeps(r, r') && Follows(r', r'') ==> Keeps(r, r'')
  {
  }

  // ----- what a holder stores -----------------------------------------------------------------

  /** A holder's metadata are those of the request it sent, and the credential it stores was issued for that very
      request and has a place in the wallet. */
  predicate Backed(r: CredentialRecord) {
    r.state in {RequestSent, CredentialReceived} || (r.state == Done && r.data.requestMetadata.Some?) ==>
      && r.data.requestMetadata.Some? && r.data.requestMessage.Some?
      && r.data.requestMessage.value.body == RequestCredential(Some(r.data.requestMetadata.value.request))
      && (r.state != RequestSent ==>
            && r.data.credentialId.Some? && r.data.credentialMessage.Some? && r.data.credentialMessage.value.body.IssueCredential?
            && var credential := r.data.credentialMessage.value.body.indyCredential;
               credential.Some? && credential.value.request == r.data.requestMetadata.value.request)
  }

  ghost predicate AllBacked(s: CredentialStore) {
    forall id :: id in s.records ==> Backed(s.records[id])
  }

  lemma MessageBacks(s: CredentialStore, from: Option<Connection>, m: Msg, newId: nat)
    requires Sound(s) && AllBacked(s)
    ensures AllBacked(Handle(s, from, m, newId).store)
  {
    var found := GetByThreadId(s, m.ThreadId());
    if found.Ok? { FoundIsStored(s, m.ThreadId()); }
    assert found.Ok? ==> Sided(found.value) && Backed(found.value);
    hide Sound, GetByThreadId;
    match m.body
    case ProposeCredential(_) =>
    case OfferCredential(_, _) =>
    case RequestCredential(_) =>
    case IssueCredential(_) =>
    case CredentialAck =>
  }

  lemma CallBacks(s: CredentialStore, c: Call, sha256: Digest)
    requires Sound(s) && AllBacked(s) && !c.Inbound?
    ensures AllBacked(Do(s, c, sha256).store)
  {
    assert !c.Propose? && !c.Offer? && c.id in s.records ==> Sided(s.records[c.id]) && Backed(s.records[c.id]);
    hide Sound, ConvertPreviewToValues;
  }

  /** Whatever a holder was sent: what it finally stores was issued for the very request it had made. */
  lemma {:induction false} HolderBacked(ss: seq<CredentialStore>, cs: seq<Call>, sha256: Digest, i: nat)
    requires Life(ss, cs, sha256) && i < |ss|
    ensures AllBacked(ss[i])
  {
    if i > 0 {
      LifeIsLawful(ss, cs, sha256);
      hide Sound, Follows, AllBacked, Do;
      Histories.AllSound(ss, Sound, Follows, i - 1);
      HolderBacked(ss, cs, sha256, i - 1);
      NextBacked(ss[i - 1], cs[i - 1], sha256);
    }
  }

  lemma NextBacked(s: CredentialStore, c: Call, sha256: Digest)
    requires Sound(s) && AllBacked(s)
    ensures AllBacked(Do(s, c, sha256).store)
  {
    hide Sound, AllBacked, Handle, Accept;
    match c
    case Inbound(from, m, newId) => MessageBacks(s, from, m, newId);
    case _ => CallBacks(s, c, sha256);
  }

  // ----- messages over another connection -----------------------------------------------------

  /** An acknowledgement finishes the record of its thread whatever ready connection it comes over. */
  lemma ForeignAck(s: CredentialStore, from: Connection, m: Msg, newId: nat)
    requires Sound(s) && newId !in s.records && from.ready && m.body.CredentialAck?
    requires GetByThreadId(s, m.ThreadId()).Ok? && GetByThreadId(s, m.ThreadId()).value.state == CredentialIssued
    ensures var r := GetByThreadId(s, m.ThreadId()).value;
            Handle(s, Some(from), m, newId).store.records == s.records[r.id := r.(state := Done)]
  {
  }

  lemma OfferedFirst(s: CredentialStore, offer: CredOffer, preview: Preview, sha256: Digest)
    requires s.records == map[]
    ensures var m := Message(7, None, OfferCredential(preview, Some(offer)));
            Do(s, Inbound(Some(Connection(0, true)), m, 0), sha256).store.records ==
            map[0 := Record(0, 0, 7, OfferReceived, NO_DATA.(offerMessage := Some(m)))]
  {
  }

  lemma OfferRequested(s: CredentialStore, r: CredentialRecord, sha256: Digest)
    requires s.records == map[0 := r] && r.id == 0 && r.state == OfferReceived && AttachedOffer(r).Some?
    ensures var s' := Do(s, AcceptOffer(0, 8, 0, Some(0)), sha256).store;
            && s'.records.Keys == {0} && s'.records[0].state == RequestSent
            && s'.records[0].id == 0 && s'.records[0].threadId == r.threadId && s'.records[0].connectionId == r.connectionId
            && s'.records[0].data.requestMetadata == Some(Metadata(CredRequest(0, AttachedOffer(r).value, 0)))
  {
  }

  lemma TakenFromAnyone(s: CredentialStore, m: Msg, from: Connection, sha256: Digest)
    requires s.records.Keys == {0} && s.records[0].id == 0 && s.records[0].threadId == m.ThreadId() && from.ready
    requires s.records[0].state == RequestSent && s.records[0].data.requestMetadata.Some?
    requires m.body.IssueCredential? && m.body.indyCredential.Some?
    requires WalletStores(s.records[0].data.requestMetadata.value, m.body.indyCredential.value)
    ensures var s' := Do(s, Inbound(Some(from), m, 1), sha256).store;
            && s'.records.Keys == {0} && s'.records[0].state == CredentialReceived
            && s'.records[0].connectionId == s.records[0].connectionId && s'.records[0].data.credentialMessage == Some(m)
  {
    assert s.records == map[0 := s.records[0]];
    FoundAlone(s, s.records[0]);
  }

  /** A holder is offered a credential over connection 0, requests it, and takes it in over connection 1. */
  lemma ForeignCredential(offer: CredOffer, preview: Preview, values: CredentialValues, sha256: Digest)
    returns (ss: seq<CredentialStore>, cs: seq<Call>)
    ensures Life(ss, cs, sha256) && |cs| == 3 && 0 in ss[2].records && 0 in ss[3].records
    ensures ss[2].records[0].connectionId == 0 && ss[2].records[0].state == RequestSent
    ensures cs[2].Inbound? && cs[2].from == Some(Connection(1, true))
    ensures ss[3].records[0].connectionId == 0 && ss[3].records[0].state == CredentialReceived
    ensures ss[3].records[0].data.credentialMessage == Some(cs[2].message)
  {
    hide Do;
    var s0: CredentialStore := Store(map[], []);
    var m := Message(7, None, OfferCredential(preview, Some(offer)));
    var c0 := Inbound(Some(Connection(0, true)), m, 0);
    var s1 := Do(s0, c0, sha256).store;
    OfferedFirst(s0, offer, preview, sha256);
    var c1 := AcceptOffer(0, 8, 0, Some(0));
    var s2 := Do(s1, c1, sha256).store;
    OfferRequested(s1, s1.records[0], sha256);
    var credential := Credential(offer, CredRequest(0, offer, 0), values);
    var c2 := Inbound(Some(Connection(1, true)), Message(9, Some(7), IssueCredential(Some(credential))), 1);
    var s3 := Do(s2, c2, sha256).store;
    TakenFromAnyone(s2, c2.message, Connection(1, true), sha256);
    ss, cs := [s0, s1, s2, s3], [c0, c1, c2];
  }
}
