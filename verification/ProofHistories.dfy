/** What one agent's proof records go through, whatever its users ask for and whatever messages arrive,
    honest or not. */
module ProofHistories {
  import opened Results
  import opened Exchange
  import Histories
  import opened Encoding
  import opened ProofRequests
  import opened Proofs

  datatype Side = Verifier | Prover

  /** Which part a record plays; a finished record is the verifier's if it says whether the proof was valid. */
  function SideOf(r: ProofRecord): Side {
    match r.state
    case ProposalReceived => Verifier
    case RequestSent => Verifier
    case PresentationReceived => Verifier
    case Done => if r.data.isVerified.Some? then Verifier else Prover
    case _ => Prover
  }

  /** The state changes of RFC 0037. */
  predicate Moves(from: State, to: State) {
    || from == to
    || (from == RequestReceived && to in {ProposalSent, PresentationSent})
    || (from == RequestSent && to in {ProposalReceived, PresentationReceived})
    || (from == ProposalSent && to == RequestReceived)
    || (from == ProposalReceived && to == RequestSent)
    || (from in {PresentationSent, PresentationReceived} && to == Done)
  }

  /** `isVerified` is set exactly on the verifier's records that hold a presentation. */
  predicate Sided(r: ProofRecord) {
    r.data.isVerified.Some? <==> r.state == PresentationReceived || (r.state == Done && SideOf(r) == Verifier)
  }

  ghost predicate Sound(s: ProofStore) {
    History(s) && forall id :: id in s.records ==> s.records[id].id == id && Sided(s.records[id])
  }

  /** What one call does to one record. */
  predicate Follows(r: ProofRecord, r': ProofRecord) {
    && r'.id == r.id && r'.connectionId == r.connectionId && r'.threadId == r.threadId
    && Moves(r.state, r'.state) && SideOf(r') == SideOf(r)
    && (r.state == Done ==> r' == r)
  }

  ghost predicate Advances(s: ProofStore, s': ProofStore) {
    Histories.Advances(s, s', Follows)
  }

  ghost predicate Fresh(s: ProofStore, c: Call) {
    (c.Propose? || c.Request? || c.Inbound?) ==> c.newId !in s.records
  }

  /** A stored record rewritten in a state it may move to. */
  lemma Rewritten(s: ProofStore, r: ProofRecord, state: State)
    requires Sound(s) && r.id in s.records && s.records[r.id].state == r.state
    requires Follows(s.records[r.id], r.(state := state)) && Sided(r.(state := state))
    ensures Sound(UpdateState(s, r, state).store) && Advances(s, UpdateState(s, r, state).store)
  {
    UpdateKeepsHistory(s, r, state);
  }

  lemma Added(s: ProofStore, r: ProofRecord)
    requires Sound(s) && r.id !in s.records && Sided(r)
    ensures Sound(Save(s, r)) && Advances(s, Save(s, r))
  {
    SaveKeepsHistory(s, r);
  }

  lemma AcceptStep(s: ProofStore, c: Call)
    requires Sound(s) && !c.Propose? && !c.Request? && !c.Inbound? && c.id in s.records
    ensures var s' := Accept(s, s.records[c.id], c).store; Sound(s') && Advances(s, s')
  {
    var r := s.records[c.id];
    match c
    case CounterPropose(_, n, preview) =>
      if r.state == RequestReceived {
        var m := Message(n, Some(r.threadId), ProposePresentation(preview));
        Rewritten(s, r.(data := r.data.(proposalMessage := Some(m))), ProposalSent);
      }
    case CounterRequest(_, n, request) =>
      if r.state == ProposalReceived {
        var m := Message(n, Some(r.threadId), RequestPresentation(Some(request)));
        Rewritten(s, r.(data := r.data.(requestMessage := Some(m))), RequestSent);
      }
    case AcceptProposal(_, n, name, version, nonce, uuid) =>
      if AcceptProposalOf(s, r, n, name, version, nonce, uuid).Ok? {
        var m := AcceptProposalOf(s, r, n, name, version, nonce, uuid).value.message;
        Rewritten(s, r.(data := r.data.(requestMessage := Some(m))), RequestSent);
      }
    case AcceptRequest(_, n, chosen, revealed) =>
      if CreatePresentation(s, r, n, chosen, revealed).Ok? {
        var m := CreatePresentation(s, r, n, chosen, revealed).value.message;
        Rewritten(s, r.(data := r.data.(presentationMessage := Some(m))), PresentationSent);
      }
    case AcceptPresentation(_, n) =>
      if r.state == PresentationReceived { Rewritten(s, r, Done); }
  }

  /** The record found for a thread is a stored one. */
  lemma FoundIsStored(s: ProofStore, t: nat)
    requires Sound(s) && GetByThreadId(s, t).Ok?
    ensures var r := GetByThreadId(s, t).value; r.id in s.records && s.records[r.id] == r && r.threadId == t
  {
  }

  lemma InboundStep(s: ProofStore, from: Option<Connection>, m: Msg, newId: nat, sha256: Digest)
    requires Sound(s) && newId !in s.records
    ensures var s' := Handle(s, from, m, newId, sha256).store; Sound(s') && Advances(s, s')
  {
    var found := GetByThreadId(s, m.ThreadId());
    if found.Ok? { FoundIsStored(s, m.ThreadId()); }
    match m.body
    case ProposePresentation(_) =>
      if AssertReady(from).None? {
        if Accepts(s, m.ThreadId(), RequestSent, from.value) {
          var r := found.value;
          Rewritten(s, r.(data := r.data.(proposalMessage := Some(m))), ProposalReceived);
        } else {
          Added(s, ProcessProposal(s, from, m, newId).value.record);
        }
      }
    case RequestPresentation(_) =>
      if AssertReady(from).None? && m.body.indyRequest.Some? {
        if Accepts(s, m.ThreadId(), ProposalSent, from.value) {
          var r := found.value;
          Rewritten(s, r.(data := r.data.(requestMessage := Some(m))), RequestReceived);
        } else {
          Added(s, ProcessRequest(s, from, m, newId).value.record);
        }
      }
    case Presentation(_) =>
      if ProcessPresentation(s, from, m, sha256).Ok? {
        var r := found.value;
        var isValid := WalletVerifies(m.body.indyProof.value, AttachedRequest(r).value);
        Rewritten(s, r.(data := r.data.(isVerified := Some(isValid), presentationMessage := Some(m))), PresentationReceived);
      }
    case PresentationAck =>
      if ProcessAck(s, from, m).Ok? { Rewritten(s, found.value, Done); }
  }

  lemma Step(s: ProofStore, c: Call, sha256: Digest)
    requires Sound(s) && Fresh(s, c)
    ensures Sound(Do(s, c, sha256).store) && Advances(s, Do(s, c, sha256).store)
    ensures Do(s, c, sha256).error.Some? ==> Do(s, c, sha256).store == s
  {
    match c
    case Propose(connection, id, m, preview) =>
      if connection.ready { Added(s, CreateProposal(s, connection, id, m, preview).value.record); }
    case Request(connection, id, m, request) =>
      if connection.ready { Added(s, CreateRequest(s, connection, id, m, request).value.record); }
    case Inbound(from, m, newId) => InboundStep(s, from, m, newId, sha256);
    case _ => if c.id in s.records { AcceptStep(s, c); }
  }

  /** The inbound messages that may rewrite a stored record. A proposal and a request must come over the
      record's own connection; a presentation and an acknowledgement may come over any ready one. */
  ghost predicate Takes(s: ProofStore, from: Option<Connection>, m: Msg, r: ProofRecord, sha256: Digest) {
    && from.Some? && from.value.ready && GetByThreadId(s, m.ThreadId()) == Ok(r)
    && match m.body
       case ProposePresentation(_) => r.state == RequestSent && r.connectionId == from.value.id
       case RequestPresentation(request) => request.Some? && r.state == ProposalSent && r.connectionId == from.value.id
       case Presentation(proof) =>
         r.state == RequestSent && proof.Some? && AttachedRequest(r).Some? && EncodingsPass(proof.value.revealed, sha256)
       case PresentationAck => r.state == PresentationSent
  }

  /** The inbound messages that make a record of their own when there is none to rewrite. */
  ghost predicate Begins(from: Option<Connection>, m: Msg) {
    && from.Some? && from.value.ready
    && (m.body.ProposePresentation? || (m.body.RequestPresentation? && m.body.indyRequest.Some?))
  }

  /** Whatever arrives, a stored record is rewritten if and only if it takes the message; a new record is made
      if and only if the message may begin an exchange and no record takes it; and every other message fails. */
  lemma InboundExactly(s: ProofStore, from: Option<Connection>, m: Msg, newId: nat, sha256: Digest)
    requires Sound(s) && newId !in s.records
    ensures var found := GetByThreadId(s, m.ThreadId());
            var taken := found.Ok? && Takes(s, from, m, found.value, sha256);
            var o := Handle(s, from, m, newId, sha256);
            && (newId in o.store.records <==> Begins(from, m) && !taken)
            && (o.error.Some? <==> !taken && !Begins(from, m))
    ensures var o := Handle(s, from, m, newId, sha256);
            forall id :: id in s.records ==>
              id in o.store.records && (o.store.records[id] != s.records[id] <==> Takes(s, from, m, s.records[id], sha256))
  {
    var found := GetByThreadId(s, m.ThreadId());
    if found.Ok? { FoundIsStored(s, m.ThreadId()); }
    hide History, GetByThreadId;
    var o := Handle(s, from, m, newId, sha256);
    match m.body
    case ProposePresentation(_) =>
    case RequestPresentation(_) =>
    case Presentation(_) =>
    case PresentationAck =>
  }

  /** With which error a message fails, if it does; an encoding that does not read as its value is one reason. */
  lemma FailsExactly(s: ProofStore, from: Option<Connection>, m: Msg, newId: nat, sha256: Digest)
    ensures var found := GetByThreadId(s, m.ThreadId());
            var o := Handle(s, from, m, newId, sha256);
            && o.sent == None
            && if from.None? then o.error == Some(NoConnection)
               else if !from.value.ready then o.error == Some(NotReady)
               else match m.body
                 case ProposePresentation(_) => o.error == None
                 case RequestPresentation(request) => o.error == if request.None? then Some(MissingAttachment) else None
                 case Presentation(proof) =>
                   if found.Err? then o.error == Some(found.error)
                   else if found.value.state != RequestSent then o.error == Some(InvalidState)
                   else if proof.None? || !HasRequest(found.value) then o.error == Some(MissingAttachment)
                   else if exists r :: r in proof.value.revealed && !CheckValidEncoding(r.raw, r.encoded, sha256)
                        then o.error == Some(InvalidEncoding)
                   else o.error == None && forall r :: r in proof.value.revealed ==> ReadsAs(r.raw, r.encoded, sha256)
                 case PresentationAck =>
                   o.error == if found.Err? then Some(found.error)
                              else if found.value.state != PresentationSent then Some(InvalidState) else None
  {
    match m.body
    case Presentation(proof) =>
      if proof.Some? && forall r :: r in proof.value.revealed ==> CheckValidEncoding(r.raw, r.encoded, sha256) {
        AcceptedRead(proof.value.revealed, sha256);
      }
      hide GetByThreadId, ReadsAs, CheckValidEncoding;
    case _ =>
  }

  predicate HasRequest(r: ProofRecord) {
    && r.data.requestMessage.Some? && r.data.requestMessage.value.body.RequestPresentation?
    && r.data.requestMessage.value.body.indyRequest.Some?
  }

  /** The state in which a record can be acted on by this call. */
  function Awaits(c: Call): State
    requires !c.Propose? && !c.Request? && !c.Inbound?
  {
    match c
    case CounterPropose(_, _, _) => RequestReceived
    case CounterRequest(_, _, _) => ProposalReceived
    case AcceptProposal(_, _, _, _, _, _) => ProposalReceived
    case AcceptRequest(_, _, _, _) => RequestReceived
    case AcceptPresentation(_, _) => PresentationReceived
  }

  /** With which error a call fails, if it does. Accepting a proposal looks at the proposal before the state. */
  lemma CallFailsExactly(s: ProofStore, c: Call, sha256: Digest)
    requires !c.Inbound?
    ensures Do(s, c, sha256).error ==
            if c.Propose? || c.Request? then if c.connection.ready then None else Some(NotReady)
            else if c.id !in s.records then Some(NotFound)
            else
              var r := s.records[c.id];
              if c.AcceptProposal? && !(r.data.proposalMessage.Some? && r.data.proposalMessage.value.body.ProposePresentation?)
              then Some(MissingProposal)
              else if r.state != Awaits(c) then Some(InvalidState)
              else if c.AcceptRequest? && !HasRequest(r) then Some(MissingAttachment)
              else if c.AcceptRequest? && c.revealed.None? then Some(WalletRejects)
              else None
  {
    hide RequestFrom;
  }

  /** An agent's life: any calls at all, one after another, from an empty store. */
  ghost predicate Life(ss: seq<ProofStore>, cs: seq<Call>, sha256: Digest) {
    && |ss| == |cs| + 1 && ss[0] == Store(map[], [])
    && forall i :: 0 <= i < |cs| ==> Fresh(ss[i], cs[i]) && ss[i + 1] == Do(ss[i], cs[i], sha256).store
  }

  lemma LifeIsLawful(ss: seq<ProofStore>, cs: seq<Call>, sha256: Digest)
    requires Life(ss, cs, sha256)
    ensures Histories.Lawful(ss, Sound, Follows)
  {
    hide Sound, Do;
    BornSound();
    forall n: nat | n + 1 < |ss| ensures Histories.LawfulStep(ss, n, Sound, Follows) {
      if Sound(ss[n]) { Step(ss[n], cs[n], sha256); }
    }
  }

  lemma BornSound()
    ensures Sound(Store(map[], []))
  {
  }

  /** What a record keeps: its thread, connection and side, and everything once it is done. */
  predicate Keeps(r: ProofRecord, r': ProofRecord) {
    && r'.threadId == r.threadId && r'.connectionId == r.connectionId && SideOf(r') == SideOf(r)
    && (r.state == Done ==> r' == r)
  }

  /** Whatever happens to an agent, its announcements chain from nothing and replay to what it stores;
      `isVerified` is set exactly on verifier records that hold a presentation; and from any point on, a
      record keeps its thread, connection and side, and once done it never changes again. */
  lemma RecordHistory(ss: seq<ProofStore>, cs: seq<Call>, sha256: Digest, i: nat, j: nat, id: nat)
    requires Life(ss, cs, sha256) && i <= j < |ss| && id in ss[i].records
    ensures Recorded(ss[i], id) && Sided(ss[i].records[id])
    ensures id in ss[j].records && Keeps(ss[i].records[id], ss[j].records[id])
  {
    LifeIsLawful(ss, cs, sha256);
    hide Life, Follows;
    Histories.AllSound(ss, Sound, Follows, i);
    FollowsKeeps();
    Histories.Persists(ss, Sound, Follows, Keeps, i, j, id);
  }

  lemma FollowsKeeps()
    ensures forall r, r', r'' :: Keeps(r, r') && Follows(r', r'') ==> Keeps(r, r'')
  {
  }

  // ----- what a verdict means -----------------------------------------------------------------

  /** A verdict is on the presentation that the record holds: it was made for the request that the record holds if and
      only if the verdict is that it is valid, and each value it reveals reads as its encoding. */
  ghost predicate Judged(r: ProofRecord, sha256: Digest) {
    r.data.isVerified.Some? ==>
      && HasRequest(r) && r.data.presentationMessage.Some? && r.data.presentationMessage.value.body.Presentation?
      && var proof := r.data.presentationMessage.value.body.indyProof;
         && proof.Some? && (forall v :: v in proof.value.revealed ==> ReadsAs(v.raw, v.encoded, sha256))
         && (r.data.isVerified.value <==> proof.value.request == r.data.requestMessage.value.body.indyRequest.value)
  }

  ghost predicate AllJudged(s: ProofStore, sha256: Digest) {
    forall id :: id in s.records ==> Judged(s.records[id], sha256)
  }

  lemma PresentationJudges(s: ProofStore, from: Option<Connection>, m: Msg, sha256: Digest)
    requires Sound(s) && AllJudged(s, sha256) && m.body.Presentation? && ProcessPresentation(s, from, m, sha256).Ok?
    ensures AllJudged(ProcessPresentation(s, from, m, sha256).value.store, sha256)
  {
    AcceptedRead(m.body.indyProof.value.revealed, sha256);
    hide Sound, GetByThreadId, ReadsAs, EncodingsPass;
  }

  lemma MessageJudges(s: ProofStore, from: Option<Connection>, m: Msg, newId: nat, sha256: Digest)
    requires Sound(s) && AllJudged(s, sha256)
    ensures AllJudged(Handle(s, from, m, newId, sha256).store, sha256)
  {
    var found := GetByThreadId(s, m.ThreadId());
    if found.Ok? { FoundIsStored(s, m.ThreadId()); }
    assert found.Ok? ==> Sided(found.value) && Judged(found.value, sha256);
    hide Sound, GetByThreadId, ReadsAs, EncodingsPass;
    match m.body
    case ProposePresentation(_) =>
    case RequestPresentation(_) =>
    case Presentation(_) =>
      hide ProcessPresentation, Judged;
      if ProcessPresentation(s, from, m, sha256).Ok? { PresentationJudges(s, from, m, sha256); }
    case PresentationAck =>
  }

  lemma CallJudges(s: ProofStore, c: Call, sha256: Digest)
    requires Sound(s) && AllJudged(s, sha256) && !c.Inbound?
    ensures AllJudged(Do(s, c, sha256).store, sha256)
  {
    assert !c.Propose? && !c.Request? && c.id in s.records ==> Sided(s.records[c.id]) && Judged(s.records[c.id], sha256);
    hide Sound, RequestFrom, ReadsAs;
  }

  lemma NextJudged(s: ProofStore, c: Call, sha256: Digest)
    requires Sound(s) && AllJudged(s, sha256)
    ensures AllJudged(Do(s, c, sha256).store, sha256)
  {
    hide Sound, AllJudged, Handle, Accept;
    match c
    case Inbound(from, m, newId) => MessageJudges(s, from, m, newId, sha256);
    case _ => CallJudges(s, c, sha256);
  }

  /** Whatever messages arrive, made by anyone: every verdict that a record holds means just that. */
  lemma {:induction false} VerdictMeans(ss: seq<ProofStore>, cs: seq<Call>, sha256: Digest, i: nat)
    requires Life(ss, cs, sha256) && i < |ss|
    ensures AllJudged(ss[i], sha256)
  {
    if i > 0 {
      LifeIsLawful(ss, cs, sha256);
      hide Sound, Follows, AllJudged, Do;
      Histories.AllSound(ss, Sound, Follows, i - 1);
      VerdictMeans(ss, cs, sha256, i - 1);
      NextJudged(ss[i - 1], cs[i - 1], sha256);
    }
  }

  // ----- messages over another connection -----------------------------------------------------

  /** An acknowledgement finishes the record of its thread whatever ready connection it comes over. */
  lemma ForeignAck(s: ProofStore, from: Connection, m: Msg, newId: nat, sha256: Digest)
    requires Sound(s) && newId !in s.records && from.ready && m.body.PresentationAck?
    requires GetByThreadId(s, m.ThreadId()).Ok? && GetByThreadId(s, m.ThreadId()).value.state == PresentationSent
    ensures var r := GetByThreadId(s, m.ThreadId()).value;
            Handle(s, Some(from), m, newId, sha256).store.records == s.records[r.id := r.(state := Done)]
  {
  }

  /** A verifier requests a presentation over connection 0, and takes one in over connection 1. */
  lemma ForeignPresentation(request: ProofRequest, proof: Proof, sha256: Digest) returns (ss: seq<ProofStore>, cs: seq<Call>)
    requires EncodingsPass(proof.revealed, sha256)
    ensures Life(ss, cs, sha256) && |cs| == 2 && 0 in ss[1].records && 0 in ss[2].records
    ensures ss[1].records[0].connectionId == 0 && ss[1].records[0].state == RequestSent
    ensures cs[1].Inbound? && cs[1].from == Some(Connection(1, true))
    ensures ss[2].records[0].connectionId == 0 && ss[2].records[0].state == PresentationReceived
    ensures ss[2].records[0].data.presentationMessage == Some(cs[1].message)
  {
    var s0: ProofStore := Store(map[], []);
    var c0 := Request(Connection(0, true), 0, 7, request);
    var s1 := Do(s0, c0, sha256).store;
    FoundAlone(s1, s1.records[0]);
    var c1 := Inbound(Some(Connection(1, true)), Message(8, Some(7), Presentation(Some(proof))), 1);
    var s2 := Do(s1, c1, sha256).store;
    ss, cs := [s0, s1, s2], [c0, c1];
  }
}
