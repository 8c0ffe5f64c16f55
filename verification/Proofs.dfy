/** The steps of present-proof, as functions on one agent's store (src/modules/proofs/services/ProofService.ts). */
module Proofs {
  import opened Results
  import opened Exchange
  import opened Encoding
  import opened ProofRequests
  import opened ProofSelection

  // What the wallet makes is symbolic: a proof answers one request with the chosen credentials, and
  // reveals attributes whose encoded values the verifier checks itself.
  datatype Proof = Proof(request: ProofRequest, chosen: RequestedCredentials, revealed: seq<Revealed>)

  datatype Body =
    | ProposePresentation(preview: PresentationPreview)
    | RequestPresentation(indyRequest: Option<ProofRequest>)
    | Presentation(indyProof: Option<Proof>)
    | PresentationAck

  datatype State =
    | ProposalSent | ProposalReceived | RequestSent | RequestReceived | PresentationSent | PresentationReceived | Done

  type Msg = Message<Body>

  datatype Data = Data(proposalMessage: Option<Msg>, requestMessage: Option<Msg>, presentationMessage: Option<Msg>,
                       isVerified: Option<bool>)

  const NO_DATA := Data(None, None, None, None)

  type ProofRecord = Record<State, Data>
  type ProofStore = Store<State, Data>
  type ProofOutcome = Outcome<State, Data, Body>

  // ----- create -----------------------------------------------------------------------------

  function CreateProposal(s: ProofStore, connection: Connection, id: nat, messageId: nat, preview: PresentationPreview)
    : Result<Created<State, Data, Body>, Exchange.Error>
  {
    if !connection.ready then Err(NotReady)
    else
      var m := Message(messageId, None, ProposePresentation(preview));
      var r := Record(id, connection.id, m.ThreadId(), ProposalSent, NO_DATA.(proposalMessage := Some(m)));
      Ok(Created(Save(s, r), r, m))
  }

  function CreateProposalAsResponse(s: ProofStore, r: ProofRecord, messageId: nat, preview: PresentationPreview)
    : Result<Created<State, Data, Body>, Exchange.Error>
  {
    if r.state != RequestReceived then Err(InvalidState)
    else
      var m := Message(messageId, Some(r.threadId), ProposePresentation(preview));
      Advance(s, r.(data := r.data.(proposalMessage := Some(m))), ProposalSent, m)
  }

  function CreateRequest(s: ProofStore, connection: Connection, id: nat, messageId: nat, request: ProofRequest)
    : Result<Created<State, Data, Body>, Exchange.Error>
  {
    if !connection.ready then Err(NotReady)
    else
      var m := Message(messageId, None, RequestPresentation(Some(request)));
      var r := Record(id, connection.id, m.ThreadId(), RequestSent, NO_DATA.(requestMessage := Some(m)));
      Ok(Created(Save(s, r), r, m))
  }

  function CreateRequestAsResponse(s: ProofStore, r: ProofRecord, messageId: nat, request: ProofRequest)
    : Result<Created<State, Data, Body>, Exchange.Error>
  {
    if r.state != ProposalReceived then Err(InvalidState)
    else
      var m := Message(messageId, Some(r.threadId), RequestPresentation(Some(request)));
      Advance(s, r.(data := r.data.(requestMessage := Some(m))), RequestSent, m)
  }

  /** The proof request attached to the record's request message, if there is one. */
  function AttachedRequest(r: ProofRecord): Option<ProofRequest> {
    if r.data.requestMessage.Some? && r.data.requestMessage.value.body.RequestPresentation?
    then r.data.requestMessage.value.body.indyRequest else None
  }

  function CreatePresentation(s: ProofStore, r: ProofRecord, messageId: nat, chosen: RequestedCredentials,
                              revealed: Option<seq<Revealed>>)
    : Result<Created<State, Data, Body>, Exchange.Error>
  {
    if r.state != RequestReceived then Err(InvalidState)
    else if AttachedRequest(r).None? then Err(MissingAttachment)
    else if revealed.None? then Err(WalletRejects)
    else
      var proof := Proof(AttachedRequest(r).value, chosen, revealed.value);
      var m := Message(messageId, Some(r.threadId), Presentation(Some(proof)));
      Advance(s, r.(data := r.data.(presentationMessage := Some(m))), PresentationSent, m)
  }

  function CreateAck(s: ProofStore, r: ProofRecord, messageId: nat): Result<Created<State, Data, Body>, Exchange.Error> {
    if r.state != PresentationReceived then Err(InvalidState)
    else Advance(s, r, Done, Message(messageId, Some(r.threadId), PresentationAck))
  }

  // ----- process ----------------------------------------------------------------------------

  ghost function ProcessProposal(s: ProofStore, connection: Option<Connection>, m: Msg, newId: nat)
    : Result<Changed<State, Data>, Exchange.Error>
    requires m.body.ProposePresentation?
  {
    if AssertReady(connection).Some? then Err(AssertReady(connection).value)
    else if Accepts(s, m.ThreadId(), RequestSent, connection.value) then
      var r := GetByThreadId(s, m.ThreadId()).value;
      Ok(UpdateState(s, r.(data := r.data.(proposalMessage := Some(m))), ProposalReceived))
    else
      var r := Record(newId, connection.value.id, m.ThreadId(), ProposalReceived, NO_DATA.(proposalMessage := Some(m)));
      Ok(Changed(Save(s, r), r))
  }

  ghost function ProcessRequest(s: ProofStore, connection: Option<Connection>, m: Msg, newId: nat)
    : Result<Changed<State, Data>, Exchange.Error>
    requires m.body.RequestPresentation?
  {
    if AssertReady(connection).Some? then Err(AssertReady(connection).value)
    else if m.body.indyRequest.None? then Err(MissingAttachment)
    else if Accepts(s, m.ThreadId(), ProposalSent, connection.value) then
      var r := GetByThreadId(s, m.ThreadId()).value;
      Ok(UpdateState(s, r.(data := r.data.(requestMessage := Some(m))), RequestReceived))
    else
      var r := Record(newId, connection.value.id, m.ThreadId(), RequestReceived, NO_DATA.(requestMessage := Some(m)));
      Ok(Changed(Save(s, r), r))
  }

  ghost predicate EncodingsPass(revealed: seq<Revealed>, sha256: Digest) {
    forall r :: r in revealed ==> CheckValidEncoding(r.raw, r.encoded, sha256)
  }

  /** The wallet accepts a proof for exactly the request it was made for. */
  predicate WalletVerifies(proof: Proof, request: ProofRequest) {
    proof.request == request
  }

  ghost function ProcessPresentation(s: ProofStore, connection: Option<Connection>, m: Msg, sha256: Digest)
    : Result<Changed<State, Data>, Exchange.Error>
    requires m.body.Presentation?
  {
    if AssertReady(connection).Some? then Err(AssertReady(connection).value)
    else
      match GetByThreadId(s, m.ThreadId())
      case Err(e) => Err(e)
      case Ok(r) =>
        if r.state != RequestSent then Err(InvalidState)
        else if m.body.indyProof.None? then Err(MissingAttachment)
        else if AttachedRequest(r).None? then Err(MissingAttachment)
        else if !EncodingsPass(m.body.indyProof.value.revealed, sha256) then Err(InvalidEncoding)
        else
          var isValid := WalletVerifies(m.body.indyProof.value, AttachedRequest(r).value);
          Ok(UpdateState(s, r.(data := r.data.(isVerified := Some(isValid), presentationMessage := Some(m))), PresentationReceived))
  }

  ghost function ProcessAck(s: ProofStore, connection: Option<Connection>, m: Msg): Result<Changed<State, Data>, Exchange.Error>
    requires m.body.PresentationAck?
  {
    if AssertReady(connection).Some? then Err(AssertReady(connection).value)
    else
      match GetByThreadId(s, m.ThreadId())
      case Err(e) => Err(e)
      case Ok(r) =>
        if r.state != PresentationSent then Err(InvalidState)
        else Ok(UpdateState(s, r, Done))
  }

  // ----- entry points -----------------------------------------------------------------------

  /** The request that accepts the record's proposal is built from that proposal. */
  ghost function AcceptProposalOf(s: ProofStore, r: ProofRecord, messageId: nat, name: string, version: string, nonce: string,
                                  uuid: nat -> string): Result<Created<State, Data, Body>, Exchange.Error>
  {
    if r.data.proposalMessage.None? || !r.data.proposalMessage.value.body.ProposePresentation? then Err(MissingProposal)
    else
      CreateRequestAsResponse(s, r, messageId, RequestFrom(r.data.proposalMessage.value.body.preview, name, version, nonce, uuid))
  }

  // What a user or the network can make one agent do. Fresh ids come with the call, and so do the values a
  // proof reveals (none if the wallet makes no proof); a call that names a record fetches it from the store
  // and acts on it at once.
  datatype Call =
    | Propose(connection: Connection, newId: nat, messageId: nat, preview: PresentationPreview)
    | CounterPropose(id: nat, messageId: nat, preview: PresentationPreview)
    | Request(connection: Connection, newId: nat, messageId: nat, request: ProofRequest)
    | CounterRequest(id: nat, messageId: nat, request: ProofRequest)
    | AcceptProposal(id: nat, messageId: nat, name: string, version: string, nonce: string, uuid: nat -> string)
    | AcceptRequest(id: nat, messageId: nat, chosen: RequestedCredentials, revealed: Option<seq<Revealed>>)
    | AcceptPresentation(id: nat, messageId: nat)
    | Inbound(from: Option<Connection>, message: Msg, newId: nat)

  ghost function Handle(s: ProofStore, from: Option<Connection>, m: Msg, newId: nat, sha256: Digest): ProofOutcome {
    match m.body
    case ProposePresentation(_) => Quiet(s, ProcessProposal(s, from, m, newId))
    case RequestPresentation(_) => Quiet(s, ProcessRequest(s, from, m, newId))
    case Presentation(_) => Quiet(s, ProcessPresentation(s, from, m, sha256))
    case PresentationAck => Quiet(s, ProcessAck(s, from, m))
  }

  /** Acts on a stored record on behalf of a user. */
  ghost function Accept(s: ProofStore, r: ProofRecord, c: Call): ProofOutcome
    requires !c.Propose? && !c.Request? && !c.Inbound?
  {
    match c
    case CounterPropose(_, m, preview) => Reply(s, CreateProposalAsResponse(s, r, m, preview))
    case CounterRequest(_, m, request) => Reply(s, CreateRequestAsResponse(s, r, m, request))
    case AcceptProposal(_, m, name, version, nonce, uuid) => Reply(s, AcceptProposalOf(s, r, m, name, version, nonce, uuid))
    case AcceptRequest(_, m, chosen, revealed) => Reply(s, CreatePresentation(s, r, m, chosen, revealed))
    case AcceptPresentation(_, m) => Reply(s, CreateAck(s, r, m))
  }

  ghost function Do(s: ProofStore, c: Call, sha256: Digest): ProofOutcome {
    match c
    case Propose(connection, id, m, preview) => Reply(s, CreateProposal(s, connection, id, m, preview))
    case Request(connection, id, m, request) => Reply(s, CreateRequest(s, connection, id, m, request))
    case Inbound(from, m, newId) => Handle(s, from, m, newId, sha256)
    case _ => if c.id in s.records then Accept(s, s.records[c.id], c) else Outcome(s, None, Some(NotFound))
  }
}
