/** The steps of issue-credential, as functions on one agent's store
    (src/modules/credentials/services/CredentialService.ts). */
module Credentials {
  import opened Results
  import opened Exchange
  import opened Encoding
  import Storage

  // What the wallet makes is symbolic: a request answers one offer, a credential one request, and the
  // metadata kept by the holder says which request it made.
  datatype CredOffer = CredOffer(credentialDefinitionId: string, nonce: nat)
  datatype CredRequest = CredRequest(proverDid: nat, offer: CredOffer, nonce: nat)
  datatype Metadata = Metadata(request: CredRequest)
  datatype Credential = Credential(offer: CredOffer, request: CredRequest, values: CredentialValues)

  // A proposal need not say anything; an offer is made from a template.
  datatype Proposal = Proposal(preview: Option<Preview>, credentialDefinitionId: Option<string>)
  datatype Template = Template(preview: Preview, credentialDefinitionId: string)

  datatype Body =
    | ProposeCredential(proposal: Proposal)
    | OfferCredential(preview: Preview, indyOffer: Option<CredOffer>)
    | RequestCredential(indyRequest: Option<CredRequest>)
    | IssueCredential(indyCredential: Option<Credential>)
    | CredentialAck

  datatype State =
    | ProposalSent | ProposalReceived | OfferSent | OfferReceived | RequestSent | RequestReceived
    | CredentialIssued | CredentialReceived | Done

  type Msg = Message<Body>

  datatype Data = Data(proposalMessage: Option<Msg>, offerMessage: Option<Msg>, requestMessage: Option<Msg>,
                       credentialMessage: Option<Msg>, requestMetadata: Option<Metadata>, credentialId: Option<nat>)

  const NO_DATA := Data(None, None, None, None, None, None)

  type CredentialRecord = Record<State, Data>
  type CredentialStore = Store<State, Data>
  type CredentialOutcome = Outcome<State, Data, Body>

  // ----- create -----------------------------------------------------------------------------

  function CreateProposal(s: CredentialStore, connection: Connection, id: nat, messageId: nat, proposal: Proposal)
    : Result<Created<State, Data, Body>, Error>
  {
    if !connection.ready then Err(NotReady)
    else
      var m := Message(messageId, None, ProposeCredential(proposal));
      var r := Record(id, connection.id, m.ThreadId(), ProposalSent, NO_DATA.(proposalMessage := Some(m)));
      Ok(Created(Save(s, r), r, m))
  }

  function CreateProposalAsResponse(s: CredentialStore, r: CredentialRecord, messageId: nat, proposal: Proposal)
    : Result<Created<State, Data, Body>, Error>
  {
    if r.state != OfferReceived then Err(InvalidState)
    else
      var m := Message(messageId, Some(r.threadId), ProposeCredential(proposal));
      Advance(s, r.(data := r.data.(proposalMessage := Some(m))), ProposalSent, m)
  }

  // A nonce is what the wallet contributes to what it makes; there is none if it refuses to make it.

  function CreateOffer(s: CredentialStore, connection: Connection, id: nat, messageId: nat, template: Template, nonce: Option<nat>)
    : Result<Created<State, Data, Body>, Error>
  {
    if !connection.ready then Err(NotReady)
    else if nonce.None? then Err(WalletRejects)
    else
      var indyOffer := CredOffer(template.credentialDefinitionId, nonce.value);
      var m := Message(messageId, None, OfferCredential(template.preview, Some(indyOffer)));
      var r := Record(id, connection.id, m.id, OfferSent, NO_DATA.(offerMessage := Some(m)));
      Ok(Created(Save(s, r), r, m))
  }

  function CreateOfferAsResponse(s: CredentialStore, r: CredentialRecord, messageId: nat, template: Template, nonce: Option<nat>)
    : Result<Created<State, Data, Body>, Error>
  {
    if r.state != ProposalReceived then Err(InvalidState)
    else if nonce.None? then Err(WalletRejects)
    else
      var indyOffer := CredOffer(template.credentialDefinitionId, nonce.value);
      var m := Message(messageId, Some(r.threadId), OfferCredential(template.preview, Some(indyOffer)));
      Advance(s, r.(data := r.data.(offerMessage := Some(m))), OfferSent, m)
  }

  /** The offer attached to the record's offer message, if there is one. */
  function AttachedOffer(r: CredentialRecord): Option<CredOffer> {
    if r.data.offerMessage.Some? && r.data.offerMessage.value.body.OfferCredential?
    then r.data.offerMessage.value.body.indyOffer else None
  }

  function AttachedRequest(r: CredentialRecord): Option<CredRequest> {
    if r.data.requestMessage.Some? && r.data.requestMessage.value.body.RequestCredential?
    then r.data.requestMessage.value.body.indyRequest else None
  }

  function CreateRequest(s: CredentialStore, r: CredentialRecord, messageId: nat, proverDid: nat, nonce: Option<nat>)
    : Result<Created<State, Data, Body>, Error>
  {
    if r.state != OfferReceived then Err(InvalidState)
    else if AttachedOffer(r).None? then Err(MissingAttachment)
    else if nonce.None? then Err(WalletRejects)
    else
      var request := CredRequest(proverDid, AttachedOffer(r).value, nonce.value);
      var m := Message(messageId, Some(r.threadId), RequestCredential(Some(request)));
      Advance(s, r.(data := r.data.(requestMetadata := Some(Metadata(request)), requestMessage := Some(m))), RequestSent, m)
  }

  function CreateCredential(s: CredentialStore, r: CredentialRecord, messageId: nat, walletIssues: bool, sha256: Digest)
    : Result<Created<State, Data, Body>, Error>
  {
    if r.state != RequestReceived then Err(InvalidState)
    else if AttachedOffer(r).None? || AttachedRequest(r).None? then Err(MissingAttachment)
    else if !walletIssues then Err(WalletRejects)
    else
      var values := ConvertPreviewToValues(r.data.offerMessage.value.body.preview, sha256);
      var credential := Credential(AttachedOffer(r).value, AttachedRequest(r).value, values);
      var m := Message(messageId, Some(r.threadId), IssueCredential(Some(credential)));
      Advance(s, r.(data := r.data.(credentialMessage := Some(m))), CredentialIssued, m)
  }

  function CreateAck(s: CredentialStore, r: CredentialRecord, messageId: nat): Result<Created<State, Data, Body>, Error> {
    if r.state != CredentialReceived then Err(InvalidState)
    else Advance(s, r, Done, Message(messageId, Some(r.threadId), CredentialAck))
  }

  // ----- process ----------------------------------------------------------------------------

  ghost function ProcessProposal(s: CredentialStore, connection: Option<Connection>, m: Msg, newId: nat)
    : Result<Changed<State, Data>, Error>
    requires m.body.ProposeCredential?
  {
    if AssertReady(connection).Some? then Err(AssertReady(connection).value)
    else if Accepts(s, m.ThreadId(), OfferSent, connection.value) then
      var r := GetByThreadId(s, m.ThreadId()).value;
      Ok(UpdateState(s, r.(data := r.data.(proposalMessage := Some(m))), ProposalReceived))
    else
      var r := Record(newId, connection.value.id, m.ThreadId(), ProposalReceived, NO_DATA.(proposalMessage := Some(m)));
      Ok(Changed(Save(s, r), r))
  }

  ghost function ProcessOffer(s: CredentialStore, connection: Option<Connection>, m: Msg, newId: nat)
    : Result<Changed<State, Data>, Error>
    requires m.body.OfferCredential?
  {
    if AssertReady(connection).Some? then Err(AssertReady(connection).value)
    else if m.body.indyOffer.None? then Err(MissingAttachment)
    else if Accepts(s, m.ThreadId(), ProposalSent, connection.value) then
      var r := GetByThreadId(s, m.ThreadId()).value;
      Ok(UpdateState(s, r.(data := r.data.(offerMessage := Some(m))), OfferReceived))
    else
      // The new record is filed under the message's own id, not under its thread id.
      var r := Record(newId, connection.value.id, m.id, OfferReceived, NO_DATA.(offerMessage := Some(m)));
      Ok(Changed(Save(s, r), r))
  }

  ghost function ProcessRequest(s: CredentialStore, connection: Option<Connection>, m: Msg): Result<Changed<State, Data>, Error>
    requires m.body.RequestCredential?
  {
    if AssertReady(connection).Some? then Err(AssertReady(connection).value)
    else if m.body.indyRequest.None? then Err(MissingAttachment)
    else
      match GetByThreadId(s, m.ThreadId())
      case Err(e) => Err(e)
      case Ok(r) =>
        if r.state != OfferSent then Err(InvalidState)
        else if r.connectionId != connection.value.id then Err(WrongConnection)
        else Ok(UpdateState(s, r.(data := r.data.(requestMessage := Some(m))), RequestReceived))
  }

  /** The wallet stores a credential only with the metadata of the request it was issued for. */
  predicate WalletStores(metadata: Metadata, credential: Credential) {
    credential.request == metadata.request
  }

  ghost function ProcessCredential(s: CredentialStore, connection: Option<Connection>, m: Msg, newId: nat)
    : Result<Changed<State, Data>, Error>
    requires m.body.IssueCredential?
  {
    if AssertReady(connection).Some? then Err(AssertReady(connection).value)
    else
      match GetByThreadId(s, m.ThreadId())
      case Err(e) => Err(e)
      case Ok(r) =>
        if r.state != RequestSent then Err(InvalidState)
        else if r.data.requestMetadata.None? then Err(MissingMetadata)
        else if m.body.indyCredential.None? then Err(MissingAttachment)
        else if !WalletStores(r.data.requestMetadata.value, m.body.indyCredential.value) then Err(WalletRejects)
        else Ok(UpdateState(s, r.(data := r.data.(credentialId := Some(newId), credentialMessage := Some(m))), CredentialReceived))
  }

  ghost function ProcessAck(s: CredentialStore, connection: Option<Connection>, m: Msg): Result<Changed<State, Data>, Error>
    requires m.body.CredentialAck?
  {
    if AssertReady(connection).Some? then Err(AssertReady(connection).value)
    else
      match GetByThreadId(s, m.ThreadId())
      case Err(e) => Err(e)
      case Ok(r) =>
        if r.state != CredentialIssued then Err(InvalidState)
        else Ok(UpdateState(s, r, Done))
  }

  // ----- entry points -----------------------------------------------------------------------

  /** The template for the offer that accepts the record's proposal: the proposed preview, and the definition
      id that is passed or else proposed. */
  function AcceptedTemplate(r: CredentialRecord, passed: Option<string>): Result<Template, Error> {
    if r.data.proposalMessage.None? || !r.data.proposalMessage.value.body.ProposeCredential? then Err(MissingProposal)
    else
      var proposal := r.data.proposalMessage.value.body.proposal;
      var credentialDefinitionId := if passed.Some? then passed else proposal.credentialDefinitionId;
      if proposal.preview.None? then Err(MissingProposal)
      else if credentialDefinitionId.GetOr("") == "" then Err(MissingDefinition)
      else Ok(Template(proposal.preview.value, credentialDefinitionId.value))
  }

  function AcceptProposalOf(s: CredentialStore, r: CredentialRecord, messageId: nat, passed: Option<string>, nonce: Option<nat>)
    : Result<Created<State, Data, Body>, Error>
  {
    match AcceptedTemplate(r, passed)
    case Err(e) => Err(e)
    case Ok(template) => CreateOfferAsResponse(s, r, messageId, template, nonce)
  }

  // What a user or the network can make one agent do. Fresh ids come with the call; a call that names a
  // record fetches it from the store and acts on it at once.
  datatype Call =
    | Propose(connection: Connection, newId: nat, messageId: nat, proposal: Proposal)
    | CounterPropose(id: nat, messageId: nat, proposal: Proposal)
    | Offer(connection: Connection, newId: nat, messageId: nat, template: Template, nonce: Option<nat>)
    | CounterOffer(id: nat, messageId: nat, template: Template, nonce: Option<nat>)
    | AcceptProposal(id: nat, messageId: nat, credentialDefinitionId: Option<string>, nonce: Option<nat>)
    | AcceptOffer(id: nat, messageId: nat, proverDid: nat, nonce: Option<nat>)
    | AcceptRequest(id: nat, messageId: nat, walletIssues: bool)
    | AcceptCredential(id: nat, messageId: nat)
    | Inbound(from: Option<Connection>, message: Msg, newId: nat)

  ghost function Handle(s: CredentialStore, from: Option<Connection>, m: Msg, newId: nat): CredentialOutcome {
    match m.body
    case ProposeCredential(_) => Quiet(s, ProcessProposal(s, from, m, newId))
    case OfferCredential(_, _) => Quiet(s, ProcessOffer(s, from, m, newId))
    case RequestCredential(_) => Quiet(s, ProcessRequest(s, from, m))
    case IssueCredential(_) => Quiet(s, ProcessCredential(s, from, m, newId))
    case CredentialAck => Quiet(s, ProcessAck(s, from, m))
  }

  /** Acts on a stored record on behalf of a user. */
  function Accept(s: CredentialStore, r: CredentialRecord, c: Call, sha256: Digest): CredentialOutcome
    requires !c.Propose? && !c.Offer? && !c.Inbound?
  {
    match c
    case CounterPropose(_, m, proposal) => Reply(s, CreateProposalAsResponse(s, r, m, proposal))
    case CounterOffer(_, m, template, nonce) => Reply(s, CreateOfferAsResponse(s, r, m, template, nonce))
    case AcceptProposal(_, m, definition, nonce) => Reply(s, AcceptProposalOf(s, r, m, definition, nonce))
    case AcceptOffer(_, m, did, nonce) => Reply(s, CreateRequest(s, r, m, did, nonce))
    case AcceptRequest(_, m, walletIssues) => Reply(s, CreateCredential(s, r, m, walletIssues, sha256))
    case AcceptCredential(_, m) => Reply(s, CreateAck(s, r, m))
  }

  ghost function Do(s: CredentialStore, c: Call, sha256: Digest): CredentialOutcome {
    match c
    case Propose(connection, id, m, proposal) => Reply(s, CreateProposal(s, connection, id, m, proposal))
    case Offer(connection, id, m, template, nonce) => Reply(s, CreateOffer(s, connection, id, m, template, nonce))
    case Inbound(from, m, newId) => Handle(s, from, m, newId)
    case _ => if c.id in s.records then Accept(s, s.records[c.id], c, sha256) else Outcome(s, None, Some(NotFound))
  }
}
