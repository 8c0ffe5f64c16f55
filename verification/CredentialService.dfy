/** The credential service as it runs. Each method is held to the function of the same name in Credentials,
    and leaves the store alone when it fails. Fresh identifiers and what the wallet makes come in as
    parameters. */
module CredentialServices {
  import opened Results
  import opened Encoding
  import X = Exchange
  import C = Credentials
  import RecordStores

  type Reply = Result<(C.CredentialRecord, C.Msg), X.Error>

  class CredentialService {
    const repository: RecordStores.RecordStore<C.State, C.Data>

    constructor (repository: RecordStores.RecordStore<C.State, C.Data>)
      ensures this.repository == repository
    {
      this.repository := repository;
    }

    // ----- first messages and answers ---------------------------------------------------------

    method CreateProposal(connection: X.Connection, id: nat, messageId: nat, proposal: C.Proposal) returns (reply: Reply)
      modifies repository
      ensures X.Made(old(repository.State()), C.CreateProposal(old(repository.State()), connection, id, messageId, proposal),
                     reply, repository.State())
    {
      if !connection.ready { return Err(X.NotReady); }
      var message := X.Message(messageId, None, C.ProposeCredential(proposal));
      var record := X.Record(id, connection.id, message.ThreadId(), C.ProposalSent,
                             C.NO_DATA.(proposalMessage := Some(message)));
      repository.Save(record);
      return Ok((record, message));
    }

    method CreateProposalAsResponse(record: C.CredentialRecord, messageId: nat, proposal: C.Proposal) returns (reply: Reply)
      modifies repository
      ensures X.Made(old(repository.State()), C.CreateProposalAsResponse(old(repository.State()), record, messageId, proposal),
                     reply, repository.State())
    {
      if record.state != C.OfferReceived { return Err(X.InvalidState); }
      var message := X.Message(messageId, Some(record.threadId), C.ProposeCredential(proposal));
      var r := record.(data := record.data.(proposalMessage := Some(message)));
      r := repository.UpdateState(r, C.ProposalSent);
      return Ok((r, message));
    }

    method CreateOffer(connection: X.Connection, id: nat, messageId: nat, template: C.Template, nonce: Option<nat>)
      returns (reply: Reply)
      modifies repository
      ensures X.Made(old(repository.State()), C.CreateOffer(old(repository.State()), connection, id, messageId, template, nonce),
                     reply, repository.State())
      ensures connection.ready && nonce.Some? ==> reply.Ok?
      ensures reply.Ok? ==>
                reply.value.1 == X.Message(messageId, None, C.OfferCredential(
                  template.preview, Some(C.CredOffer(template.credentialDefinitionId, nonce.GetOr(0)))))
                && reply.value.0 == X.Record(id, connection.id, messageId, C.OfferSent,
                                             C.Data(None, Some(reply.value.1), None, None, None, None))
    {
      if !connection.ready { return Err(X.NotReady); }
      if nonce.None? { return Err(X.WalletRejects); }
      var credOffer := C.CredOffer(template.credentialDefinitionId, nonce.value);
      var message := X.Message(messageId, None, C.OfferCredential(template.preview, Some(credOffer)));
      var record := X.Record(id, connection.id, message.id, C.OfferSent, C.NO_DATA.(offerMessage := Some(message)));
      repository.Save(record);
      return Ok((record, message));
    }

    method CreateOfferAsResponse(record: C.CredentialRecord, messageId: nat, template: C.Template, nonce: Option<nat>)
      returns (reply: Reply)
      modifies repository
      ensures X.Made(old(repository.State()), C.CreateOfferAsResponse(old(repository.State()), record, messageId, template, nonce),
                     reply, repository.State())
      ensures reply.Ok? ==>
                reply.value.1 == X.Message(messageId, Some(record.threadId), C.OfferCredential(
                  template.preview, Some(C.CredOffer(template.credentialDefinitionId, nonce.GetOr(0)))))
                && reply.value.0.data.offerMessage == Some(reply.value.1)
    {
      if record.state != C.ProposalReceived { return Err(X.InvalidState); }
      if nonce.None? { return Err(X.WalletRejects); }
      var credOffer := C.CredOffer(template.credentialDefinitionId, nonce.value);
      var message := X.Message(messageId, Some(record.threadId), C.OfferCredential(template.preview, Some(credOffer)));
      var r := record.(data := record.data.(offerMessage := Some(message)));
      r := repository.UpdateState(r, C.OfferSent);
      return Ok((r, message));
    }

    method CreateRequest(record: C.CredentialRecord, messageId: nat, proverDid: nat, nonce: Option<nat>) returns (reply: Reply)
      modifies repository
      ensures X.Made(old(repository.State()), C.CreateRequest(old(repository.State()), record, messageId, proverDid, nonce),
                     reply, repository.State())
    {
      if record.state != C.OfferReceived { return Err(X.InvalidState); }
      var offer := C.AttachedOffer(record);
      if offer.None? { return Err(X.MissingAttachment); }
      if nonce.None? { return Err(X.WalletRejects); }
      var request := C.CredRequest(proverDid, offer.value, nonce.value);
      var message := X.Message(messageId, Some(record.threadId), C.RequestCredential(Some(request)));
      var r := record.(data := record.data.(requestMetadata := Some(C.Metadata(request))));
      r := r.(data := r.data.(requestMessage := Some(message)));
      r := repository.UpdateState(r, C.RequestSent);
      return Ok((r, message));
    }

    method CreateCredential(record: C.CredentialRecord, messageId: nat, walletIssues: bool, sha256: Digest) returns (reply: Reply)
      modifies repository
      ensures X.Made(old(repository.State()), C.CreateCredential(old(repository.State()), record, messageId, walletIssues, sha256),
                     reply, repository.State())
    {
      if record.state != C.RequestReceived { return Err(X.InvalidState); }
      var offer, request := C.AttachedOffer(record), C.AttachedRequest(record);
      if offer.None? { return Err(X.MissingAttachment); }
      if request.None? { return Err(X.MissingAttachment); }
      var values := ConvertPreviewToValues(record.data.offerMessage.value.body.preview, sha256);
      if !walletIssues { return Err(X.WalletRejects); }
      var credential := C.Credential(offer.value, request.value, values);
      var message := X.Message(messageId, Some(record.threadId), C.IssueCredential(Some(credential)));
      var r := record.(data := record.data.(credentialMessage := Some(message)));
      r := repository.UpdateState(r, C.CredentialIssued);
      return Ok((r, message));
    }

    method CreateAck(record: C.CredentialRecord, messageId: nat) returns (reply: Reply)
      modifies repository
      ensures X.Made(old(repository.State()), C.CreateAck(old(repository.State()), record, messageId), reply, repository.State())
    {
      if record.state != C.CredentialReceived { return Err(X.InvalidState); }
      var message := X.Message(messageId, Some(record.threadId), C.CredentialAck);
      var r := repository.UpdateState(record, C.Done);
      return Ok((r, message));
    }

    // ----- inbound messages -------------------------------------------------------------------

    method ProcessProposal(connection: Option<X.Connection>, message: C.Msg, newId: nat)
      returns (result: Result<C.CredentialRecord, X.Error>)
      requires message.body.ProposeCredential?
      modifies repository
      ensures X.Processed(old(repository.State()), C.ProcessProposal(old(repository.State()), connection, message, newId),
                          result, repository.State())
    {
      if connection.Some? && !connection.value.ready { return Err(X.NotReady); }
      if connection.None? { return Err(X.NoConnection); }
      var found := repository.GetByThreadId(message.ThreadId());
      var r;
      if found.Ok? && found.value.state == C.OfferSent && found.value.connectionId == connection.value.id {
        r := found.value.(data := found.value.data.(proposalMessage := Some(message)));
        r := repository.UpdateState(r, C.ProposalReceived);
      } else {
        r := X.Record(newId, connection.value.id, message.ThreadId(), C.ProposalReceived,
                      C.NO_DATA.(proposalMessage := Some(message)));
        repository.Save(r);
      }
      return Ok(r);
    }

    method ProcessOffer(connection: Option<X.Connection>, message: C.Msg, newId: nat)
      returns (result: Result<C.CredentialRecord, X.Error>)
      requires message.body.OfferCredential?
      modifies repository
      ensures X.Processed(old(repository.State()), C.ProcessOffer(old(repository.State()), connection, message, newId),
                          result, repository.State())
    {
      if connection.Some? && !connection.value.ready { return Err(X.NotReady); }
      if connection.None? { return Err(X.NoConnection); }
      if message.body.indyOffer.None? { return Err(X.MissingAttachment); }
      var found := repository.GetByThreadId(message.ThreadId());
      var r;
      if found.Ok? && found.value.state == C.ProposalSent && found.value.connectionId == connection.value.id {
        r := found.value.(data := found.value.data.(offerMessage := Some(message)));
        r := repository.UpdateState(r, C.OfferReceived);
      } else {
        r := X.Record(newId, connection.value.id, message.id, C.OfferReceived, C.NO_DATA.(offerMessage := Some(message)));
        repository.Save(r);
      }
      return Ok(r);
    }

    method ProcessRequest(connection: Option<X.Connection>, message: C.Msg)
      returns (result: Result<C.CredentialRecord, X.Error>)
      requires message.body.RequestCredential?
      modifies repository
      ensures X.Processed(old(repository.State()), C.ProcessRequest(old(repository.State()), connection, message),
                          result, repository.State())
    {
      if connection.Some? && !connection.value.ready { return Err(X.NotReady); }
      if connection.None? { return Err(X.NoConnection); }
      if message.body.indyRequest.None? { return Err(X.MissingAttachment); }
      var found := repository.GetByThreadId(message.ThreadId());
      if found.Err? { return Err(found.error); }
      var r := found.value;
      if r.state != C.OfferSent { return Err(X.InvalidState); }
      if r.connectionId != connection.value.id { return Err(X.WrongConnection); }
      r := r.(data := r.data.(requestMessage := Some(message)));
      r := repository.UpdateState(r, C.RequestReceived);
      return Ok(r);
    }

    method ProcessCredential(connection: Option<X.Connection>, message: C.Msg, newId: nat)
      returns (result: Result<C.CredentialRecord, X.Error>)
      requires message.body.IssueCredential?
      modifies repository
      ensures X.Processed(old(repository.State()), C.ProcessCredential(old(repository.State()), connection, message, newId),
                          result, repository.State())
    {
      if connection.Some? && !connection.value.ready { return Err(X.NotReady); }
      if connection.None? { return Err(X.NoConnection); }
      var found := repository.GetByThreadId(message.ThreadId());
      if found.Err? { return Err(found.error); }
      var r := found.value;
      if r.state != C.RequestSent { return Err(X.InvalidState); }
      if r.data.requestMetadata.None? { return Err(X.MissingMetadata); }
      if message.body.indyCredential.None? { return Err(X.MissingAttachment); }
      if !C.WalletStores(r.data.requestMetadata.value, message.body.indyCredential.value) { return Err(X.WalletRejects); }
      r := r.(data := r.data.(credentialId := Some(newId)));
      r := r.(data := r.data.(credentialMessage := Some(message)));
      r := repository.UpdateState(r, C.CredentialReceived);
      return Ok(r);
    }

    method ProcessAck(connection: Option<X.Connection>, message: C.Msg)
      returns (result: Result<C.CredentialRecord, X.Error>)
      requires message.body.CredentialAck?
      modifies repository
      ensures X.Processed(old(repository.State()), C.ProcessAck(old(repository.State()), connection, message),
                          result, repository.State())
    {
      if connection.Some? && !connection.value.ready { return Err(X.NotReady); }
      if connection.None? { return Err(X.NoConnection); }
      var found := repository.GetByThreadId(message.ThreadId());
      if found.Err? { return Err(found.error); }
      if found.value.state != C.CredentialIssued { return Err(X.InvalidState); }
      var r := repository.UpdateState(found.value, C.Done);
      return Ok(r);
    }
  }

  /** The module call that answers a proposal: it takes the offer's template from the stored proposal. */
  class CredentialsModule {
    const credentialService: CredentialService

    constructor (credentialService: CredentialService)
      ensures this.credentialService == credentialService
    {
      this.credentialService := credentialService;
    }

    method AcceptProposal(credentialRecordId: nat, messageId: nat, passed: Option<string>, nonce: Option<nat>)
      returns (reply: Reply)
      modifies credentialService.repository
      ensures var s := old(credentialService.repository.State());
              X.Made(s, if credentialRecordId !in s.records then Err(X.NotFound)
                        else C.AcceptProposalOf(s, s.records[credentialRecordId], messageId, passed, nonce),
                     reply, credentialService.repository.State())
    {
      if credentialRecordId !in credentialService.repository.records { return Err(X.NotFound); }
      var credentialRecord := credentialService.repository.records[credentialRecordId];
      var message := credentialRecord.data.proposalMessage;
      if message.None? || !message.value.body.ProposeCredential? || message.value.body.proposal.preview.None? {
        return Err(X.MissingProposal);
      }
      var proposal := message.value.body.proposal;
      var credentialDefinitionId := passed;
      if credentialDefinitionId.None? { credentialDefinitionId := proposal.credentialDefinitionId; }
      if credentialDefinitionId.GetOr("") == "" { return Err(X.MissingDefinition); }
      reply := credentialService.CreateOfferAsResponse(
        credentialRecord, messageId, C.Template(proposal.preview.value, credentialDefinitionId.value), nonce);
    }
  }
}
