/** The proof service as it runs. Each method is held to the function of the same name in Proofs, and leaves
    the store alone when it fails. Fresh identifiers and what the wallet makes come in as parameters. */
module ProofServices {
  import opened Results
  import opened Encoding
  import opened ProofRequests
  import opened ProofSelection
  import X = Exchange
  import P = Proofs
  import RecordStores

  type Reply = Result<(P.ProofRecord, P.Msg), X.Error>

  /** Checks the raw values against their encodings, and only then asks the wallet. */
  method VerifyProof(proof: P.Proof, request: ProofRequest, sha256: Digest) returns (result: Result<bool, X.Error>)
    ensures result == if P.EncodingsPass(proof.revealed, sha256) then Ok(P.WalletVerifies(proof, request)) else Err(X.InvalidEncoding)
    ensures (exists r :: r in proof.revealed && !ReadsAs(r.raw, r.encoded, sha256)) ==> result == Err(X.InvalidEncoding)
    ensures result.Ok? ==> (result.value <==> proof.request == request)
  {
    var bad := CheckEncodings(proof.revealed, sha256);
    if bad.Some? { return Err(X.InvalidEncoding); }
    return Ok(P.WalletVerifies(proof, request));
  }

  class ProofService {
    const repository: RecordStores.RecordStore<P.State, P.Data>

    constructor (repository: RecordStores.RecordStore<P.State, P.Data>)
      ensures this.repository == repository
    {
      this.repository := repository;
    }

    // ----- first messages and answers ---------------------------------------------------------

    method CreateProposal(connection: X.Connection, id: nat, messageId: nat, preview: PresentationPreview) returns (reply: Reply)
      modifies repository
      ensures X.Made(old(repository.State()), P.CreateProposal(old(repository.State()), connection, id, messageId, preview),
                     reply, repository.State())
    {
      if !connection.ready { return Err(X.NotReady); }
      var message := X.Message(messageId, None, P.ProposePresentation(preview));
      var record := X.Record(id, connection.id, message.ThreadId(), P.ProposalSent,
                             P.NO_DATA.(proposalMessage := Some(message)));
      repository.Save(record);
      return Ok((record, message));
    }

    method CreateProposalAsResponse(record: P.ProofRecord, messageId: nat, preview: PresentationPreview) returns (reply: Reply)
      modifies repository
      ensures X.Made(old(repository.State()), P.CreateProposalAsResponse(old(repository.State()), record, messageId, preview),
                     reply, repository.State())
    {
      if record.state != P.RequestReceived { return Err(X.InvalidState); }
      var message := X.Message(messageId, Some(record.threadId), P.ProposePresentation(preview));
      var r := record.(data := record.data.(proposalMessage := Some(message)));
      r := repository.UpdateState(r, P.ProposalSent);
      return Ok((r, message));
    }

    method CreateRequest(connection: X.Connection, id: nat, messageId: nat, request: ProofRequest) returns (reply: Reply)
      modifies repository
      ensures X.Made(old(repository.State()), P.CreateRequest(old(repository.State()), connection, id, messageId, request),
                     reply, repository.State())
    {
      if !connection.ready { return Err(X.NotReady); }
      var message := X.Message(messageId, None, P.RequestPresentation(Some(request)));
      var record := X.Record(id, connection.id, message.ThreadId(), P.RequestSent,
                             P.NO_DATA.(requestMessage := Some(message)));
      repository.Save(record);
      return Ok((record, message));
    }

    method CreateRequestAsResponse(record: P.ProofRecord, messageId: nat, request: ProofRequest) returns (reply: Reply)
      modifies repository
      ensures X.Made(old(repository.State()), P.CreateRequestAsResponse(old(repository.State()), record, messageId, request),
                     reply, repository.State())
    {
      if record.state != P.ProposalReceived { return Err(X.InvalidState); }
      var message := X.Message(messageId, Some(record.threadId), P.RequestPresentation(Some(request)));
      var r := record.(data := record.data.(requestMessage := Some(message)));
      r := repository.UpdateState(r, P.RequestSent);
      return Ok((r, message));
    }

    method CreatePresentation(record: P.ProofRecord, messageId: nat, chosen: RequestedCredentials, revealed: Option<seq<Revealed>>)
      returns (reply: Reply)
      modifies repository
      ensures X.Made(old(repository.State()), P.CreatePresentation(old(repository.State()), record, messageId, chosen, revealed),
                     reply, repository.State())
    {
      if record.state != P.RequestReceived { return Err(X.InvalidState); }
      var request := P.AttachedRequest(record);
      if request.None? { return Err(X.MissingAttachment); }
      if revealed.None? { return Err(X.WalletRejects); }
      var proof := P.Proof(request.value, chosen, revealed.value);
      var message := X.Message(messageId, Some(record.threadId), P.Presentation(Some(proof)));
      var r := record.(data := record.data.(presentationMessage := Some(message)));
      r := repository.UpdateState(r, P.PresentationSent);
      return Ok((r, message));
    }

    method CreateAck(record: P.ProofRecord, messageId: nat) returns (reply: Reply)
      modifies repository
      ensures X.Made(old(repository.State()), P.CreateAck(old(repository.State()), record, messageId), reply, repository.State())
    {
      if record.state != P.PresentationReceived { return Err(X.InvalidState); }
      var message := X.Message(messageId, Some(record.threadId), P.PresentationAck);
      var r := repository.UpdateState(record, P.Done);
      return Ok((r, message));
    }

    // ----- inbound messages -------------------------------------------------------------------

    method ProcessProposal(connection: Option<X.Connection>, message: P.Msg, newId: nat)
      returns (result: Result<P.ProofRecord, X.Error>)
      requires message.body.ProposePresentation?
      modifies repository
      ensures X.Processed(old(repository.State()), P.ProcessProposal(old(repository.State()), connection, message, newId),
                          result, repository.State())
    {
      if connection.Some? && !connection.value.ready { return Err(X.NotReady); }
      if connection.None? { return Err(X.NoConnection); }
      var found := repository.GetByThreadId(message.ThreadId());
      var r;
      if found.Ok? && found.value.state == P.RequestSent && found.value.connectionId == connection.value.id {
        r := found.value.(data := found.value.data.(proposalMessage := Some(message)));
        r := repository.UpdateState(r, P.ProposalReceived);
      } else {
        r := X.Record(newId, connection.value.id, message.ThreadId(), P.ProposalReceived,
                      P.NO_DATA.(proposalMessage := Some(message)));
        repository.Save(r);
      }
      return Ok(r);
    }

    method ProcessRequest(connection: Option<X.Connection>, message: P.Msg, newId: nat)
      returns (result: Result<P.ProofRecord, X.Error>)
      requires message.body.RequestPresentation?
      modifies repository
      ensures X.Processed(old(repository.State()), P.ProcessRequest(old(repository.State()), connection, message, newId),
                          result, repository.State())
    {
      if connection.Some? && !connection.value.ready { return Err(X.NotReady); }
      if connection.None? { return Err(X.NoConnection); }
      if message.body.indyRequest.None? { return Err(X.MissingAttachment); }
      var found := repository.GetByThreadId(message.ThreadId());
      var r;
      if found.Ok? && found.value.state == P.ProposalSent && found.value.connectionId == connection.value.id {
        r := found.value.(data := found.value.data.(requestMessage := Some(message)));
        r := repository.UpdateState(r, P.RequestReceived);
      } else {
        r := X.Record(newId, connection.value.id, message.ThreadId(), P.RequestReceived,
                      P.NO_DATA.(requestMessage := Some(message)));
        repository.Save(r);
      }
      return Ok(r);
    }

    method ProcessPresentation(connection: Option<X.Connection>, message: P.Msg, sha256: Digest)
      returns (result: Result<P.ProofRecord, X.Error>)
      requires message.body.Presentation?
      modifies repository
      ensures X.Processed(old(repository.State()), P.ProcessPresentation(old(repository.State()), connection, message, sha256),
                          result, repository.State())
      ensures (message.body.indyProof.Some?
               && exists r :: r in message.body.indyProof.value.revealed && !ReadsAs(r.raw, r.encoded, sha256)) ==>
                result.Err? && repository.State() == old(repository.State())
    {
      if connection.Some? && !connection.value.ready { return Err(X.NotReady); }
      if connection.None? { return Err(X.NoConnection); }
      var found := repository.GetByThreadId(message.ThreadId());
      if found.Err? { return Err(found.error); }
      var r := found.value;
      if r.state != P.RequestSent { return Err(X.InvalidState); }
      var proof, request := message.body.indyProof, P.AttachedRequest(r);
      if proof.None? { return Err(X.MissingAttachment); }
      if request.None? { return Err(X.MissingAttachment); }
      var isValid := VerifyProof(proof.value, request.value, sha256);
      if isValid.Err? { return Err(isValid.error); }
      r := r.(data := r.data.(isVerified := Some(isValid.value)));
      r := r.(data := r.data.(presentationMessage := Some(message)));
      r := repository.UpdateState(r, P.PresentationReceived);
      return Ok(r);
    }

    method ProcessAck(connection: Option<X.Connection>, message: P.Msg)
      returns (result: Result<P.ProofRecord, X.Error>)
      requires message.body.PresentationAck?
      modifies repository
      ensures X.Processed(old(repository.State()), P.ProcessAck(old(repository.State()), connection, message),
                          result, repository.State())
    {
      if connection.Some? && !connection.value.ready { return Err(X.NotReady); }
      if connection.None? { return Err(X.NoConnection); }
      var found := repository.GetByThreadId(message.ThreadId());
      if found.Err? { return Err(found.error); }
      if found.value.state != P.PresentationSent { return Err(X.InvalidState); }
      var r := repository.UpdateState(found.value, P.Done);
      return Ok(r);
    }
  }

  /** The module call that answers a proposal: it builds the request from the stored proposal. */
  class ProofsModule {
    const proofService: ProofService

    constructor (proofService: ProofService)
      ensures this.proofService == proofService
    {
      this.proofService := proofService;
    }

    method AcceptProposal(proofRecordId: nat, messageId: nat, name: Option<string>, version: Option<string>, nonce: string,
                          uuid: nat -> string) returns (reply: Reply)
      requires Distinct(uuid)
      modifies proofService.repository
      ensures var s := old(proofService.repository.State());
              X.Made(s, if proofRecordId !in s.records then Err(X.NotFound)
                        else P.AcceptProposalOf(s, s.records[proofRecordId], messageId, name.GetOr("proof-request"),
                                                version.GetOr("1.0"), nonce, uuid),
                     reply, proofService.repository.State())
    {
      if proofRecordId !in proofService.repository.records { return Err(X.NotFound); }
      var proofRecord := proofService.repository.records[proofRecordId];
      var message := proofRecord.data.proposalMessage;
      if message.None? || !message.value.body.ProposePresentation? { return Err(X.MissingProposal); }
      var preview := message.value.body.preview;
      var proofRequest := CreateProofRequestFromProposal(preview, name.GetOr("proof-request"), version.GetOr("1.0"), nonce, uuid);
      BuiltOneWay(proofRequest, preview, uuid);
      reply := proofService.CreateRequestAsResponse(proofRecord, messageId, proofRequest);
    }
  }
}
