# Aries Framework JavaScript: a verified model of its protocols

Aries Framework JavaScript lets agents connect, issue credentials, present proofs and reach each other through
a mediator. This project models the parts of it that have to work together for that to be safe, and proves
what they guarantee. `dafny verify dfyconfig.toml` checks everything.

## How it is laid out

Every protocol has the same layers. The steps of one agent are functions on that agent's stored state, with
the program's own branches, constants and errors. A class performs the same steps the way the program does:
fields reassigned one after another, early returns for thrown errors, records written back and announced. Each
of its methods is proved equal to the function of the same name. Networks of agents are state machines over
those functions, and the theorems are about every system that a run can reach.

| files | what they hold |
|---|---|
| `Connections`, `ConnectionService`, `ConnectionHistories` | the connection service, its handlers and the sender check (RFC 0160); what each call and message does to one agent, whatever arrives |
| `Handshake`, `HandshakeInvariant`, `HandshakeTheorems`, `CompleteInviters` | any number of agents over a network that loses, reorders and duplicates |
| `Addressing` | how connections tell agents to reach each other: endpoints and routing keys |
| `Quiescence` | the handshake with automatic acceptance over exactly-once delivery: it stops, and where |
| `Exchange`, `Histories`, `RecordStore`, `Storage`, `Threads`, `ThreadSteps` | what issue-credential and present-proof share: records found by thread, and why one thread at a time is enough |
| `Links` | why the connections made by the handshake are the ones the exchanges assume |
| `Credentials`, `CredentialService`, `CredentialHistories`, `CredentialExchange`, `CredentialAgreement`, `CredentialReplays`, `CredentialOrigins` | issue-credential (RFC 0036) |
| `Proofs`, `ProofService`, `ProofHistories`, `ProofExchange`, `ProofAgreement`, `ProofReplays`, `ProofOrigins` | present-proof (RFC 0037) |
| `ProofRequests`, `ProofSelection`, `Encoding` | building proof requests, picking credentials, encoding values |
| `Envelopes`, `Routing`, `MessageQueue`, `Mediation` | packing with forwards, the routing table, the pickup queue, and delivery from end to end |
| `Timestamp`, `Base64`, `SignedData`, `DidDocuments` | the codecs |

## What is assumed

- Cryptography is symbolic. A packed message opens for exactly the wallets that hold one of its recipient
  keys; a signature verifies for exactly the key and data it was made from; a proof verifies for exactly the
  request it was made for; the wallet stores a credential only with the metadata of the request it answers.
  DIDs, keys and uuids are fresh: keys and DIDs carry the number of the wallet that made them, and other fresh
  values come in as parameters.
- Stored records are values: reading one gives a copy. One inbound message, or one call that fetches a record
  and acts on it, is one step.
- In the networks all agents are honest (`ConnectionHistories`, `CredentialHistories` and `ProofHistories` are about one
  agent and any messages at all, forged ones included), and every participant of an exchange is reached over a connection whose two ends are
  ready and belong to different agents. `Links` proves that the handshake makes such connections and keeps them.
- The handshake's network may lose, reorder and duplicate. The networks of the two exchanges may lose and
  reorder but deliver each message at most once. That is needed: `SecondDelivery` says exactly which messages
  do harm when they come again, `ReplayedProposal` and `ReplayedOffer` what harm, and `ProposalCrowds`,
  `OfferCrowds` and `TwoRecords` exactly when an agent ends up with two records on one thread.
- A proposal can be answered by the module call, which takes what it sends from the proposal, or by the service
  call, which is given a template or request of its own. Agreement holds for both; that the answer is what was
  proposed is stated for runs that answer by the module call.
- Connections may come up while exchanges run (`LinksCanBeAdded`).
- A proof reveals only values that some issuer made from a preview.

## Where the code differs from what one might expect

- `createTrustPing` checks the state but not the role, so an inviter that pings by itself is Complete although
  its invitee may never have got the response: `EarlyPing` is such a run. `InviterCompletes` says exactly when
  both ends are ready as an inviter gets Complete: always if a ping from the invitee completes it, and if its
  own ping does, exactly if the invitee was ready before.
- A credential proposal may come without a preview, and `acceptProposal` then always fails, so that no
  module call takes the thread any further: `UnanswerableProposal` is such a run. It also fails if no definition id was
  proposed or is passed. `CallSucceeds` and `CanGoOn` say exactly which calls succeed and which records can be
  taken on, and `Progress` that, while no message is lost, this is the only way for an exchange to get stuck.
- `processOffer` files the record it creates under the message's own id, not under its thread id. The two are
  the same for a first offer, and `TurnTaking` shows that in an honest run it only ever happens for those.
- `processCredential`, `processPresentation` and both `processAck` do not check the connection that a message
  came over. `InboundExactly` states which messages rewrite a record. `ForeignCredential` and
  `ForeignPresentation` are runs in which a record takes in a message over another connection than its own, and
  `ForeignAck` says that any ready connection will do for an acknowledgement.
- `forward` packs the forward message itself for the connection that has the route, so the recipient peels two
  layers.

## Model

The methods of `ConnectionServices`, `RecordStores`, `CredentialServices` and `ProofServices` run the program's
steps; each is proved equal to the function of its name in `Connections`, `Exchange`, `Credentials` or `Proofs`,
on every branch, and leaves the store alone when it fails. What those functions guarantee is in the other rows.

| member | source | states |
|---|---|---|
| HandshakeTheorems.MutualAgreement | src/modules/connections/services/ConnectionService.ts:141-288 | In every reachable system a ready invitee record has exactly one inviter record whose verkey is its theirKey; that record is ready, each side's DID, document and key name the other, and both threadId tags are the id of the one request the invitee ever sent. |
| HandshakeTheorems.OneWinner | src/modules/connections/services/ConnectionService.ts:170-203 | However many invitees use one invitation, at most one gets past Requested. |
| HandshakeTheorems.WrittenOnce | src/modules/connections/services/ConnectionService.ts:179-200 | Over any stretch of a run a record's own fields and role stay, its state never goes back, and the peer it once names stays the same in all fields and tags. |
| HandshakeTheorems.TagsShowKeys | src/modules/connections/repository/ConnectionRecord.ts:120-138 | In every run the verkey and theirKey tags equal the keys that the record's documents show. |
| HandshakeTheorems.FaithfulIndex | src/modules/connections/services/ConnectionService.ts:431-461 | Both tag lookups answer like a scan of the records' own keys and never meet two records. |
| CompleteInviters.CompleteInviter | src/modules/connections/handlers/TrustPingMessageHandler.ts:17-30 | A Complete inviter's invitee is ready and paired with it, or the inviter has sent a ping itself. |
| CompleteInviters.InviterPing | src/modules/connections/services/ConnectionService.ts:296-313 | A Responded inviter can always ping; that makes it Complete and leaves its invitee as it was. |
| CompleteInviters.InviterCompletes | src/modules/connections/services/ConnectionService.ts:296-313 | As an inviter gets Complete in a run, its invitee is ready if and only if it was ready before or it was not the inviter's own ping that did it. |
| CompleteInviters.OnlyPingsComplete | src/modules/connections/handlers/TrustPingMessageHandler.ts:17-30 | An inviter gets Complete only from Responded, and only by its own ping or by one from its peer. |
| CompleteInviters.EarlyPing | src/modules/connections/services/ConnectionService.ts:296-313 | A run of five steps that ends with a Complete inviter whose invitee is still Requested. |
| HandshakeInvariant.Kept | src/agent/MessageReceiver.ts:39-75 | Every enabled step, delivery with the sender check included, keeps the invariant of the handshake and changes records only forwards. |
| Addressing.OwnService | src/modules/connections/services/ConnectionService.ts:351-402 | In every run a record's document has exactly one service, with its own agent's endpoint, its own key and its own agent's routing keys, and an inviter's invitation carries the same three. |
| Addressing.OwnKeys | src/modules/connections/services/ConnectionService.ts:359-384 | The document lists the record's key under its own DID, and refers to it for authentication. |
| Addressing.InvitationsTell | src/modules/connections/services/ConnectionService.ts:63-95 | Every invitation made, and every one an invitee holds, is that of one inviter record, with that agent's endpoint and routing keys. |
| Addressing.PeerService | src/modules/connections/services/ConnectionService.ts:170-288 | A record that names a peer holds the peer agent's endpoint, key and routing keys. |
| Addressing.MessagesReachPeer | src/agent/helpers.ts:7-41 | A message to a peer goes to the peer agent's endpoint, in one forward to the peer's key for each of that agent's routing keys, packed inside for the peer's key alone by the record's own. |
| ConnectionHistories.RecordHistory | src/modules/connections/services/ConnectionService.ts:338-349 | Whatever calls are made and whatever messages arrive: announcements chain from none, move as RFC 0160 allows and replay to the stored record; tags show the keys in the documents; a record keeps its own side, goes forwards only, names one peer for good, and never changes once Complete. |
| ConnectionHistories.PeerFromMessage | src/modules/connections/services/ConnectionService.ts:248-288 | Whatever messages arrive, forged ones included: what a record holds of its peer came with one message, and an invitee's came signed with the key its invitation named, over that very DID and document. |
| ConnectionHistories.Step | src/modules/connections/services/ConnectionService.ts:141-349 | Every call and message keeps that history, and one that fails changes nothing. |
| ConnectionHistories.InviteExactly | src/modules/connections/services/ConnectionService.ts:63-95 | An invitation made is the new key behind the agent's routing keys at its endpoint; the new record, and its announcement, field by field. |
| ConnectionHistories.UseExactly | src/modules/connections/ConnectionsModule.ts:84-108 | The record that a used invitation makes, and the request that goes out at once if the record's own setting, or else the agent's, says so. |
| ConnectionHistories.RequestTaken | src/modules/connections/services/ConnectionService.ts:170-237 | Exactly which record takes in a request, what it then holds, with which error all others fail, and which signed response goes out at once, if acceptance is automatic. |
| ConnectionHistories.ResponseTaken | src/modules/connections/services/ConnectionService.ts:248-313 | The same for a response: only from the invitation's key, over the signed data, and only with a signature that key made. |
| ConnectionHistories.PingTaken | src/modules/connections/handlers/TrustPingMessageHandler.ts:17-30 | A ping completes a Responded record and is answered exactly if it asks for it. |
| ConnectionHistories.ResponseExactly | src/modules/connections/services/ConnectionService.ts:211-237 | Exactly when a response goes out, signed with the record's own key over its own DID and document, and the error otherwise. |
| ConnectionHistories.PingExactly | src/modules/connections/services/ConnectionService.ts:296-313 | Exactly when a ping goes out, asking for an answer, and the error otherwise. |
| ConnectionHistories.SenderExactly | src/agent/MessageReceiver.ts:48-64 | Which connection a message is dispatched with: none without both keys, else that of the recipient key, unless two records have it or the record shows another key than the sender's. |
| ConnectionHistories.FindExactly | src/storage/Repository.ts:6-38 | A tag lookup fails exactly if two records meet it, finds none exactly if none does, and otherwise the one. |
| ConnectionHistories.KeyExactly | src/modules/connections/repository/ConnectionRecord.ts:120-138 | The key a document shows is the first recipient key of its first agent service. |
| Quiescence.Terminates | src/modules/connections/handlers/ConnectionRequestHandler.ts:17-28 | With automatic acceptance there are at most four deliveries for each use of an invitation, in whatever order they come. |
| Quiescence.NeverStuck | src/modules/connections/handlers/ConnectionResponseHandler.ts:17-31 | As long as a message is in flight a delivery is possible. |
| Quiescence.Quiescent | src/modules/connections/handlers/TrustPingMessageHandler.ts:17-30 | When nothing is in flight every inviter that accepted a request is Complete, and so is the invitee paired with it. |
| Links.ReadyPairsAreLinks | src/modules/connections/repository/ConnectionRecord.ts:140-142 | The ready pairs of any reachable handshake system form the symmetric links between agents that the exchanges build on. |
| Links.LinksStay | src/modules/connections/services/ConnectionService.ts:338-349 | No later step of the handshake removes or redirects such a link. |
| Links.LinksCanBeAdded | src/modules/connections/services/ConnectionService.ts:248-288 | Links that the handshake makes while exchanges run can be added to the system of exchanges at any time. |
| ConnectionServices.ConnectionService.UpdateState | src/modules/connections/services/ConnectionService.ts:338-349 | Stores the record in its new state and announces the change from the old one. |
| ConnectionServices.ConnectionService.CreateConnection | src/modules/connections/services/ConnectionService.ts:351-402 | Stores one new record, given field by field: its document has one service with the agent's endpoint and routing keys and the new key; announces nothing. |
| ConnectionServices.ConnectionService.CreateInvitation | src/modules/connections/services/ConnectionService.ts:63-95 | The invitation is the new key, the agent's routing keys and its endpoint; adds the inviter record that holds it and announces it. |
| ConnectionServices.ConnectionService.ProcessInvitation | src/modules/connections/services/ConnectionService.ts:106-133 | Adds an invitee record tagged with the invitation's first recipient key. |
| ConnectionServices.ConnectionService.CreateRequest | src/modules/connections/services/ConnectionService.ts:141-159 | Only an Invited invitee requests; it sends its DID and document and becomes Requested; otherwise nothing changes. |
| ConnectionServices.ConnectionService.ProcessRequest | src/modules/connections/services/ConnectionService.ts:170-203 | Only an Invited inviter takes a request; it stores DID, document, theirKey and thread id, or fails and changes nothing. |
| ConnectionServices.ConnectionService.CreateResponse | src/modules/connections/services/ConnectionService.ts:211-237 | Only a Requested inviter responds; the response is signed with its key and threaded to the request. |
| ConnectionServices.ConnectionService.ProcessResponse | src/modules/connections/services/ConnectionService.ts:248-288 | Takes only a response whose signature verifies and whose signer is the invitation key. |
| ConnectionServices.ConnectionService.CreateTrustPing | src/modules/connections/services/ConnectionService.ts:296-313 | A Responded or Complete record of either role pings and becomes Complete. |
| ConnectionServices.ConnectionService.ProcessAck | src/modules/connections/services/ConnectionService.ts:322-336 | Completes a Responded inviter. |
| ConnectionServices.ConnectionService.FindByVerkey | src/modules/connections/services/ConnectionService.ts:431-445 | Finds the one record tagged with the key, none, or fails if there are several. |
| ConnectionServices.ConnectionService.FindByTheirKey | src/modules/connections/services/ConnectionService.ts:447-461 | The same for the theirKey tag. |
| ConnectionServices.MessageReceiver.ReceiveMessage | src/agent/MessageReceiver.ts:39-75 | Attaches the connection of the recipient key, refuses a sender other than its known peer, and dispatches. |
| ConnectionServices.MessageReceiver.HandleRequest | src/modules/connections/handlers/ConnectionRequestHandler.ts:17-28 | Processes the request and responds at once if acceptance is automatic. |
| ConnectionServices.MessageReceiver.HandleResponse | src/modules/connections/handlers/ConnectionResponseHandler.ts:17-31 | Processes the response and pings at once if acceptance is automatic. |
| ConnectionServices.MessageReceiver.HandlePing | src/modules/connections/handlers/TrustPingMessageHandler.ts:17-30 | A ping completes a Responded record and is answered on request. |
| ConnectionServices.MessageReceiver.Send | src/agent/helpers.ts:7-41 | Addresses a message to the first agent service of the other side's document, or fails. |
| Storage.Search | src/storage/Repository.ts:6-38 | A tag query finds the only hit, none, or too many. |
| RecordStores.RecordStore.Save | src/storage/Repository.ts:6-38 | Adds the record and announces it from no previous state. |
| RecordStores.RecordStore.UpdateState | src/modules/credentials/services/CredentialService.ts:688-699 | Stores the record in its new state and announces the change from the old one. |
| RecordStores.RecordStore.GetByThreadId | src/modules/credentials/services/CredentialService.ts:652-666 | The only record on the thread; fails if there is none or more than one. |
| Threads.ViewFinds | src/modules/credentials/services/CredentialService.ts:652-666 | In a store without two records on one thread the lookup never fails for having found several, and finds what is stored. |
| ThreadSteps.Acts | src/modules/credentials/services/CredentialService.ts:115-131 | For either protocol: if acting keeps one thread in agreement, it keeps all threads of the system so. |
| ThreadSteps.Starts | src/modules/credentials/services/CredentialService.ts:80-104 | The same for opening a thread. |
| ThreadSteps.Arrives | src/modules/credentials/services/CredentialService.ts:157-183 | The same for a delivery that rewrites the recipient's record or makes its first one. |
| ThreadSteps.Loses | src/modules/credentials/services/CredentialService.ts:157-183 | The same for a lost message. |
| CredentialAgreement.OfferAgreement | src/modules/credentials/services/CredentialService.ts:115-621 | After any number of counter-proposals: once a holder is CredentialReceived or Done, the agent at the other end of its connection holds exactly one record on the thread, which is CredentialIssued or Done with the same offer, request and credential messages, and the credential carries the values of the preview the holder accepted, which, where proposals are answered by the module call, is the one it proposed last if it proposed any. |
| CredentialAgreement.IssuerLast | src/modules/credentials/services/CredentialService.ts:579-621 | An issuer is Done only if its holder is Done with the same credential. |
| CredentialAgreement.TurnTaking | src/modules/credentials/services/CredentialService.ts:157-183 | At most one message per thread is undelivered; its recipient has no record or one in the state that accepts it; its delivery never fails and makes a record exactly if there was none. |
| CredentialAgreement.OneRecordPerThread | src/modules/credentials/services/CredentialService.ts:652-666 | No agent ever holds two records on a thread. |
| CredentialAgreement.CallSucceeds | src/modules/credentials/CredentialsModule.ts:74-113 | In every run a call on a record succeeds, and takes it to its next state, if and only if the record is in the state for it, the wallet agrees, and for acceptProposal the stored proposal has a preview and a definition id is passed or proposed. |
| CredentialAgreement.CanGoOn | src/modules/credentials/CredentialsModule.ts:74-195 | In every run some module call takes a record on if and only if it has an offer, a request or a credential to answer, or a proposal with a preview. |
| CredentialAgreement.Progress | src/modules/credentials/CredentialsModule.ts:74-195 | In every run that loses no message, a thread with nothing under way is Done at both ends, or some module call takes one end on, or it waits on a proposal without a preview. |
| CredentialAgreement.UnanswerableProposal | src/modules/credentials/CredentialsModule.ts:90-99 | A run in which a proposal without a preview arrives, after which every module call on either end fails and nothing is under way. |
| CredentialServices.CredentialsModule.AcceptProposal | src/modules/credentials/CredentialsModule.ts:74-113 | Offers what the stored proposal proposes, under the passed or proposed definition id; fails without record, preview or definition id and then changes nothing. |
| CredentialAgreement.UserTurn | src/modules/credentials/services/CredentialService.ts:197-227 | A user can act on a record only when nothing is undelivered on its thread. |
| CredentialAgreement.Handled | src/modules/credentials/services/CredentialService.ts:288-336 | A message that is expected is taken in without error, and only an unknown thread gets a new record. |
| CredentialAgreement.Reached | src/modules/credentials/services/CredentialService.ts:80-621 | Every reachable system has both ends of every thread in agreement. |
| CredentialAgreement.ReplayedProposal | src/modules/credentials/services/CredentialService.ts:157-183 | A proposal delivered again takes an OfferSent record back to ProposalReceived. |
| CredentialAgreement.ReplayedOffer | src/modules/credentials/services/CredentialService.ts:308-333 | A first offer delivered again makes a second record, after which every request, credential or acknowledgement on the thread fails. |
| CredentialAgreement.ProposalCrowds | src/modules/credentials/services/CredentialService.ts:157-183 | A proposal, first or later, leaves two records on its thread if and only if one is there that is not OfferSent over its connection. |
| CredentialAgreement.OfferCrowds | src/modules/credentials/services/CredentialService.ts:308-333 | An offer, first or later, leaves two records on some thread if and only if one is on the thread of the offer's own id and none takes the offer. |
| CredentialReplays.SecondDelivery | src/modules/credentials/services/CredentialService.ts:143-621 | A message delivered in a run leaves its recipient unchanged when delivered again, at any later time, if and only if it is neither a proposal nor an offer. |
| CredentialOrigins.IssuedAsOffered | src/modules/credentials/services/CredentialService.ts:197-515 | In every run a holder's credential has, for each attribute name and no other, the value of the first such attribute of a preview that the agent at the other end offered, encoded so that it reads as that value, and is of the definition offered; preview and definition were given to that agent's call, or taken from the proposal that the holder's own agent had made before. |
| CredentialOrigins.OwnWords | src/modules/credentials/services/CredentialService.ts:80-593 | In every run an issuer's offer and credential, and a holder's proposal and request, were said by an earlier successful call of the same agent on the same record. |
| CredentialOrigins.SentExactly | src/modules/credentials/services/CredentialService.ts:80-593 | What each call sends, field by field from its arguments and the record it names: id, thread, preview, definition, nonce, prover DID, attachments and values. |
| CredentialHistories.RecordHistory | src/modules/credentials/services/CredentialService.ts:688-699 | Whatever messages arrive: announcements chain from none and replay to the stored record; a record keeps its thread, connection and side; Done never changes; a holder that sent a request has its metadata. |
| CredentialHistories.Step | src/modules/credentials/services/CredentialService.ts:346-397 | Any call moves records only along the transitions of RFC 0036, and one that fails leaves the store unchanged. |
| CredentialHistories.InboundExactly | src/modules/credentials/services/CredentialService.ts:409-621 | Exactly which inbound messages rewrite which record, which make a record and which fail. |
| CredentialHistories.HolderBacked | src/modules/credentials/services/CredentialService.ts:528-570 | Whatever messages arrive, the credential a holder stores was issued for the very request it had sent. |
| CredentialHistories.FailsExactly | src/modules/credentials/services/CredentialService.ts:143-666 | With which error each inbound message fails, and that none is answered. |
| CredentialHistories.CallFailsExactly | src/modules/credentials/CredentialsModule.ts:74-195 | With which error each call fails; accepting a proposal looks at the proposal before the state. |
| CredentialHistories.ForeignCredential | src/modules/credentials/services/CredentialService.ts:528-570 | A run in which a holder's record takes in its credential over another connection than its own. |
| CredentialHistories.ForeignAck | src/modules/credentials/services/CredentialService.ts:602-621 | An acknowledgement on the thread of a CredentialIssued record finishes it over any ready connection. |
| CredentialServices.CredentialService.CreateProposal | src/modules/credentials/services/CredentialService.ts:80-104 | Over a ready connection adds one ProposalSent record on the new message's thread; fails otherwise. |
| CredentialServices.CredentialService.CreateProposalAsResponse | src/modules/credentials/services/CredentialService.ts:115-131 | Answers a received offer on its thread, and only in state OfferReceived. |
| CredentialServices.CredentialService.ProcessProposal | src/modules/credentials/services/CredentialService.ts:143-186 | Updates the OfferSent record of the thread and connection, or makes a new one whatever the lookup or the checks fail with. |
| CredentialServices.CredentialService.CreateOfferAsResponse | src/modules/credentials/services/CredentialService.ts:197-227 | Answers a received proposal on its thread, and only in state ProposalReceived. |
| CredentialServices.CredentialService.CreateOffer | src/modules/credentials/services/CredentialService.ts:238-276 | Over a ready connection adds one OfferSent record under the message's id; the message sent and stored is one, with the template's preview and definition id. |
| CredentialServices.CredentialService.ProcessOffer | src/modules/credentials/services/CredentialService.ts:288-336 | Updates the ProposalSent record of the thread and connection, or makes a new one under the message's id; fails without an attachment. |
| CredentialServices.CredentialService.CreateRequest | src/modules/credentials/services/CredentialService.ts:346-397 | Requests what the stored offer offers and keeps the metadata of that request. |
| CredentialServices.CredentialService.ProcessRequest | src/modules/credentials/services/CredentialService.ts:409-440 | Takes a request only in state OfferSent and over the record's connection. |
| CredentialServices.CredentialService.CreateCredential | src/modules/credentials/services/CredentialService.ts:450-515 | Issues for the stored offer and request with the values of the offer's preview. |
| CredentialServices.CredentialService.ProcessCredential | src/modules/credentials/services/CredentialService.ts:528-570 | Stores a credential only with the record's request metadata. |
| CredentialServices.CredentialService.CreateAck | src/modules/credentials/services/CredentialService.ts:579-593 | Finishes a CredentialReceived record and acknowledges on its thread. |
| CredentialServices.CredentialService.ProcessAck | src/modules/credentials/services/CredentialService.ts:602-621 | Finishes a CredentialIssued record. |
| ProofAgreement.PresentationAgreement | src/modules/proofs/services/ProofService.ts:375-525 | A verifier record that says whether its proof was valid says that it was; the proof was made for the request it still holds, and the prover holds exactly one record on the thread, with the same request and presentation. |
| ProofAgreement.ProverLast | src/modules/proofs/services/ProofService.ts:483-525 | A prover is Done only if its verifier is Done with the same messages and a valid proof. |
| ProofAgreement.TurnTaking | src/modules/proofs/services/ProofService.ts:180-206 | As for credentials: one undelivered message per thread, always expected, never failing. |
| ProofAgreement.OneRecordPerThread | src/modules/proofs/services/ProofService.ts:789-801 | No agent ever holds two records on a thread. |
| ProofAgreement.CallSucceeds | src/modules/proofs/ProofsModule.ts:82-202 | In every run a call on a record succeeds, and takes it to its next state, if and only if the record is in the state for it and, for a presentation, the wallet makes the proof. |
| ProofAgreement.CanGoOn | src/modules/proofs/ProofsModule.ts:82-202 | In every run some module call takes a record on if and only if it has a proposal, a request or a presentation to answer. |
| ProofAgreement.Progress | src/modules/proofs/ProofsModule.ts:82-202 | In every run that loses no message, a thread with nothing under way is Done at both ends, or some module call takes one end on. |
| ProofAgreement.RequestAnswersProposal | src/modules/proofs/ProofsModule.ts:82-118 | In every run where proposals are answered by the module call, a prover that has proposed anything and received a request holds a request built from its last proposal. |
| ProofServices.ProofsModule.AcceptProposal | src/modules/proofs/ProofsModule.ts:82-118 | Requests what the stored proposal proposes, under the default name and version if none is given; fails without record or proposal and then changes nothing. |
| ProofReplays.SecondDelivery | src/modules/proofs/services/ProofService.ts:166-525 | A message delivered in a run leaves its recipient unchanged when delivered again, at any later time, if and only if it is neither a proposal nor a request. |
| ProofOrigins.VerifiedAsRequested | src/modules/proofs/services/ProofService.ts:221-474 | In every run a verified proof was made for what the verifier's own agent asked: a request it was given, or one built from what the prover's agent had proposed before; and the prover's agent made it, with those credentials and values, each of which reads as its encoding. |
| ProofOrigins.OwnWords | src/modules/proofs/services/ProofService.ts:93-497 | In every run a verifier's request, and a prover's proposal and presentation, were said by an earlier successful call of the same agent on the same record. |
| ProofOrigins.SentExactly | src/modules/proofs/services/ProofService.ts:93-497 | What each call sends, field by field from its arguments and the record it names. |
| ProofAgreement.Reached | src/modules/proofs/services/ProofService.ts:93-525 | Every reachable system has both ends of every thread in agreement. |
| ProofAgreement.ReplayedProposal | src/modules/proofs/services/ProofService.ts:180-206 | A proposal delivered again takes a RequestSent record back to ProposalReceived. |
| ProofAgreement.TwoRecords | src/modules/proofs/services/ProofService.ts:335-361 | A proposal or request leaves two records on its thread if and only if one is there that is not in the state for it or not on its connection. |
| ProofHistories.RecordHistory | src/modules/proofs/services/ProofService.ts:854-865 | Whatever messages arrive: announcements chain and replay; sides never change; Done never changes; isVerified is set exactly on verifier records that hold a presentation. |
| ProofHistories.Step | src/modules/proofs/services/ProofService.ts:854-865 | Any call moves records only along the transitions of RFC 0037, and one that fails leaves the store unchanged. |
| ProofHistories.InboundExactly | src/modules/proofs/services/ProofService.ts:311-525 | Exactly which inbound messages rewrite which record, which make a record and which fail. |
| ProofHistories.VerdictMeans | src/modules/proofs/services/ProofService.ts:433-474 | Whatever messages arrive, a record's verdict is that its proof is valid if and only if the proof was made for the request the record holds, and every value it reveals reads as its encoding. |
| ProofHistories.FailsExactly | src/modules/proofs/services/ProofService.ts:166-525 | With which error each inbound message fails, and that none is answered. |
| ProofHistories.CallFailsExactly | src/modules/proofs/ProofsModule.ts:82-202 | With which error each call fails. |
| ProofHistories.ForeignPresentation | src/modules/proofs/services/ProofService.ts:433-474 | A run in which a verifier's record takes in a presentation over another connection than its own. |
| ProofHistories.ForeignAck | src/modules/proofs/services/ProofService.ts:506-525 | An acknowledgement on the thread of a PresentationSent record finishes it over any ready connection. |
| ProofExchange.IssuedPass | src/modules/proofs/services/ProofService.ts:735-746 | Values that were issued pass the verifier's encoding loop. |
| ProofServices.VerifyProof | src/modules/proofs/services/ProofService.ts:735-758 | Fails, before the wallet is asked, if any revealed encoding does not read as its value; otherwise answers whether the proof was made for the request. |
| ProofServices.ProofService.CreateProposal | src/modules/proofs/services/ProofService.ts:93-120 | Over a ready connection adds one ProposalSent record on the new message's thread. |
| ProofServices.ProofService.CreateProposalAsResponse | src/modules/proofs/services/ProofService.ts:132-154 | Answers a received request on its thread, and only in state RequestReceived. |
| ProofServices.ProofService.ProcessProposal | src/modules/proofs/services/ProofService.ts:166-209 | Updates the RequestSent record of the thread and connection, or makes a new one. |
| ProofServices.ProofService.CreateRequestAsResponse | src/modules/proofs/services/ProofService.ts:221-252 | Answers a received proposal on its thread, and only in state ProposalReceived. |
| ProofServices.ProofService.CreateRequest | src/modules/proofs/services/ProofService.ts:264-299 | Over a ready connection adds one RequestSent record on the new message's thread. |
| ProofServices.ProofService.ProcessRequest | src/modules/proofs/services/ProofService.ts:311-364 | Updates the ProposalSent record of the thread and connection, or makes a new one; fails without an attachment. |
| ProofServices.ProofService.CreatePresentation | src/modules/proofs/services/ProofService.ts:375-421 | Makes a proof for the stored request, and only in state RequestReceived. |
| ProofServices.ProofService.ProcessPresentation | src/modules/proofs/services/ProofService.ts:433-474 | Verifies against the stored request and records the verdict; an encoding that does not read as its value changes nothing. |
| ProofServices.ProofService.CreateAck | src/modules/proofs/services/ProofService.ts:483-497 | Finishes a PresentationReceived record and acknowledges on its thread. |
| ProofServices.ProofService.ProcessAck | src/modules/proofs/services/ProofService.ts:506-525 | Finishes a PresentationSent record. |
| ProofRequests.GroupByReferent | src/modules/proofs/services/ProofService.ts:562-576 | Groups attributes by referent in the order of first occurrence, each group in proposal order, a missing or empty referent getting a new uuid. |
| ProofRequests.CreateProofRequestFromProposal | src/modules/proofs/services/ProofService.ts:540-615 | The request asks for each group under its referent, restricted to its first attribute's definition, and for each predicate under its own uuid. |
| ProofRequests.EachAttributeAskedOnce | src/modules/proofs/services/ProofService.ts:562-595 | Every proposed attribute is asked for under exactly one referent, its own or a fresh one: by its name if it is alone there, and else in the list of the names of all attributes with that referent, in proposal order; restricted to the definition of the first of them. |
| ProofRequests.EachPredicateAskedOnce | src/modules/proofs/services/ProofService.ts:600-611 | Every proposed predicate is asked for under a uuid of its own, with its name, type and threshold, restricted to exactly its definition, and there are no others. |
| ProofRequests.NothingElseAsked | src/modules/proofs/services/ProofService.ts:578-595 | Every referent asked for is that of some proposed attribute. |
| ProofRequests.GroupsPartition | src/modules/proofs/services/ProofService.ts:562-576 | The groups together are as long as the proposal. |
| ProofRequests.InItsGroup | src/modules/proofs/services/ProofService.ts:562-576 | Every attribute is in the group of its referent. |
| ProofSelection.GetRequestedCredentials | src/modules/proofs/services/ProofService.ts:629-724 | Succeeds if and only if every attribute has a candidate to use (`Chosen`, which is stated on the fields of candidate and proposal) and every predicate a candidate. |
| ProofSelection.AttributeExactly | src/modules/proofs/services/ProofService.ts:681-695 | A restricted attribute is requested, revealed, from the chosen candidate; an unrestricted one is attested with the value that candidate shows. |
| ProofSelection.PredicateExactly | src/modules/proofs/services/ProofService.ts:698-720 | A predicate is requested from the first candidate, or attested with the value that shows. |
| ProofSelection.PickIsChosen | src/modules/proofs/services/ProofService.ts:636-679 | The pick is the first candidate, or, with several and a proposal, the first for which each name asked for is that of a proposed attribute of its own definition whose value is empty or its own; there is none exactly if no candidate fits. |
| ProofSelection.Pick | src/modules/proofs/services/ProofService.ts:636-679 | The pick is a candidate; with several candidates and a proposal it is the first that matches every name, and there is none exactly if none matches. |
| ProofSelection.FindMatch | src/modules/proofs/services/ProofService.ts:652-672 | The loop stops at the first candidate that fits the proposal, and finds none exactly if none does. |
| ProofSelection.SelectionSound | src/modules/proofs/services/ProofService.ts:681-720 | Requested and self-attested referents are exactly those asked for, and every requested credential is a wallet candidate for its referent. |
| ProofSelection.ProposalComposes | src/modules/proofs/services/ProofService.ts:540-695 | If every group of the proposal has an agreeing candidate and every predicate has a candidate, selection for the request built from that proposal succeeds, and the request has no key twice, as selection requires. |
| ProofSelection.GetCredentialIdentifiers | src/modules/proofs/models/RequestedCredentials.ts:49-61 | The ids of all requested credentials, each once. |
| Encoding.EncodingReads | src/modules/credentials/CredentialUtils.ts:55-86 | An encoding reads back as the value if that is an integer of 32 bits, as 0 or 1 for truth values, and otherwise as the digest of its own text, which is below 2^256. |
| Encoding.TextAgrees | src/modules/credentials/CredentialUtils.ts:55-86 | An integer and its decimal text have the same encoding. |
| Encoding.ValueNames | src/modules/credentials/CredentialUtils.ts:18-28 | The values have one entry for each attribute name. |
| Encoding.FirstWins | src/modules/credentials/CredentialUtils.ts:18-28 | The entry of a name is made from its first attribute. |
| Encoding.CheckEncodings | src/modules/proofs/services/ProofService.ts:738-746 | Accepts if and only if every revealed value matches its encoding, and otherwise names the first that does not; whatever does not read as its value is refused. |
| Encoding.OneEncoding | src/modules/credentials/CredentialUtils.ts:41-95 | Each value has exactly one accepted encoding: its own text if it is or spells an integer from -2147483648 to 2147483647, 0 or 1 for a truth value, and otherwise the digest of its text in decimal. |
| Encoding.WrongNumberRefused | src/modules/credentials/CredentialUtils.ts:41-43 | An encoding that does not read as the value's number is refused. |
| Encoding.NumeralsRead | src/modules/credentials/CredentialUtils.ts:71-74 | What a numeral is worth: digits, leading zeros and signs. |
| Encoding.OnlyNumeralsRead | src/modules/credentials/CredentialUtils.ts:71-74 | Digits with at most one sign in front are integer numerals, and nothing else is. |
| Encoding.IssuedValuesPass | src/modules/credentials/CredentialUtils.ts:41-43 | Every value converted from a preview passes that check. |
| Envelopes.PackMessage | src/agent/EnvelopeService.ts:16-45 | The loop wraps the packed message in one forward for each routing key. |
| Envelopes.ForwardLayers | src/agent/EnvelopeService.ts:29-43 | Peeling with the routing keys in reverse gives exactly one forward for each, all addressed to the first recipient key, and then the message packed for its recipients. |
| Envelopes.PackedLayers | src/agent/EnvelopeService.ts:16-45 | So for every packed message: its forwards name the first recipient key, and inside is the payload, packed by the sender for all recipient keys. |
| Envelopes.OnlyHolderOpens | src/agent/EnvelopeService.ts:29-43 | A wrapped message opens for the holder of the last routing key and no one else. |
| Envelopes.UnpackMessage | src/agent/MessageReceiver.ts:83-123 | Peels one layer, and a second one below a forward if the wallet can; plain messages pass as they are. |
| Routing.ProviderRoutingService.SaveRoute | src/modules/routing/services/ProviderRoutingService.ts:71-77 | Adds a route unless the key has one; the table stays the replay of the successful updates. |
| Routing.ProviderRoutingService.RemoveRoute | src/modules/routing/services/ProviderRoutingService.ts:79-91 | Removes a route only for the connection that holds it. |
| Routing.ProviderRoutingService.UpdateRoutes | src/modules/routing/services/ProviderRoutingService.ts:18-31 | Applies exactly the updates before the first failing one. |
| Routing.ProviderRoutingService.FindRecipient | src/modules/routing/services/ProviderRoutingService.ts:58-69 | The connection with the route, or an error. |
| Routing.ProviderRoutingService.Forward | src/modules/routing/services/ProviderRoutingService.ts:33-52 | Addresses the forward to the connection with the route; fails without `to`, route or recipient key. |
| Routing.LogGrows | src/modules/routing/services/ProviderRoutingService.ts:71-91 | A successful update extends the log, and the table is the replay of the longer log. |
| Routing.OneUpdate | src/modules/routing/services/ProviderRoutingService.ts:79-91 | One successful update leaves a route as it is, unless it is its own connection's removal of it. |
| Routing.RouteStays | src/modules/routing/services/ProviderRoutingService.ts:79-91 | A route stays with the connection that added it until that connection removes it. |
| MessageQueue.InMemoryMessageRepository.FindByVerkey | src/storage/InMemoryMessageRepository.ts:8-10 | Hands out the stored list itself, or a new empty one. |
| MessageQueue.InMemoryMessageRepository.DeleteAllByVerkey | src/storage/InMemoryMessageRepository.ts:12-14 | Puts a new empty list in place; the old one keeps its messages. |
| MessageQueue.InMemoryMessageRepository.Save | src/storage/InMemoryMessageRepository.ts:16-21 | Appends to the list of the key and to no other. |
| MessageQueue.MessagePickupService.Batch | src/modules/routing/services/MessagePickupService.ts:31-47 | Returns what waits for the connection's key and clears it; fails without repository or key and then changes nothing. |
| MessageQueue.HandedOutList | src/storage/InMemoryMessageRepository.ts:8-21 | A list handed out before a delete is not altered by the delete or by any later saves, whatever their keys. |
| MessageQueue.NothingLost | src/modules/routing/services/MessagePickupService.ts:31-46 | For every key and every sequence of saves and pickups, the batches so far and then the queue are the saved messages in order. |
| Mediation.Trip | src/modules/routing/services/ProviderRoutingService.ts:33-52 | A message packed with the mediator's key, passed on, queued and received comes out with its payload, its sender's key and its recipient key. |
| Mediation.MediatedDelivery | src/agent/MessageReceiver.ts:83-123 | In every run, what an agent is given to dispatch was submitted with that payload, sender key and recipient key, at least as often, and the recipient key is its own. |
| Mediation.Conservation | src/modules/routing/services/MessagePickupService.ts:23-47 | In every run each submitted message is, as often as submitted, on its way up, queued, on its way down, delivered or dropped. |
| Mediation.AllDelivered | src/agent/EnvelopeService.ts:16-45 | When nothing is under way and nothing was dropped, everything was delivered exactly as often as it was submitted. |
| Mediation.WhenDropped | src/agent/MessageReceiver.ts:48-64 | A message is dropped if and only if the receiver's connection record for the recipient key knows another key for its sender, or several records have that key, or the mediator has no route to a recipient other than itself. |
| Mediation.AcceptedByReceiver | src/agent/MessageReceiver.ts:48-64 | That check is the receiver's own: it passes exactly if at most one record has the recipient key and that one shows no peer's key or the sender's. |
| Timestamps.Timestamp | src/utils/timestamp.ts:3-12 | The loop writes the eight bytes of the time, high end first, for every time below 2^53. |
| Timestamps.TimestampReads | src/utils/timestamp.ts:3-12 | The big-endian value of those bytes is the time. |
| Timestamps.TimestampsOrdered | src/utils/timestamp.ts:3-12 | The bytes of two times compare as the times do. |
| Base64.URLReadsBack | src/utils/base64.ts:1-3 | The URL-safe text (section 5 of RFC 4648) is the base64 digits in the URL-safe alphabet without padding, and decodes to the bytes. |
| Base64.URLSafe | src/utils/base64.ts:1-3 | It holds letters, digits, `-` and `_` only. |
| Base64.ReadsBack | src/utils/BufferEncoder.ts:10-30 | Ordinary base64 text has a length divisible by four and decodes to the bytes. |
| Base64.StandardAlphabet | src/utils/BufferEncoder.ts:10-30 | The digits' characters are those of sections 4 and 5 of RFC 4648. |
| Base64.SameBits | src/utils/BufferEncoder.ts:10-30 | Four digits are the same 24 bits as three bytes, and a shorter end is filled up with zeros. |
| SignedData.SignedDataReadsBack | src/decorators/signature/SignatureDecoratorUtils.ts:17-59 | Unpacking what was signed returns the data, and the first eight bytes are the time. |
| SignedData.ExchangedDataRefused | src/decorators/signature/SignatureDecoratorUtils.ts:17-35 | With the signature kept, any text that decodes to other bytes is refused. |
| DidDocuments.RoundTrip | src/modules/connections/models/did/authentication/index.ts:27-63 | Printing and parsing a document gives it back if and only if every reference has a non-empty id under which its key is the first listed; it is refused if and only if a non-empty id is not listed. |
| DidDocuments.ParsedResolves | src/modules/connections/models/did/DidDoc.ts:47-49 | In every parsed document getPublicKey answers each reference with the very key the reference holds, and the document survives printing and parsing. |
| DidDocuments.ListedKeysSuffice | src/modules/connections/models/did/DidDoc.ts:18-31 | Unique non-empty key ids and references to listed keys suffice. |
| DidDocuments.OneReadsBack | src/modules/connections/models/did/authentication/index.ts:36-59 | The same, exactly, for each single authentication, embedded or referenced. |
| DidDocuments.KeysReadBack | src/modules/connections/models/did/publicKey/index.ts:8-37 | Keys of the class their type stands for come back as they were. |
| DidDocuments.JsonNames | src/modules/connections/models/did/publicKey/index.ts:8-37 | Under which JSON name each class of key files its value, and from which name a key of each type takes it. |
| DidDocuments.FindKey | src/modules/connections/models/did/DidDoc.ts:47-49 | The first key with the id, and none exactly if no key has it. |

## Left out

- libindy, the ledger and the wallet's inside: symbolic, with the laws listed above.
- Interleavings inside one step at an `await`: a stale copy could be written back over a newer record.
- Adversaries and key compromise: agreement is among honest agents; histories hold for arbitrary messages.
- Exchanges over a connection of an agent with itself: both records would then be in one store and on one
  thread, where the lookup by thread fails (`TwoRecords`).
- DID-only invitations, aliases and labels: invitations carry their recipient keys.
- Ping threads, basic messages, localization and timing decorators, error mapping and DID patterns.
- Return routing and `provision`, which answer on the request's own channel; a batch is handed to the network
  as separate messages, and the loss of a whole batch response is not modelled.
- Delivery through several mediators: every forward names the first recipient key, so only the layers are
  described for more than one routing key.
- The handler lookups of the dispatcher, transporters, the sample mediator's HTTP server and logging.
- Class validators and JSON text: messages are values, and a request that fails validation does not occur.
- The ids and priorities of services in DID documents, and types of keys in them other than Ed25519: agents make no others.
- Attribute filters other than by credential definition: selection only asks whether there are restrictions.
- The order of dictionary keys that look like integers; keys keep the order in which they were added.
- Numeric strings other than decimal integers (fractions, exponents, hexadecimal, blanks).
- ConnectionServices.MessageReceiver.Send: the packet carries the recipient keys and the sender's key, and not the
  endpoint and routing keys, which the handshake does not depend on; `Envelopes` has them.
- ProofServices.ProofService.CreatePresentation: whether the wallet makes the proof, and what it reveals, comes from
  the wallet; why it may refuse is not modelled.
- Failures of the ledger, and of the wallet where it stores or verifies, other than those the laws above describe.
- ProofRequests.CreateProofRequestFromProposal: the nonce is a parameter, and the proposal's attributes are not
  changed in place when they are given a referent.
- Timestamps.Timestamp: times from 2^53 on, where JavaScript numbers are no longer exact.
