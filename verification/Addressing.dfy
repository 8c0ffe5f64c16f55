/** What connections tell about how to reach an agent: its own endpoint and, in front of its key, its own routing
    keys; and what a message to a connected peer is therefore packed as. */
module Addressing {
  import opened Results
  import opened Connections
  import opened Handshake
  import opened HandshakeInvariant
  import opened HandshakeTheorems
  import E = Envelopes

  /** The settings an agent starts with, which it keeps. */
  ghost function Settings(gs: seq<System>, a: nat): Config
    requires Run(gs) && a in gs[0].agents
  {
    gs[0].agents[a].config
  }

  lemma SettingsStay(gs: seq<System>, i: nat)
    requires Run(gs) && i < |gs|
    ensures SameConfigs(gs[0], gs[i])
  {
    hide Run;
    Persists(gs, 0, i);
  }

  /** In every run a record's document has one service: its agent's endpoint, its own key, and its agent's routing
      keys; and an inviter's invitation tells the same. */
  lemma OwnService(gs: seq<System>, i: nat, k: Verkey)
    requires Run(gs) && i < |gs| && Has(gs[i], k)
    ensures k.owner in gs[0].agents
    ensures var r, c := Rec(gs[i], k), Settings(gs, k.owner);
            && r.didDoc.id == Did(k.owner, k.n) && r.didDoc.service == [IndyAgentService(c.endpoint, [k], c.routingKeys)]
            && (r.role == Inviter ==> r.invitation == Some(Invitation([k], c.routingKeys, c.endpoint)))
  {
    hide Run;
    Reached(gs, i);
    SettingsStay(gs, i);
    assert RecordOk(gs[i], k);
  }

  /** The document also lists the record's key under its own DID, and takes it for authentication. */
  lemma OwnKeys(gs: seq<System>, i: nat, k: Verkey)
    requires Run(gs) && i < |gs| && Has(gs[i], k)
    ensures var did, doc := Did(k.owner, k.n), Rec(gs[i], k).didDoc;
            var key := PublicKey(KeyId(did, 1), did, "Ed25519VerificationKey2018", k);
            doc.publicKey == [key] && doc.authentication == [ReferencedAuthentication(key, "Ed25519SignatureAuthentication2018")]
  {
    hide Run;
    Reached(gs, i);
    assert RecordOk(gs[i], k);
  }

  /** Every invitation that was ever made is that of one inviter, and so is the one an invitee holds. */
  lemma InvitationsTell(gs: seq<System>, i: nat, inv: Invitation) returns (k: Verkey)
    requires Run(gs) && i < |gs|
    requires inv in gs[i].invitations ||
             exists e :: Has(gs[i], e) && Rec(gs[i], e).role == Invitee && Rec(gs[i], e).invitation == Some(inv)
    ensures Has(gs[i], k) && Rec(gs[i], k).role == Inviter && k.owner in gs[0].agents
    ensures inv == Invitation([k], Settings(gs, k.owner).routingKeys, Settings(gs, k.owner).endpoint)
  {
    hide Run;
    Reached(gs, i);
    if inv in gs[i].invitations {
      assert InvitationOk(gs[i], inv);
      k := inv.recipientKeys[0];
    } else {
      var e :| Has(gs[i], e) && Rec(gs[i], e).role == Invitee && Rec(gs[i], e).invitation == Some(inv);
      assert RecordOk(gs[i], e);
      k := Rec(gs[i], e).tags.invitationKey.value;
    }
    OwnService(gs, i, k);
    assert RecordOk(gs[i], k);
  }

  /** Once a record names a peer, it holds how to reach that peer's agent: its endpoint and its routing keys. */
  lemma PeerService(gs: seq<System>, i: nat, k: Verkey) returns (j: Verkey)
    requires Run(gs) && i < |gs| && Has(gs[i], k) && Rec(gs[i], k).theirDid.Some?
    ensures Has(gs[i], j) && j.owner in gs[0].agents && Rec(gs[i], k).TheirKey() == Some(j)
    ensures var c := Settings(gs, j.owner);
            && Rec(gs[i], k).theirDid == Some(Did(j.owner, j.n)) && Rec(gs[i], k).theirDidDoc == Some(Rec(gs[i], j).didDoc)
            && Rec(gs[i], j).didDoc.service == [IndyAgentService(c.endpoint, [j], c.routingKeys)]
  {
    hide Run;
    Reached(gs, i);
    assert Rec(gs[i], k).theirDidDoc.Some? by { assert RecordOk(gs[i], k); }
    Addressed(gs[i], k);
    j := Rec(gs[i], k).tags.theirKey.value;
    OwnService(gs, i, j);
  }

  /** So a message to the peer goes to the endpoint of the peer's agent, wrapped in one forward to the peer's key for
      each routing key of that agent, and inside is the message, packed for the peer's key alone by the record's. */
  lemma MessagesReachPeer<P>(gs: seq<System>, i: nat, k: Verkey, payload: E.Content<P>) returns (j: Verkey)
    requires Run(gs) && i < |gs| && Has(gs[i], k) && Rec(gs[i], k).theirDid.Some?
    ensures Rec(gs[i], k).TheirKey() == Some(j) && j.owner in gs[0].agents
    ensures var c := Settings(gs, j.owner);
            E.CreateOutboundMessage(Rec(gs[i], k), payload) ==
            Ok(E.OutboundMessage(payload, [j], c.routingKeys, k, c.endpoint))
    ensures var c := Settings(gs, j.owner);
            var packed := E.PackedMessage(E.OutboundMessage(payload, [j], c.routingKeys, k, c.endpoint));
            E.Peel(packed, E.Reversed(c.routingKeys)) ==
            Some(E.Peeled(E.Times(Some(j), |c.routingKeys|), E.Packed([j], k, payload)))
  {
    hide Run;
    j := PeerService(gs, i, k);
    Reached(gs, i);
    assert OwnFields(gs[i], k) by { assert RecordOk(gs[i], k); }
    E.PackedLayers(E.OutboundMessage(payload, [j], Settings(gs, j.owner).routingKeys, k, Settings(gs, j.owner).endpoint));
  }
}
