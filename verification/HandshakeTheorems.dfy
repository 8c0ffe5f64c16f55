/** What holds in every system that a run of the handshake reaches. */
module HandshakeTheorems {
  import opened Results
  import opened Connections
  import opened Handshake
  import opened HandshakeInvariant
  import Storage

  /** `k` and `j` are the two ends of one connection, each naming the other, on one thread. */
  ghost predicate Paired(g: System, k: Verkey, j: Verkey)
    requires Has(g, k) && Has(g, j)
  {
    var r, peer := Rec(g, k), Rec(g, j);
    && r.TheirKey() == Some(j) && peer.TheirKey() == Some(k)
    && r.theirDid == Some(peer.did) && peer.theirDid == Some(r.did)
    && r.theirDidDoc == Some(peer.didDoc) && peer.theirDidDoc == Some(r.didDoc)
    && r.tags.threadId.Some? && peer.tags.threadId == r.tags.threadId
  }

  /** Whatever the network did, an invitee that got a response is paired with exactly one inviter
      record, which has responded to it, and both carry the id of the one request it ever sent. */
  lemma MutualAgreement(gs: seq<System>, i: nat, k: Verkey) returns (j: Verkey, request: Packet)
    requires Run(gs) && i < |gs| && Has(gs[i], k)
    requires Rec(gs[i], k).role == Invitee && Rec(gs[i], k).IsReady()
    ensures Has(gs[i], j) && Rec(gs[i], j).role == Inviter && Rec(gs[i], j).IsReady()
    ensures Rec(gs[i], j).verkey == j && Paired(gs[i], k, j)
    ensures forall l :: Has(gs[i], l) && Some(Rec(gs[i], l).verkey) == Rec(gs[i], k).TheirKey() ==> l == j
    ensures request in gs[i].sent && request.sender == k && request.message.ConnectionRequest?
    ensures Rec(gs[i], k).tags.threadId == Some(request.message.id)
    ensures forall p :: p in gs[i].sent && p.sender == k && p.message.ConnectionRequest? ==> p == request
  {
    var g := gs[i];
    Reached(gs, i);
    assert RecordOk(g, k);
    j := Rec(g, k).tags.invitationKey.value;
    assert RecordOk(g, j);
    var response := ResponsePacket(Rec(g, j), k, Rec(g, k).tags.threadId.value);
    assert PacketOk(g, response);
    request := RequestPacket(Rec(g, k), j, Rec(g, k).tags.threadId.value);
    forall l | Has(g, l) ensures Rec(g, l).verkey == l { assert RecordOk(g, l); }
    forall p | p in g.sent && p.sender == k && p.message.ConnectionRequest? ensures p == request {
      assert OneRequest(g.sent);
    }
  }

  /** However many invitees use one invitation, at most one of them gets past Requested. */
  lemma OneWinner(gs: seq<System>, i: nat, k: Verkey, l: Verkey)
    requires Run(gs) && i < |gs| && Has(gs[i], k) && Has(gs[i], l)
    requires Rec(gs[i], k).role == Invitee && Rec(gs[i], l).role == Invitee
    requires Rec(gs[i], k).tags.invitationKey == Rec(gs[i], l).tags.invitationKey
    requires Rec(gs[i], k).state !in {Invited, Requested} && Rec(gs[i], l).state !in {Invited, Requested}
    ensures k == l
  {
    Reached(gs, i);
    assert RecordOk(gs[i], k) && RecordOk(gs[i], l);
    var j, _ := MutualAgreement(gs, i, k);
    var j', _ := MutualAgreement(gs, i, l);
    assert RecordOk(gs[i], j) && RecordOk(gs[i], j');
  }

  /** A record keeps its own side for ever, its state never goes back, and the peer it once names,
      by DID, document, key and thread, it names in every later system of the run. */
  lemma WrittenOnce(gs: seq<System>, i: nat, j: nat, k: Verkey)
    requires Run(gs) && i <= j < |gs| && Has(gs[i], k)
    ensures Has(gs[j], k)
    ensures var r, r' := Rec(gs[i], k), Rec(gs[j], k);
            && r'.verkey == r.verkey && r'.did == r.did && r'.didDoc == r.didDoc && r'.role == r.role
            && Rank(r.state) <= Rank(r'.state)
            && (r.theirDid.Some? ==>
                  r'.theirDid == r.theirDid && r'.theirDidDoc == r.theirDidDoc &&
                  r'.TheirKey() == r.TheirKey() && r'.tags == r.tags)
  {
    Persists(gs, i, j);
    assert Evolves(Rec(gs[i], k), Rec(gs[j], k));
  }

  function WithVerkey(key: Verkey): ConnectionRecord -> bool {
    (r: ConnectionRecord) => r.verkey == key
  }

  function WithTheirKey(key: Verkey): ConnectionRecord -> bool {
    (r: ConnectionRecord) => r.TheirKey() == Some(key)
  }

  lemma KeysTagged(g: System, k: Verkey)
    requires Inv(g) && Has(g, k)
    ensures Rec(g, k).tags.verkey == Some(Rec(g, k).verkey) == Rec(g, k).MyKey()
    ensures Rec(g, k).tags.theirKey == Rec(g, k).TheirKey()
  {
    assert RecordOk(g, k);
    if Rec(g, k).theirDidDoc.Some? { Addressed(g, k); }
  }

  /** The tags always show the record's own keys. */
  lemma TagsShowKeys(gs: seq<System>, i: nat, k: Verkey)
    requires Run(gs) && i < |gs| && Has(gs[i], k)
    ensures Rec(gs[i], k).tags.verkey == Some(Rec(gs[i], k).verkey) == Rec(gs[i], k).MyKey()
    ensures Rec(gs[i], k).tags.theirKey == Rec(gs[i], k).TheirKey()
  {
    Reached(gs, i);
    KeysTagged(gs[i], k);
  }

  /** Two records with the same peer are the same record. */
  lemma PeersDiffer(g: System, k: Verkey, l: Verkey)
    requires Inv(g) && Has(g, k) && Has(g, l)
    requires Rec(g, k).tags.theirKey.Some? && Rec(g, k).tags.theirKey == Rec(g, l).tags.theirKey
    ensures k == l
  {
    assert RecordOk(g, k) && RecordOk(g, l);
    PeerOf(g, k);
    PeerOf(g, l);
    assert RecordOk(g, Rec(g, k).tags.theirKey.value);
  }

  /** The packet that bound `k` to its peer, seen from the peer. */
  lemma PeerOf(g: System, k: Verkey)
    requires Inv(g) && Has(g, k) && Rec(g, k).tags.theirKey.Some?
    ensures var j := Rec(g, k).tags.theirKey.value;
            Has(g, j) && Rec(g, j).role != Rec(g, k).role &&
            if Rec(g, k).role == Inviter then Rec(g, j).tags.invitationKey == Some(k)
            else Rec(g, j).tags.theirKey == Some(k)
  {
    assert RecordOk(g, k);
    var r, j := Rec(g, k), Rec(g, k).tags.theirKey.value;
    assert Has(g, j) by {
      if r.role == Invitee { assert RecordOk(g, r.tags.invitationKey.value); }
    }
    assert RecordOk(g, j);
    if r.role == Inviter {
      assert PacketOk(g, RequestPacket(Rec(g, j), k, r.tags.threadId.value));
    } else {
      assert PacketOk(g, ResponsePacket(Rec(g, j), k, r.tags.threadId.value));
    }
  }

  /** Both tag lookups answer like a scan of the records' own keys, and never find two. */
  lemma FaithfulIndex(gs: seq<System>, i: nat, a: nat, key: Verkey)
    requires Run(gs) && i < |gs| && a in gs[i].agents
    ensures Find(gs[i].agents[a].records, ByVerkey(key)).Ok?
    ensures Find(gs[i].agents[a].records, ByVerkey(key)) == Find(gs[i].agents[a].records, WithVerkey(key))
    ensures Find(gs[i].agents[a].records, ByTheirKey(key)).Ok?
    ensures Find(gs[i].agents[a].records, ByTheirKey(key)) == Find(gs[i].agents[a].records, WithTheirKey(key))
  {
    var g, records := gs[i], gs[i].agents[a].records;
    Reached(gs, i);
    forall n | n in records
      ensures ByVerkey(key)(records[n]) <==> WithVerkey(key)(records[n])
      ensures ByVerkey(key)(records[n]) ==> n == key.n
      ensures ByTheirKey(key)(records[n]) <==> WithTheirKey(key)(records[n])
    {
      assert RecordOk(g, Verkey(a, n));
      KeysTagged(g, Verkey(a, n));
    }
    assert forall n :: Storage.Hit(records, ByVerkey(key), n) <==> Storage.Hit(records, WithVerkey(key), n);
    forall n, m | Storage.Hit(records, ByTheirKey(key), n) && Storage.Hit(records, ByTheirKey(key), m)
      ensures n == m
    {
      PeersDiffer(g, Verkey(a, n), Verkey(a, m));
    }
    assert forall n :: Storage.Hit(records, ByTheirKey(key), n) <==> Storage.Hit(records, WithTheirKey(key), n);
  }
}
