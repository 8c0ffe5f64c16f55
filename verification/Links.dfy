/** What the handshake establishes is what the exchanges build on: ready records pair up. */
module Links {
  import opened Results
  import C = Connections
  import H = Handshake
  import I = HandshakeInvariant
  import T = HandshakeTheorems
  import Threads
  import ThreadSteps

  /** Both ends of a connection are ready, at different agents. */
  ghost predicate Joined(g: H.System, k: C.Verkey) {
    && H.Has(g, k) && H.Rec(g, k).IsReady() && H.Rec(g, k).TheirKey().Some?
    && var j := H.Rec(g, k).TheirKey().value;
       H.Has(g, j) && H.Rec(g, j).IsReady() && j.owner != k.owner
  }

  ghost function EndAt(k: C.Verkey): Threads.Endpoint {
    Threads.Endpoint(k.owner, k.n)
  }

  ghost function Ends(g: H.System): set<Threads.Endpoint> {
    set a, id | a in g.agents && id in g.agents[a].records && Joined(g, C.Verkey(a, id)) :: Threads.Endpoint(a, id)
  }

  ghost function LinksOf(g: H.System): map<Threads.Endpoint, Threads.Endpoint> {
    map e | e in Ends(g) :: EndAt(H.Rec(g, C.Verkey(e.agent, e.connection)).TheirKey().value)
  }

  /** Of two ready records, the one that is the other's peer has it for its own. */
  lemma PeerPointsBack(gs: seq<H.System>, i: nat, k: C.Verkey)
    requires H.Run(gs) && i < |gs| && Joined(gs[i], k)
    ensures var j := H.Rec(gs[i], k).TheirKey().value; Joined(gs[i], j) && H.Rec(gs[i], j).TheirKey() == Some(k)
  {
    var g := gs[i];
    I.Reached(gs, i);
    assert H.RecordOk(g, k);
    if H.Rec(g, k).role == C.Invitee {
      var j, _ := T.MutualAgreement(gs, i, k);
    } else {
      T.KeysTagged(g, k);
      T.PeerOf(g, k);
      var j := H.Rec(g, k).TheirKey().value;
      var l, _ := T.MutualAgreement(gs, i, j);
      assert H.RecordOk(g, j);
    }
  }

  /** In every system that a run of the handshake reaches, the ready pairs are links such as the exchange
      protocols need: each end's link leads to an end of another agent, whose link leads back. */
  lemma ReadyPairsAreLinks<S, D, B>(gs: seq<H.System>, i: nat, net: Threads.System<S, D, B>)
    requires H.Run(gs) && i < |gs|
    requires net.links == LinksOf(gs[i]) && net.stores.Keys == gs[i].agents.Keys
    ensures Threads.GoodLinks(net)
  {
    var g := gs[i];
    forall e | e in net.links ensures Threads.Linked(net, e, net.links[e]) {
      var k := C.Verkey(e.agent, e.connection);
      PeerPointsBack(gs, i, k);
      var j := H.Rec(g, k).TheirKey().value;
      assert Joined(g, C.Verkey(j.owner, j.n));
    }
  }

  lemma Bound(g: H.System, k: C.Verkey)
    requires H.Inv(g) && Joined(g, k)
    ensures H.Rec(g, k).theirDid.Some?
  {
    assert H.RecordOk(g, k);
  }

  /** A ready record keeps its peer and stays ready. */
  lemma ReadyStays(gs: seq<H.System>, i: nat, j: nat, k: C.Verkey)
    requires H.Run(gs) && i <= j < |gs| && Joined(gs[i], k)
    ensures H.Has(gs[j], k) && H.Rec(gs[j], k).IsReady() && H.Rec(gs[j], k).TheirKey() == H.Rec(gs[i], k).TheirKey()
  {
    hide H.Run, H.Inv;
    I.Reached(gs, i);
    Bound(gs[i], k);
    T.WrittenOnce(gs, i, j, k);
  }

  /** And they stay: later steps of the handshake never take a link away or turn it elsewhere. */
  lemma LinksStay(gs: seq<H.System>, i: nat, j: nat, e: Threads.Endpoint)
    requires H.Run(gs) && i <= j < |gs| && e in LinksOf(gs[i])
    ensures e in LinksOf(gs[j]) && LinksOf(gs[j])[e] == LinksOf(gs[i])[e]
  {
    hide H.Run;
    var k := C.Verkey(e.agent, e.connection);
    PeerPointsBack(gs, i, k);
    ReadyStays(gs, i, j, k);
    ReadyStays(gs, i, j, H.Rec(gs[i], k).TheirKey().value);
    assert Joined(gs[j], k);
  }

  /** So exchanges can run while the handshake goes on: whatever links it has made by a later time can be added
      to a system of exchanges that runs on the links it had made before. */
  lemma LinksCanBeAdded<S, D, B>(gs: seq<H.System>, i: nat, j: nat, net: Threads.System<S, D, B>)
    requires H.Run(gs) && i <= j < |gs|
    requires net.links == LinksOf(gs[i]) && net.stores.Keys == gs[j].agents.Keys
    ensures ThreadSteps.Extends(net, LinksOf(gs[j]))
  {
    hide H.Run, LinksOf, Threads.GoodLinks;
    ReadyPairsAreLinks(gs, j, net.(links := LinksOf(gs[j])));
    forall e | e in net.links ensures e in LinksOf(gs[j]) && LinksOf(gs[j])[e] == net.links[e] {
      LinksStay(gs, i, j, e);
    }
  }
}
