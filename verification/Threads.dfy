/** Exchanges between any number of agents: who is on which thread, and what is on its way. Connections
    pair an end at one agent with an end at another (what the handshake establishes); the network may
    lose and reorder messages but delivers each at most once. */
module Threads {
  import opened Results
  import opened Exchange
  import Storage

  datatype Endpoint = Endpoint(agent: nat, connection: nat)
  datatype Packet<B> = Packet(to: Endpoint, message: Message<B>)

  // The two ends of a thread: the issuer's or verifier's in front, the holder's or prover's at the back.
  datatype Pair = Pair(front: Endpoint, back: Endpoint)

  // `threads` remembers, for every thread ever started, its two ends; no step reads it.
  datatype System<S, D, B(==)> = System(
    stores: map<nat, Store<S, D>>, links: map<Endpoint, Endpoint>,
    threads: map<nat, Pair>, inflight: set<Packet<B>>)

  datatype Thread<S, D, B> = Thread(front: Option<Record<S, D>>, back: Option<Record<S, D>>, wire: Option<Packet<B>>)

  // ----- views of one thread ----------------------------------------------------------------

  /** Records are filed under their own ids, and no two are on one thread. */
  ghost predicate Clean<S, D>(s: Store<S, D>) {
    && (forall i :: i in s.records ==> s.records[i].id == i)
    && (forall i, j :: i in s.records && j in s.records && s.records[i].threadId == s.records[j].threadId ==> i == j)
  }

  ghost function View<S, D>(s: Store<S, D>, t: nat): (r: Option<Record<S, D>>)
    ensures r.Some? ==> r.value.threadId == t
  {
    match Storage.Lookup(s.records, ByThread<S, D>(t))
    case One(i) => Some(s.records[i])
    case _ => None
  }

  lemma ViewStored<S, D>(s: Store<S, D>, i: nat)
    requires Clean(s) && i in s.records
    ensures View(s, s.records[i].threadId) == Some(s.records[i])
  {
    assert Storage.Hit(s.records, ByThread<S, D>(s.records[i].threadId), i);
  }

  lemma ViewNone<S, D>(s: Store<S, D>, t: nat)
    requires Clean(s) && forall i :: i in s.records ==> s.records[i].threadId != t
    ensures View(s, t) == None
  {
  }

  /** In a clean store a thread lookup never meets two records, and finds what there is. */
  lemma ViewFinds<S, D>(s: Store<S, D>, t: nat)
    requires Clean(s)
    ensures GetByThreadId(s, t) == if View(s, t).Some? then Ok(View(s, t).value) else Err(NotFound)
    ensures View(s, t).Some? ==> View(s, t).value.id in s.records && s.records[View(s, t).value.id] == View(s, t).value
  {
    var q := ByThread<S, D>(t);
    assert !Storage.Lookup(s.records, q).Many?;
  }

  lemma FoundIsPlaced<S, D, B>(g: System<S, D, B>, a: nat, t: nat)
    requires Placed(g) && a in g.stores && GetByThreadId(g.stores[a], t).Ok?
    ensures var r := GetByThreadId(g.stores[a], t).value; r.id in g.stores[a].records && g.stores[a].records[r.id] == r
  {
    ViewFinds(g.stores[a], t);
  }

  /** Writing a record on one thread shows on that thread and on no other. */
  lemma WriteShows<S, D>(s: Store<S, D>, s': Store<S, D>, r: Record<S, D>)
    requires Clean(s) && s'.records == s.records[r.id := r]
    requires if r.id in s.records then s.records[r.id].threadId == r.threadId else View(s, r.threadId) == None
    ensures Clean(s') && View(s', r.threadId) == Some(r)
    ensures forall u :: u != r.threadId ==> View(s', u) == View(s, u)
  {
    forall i | i in s.records && s.records[i].threadId == r.threadId ensures i == r.id {
      ViewStored(s, i);
    }
    ViewStored(s', r.id);
    forall u | u != r.threadId ensures View(s', u) == View(s, u) {
      if i :| i in s.records && s.records[i].threadId == u {
        ViewStored(s, i);
        ViewStored(s', i);
      } else {
        ViewNone(s, u);
        ViewNone(s', u);
      }
    }
  }

  ghost predicate On<B>(p: Packet<B>, t: nat) { p.message.ThreadId() == t }

  ghost predicate AtMostOne<B>(ps: set<Packet<B>>) {
    forall p, q :: p in ps && q in ps && p.message.ThreadId() == q.message.ThreadId() ==> p == q
  }

  ghost function Wire<B>(ps: set<Packet<B>>, t: nat): Option<Packet<B>> {
    if exists p :: p in ps && On(p, t) then
      var p :| p in ps && On(p, t); Some(p)
    else None
  }

  lemma WireOf<B>(ps: set<Packet<B>>, p: Packet<B>)
    requires AtMostOne(ps) && p in ps
    ensures Wire(ps, p.message.ThreadId()) == Some(p)
  {
    assert On(p, p.message.ThreadId());
  }

  lemma WireAdds<B>(ps: set<Packet<B>>, p: Packet<B>)
    requires AtMostOne(ps) && Wire(ps, p.message.ThreadId()) == None
    ensures AtMostOne(ps + {p}) && Wire(ps + {p}, p.message.ThreadId()) == Some(p)
    ensures forall u :: u != p.message.ThreadId() ==> Wire(ps + {p}, u) == Wire(ps, u)
  {
    forall q | q in ps ensures !On(q, p.message.ThreadId()) {}
    WireOf(ps + {p}, p);
    forall u | u != p.message.ThreadId() ensures Wire(ps + {p}, u) == Wire(ps, u) {
      SameWire(ps, ps + {p}, u);
    }
  }

  lemma WireDrops<B>(ps: set<Packet<B>>, p: Packet<B>)
    requires AtMostOne(ps) && p in ps
    ensures AtMostOne(ps - {p}) && Wire(ps - {p}, p.message.ThreadId()) == None
    ensures forall u :: u != p.message.ThreadId() ==> Wire(ps - {p}, u) == Wire(ps, u)
  {
    forall u | u != p.message.ThreadId() ensures Wire(ps - {p}, u) == Wire(ps, u) {
      SameWire(ps, ps - {p}, u);
    }
  }

  lemma SameWire<B>(ps: set<Packet<B>>, qs: set<Packet<B>>, u: nat)
    requires AtMostOne(ps) && AtMostOne(qs)
    requires forall p :: On(p, u) ==> (p in ps <==> p in qs)
    ensures Wire(ps, u) == Wire(qs, u)
  {
    if p :| p in ps && On(p, u) {
      WireOf(ps, p);
      WireOf(qs, p);
    }
  }

  // ----- systems ----------------------------------------------------------------------------

  ghost function StoreOf<S, D, B>(g: System<S, D, B>, a: nat): Store<S, D> {
    if a in g.stores then g.stores[a] else Store(map[], [])
  }

  ghost function ThreadOf<S, D, B>(g: System<S, D, B>, t: nat): Thread<S, D, B>
    requires t in g.threads
  {
    Thread(View(StoreOf(g, g.threads[t].front.agent), t), View(StoreOf(g, g.threads[t].back.agent), t), Wire(g.inflight, t))
  }

  ghost predicate Linked<S, D, B>(g: System<S, D, B>, a: Endpoint, b: Endpoint) {
    && a in g.links && g.links[a] == b && b in g.links && g.links[b] == a
    && a.agent != b.agent && a.agent in g.stores && b.agent in g.stores
  }

  ghost predicate IsEnd(p: Pair, e: Endpoint) { e == p.front || e == p.back }

  /** Links pair ends at different agents. */
  ghost predicate GoodLinks<S, D, B>(g: System<S, D, B>) {
    forall e :: e in g.links ==> Linked(g, e, g.links[e])
  }

  /** Records and messages are where their thread says. */
  ghost predicate Placed<S, D, B>(g: System<S, D, B>) {
    && GoodLinks(g) && AtMostOne(g.inflight)
    && (forall a :: a in g.stores ==> Clean(g.stores[a]))
    && (forall t :: t in g.threads ==> Linked(g, g.threads[t].front, g.threads[t].back))
    && (forall p :: p in g.inflight ==> p.message.ThreadId() in g.threads)
    && (forall a, i :: a in g.stores && i in g.stores[a].records ==> Located(g, a, g.stores[a].records[i]))
  }

  ghost predicate Located<S, D, B>(g: System<S, D, B>, a: nat, r: Record<S, D>) {
    r.threadId in g.threads && IsEnd(g.threads[r.threadId], Endpoint(a, r.connectionId))
  }

  ghost predicate SameElsewhere<S, D, B>(g: System<S, D, B>, g': System<S, D, B>, t: nat) {
    forall u :: u in g.threads && u != t ==> u in g'.threads && g'.threads[u] == g.threads[u] && ThreadOf(g', u) == ThreadOf(g, u)
  }

  ghost function End(p: Pair, front: bool): Endpoint {
    if front then p.front else p.back
  }

  /** One end of thread `t` writes its record. */
  ghost predicate Written<S, D, B>(g: System<S, D, B>, g': System<S, D, B>, t: nat, front: bool, r: Record<S, D>)
    requires t in g.threads
  {
    var e := End(g.threads[t], front);
    && e.agent in g.stores && e.agent in g'.stores && g' == g.(stores := g.stores[e.agent := g'.stores[e.agent]])
    && g'.stores[e.agent].records == g.stores[e.agent].records[r.id := r]
    && r.connectionId == e.connection && r.threadId == t
    && (if r.id in g.stores[e.agent].records then g.stores[e.agent].records[r.id].threadId == t
        else View(g.stores[e.agent], t) == None)
  }

  lemma WrittenPlaced<S, D, B>(g: System<S, D, B>, g': System<S, D, B>, t: nat, front: bool, r: Record<S, D>)
    requires Placed(g) && t in g.threads && Written(g, g', t, front, r)
    ensures Placed(g')
  {
    var e := End(g.threads[t], front);
    WriteShows(g.stores[e.agent], g'.stores[e.agent], r);
    forall a, i | a in g'.stores && i in g'.stores[a].records ensures Located(g', a, g'.stores[a].records[i]) {
      if a != e.agent || i != r.id { assert Located(g, a, g.stores[a].records[i]); }
    }
    forall x | x in g'.links ensures Linked(g', x, g'.links[x]) { assert Linked(g, x, g.links[x]); }
    forall u | u in g'.threads ensures Linked(g', g'.threads[u].front, g'.threads[u].back) {
      assert Linked(g, g.threads[u].front, g.threads[u].back);
    }
  }

  /** The written record is what this end of the thread now holds; every other thread is as it was. */
  lemma Writes<S, D, B>(g: System<S, D, B>, g': System<S, D, B>, t: nat, front: bool, r: Record<S, D>)
    requires Placed(g) && t in g.threads && Written(g, g', t, front, r)
    ensures Placed(g') && SameElsewhere(g, g', t)
    ensures ThreadOf(g', t) == if front then ThreadOf(g, t).(front := Some(r)) else ThreadOf(g, t).(back := Some(r))
  {
    hide View, Wire, Clean;
    WrittenPlaced(g, g', t, front, r);
    var e := End(g.threads[t], front);
    WriteShows(g.stores[e.agent], g'.stores[e.agent], r);
  }

  lemma Sends<S, D, B>(g: System<S, D, B>, g': System<S, D, B>, p: Packet<B>)
    requires Placed(g) && p.message.ThreadId() in g.threads && Wire(g.inflight, p.message.ThreadId()) == None
    requires g' == g.(inflight := g.inflight + {p})
    ensures Placed(g') && SameElsewhere(g, g', p.message.ThreadId())
    ensures ThreadOf(g', p.message.ThreadId()) == ThreadOf(g, p.message.ThreadId()).(wire := Some(p))
  {
    hide View, Wire, Clean;
    WireAdds(g.inflight, p);
  }

  lemma Drops<S, D, B>(g: System<S, D, B>, g': System<S, D, B>, p: Packet<B>)
    requires Placed(g) && p in g.inflight && g' == g.(inflight := g.inflight - {p})
    ensures Placed(g') && p.message.ThreadId() in g.threads && SameElsewhere(g, g', p.message.ThreadId())
    ensures ThreadOf(g, p.message.ThreadId()).wire == Some(p)
    ensures ThreadOf(g', p.message.ThreadId()) == ThreadOf(g, p.message.ThreadId()).(wire := None)
  {
    hide View, Wire, Clean;
    WireDrops(g.inflight, p);
    WireOf(g.inflight, p);
  }

  /** A thread that nobody has started yet is empty. */
  lemma Unopened<S, D, B>(g: System<S, D, B>, t: nat, a: nat)
    requires Placed(g) && t !in g.threads && a in g.stores
    ensures View(g.stores[a], t) == None && Wire(g.inflight, t) == None
  {
    forall i | i in g.stores[a].records ensures g.stores[a].records[i].threadId != t {
      assert Located(g, a, g.stores[a].records[i]);
    }
    ViewNone(g.stores[a], t);
  }

  lemma Opens<S, D, B>(g: System<S, D, B>, g': System<S, D, B>, t: nat, pair: Pair)
    requires Placed(g) && t !in g.threads && Linked(g, pair.front, pair.back)
    requires g' == g.(threads := g.threads[t := pair])
    ensures Placed(g') && SameElsewhere(g, g', t) && ThreadOf(g', t) == Thread(None, None, None)
  {
    hide View, Wire, Clean;
    Unopened(g, t, pair.front.agent);
    Unopened(g, t, pair.back.agent);
    forall a, i | a in g'.stores && i in g'.stores[a].records ensures Located(g', a, g'.stores[a].records[i]) {
      assert Located(g, a, g.stores[a].records[i]);
    }
    forall x | x in g'.links ensures Linked(g', x, g'.links[x]) { assert Linked(g, x, g.links[x]); }
    forall u | u in g'.threads ensures Linked(g', g'.threads[u].front, g'.threads[u].back) {
      if u != t { assert Linked(g, g.threads[u].front, g.threads[u].back); }
    }
  }

  lemma SameTwice<S, D, B>(g: System<S, D, B>, g1: System<S, D, B>, g2: System<S, D, B>, t: nat)
    requires SameElsewhere(g, g1, t) && SameElsewhere(g1, g2, t)
    ensures SameElsewhere(g, g2, t)
  {
  }
}
