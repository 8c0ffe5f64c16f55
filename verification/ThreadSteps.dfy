/** What an exchange protocol must show about a single thread, and why that carries over to a whole system
    of agents: a step that leaves one thread in agreement leaves all of them so. */
module ThreadSteps {
  import opened Results
  import opened Exchange
  import opened Threads

  // What can happen: a user calls, a message arrives (with a fresh id for whatever it makes), one is lost, or
  // connections are added.
  datatype Step<C, B> =
    | User(agent: nat, call: C)
    | Deliver(packet: Packet<B>, newId: nat)
    | Lose(packet: Packet<B>)
    | Connect(links: map<Endpoint, Endpoint>)

  // What is known of a run: whether no message gets lost in it, and whether proposals are answered only by the
  // module calls, which take what they send from the proposal.
  datatype Mode = Mode(lossless: bool, asProposed: bool)

  const ANY := Mode(false, false)

  /** The links are good ones, and those there are already stay. */
  ghost predicate Extends<S, D, B>(g: System<S, D, B>, links: map<Endpoint, Endpoint>) {
    GoodLinks(g.(links := links)) && forall e :: e in g.links ==> e in links && links[e] == g.links[e]
  }

  /** At first there are connections, and nothing on them. */
  ghost predicate Initial<S, D, B>(g: System<S, D, B>) {
    && GoodLinks(g) && g.threads == map[] && g.inflight == {}
    && forall a :: a in g.stores ==> g.stores[a] == Store(map[], [])
  }

  /** The threads after a first message, numbered `t`, was sent over a connection of agent `a`. */
  ghost function Started<S, D, B>(g: System<S, D, B>, a: nat, connection: Connection, t: nat, front: bool): map<nat, Pair> {
    var e := Endpoint(a, connection.id);
    if connection.ready && e in g.links then g.threads[t := if front then Pair(e, g.links[e]) else Pair(g.links[e], e)]
    else g.threads
  }

  /** What a call sends goes to the other end of the record's connection. */
  ghost function Posted<S, D, B>(g: System<S, D, B>, a: nat, sent: Option<Sent<B>>): set<Packet<B>> {
    if sent.Some? && Endpoint(a, sent.value.connectionId) in g.links
    then {Packet(g.links[Endpoint(a, sent.value.connectionId)], sent.value.message)} else {}
  }

  ghost predicate Carries<B>(wire: Option<Packet<B>>, to: Endpoint, m: Option<Message<B>>) {
    wire.Some? && m.Some? && wire.value == Packet(to, m.value)
  }

  ghost function Held<S, D, B>(th: Thread<S, D, B>, front: bool): Option<Record<S, D>> {
    if front then th.front else th.back
  }

  ghost function Put<S, D, B>(th: Thread<S, D, B>, front: bool, r: Record<S, D>, w: Option<Packet<B>>): Thread<S, D, B> {
    if front then Thread(Some(r), th.back, w) else Thread(th.front, Some(r), w)
  }

  /** The two ends of every thread agree. */
  ghost predicate AllAgree<S, D, B>(g: System<S, D, B>, agreed: (Pair, Thread<S, D, B>) -> bool) {
    forall t :: t in g.threads ==> agreed(g.threads[t], ThreadOf(g, t))
  }

  /** Wherever this record is held, nothing is on its way, and it may be rewritten and this message sent. */
  ghost predicate MayAct<S(!new), D(!new), B(!new)>(
    agreed: (Pair, Thread<S, D, B>) -> bool, r: Record<S, D>, r': Record<S, D>, m: Message<B>)
  {
    forall p: Pair, th: Thread<S, D, B>, front: bool :: agreed(p, th) && Held(th, front) == Some(r) ==>
      th.wire.None? && agreed(p, Put(th, front, r', Some(Packet(End(p, !front), m))))
  }

  /** Wherever this message is on its way to such a record, taking it in keeps the thread in agreement. */
  ghost predicate MayArrive<S(!new), D(!new), B(!new)>(
    agreed: (Pair, Thread<S, D, B>) -> bool, packet: Packet<B>, front: bool, r: Option<Record<S, D>>, r': Record<S, D>)
  {
    forall p: Pair, th: Thread<S, D, B> ::
      agreed(p, th) && th.wire == Some(packet) && packet.to == End(p, front) && Held(th, front) == r ==>
      agreed(p, Put(th, front, r', None))
  }

  ghost predicate MayBeLost<S(!new), D(!new), B(!new)>(agreed: (Pair, Thread<S, D, B>) -> bool) {
    forall p: Pair, th: Thread<S, D, B> :: agreed(p, th) ==> agreed(p, th.(wire := None))
  }

  /** Only the thread that a step works on needs to be looked at. */
  lemma OneThreadMoved<S, D, B>(g: System<S, D, B>, g': System<S, D, B>, t: nat, agreed: (Pair, Thread<S, D, B>) -> bool)
    requires AllAgree(g, agreed) && SameElsewhere(g, g', t)
    requires g'.threads.Keys == g.threads.Keys + {t} && agreed(g'.threads[t], ThreadOf(g', t))
    ensures AllAgree(g', agreed)
  {
    forall u | u in g'.threads ensures agreed(g'.threads[u], ThreadOf(g', u)) {
      if u != t { assert ThreadOf(g', u) == ThreadOf(g, u); }
    }
  }

  /** The end of its thread that a stored record is at, and what a search on that thread finds at the other. */
  lemma AtEnd<S, D, B>(g: System<S, D, B>, a: nat, id: nat) returns (front: bool, p: Pair, th: Thread<S, D, B>)
    requires Placed(g) && a in g.stores && id in g.stores[a].records
    ensures var r := g.stores[a].records[id];
            && r.id == id && r.threadId in g.threads && p == g.threads[r.threadId]
            && End(p, front) == Endpoint(a, r.connectionId)
            && Endpoint(a, r.connectionId) in g.links && g.links[Endpoint(a, r.connectionId)] == End(p, !front)
            && Linked(g, p.front, p.back) && th == ThreadOf(g, r.threadId) && Held(th, front) == Some(r)
            && GetByThreadId(g.stores[End(p, !front).agent], r.threadId) ==
               if Held(th, !front).Some? then Ok(Held(th, !front).value) else Err(NotFound)
  {
    var r := g.stores[a].records[id];
    assert Located(g, a, r);
    p, th := g.threads[r.threadId], ThreadOf(g, r.threadId);
    front := p.front == Endpoint(a, r.connectionId);
    ViewStored(g.stores[a], id);
    ViewFinds(g.stores[End(p, !front).agent], r.threadId);
  }

  /** The thread that an undelivered message is on. */
  lemma InFlight<S, D, B>(g: System<S, D, B>, packet: Packet<B>) returns (p: Pair, th: Thread<S, D, B>)
    requires Placed(g) && packet in g.inflight
    ensures var t := packet.message.ThreadId();
            && t in g.threads && p == g.threads[t] && Linked(g, p.front, p.back)
            && th == ThreadOf(g, t) && th.wire == Some(packet)
            && Clean(g.stores[p.front.agent]) && Clean(g.stores[p.back.agent])
            && th.front == View(g.stores[p.front.agent], t) && th.back == View(g.stores[p.back.agent], t)
  {
    var t := packet.message.ThreadId();
    p, th := g.threads[t], ThreadOf(g, t);
    assert Linked(g, p.front, p.back);
    WireOf(g.inflight, packet);
  }

  lemma EndLinked<S, D, B>(g: System<S, D, B>, e: Endpoint)
    requires Placed(g) && e in g.links
    ensures Linked(g, e, g.links[e])
  {
  }

  /** A user's call rewrites a stored record and sends a message to the other end. */
  lemma Acts<S(!new), D(!new), B(!new)>(g: System<S, D, B>, g': System<S, D, B>, agreed: (Pair, Thread<S, D, B>) -> bool,
                                        a: nat, r: Record<S, D>, r': Record<S, D>, m: Message<B>)
    requires Placed(g) && AllAgree(g, agreed) && MayAct(agreed, r, r', m)
    requires a in g.stores && a in g'.stores && r.id in g.stores[a].records && g.stores[a].records[r.id] == r
    requires r'.id == r.id && r'.threadId == r.threadId && r'.connectionId == r.connectionId && m.ThreadId() == r.threadId
    requires g'.stores == g.stores[a := g'.stores[a]] && g'.stores[a].records == g.stores[a].records[r.id := r']
    requires g'.links == g.links && g'.threads == g.threads
    requires Endpoint(a, r.connectionId) in g.links ==>
               g'.inflight == g.inflight + {Packet(g.links[Endpoint(a, r.connectionId)], m)}
    ensures Placed(g') && AllAgree(g', agreed)
  {
    hide Placed, View, Wire;
    var front, p, th := AtEnd(g, a, r.id);
    var g1 := g.(stores := g'.stores);
    Writes(g, g1, r.threadId, front, r');
    assert agreed(p, th);
    Sends(g1, g', Packet(End(p, !front), m));
    SameTwice(g, g1, g', r.threadId);
    OneThreadMoved(g, g', r.threadId, agreed);
  }

  /** A user's call starts a thread with one record on it and one message to the other end. */
  lemma Starts<S, D, B>(g: System<S, D, B>, g': System<S, D, B>, agreed: (Pair, Thread<S, D, B>) -> bool,
                        a: nat, r: Record<S, D>, m: Message<B>, front: bool)
    requires Placed(g) && AllAgree(g, agreed)
    requires a in g.stores && a in g'.stores && r.id !in g.stores[a].records && Endpoint(a, r.connectionId) in g.links
    requires r.threadId !in g.threads && m.ThreadId() == r.threadId
    requires g'.stores == g.stores[a := g'.stores[a]] && g'.stores[a].records == g.stores[a].records[r.id := r]
    requires var e := Endpoint(a, r.connectionId);
             && g'.links == g.links && g'.inflight == g.inflight + {Packet(g.links[e], m)}
             && var p := if front then Pair(e, g.links[e]) else Pair(g.links[e], e);
                && g'.threads == g.threads[r.threadId := p]
                && agreed(p, Put(Thread(None, None, None), front, r, Some(Packet(g.links[e], m))))
    ensures Placed(g') && AllAgree(g', agreed)
  {
    hide Placed, View, Wire;
    var e, t := Endpoint(a, r.connectionId), r.threadId;
    EndLinked(g, e);
    var g1 := g.(threads := g'.threads);
    Unopened(g, t, a);
    Opens(g, g1, t, g'.threads[t]);
    var g2 := g1.(stores := g'.stores);
    Writes(g1, g2, t, front, r);
    Sends(g2, g', Packet(g.links[e], m));
    SameTwice(g, g1, g2, t);
    SameTwice(g, g2, g', t);
    OneThreadMoved(g, g', t, agreed);
  }

  lemma Connects<S, D, B>(g: System<S, D, B>, links: map<Endpoint, Endpoint>, agreed: (Pair, Thread<S, D, B>) -> bool)
    requires Placed(g) && AllAgree(g, agreed) && Extends(g, links)
    ensures Placed(g.(links := links)) && AllAgree(g.(links := links), agreed)
  {
    hide View, Wire, Clean;
    var g' := g.(links := links);
    forall u | u in g'.threads ensures Linked(g', g'.threads[u].front, g'.threads[u].back) {
      assert Linked(g, g.threads[u].front, g.threads[u].back);
    }
    forall a, i | a in g'.stores && i in g'.stores[a].records ensures Located(g', a, g'.stores[a].records[i]) {
      assert Located(g, a, g.stores[a].records[i]);
    }
    forall u | u in g'.threads ensures ThreadOf(g', u) == ThreadOf(g, u) {}
  }

  lemma Loses<S(!new), D(!new), B(!new)>(g: System<S, D, B>, g': System<S, D, B>, agreed: (Pair, Thread<S, D, B>) -> bool,
                                         packet: Packet<B>)
    requires Placed(g) && AllAgree(g, agreed) && MayBeLost(agreed)
    requires packet in g.inflight && g' == g.(inflight := g.inflight - {packet})
    ensures Placed(g') && AllAgree(g', agreed)
  {
    hide Placed, View, Wire;
    var t := packet.message.ThreadId();
    Drops(g, g', packet);
    assert agreed(g.threads[t], ThreadOf(g, t));
    OneThreadMoved(g, g', t, agreed);
  }

  /** A message arrives, and its recipient rewrites its record on the thread or makes the first one. */
  lemma Arrives<S(!new), D(!new), B(!new)>(g: System<S, D, B>, g': System<S, D, B>, agreed: (Pair, Thread<S, D, B>) -> bool,
                                           packet: Packet<B>, front: bool, r': Record<S, D>)
    requires Placed(g) && AllAgree(g, agreed) && packet in g.inflight
    requires packet.message.ThreadId() in g.threads && packet.to == End(g.threads[packet.message.ThreadId()], front)
    requires packet.to.agent in g.stores && packet.to.agent in g'.stores
    requires var s, s' := g.stores[packet.to.agent], g'.stores[packet.to.agent];
             var r := View(s, packet.message.ThreadId());
             && MayArrive(agreed, packet, front, r, r')
             && r'.threadId == packet.message.ThreadId() && r'.connectionId == packet.to.connection
             && (if r.Some? then r'.id == r.value.id else r'.id !in s.records)
             && s'.records == s.records[r'.id := r'] && g'.stores == g.stores[packet.to.agent := s']
    requires g'.links == g.links && g'.threads == g.threads && g'.inflight == g.inflight - {packet}
    ensures Placed(g') && AllAgree(g', agreed)
  {
    hide Placed, View, Wire;
    var t := packet.message.ThreadId();
    var p, th := InFlight(g, packet);
    var g1 := g.(inflight := g'.inflight);
    Drops(g, g1, packet);
    ViewFinds(g.stores[packet.to.agent], t);
    Writes(g1, g', t, front, r');
    SameTwice(g, g1, g', t);
    assert agreed(p, th);
    OneThreadMoved(g, g', t, agreed);
  }
}
