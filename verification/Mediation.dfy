/** Delivery through a mediator: senders pack with the mediator's routing key, the mediator forwards into its
    queues, recipients pick up and unpack. Any number of senders and recipients, in any order. */
module Mediation {
  import opened Results
  import opened Envelopes
  import C = Connections
  import H = ConnectionHistories
  import R = Routing
  import Q = MessageQueue

  datatype Parcel<+P> = Parcel(agent: nat, wire: Wire<P>)
  datatype Delivery<+P> = Delivery(agent: nat, payload: P, sender: Verkey, recipient: Verkey)

  // The connection records that an agent keeps.
  type Records = map<C.ConnectionId, C.ConnectionRecord>

  // `submitted` and `dropped` only keep the books; a message is booked as it was packed for its recipient.
  datatype Net<!P(==)> = Net(
    key: Verkey, connections: map<nat, Records>, table: R.Table, uplink: seq<Wire<P>>, queues: Q.Queues<Wire<P>>, downlink: seq<Parcel<P>>,
    delivered: seq<Delivery<P>>, submitted: multiset<Wire<P>>, dropped: multiset<Wire<P>>)

  datatype Step<+P> =
    | Submit(sender: Verkey, recipient: Verkey, payload: P)
    | Update(update: R.Update, connection: C.ConnectionRecord)
    | Connect(agent: nat, records: Records)  // whatever an agent's connection protocols make of its records
    | Arrive(i: nat)
    | PickUp(connection: C.ConnectionRecord)
    | Receive(i: nat)

  function Direct<P>(sender: Verkey, recipient: Verkey, payload: P): Wire<P> {
    Packed([recipient], sender, Payload(payload))
  }

  function Without<T>(s: seq<T>, i: nat): seq<T>
    requires i < |s|
  {
    s[..i] + s[i + 1..]
  }

  /** A connection whose other side is reached at one key, without further routing. */
  predicate Reaches(connection: C.ConnectionRecord, owner: nat) {
    connection.theirDidDoc.Some?
    && var service := C.FirstAgentService(connection.theirDidDoc.value.service);
       service.Some? && |service.value.recipientKeys| == 1 && service.value.recipientKeys[0].owner == owner
       && service.value.routingKeys == []
  }

  /** The receiver looks up the connection of the recipient key, and refuses a message if it finds several, or
      if it knows another key for the other side of the one it finds. */
  ghost predicate SenderAccepted(records: Records, recipient: Verkey, sender: Verkey) {
    match C.Find(records, C.ByVerkey(recipient))
    case Err(_) => false
    case Ok(None) => true
    case Ok(Some(connection)) => connection.TheirKey().None? || connection.TheirKey() == Some(sender)
  }

  /** That is what the receiver of the connection protocol does with these records. */
  lemma AcceptedByReceiver(a: C.Agent, recipient: Verkey, sender: Verkey, message: C.Message)
    ensures SenderAccepted(a.records, recipient, sender) <==>
            C.SenderChecked(a, C.Unpacked(message, Some(sender), Some(recipient))).Ok?
    ensures SenderAccepted(a.records, recipient, sender) <==>
            && (forall i, j ::
                  i in a.records && j in a.records
                  && a.records[i].tags.verkey == Some(recipient) && a.records[j].tags.verkey == Some(recipient) ==>
                  i == j)
            && (forall i :: i in a.records && a.records[i].tags.verkey == Some(recipient) ==>
                              a.records[i].TheirKey() in {None, Some(sender)})
  {
    H.FindExactly(a.records, C.ByVerkey(recipient));
    forall i | i in a.records && a.records[i].tags.verkey == Some(recipient) ensures C.ByVerkey(recipient)(a.records[i]) {}
  }

  ghost function RecordsOf<P>(g: Net<P>, agent: nat): Records {
    if agent in g.connections then g.connections[agent] else map[]
  }

  ghost predicate Enabled<P>(g: Net<P>, s: Step<P>) {
    match s
    case Submit(_, _, _) => true
    // Agents register keys of their own.
    case Update(u, connection) => u.Add? ==> Reaches(connection, u.recipientKey.owner)
    case Connect(_, _) => true
    case Arrive(i) => i < |g.uplink|
    case PickUp(_) => true
    case Receive(i) => i < |g.downlink|
  }

  /** The message for the recipient inside a forward, or the message itself. */
  function Inner<P>(w: Wire<P>): Wire<P> {
    if w.content.Forward? then w.content.message else w
  }

  /** What an agent does with an inbound message: it is dispatched there, or passed on, or refused. */
  datatype Verdict<+P> = Dispatched(delivery: Delivery<P>) | PassedOn(to: Option<Verkey>, message: Wire<P>) | Refused

  ghost function Judge<P>(agent: nat, records: Records, w: Wire<P>): Verdict<P> {
    match Opened(agent, Encrypted(w))
    case Err(_) => Refused
    case Ok(c) =>
      if c.sender.None? || c.recipient.None? || !SenderAccepted(records, c.recipient.value, c.sender.value) then Refused
      else match c.content
        case Payload(p) => Dispatched(Delivery(agent, p, c.sender.value, c.recipient.value))
        case Forward(to, message) => PassedOn(to, message)
  }

  /** A mediator stores the repacked forward under the key of the connection that has the route. */
  ghost function Stored<P>(g: Net<P>, to: Option<Verkey>, message: Wire<P>): Option<Q.Queues<Wire<P>>> {
    match R.ForwardTo(g.table, to, message)
    case Err(_) => None
    case Ok(outbound) => Some(Q.Saved(g.queues, g.table[to.value].TheirKey().value, PackedMessage(outbound)))
  }

  function Parcels<P>(agent: nat, ws: seq<Wire<P>>): seq<Parcel<P>> {
    seq(|ws|, i requires 0 <= i < |ws| => Parcel(agent, ws[i]))
  }

  ghost function Apply<P>(g: Net<P>, s: Step<P>): Net<P>
    requires Enabled(g, s)
  {
    match s
    case Submit(sender, recipient, p) =>
      var packed := PackedMessage(OutboundMessage(Payload(p), [recipient], [g.key], sender, ""));
      g.(uplink := g.uplink + [packed], submitted := g.submitted + multiset{Direct(sender, recipient, p)})
    case Update(u, connection) =>
      var t := R.UpdateRoute(g.table, u, connection);
      if t.Ok? then g.(table := t.value) else g
    case Connect(agent, records) => g.(connections := g.connections[agent := records])
    case Arrive(i) =>
      var w, g' := g.uplink[i], g.(uplink := Without(g.uplink, i));
      (match Judge(g.key.owner, RecordsOf(g, g.key.owner), w)
       case Dispatched(d) => g'.(delivered := g.delivered + [d])
       case Refused => g'.(dropped := g.dropped + multiset{Inner(w)})
       case PassedOn(to, message) =>
         var q := Stored(g, to, message);
         if q.Some? then g'.(queues := q.value) else g'.(dropped := g.dropped + multiset{Inner(w)}))
    case PickUp(connection) =>
      var key := connection.TheirKey();
      if key.None? then g
      else g.(queues := Q.Cleared(g.queues, key.value),
              downlink := g.downlink + Parcels(key.value.owner, Q.Waiting(g.queues, key.value)))
    case Receive(i) =>
      var parcel, g' := g.downlink[i], g.(downlink := Without(g.downlink, i));
      (match Judge(parcel.agent, RecordsOf(g, parcel.agent), parcel.wire)
       case Dispatched(d) => g'.(delivered := g.delivered + [d])
       case _ => g'.(dropped := g.dropped + multiset{Inner(parcel.wire)}))
  }

  ghost predicate Initial<P>(g: Net<P>) {
    && g.table == map[] && g.uplink == [] && g.queues == map[] && g.downlink == [] && g.delivered == []
    && g.submitted == multiset{} && g.dropped == multiset{}
  }

  ghost predicate Run<P>(gs: seq<Net<P>>, ss: seq<Step<P>>) {
    && |gs| == |ss| + 1 && Initial(gs[0])
    && forall i :: 0 <= i < |ss| ==> Enabled(gs[i], ss[i]) && gs[i + 1] == Apply(gs[i], ss[i])
  }

  // ----- the shape of messages under way ----------------------------------------------------

  ghost predicate ForRecipient<P>(w: Wire<P>) {
    |w.recipientKeys| == 1 && w.content.Payload?
  }

  /** As a sender packs it: one forward to the recipient, by the sender itself. */
  ghost predicate Upward<P>(g: Net<P>, w: Wire<P>) {
    && w.recipientKeys == [g.key] && w.content.Forward? && ForRecipient(w.content.message)
    && w.content.to == Some(w.content.message.recipientKeys[0]) && w.sender == w.content.message.sender
  }

  /** As the mediator repacks it for the agent that owns the recipient key. */
  ghost predicate Downward<P>(agent: nat, w: Wire<P>) {
    && |w.recipientKeys| == 1 && w.recipientKeys[0].owner == agent
    && w.content.Forward? && ForRecipient(w.content.message) && w.content.message.recipientKeys[0].owner == agent
  }

  ghost predicate Shaped<P>(g: Net<P>) {
    && (forall w :: w in g.uplink ==> Upward(g, w))
    && (forall key, w :: key in g.queues && w in g.queues[key] ==> Downward(key.owner, w))
    && (forall p :: p in g.downlink ==> Downward(p.agent, p.wire))
    && (forall d :: d in g.delivered ==> d.agent == d.recipient.owner)
    && (forall key :: key in g.table ==> Reaches(g.table[key], key.owner))
  }

  /** The key that the mediator takes itself to be addressed by. */
  function MediatorKey<P>(g: Net<P>, w: Wire<P>): Verkey {
    var inner := Inner(w);
    if |inner.recipientKeys| == 1 && inner.recipientKeys[0].owner == g.key.owner then inner.recipientKeys[0] else g.key
  }

  /** A mediator's own message is dispatched; any other is passed on as it is. */
  lemma AtMediator<P>(g: Net<P>, w: Wire<P>, records: Records)
    requires Upward(g, w)
    ensures var inner := w.content.message;
            Judge(g.key.owner, records, w) ==
            if !SenderAccepted(records, MediatorKey(g, w), w.sender) then Refused
            else if inner.recipientKeys[0].owner == g.key.owner
            then Dispatched(Delivery(g.key.owner, inner.content.payload, inner.sender, inner.recipientKeys[0]))
            else PassedOn(w.content.to, inner)
  {
    OneKey(g.key.owner, w);
    OneKey(g.key.owner, w.content.message);
  }

  lemma OneKey<P>(wallet: nat, w: Wire<P>)
    requires |w.recipientKeys| == 1
    ensures Unpack(wallet, w) ==
            if w.recipientKeys[0].owner == wallet then Some(Context(w.content, Some(w.sender), Some(w.recipientKeys[0]))) else None
  {
    assert w.recipientKeys[0] in w.recipientKeys;
  }

  /** Its recipient peels both layers and gets the payload with the sender's own key, or refuses the sender. */
  lemma AtRecipient<P>(agent: nat, w: Wire<P>, records: Records)
    requires Downward(agent, w)
    ensures var inner := w.content.message;
            Judge(agent, records, w) ==
            if !SenderAccepted(records, inner.recipientKeys[0], inner.sender) then Refused
            else Dispatched(Delivery(agent, inner.content.payload, inner.sender, inner.recipientKeys[0]))
  {
    OneKey(agent, w);
    OneKey(agent, w.content.message);
  }

  /** What the mediator stores is what it was given, one layer around it, for the owner of the route. */
  lemma Repacked<P>(g: Net<P>, w: Wire<P>)
    requires Upward(g, w) && w.content.to.value in g.table
    requires Reaches(g.table[w.content.to.value], w.content.to.value.owner)
    ensures var to := w.content.to.value;
            var c := g.table[to];
            && c.TheirKey().Some? && c.TheirKey().value.owner == to.owner
            && var stored := Packed([c.TheirKey().value], c.verkey, w.content);
               Stored(g, w.content.to, w.content.message) == Some(Q.Saved(g.queues, c.TheirKey().value, stored))
               && Downward(to.owner, stored)
  {
    var to := w.content.to.value;
    var c := g.table[to];
    var service := C.FirstAgentService(c.theirDidDoc.value.service).value;
    var outbound := R.ForwardTo(g.table, w.content.to, w.content.message).value;
    assert outbound.routingKeys == [] && outbound.recipientKeys == [service.recipientKeys[0]];
  }

  /** From end to end: a message packed with the mediator's routing key, passed on by the mediator and
      picked up by the agent that owns the recipient key comes out as it went in. */
  lemma Trip<P>(g: Net<P>, sender: Verkey, recipient: Verkey, p: P, atMediator: Records, atRecipient: Records)
    requires recipient.owner != g.key.owner && recipient in g.table && Reaches(g.table[recipient], recipient.owner)
    requires SenderAccepted(atMediator, g.key, sender) && SenderAccepted(atRecipient, recipient, sender)
    ensures var packed := PackedMessage(OutboundMessage(Payload(p), [recipient], [g.key], sender, ""));
            var arrived := Judge(g.key.owner, atMediator, packed);
            && arrived.PassedOn?
            && var stored := Stored(g, arrived.to, arrived.message);
               && stored.Some?
               && var queue := Q.Waiting(stored.value, g.table[recipient].TheirKey().GetOr(recipient));
                  && |queue| > 0
                  && Judge(recipient.owner, atRecipient, queue[|queue| - 1]) ==
                     Dispatched(Delivery(recipient.owner, p, sender, recipient))
  {
    var inner := Direct(sender, recipient, p);
    var packed := PackedMessage(OutboundMessage(Payload(p), [recipient], [g.key], sender, ""));
    WrappedOnce(inner, Some(recipient), g.key, sender);
    AtMediator(g, packed, atMediator);
    Repacked(g, packed);
    var c := g.table[recipient];
    AtRecipient(recipient.owner, Packed([c.TheirKey().value], c.verkey, packed.content), atRecipient);
  }

  lemma WrappedOnce<P>(w: Wire<P>, to: Option<Verkey>, key: Verkey, sender: Verkey)
    ensures Wrapped(w, to, [key], sender) == Packed([key], sender, Forward(to, w))
  {
    assert [key][..0] == [];
  }

  // ----- the books --------------------------------------------------------------------------

  function One<T(==)>(a: T, b: T): nat {
    if a == b then 1 else 0
  }

  /** How often `x` is on its way in `ws`. */
  function Carried<P(==)>(ws: seq<Wire<P>>, x: Wire<P>): nat {
    if ws == [] then 0 else One(Inner(ws[0]), x) + Carried(ws[1..], x)
  }

  function CarriedDown<P(==)>(ps: seq<Parcel<P>>, x: Wire<P>): nat {
    if ps == [] then 0 else One(Inner(ps[0].wire), x) + CarriedDown(ps[1..], x)
  }

  function Received<P(==)>(ds: seq<Delivery<P>>, x: Wire<P>): nat {
    if ds == [] then 0 else One(Direct(ds[0].sender, ds[0].recipient, ds[0].payload), x) + Received(ds[1..], x)
  }

  ghost function Queued<P>(queues: Q.Queues<Wire<P>>, x: Wire<P>): nat {
    if queues == map[] then 0
    else
      var key :| key in queues;
      Queued(queues - {key}, x) + Carried(queues[key], x)
  }

  /** Every submitted message is in exactly one place, as often as it was submitted. */
  ghost predicate Balanced<P(!new)>(g: Net<P>) {
    forall x :: BalancedFor(g, x)
  }

  ghost predicate BalancedFor<P>(g: Net<P>, x: Wire<P>) {
    g.submitted[x] ==
    Carried(g.uplink, x) + Queued(g.queues, x) + CarriedDown(g.downlink, x) + Received(g.delivered, x) + g.dropped[x]
  }

  lemma {:induction false} CarriedAppend<P>(ws: seq<Wire<P>>, vs: seq<Wire<P>>, x: Wire<P>)
    ensures Carried(ws + vs, x) == Carried(ws, x) + Carried(vs, x)
  {
    if ws == [] {
      assert ws + vs == vs;
    } else {
      CarriedAppend(ws[1..], vs, x);
      assert (ws + vs)[1..] == ws[1..] + vs;
    }
  }

  lemma {:induction false} CarriedWithout<P>(ws: seq<Wire<P>>, i: nat, x: Wire<P>)
    requires i < |ws|
    ensures Carried(ws, x) == Carried(Without(ws, i), x) + One(Inner(ws[i]), x)
  {
    if i == 0 {
      assert Without(ws, 0) == ws[1..];
    } else {
      CarriedWithout(ws[1..], i - 1, x);
      assert Without(ws, i)[1..] == Without(ws[1..], i - 1);
    }
  }

  lemma {:induction false} DownWithout<P>(ps: seq<Parcel<P>>, i: nat, x: Wire<P>)
    requires i < |ps|
    ensures CarriedDown(ps, x) == CarriedDown(Without(ps, i), x) + One(Inner(ps[i].wire), x)
  {
    if i == 0 {
      assert Without(ps, 0) == ps[1..];
    } else {
      DownWithout(ps[1..], i - 1, x);
      assert Without(ps, i)[1..] == Without(ps[1..], i - 1);
    }
  }

  lemma {:induction false} DownAppend<P>(ps: seq<Parcel<P>>, agent: nat, ws: seq<Wire<P>>, x: Wire<P>)
    ensures CarriedDown(ps + Parcels(agent, ws), x) == CarriedDown(ps, x) + Carried(ws, x)
    decreases |ps| + |ws|
  {
    if ps != [] {
      DownAppend(ps[1..], agent, ws, x);
      assert (ps + Parcels(agent, ws))[1..] == ps[1..] + Parcels(agent, ws);
    } else {
      assert ps + Parcels(agent, ws) == Parcels(agent, ws);
      if ws != [] {
        DownAppend([], agent, ws[1..], x);
        assert [] + Parcels(agent, ws[1..]) == Parcels(agent, ws)[1..];
      }
    }
  }

  lemma {:induction false} ReceivedAppend<P>(ds: seq<Delivery<P>>, d: Delivery<P>, x: Wire<P>)
    ensures Received(ds + [d], x) == Received(ds, x) + One(Direct(d.sender, d.recipient, d.payload), x)
  {
    if ds == [] {
      assert [d][1..] == [];
    } else {
      ReceivedAppend(ds[1..], d, x);
      assert (ds + [d])[1..] == ds[1..] + [d];
    }
  }

  /** Any key may be counted first. */
  lemma {:induction false} QueuedSplit<P>(queues: Q.Queues<Wire<P>>, key: Verkey, x: Wire<P>)
    requires key in queues
    ensures Queued(queues, x) == Queued(queues - {key}, x) + Carried(queues[key], x)
    decreases |queues|
  {
    hide Carried;
    var first :| first in queues && Queued(queues, x) == Queued(queues - {first}, x) + Carried(queues[first], x);
    if first != key {
      QueuedSplit(queues - {first}, key, x);
      QueuedSplit(queues - {key}, first, x);
      assert queues - {first} - {key} == queues - {key} - {first};
    }
  }

  lemma QueuedChange<P>(queues: Q.Queues<Wire<P>>, key: Verkey, ws: seq<Wire<P>>, x: Wire<P>)
    ensures Queued(queues[key := ws], x) + Carried(Q.Waiting(queues, key), x) == Queued(queues, x) + Carried(ws, x)
  {
    hide Queued;
    QueuedSplit(queues[key := ws], key, x);
    assert queues[key := ws] - {key} == queues - {key};
    if key in queues { QueuedSplit(queues, key, x); } else { assert queues - {key} == queues; }
  }

  // ----- one step -----------------------------------------------------------------------------

  lemma DirectAgain<P>(w: Wire<P>)
    requires ForRecipient(w)
    ensures Direct(w.sender, w.recipientKeys[0], w.content.payload) == w && Inner(w) == w
  {
    assert w.recipientKeys == [w.recipientKeys[0]];
  }

  lemma KeptElsewhere<T>(s: seq<T>, i: nat)
    requires i < |s|
    ensures forall y :: y in Without(s, i) ==> y in s
  {
  }

  lemma SubmitKeeps<P>(g: Net<P>, sender: Verkey, recipient: Verkey, p: P, x: Wire<P>)
    requires Shaped(g) && BalancedFor(g, x)
    ensures var g' := Apply(g, Submit(sender, recipient, p)); Shaped(g') && BalancedFor(g', x)
  {
    var w := PackedMessage(OutboundMessage(Payload(p), [recipient], [g.key], sender, ""));
    WrappedOnce(Direct(sender, recipient, p), Some(recipient), g.key, sender);
    CarriedAppend(g.uplink, [w], x);
    assert Carried([w], x) == One(Inner(w), x) + Carried([], x);
    var g' := Apply(g, Submit(sender, recipient, p));
    forall v | v in g'.uplink ensures Upward(g', v) {
      if v in g.uplink { assert Upward(g, v); }
    }
  }

  lemma UpdateKeeps<P>(g: Net<P>, u: R.Update, connection: C.ConnectionRecord, x: Wire<P>)
    requires Shaped(g) && BalancedFor(g, x) && Enabled(g, Update(u, connection))
    ensures var g' := Apply(g, Update(u, connection)); Shaped(g') && BalancedFor(g', x)
  {
    hide Carried, Queued, CarriedDown, Received, Reaches;
    var g' := Apply(g, Update(u, connection));
    forall v | v in g'.uplink ensures Upward(g', v) { assert Upward(g, v); }
  }

  lemma ConnectKeeps<P>(g: Net<P>, agent: nat, records: Records, x: Wire<P>)
    requires Shaped(g) && BalancedFor(g, x)
    ensures var g' := Apply(g, Connect(agent, records)); Shaped(g') && BalancedFor(g', x)
  {
    hide Carried, Queued, CarriedDown, Received, Reaches;
    forall v | v in g.uplink ensures Upward(Apply(g, Connect(agent, records)), v) { assert Upward(g, v); }
  }

  /** A message leaves the uplink and is booked as delivered, dropped or queued. */
  lemma ArriveKeeps<P>(g: Net<P>, i: nat, x: Wire<P>)
    requires Shaped(g) && BalancedFor(g, x) && i < |g.uplink|
    ensures var g' := Apply(g, Arrive(i)); Shaped(g') && BalancedFor(g', x)
  {
    hide Carried, Queued, CarriedDown, Received, Judge, Stored, SenderAccepted, Reaches;
    var w, g' := g.uplink[i], Apply(g, Arrive(i));
    assert w in g.uplink && Upward(g, w);
    AtMediator(g, w, RecordsOf(g, g.key.owner));
    CarriedWithout(g.uplink, i, x);
    KeptElsewhere(g.uplink, i);
    forall v | v in g'.uplink ensures Upward(g', v) { assert Upward(g, v); }
    match Judge(g.key.owner, RecordsOf(g, g.key.owner), w)
    case Refused =>
    case Dispatched(d) =>
      DirectAgain(w.content.message);
      ReceivedAppend(g.delivered, d, x);
    case PassedOn(to, message) =>
      if to.value in g.table {
        Repacked(g, w);
        Queueing(g, w, x);
      } else {
        assert Stored(g, to, message) == None by { NoRoute(g, to, message); }
      }
  }

  lemma NoRoute<P>(g: Net<P>, to: Option<Verkey>, message: Wire<P>)
    requires to.Some? && to.value !in g.table
    ensures Stored(g, to, message) == None
  {
  }

  lemma Queueing<P>(g: Net<P>, w: Wire<P>, x: Wire<P>)
    requires Shaped(g) && Upward(g, w) && w.content.to.value in g.table
    ensures var q := Stored(g, w.content.to, w.content.message);
            && q.Some? && Queued(q.value, x) == Queued(g.queues, x) + One(Inner(w), x)
            && forall key, v :: key in q.value && v in q.value[key] ==> Downward(key.owner, v)
  {
    hide Queued, Stored, Reaches;
    Repacked(g, w);
    var c := g.table[w.content.to.value];
    var key := c.TheirKey().value;
    var stored := Packed([key], c.verkey, w.content);
    var waiting := Q.Waiting(g.queues, key);
    CarriedAppend(waiting, [stored], x);
    assert Carried([stored], x) == One(Inner(stored), x) + Carried([], x);
    QueuedChange(g.queues, key, waiting + [stored], x);
  }

  lemma PickUpKeeps<P>(g: Net<P>, connection: C.ConnectionRecord, x: Wire<P>)
    requires Shaped(g) && BalancedFor(g, x)
    ensures var g' := Apply(g, PickUp(connection)); Shaped(g') && BalancedFor(g', x)
  {
    hide Queued, CarriedDown, Received;
    var g' := Apply(g, PickUp(connection));
    if connection.TheirKey().Some? {
      var key := connection.TheirKey().value;
      DownAppend(g.downlink, key.owner, Q.Waiting(g.queues, key), x);
      QueuedChange(g.queues, key, [], x);
      forall p | p in g'.downlink ensures Downward(p.agent, p.wire) {
        if p !in g.downlink {
          var ws := Q.Waiting(g.queues, key);
          var k :| 0 <= k < |ws| && p == Parcel(key.owner, ws[k]);
        }
      }
      forall v | v in g'.uplink ensures Upward(g', v) { assert Upward(g, v); }
    }
  }

  lemma ReceiveKeeps<P>(g: Net<P>, i: nat, x: Wire<P>)
    requires Shaped(g) && BalancedFor(g, x) && i < |g.downlink|
    ensures var g' := Apply(g, Receive(i)); Shaped(g') && BalancedFor(g', x)
  {
    hide Carried, Queued, CarriedDown, Received, Judge, SenderAccepted, Reaches;
    var parcel, g' := g.downlink[i], Apply(g, Receive(i));
    assert parcel in g.downlink && Downward(parcel.agent, parcel.wire);
    AtRecipient(parcel.agent, parcel.wire, RecordsOf(g, parcel.agent));
    DownWithout(g.downlink, i, x);
    KeptElsewhere(g.downlink, i);
    forall v | v in g'.uplink ensures Upward(g', v) { assert Upward(g, v); }
    DirectAgain(parcel.wire.content.message);
    match Judge(parcel.agent, RecordsOf(g, parcel.agent), parcel.wire)
    case Dispatched(d) => ReceivedAppend(g.delivered, d, x);
    case _ =>
  }

  lemma StepKeeps<P>(g: Net<P>, s: Step<P>, x: Wire<P>)
    requires Shaped(g) && BalancedFor(g, x) && Enabled(g, s)
    ensures Shaped(Apply(g, s)) && BalancedFor(Apply(g, s), x)
  {
    hide Shaped, BalancedFor, Apply;
    match s
    case Submit(sender, recipient, p) => SubmitKeeps(g, sender, recipient, p, x);
    case Update(u, connection) => UpdateKeeps(g, u, connection, x);
    case Connect(agent, records) => ConnectKeeps(g, agent, records, x);
    case Arrive(i) => ArriveKeeps(g, i, x);
    case PickUp(connection) => PickUpKeeps(g, connection, x);
    case Receive(i) => ReceiveKeeps(g, i, x);
  }

  lemma {:induction false} Reached<P>(gs: seq<Net<P>>, ss: seq<Step<P>>, i: nat, x: Wire<P>)
    requires Run(gs, ss) && i < |gs|
    ensures Shaped(gs[i]) && BalancedFor(gs[i], x)
  {
    hide *;
    if i == 0 {
      FirstNet(gs, ss);
      NothingYet(gs[0], x);
    } else {
      OneStep(gs, ss, i - 1);
      Reached(gs, ss, i - 1, x);
      StepKeeps(gs[i - 1], ss[i - 1], x);
    }
  }

  lemma FirstNet<P>(gs: seq<Net<P>>, ss: seq<Step<P>>)
    requires Run(gs, ss)
    ensures |gs| > 0 && Initial(gs[0])
  {
  }

  lemma OneStep<P>(gs: seq<Net<P>>, ss: seq<Step<P>>, i: nat)
    requires Run(gs, ss) && i + 1 < |gs|
    ensures i < |ss| && Enabled(gs[i], ss[i]) && gs[i + 1] == Apply(gs[i], ss[i])
  {
  }

  lemma NothingYet<P>(g: Net<P>, x: Wire<P>)
    requires Initial(g)
    ensures Shaped(g) && BalancedFor(g, x)
  {
  }

  // ----- what every run guarantees ----------------------------------------------------------

  /** Whatever the order of sends, route updates, arrivals, pickups and receipts, every message that was
      submitted is, as often as it was, on its way up, queued, on its way down, delivered or dropped. */
  lemma Conservation<P(!new)>(gs: seq<Net<P>>, ss: seq<Step<P>>, i: nat)
    requires Run(gs, ss) && i < |gs|
    ensures Balanced(gs[i])
  {
    forall x: Wire<P> ensures BalancedFor(gs[i], x) { Reached(gs, ss, i, x); }
  }

  lemma {:induction false} ReceivedCounts<P>(ds: seq<Delivery<P>>, d: Delivery<P>)
    requires d in ds
    ensures Received(ds, Direct(d.sender, d.recipient, d.payload)) > 0
  {
    if ds[0] != d { ReceivedCounts(ds[1..], d); }
  }

  /** What an agent is given to dispatch was submitted with that very payload, by the holder of that sender
      key and for that recipient key, and the recipient key is the agent's own. */
  lemma MediatedDelivery<P>(gs: seq<Net<P>>, ss: seq<Step<P>>, i: nat, d: Delivery<P>)
    requires Run(gs, ss) && i < |gs| && d in gs[i].delivered
    ensures d.agent == d.recipient.owner
    ensures Direct(d.sender, d.recipient, d.payload) in gs[i].submitted
    ensures Received(gs[i].delivered, Direct(d.sender, d.recipient, d.payload)) <=
            gs[i].submitted[Direct(d.sender, d.recipient, d.payload)]
  {
    Reached(gs, ss, i, Direct(d.sender, d.recipient, d.payload));
    ReceivedCounts(gs[i].delivered, d);
  }

  /** When nothing is under way and nothing was dropped, everything submitted was delivered, exactly as often. */
  lemma AllDelivered<P>(gs: seq<Net<P>>, ss: seq<Step<P>>, i: nat, x: Wire<P>)
    requires Run(gs, ss) && i < |gs| && gs[i].dropped == multiset{}
    requires gs[i].uplink == [] && gs[i].downlink == [] && forall key :: key in gs[i].queues ==> gs[i].queues[key] == []
    ensures Received(gs[i].delivered, x) == gs[i].submitted[x]
  {
    Reached(gs, ss, i, x);
    EmptyQueues(gs[i].queues, x);
  }

  lemma {:induction false} EmptyQueues<P>(queues: Q.Queues<Wire<P>>, x: Wire<P>)
    requires forall key :: key in queues ==> queues[key] == []
    ensures Queued(queues, x) == 0
    decreases |queues|
  {
    if queues != map[] {
      var key :| key in queues && Queued(queues, x) == Queued(queues - {key}, x) + Carried(queues[key], x);
      EmptyQueues(queues - {key}, x);
    }
  }

  /** The mediator drops a message exactly when its connection records speak against the sender or it has no route
      to a recipient other than itself; a recipient drops one exactly when its records speak against the sender. */
  lemma WhenDropped<P>(gs: seq<Net<P>>, ss: seq<Step<P>>, i: nat)
    requires Run(gs, ss) && i < |ss| && (ss[i].Arrive? || ss[i].Receive?)
    ensures match ss[i]
            case Arrive(k) =>
              var g, w := gs[i], gs[i].uplink[k];
              && w.content.Forward? && w.content.to.Some?
              && (gs[i + 1].dropped != g.dropped <==>
                  !SenderAccepted(RecordsOf(g, g.key.owner), MediatorKey(g, w), w.sender)
                  || (w.content.to.value.owner != g.key.owner && w.content.to.value !in g.table))
            case Receive(k) =>
              var g, parcel := gs[i], gs[i].downlink[k];
              && parcel.wire.content.Forward? && |parcel.wire.content.message.recipientKeys| == 1
              && (gs[i + 1].dropped != g.dropped <==>
                  !SenderAccepted(RecordsOf(g, parcel.agent), parcel.wire.content.message.recipientKeys[0],
                                  parcel.wire.content.message.sender))
            case _ => true
  {
    hide Judge, Stored, SenderAccepted, Reaches;
    var g := gs[i];
    match ss[i]
    case Arrive(k) =>
      var w := g.uplink[k];
      Reached(gs, ss, i, w);
      assert w in g.uplink && Upward(g, w);
      AtMediator(g, w, RecordsOf(g, g.key.owner));
      Dropping(g.dropped, Inner(w));
      if w.content.to.value in g.table { Repacked(g, w); } else { NoRoute(g, w.content.to, w.content.message); }
    case Receive(k) =>
      var parcel := g.downlink[k];
      Reached(gs, ss, i, parcel.wire);
      assert parcel in g.downlink && Downward(parcel.agent, parcel.wire);
      AtRecipient(parcel.agent, parcel.wire, RecordsOf(g, parcel.agent));
      Dropping(g.dropped, Inner(parcel.wire));
    case _ =>
  }

  lemma Dropping<T>(m: multiset<T>, x: T)
    ensures m + multiset{x} != m
  {
    assert (m + multiset{x})[x] == m[x] + 1;
  }
}
