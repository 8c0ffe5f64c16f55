/** What issue-credential and present-proof share: one record per exchange, found by its thread id, kept
    in a store that announces every change of state (src/storage/BaseRecord.ts, src/storage/Repository.ts
    and the updateState methods of both services). */
module Exchange {
  import opened Results
  import Storage

  datatype Connection = Connection(id: nat, ready: bool)

  // S is the protocol's state, D the messages and other fields its records hold.
  datatype Record<S, D> = Record(id: nat, connectionId: nat, threadId: nat, state: S, data: D)
  datatype StateChanged<S, D> = StateChanged(record: Record<S, D>, previousState: Option<S>)
  datatype Store<S, D> = Store(records: map<nat, Record<S, D>>, events: seq<StateChanged<S, D>>)

  datatype Message<B> = Message(id: nat, thread: Option<nat>, body: B)
  {
    /** The thread decorator's id, or else the message's own. */
    function ThreadId(): nat { thread.GetOr(id) }
  }

  datatype Error =
    | NoConnection | NotReady | NotFound | MultipleRecords | InvalidState | WrongConnection
    | MissingAttachment | MissingMetadata | MissingProposal | MissingDefinition | WalletRejects | InvalidEncoding

  datatype Outcome<S, D, B> = Outcome(store: Store<S, D>, sent: Option<Sent<B>>, error: Option<Error>)
  datatype Sent<B> = Sent(connectionId: nat, message: Message<B>)
  datatype Created<S, D, B> = Created(store: Store<S, D>, record: Record<S, D>, message: Message<B>)
  datatype Changed<S, D> = Changed(store: Store<S, D>, record: Record<S, D>)

  function Save<S, D>(s: Store<S, D>, r: Record<S, D>): Store<S, D> {
    Store(s.records[r.id := r], s.events + [StateChanged(r, None)])
  }

  function UpdateState<S, D>(s: Store<S, D>, r: Record<S, D>, state: S): Changed<S, D> {
    var r' := r.(state := state);
    Changed(Store(s.records[r.id := r'], s.events + [StateChanged(r', Some(r.state))]), r')
  }

  function ByThread<S, D>(t: nat): Record<S, D> -> bool {
    (r: Record<S, D>) => r.threadId == t
  }

  ghost function GetByThreadId<S, D>(s: Store<S, D>, t: nat): Result<Record<S, D>, Error> {
    match Storage.Lookup(s.records, ByThread(t))
    case NoMatch => Err(NotFound)
    case Many => Err(MultipleRecords)
    case One(i) => Ok(s.records[i])
  }

  /** The only record of a store is found on its thread. */
  lemma FoundAlone<S, D>(s: Store<S, D>, r: Record<S, D>)
    requires s.records == map[r.id := r]
    ensures GetByThreadId(s, r.threadId) == Ok(r)
  {
    assert Storage.Hit(s.records, ByThread<S, D>(r.threadId), r.id);
  }

  /** The checks every inbound message starts with. */
  function AssertReady(connection: Option<Connection>): Option<Error> {
    if connection.None? then Some(NoConnection)
    else if !connection.value.ready then Some(NotReady)
    else None
  }

  /** The record an inbound message may update: the only one on the thread, in the state that accepts the
      message, on the same connection. */
  ghost predicate Accepts<S, D>(s: Store<S, D>, threadId: nat, state: S, connection: Connection) {
    GetByThreadId(s, threadId).Ok?
    && GetByThreadId(s, threadId).value.state == state
    && GetByThreadId(s, threadId).value.connectionId == connection.id
  }

  /** Writes a changed record back in a new state, next to the message it goes with. */
  function Advance<S, D, B>(s: Store<S, D>, r: Record<S, D>, state: S, m: Message<B>): Result<Created<S, D, B>, Error> {
    var c := UpdateState(s, r, state);
    Ok(Created(c.store, c.record, m))
  }

  /** What an agent does after creating a message: it sends it over the record's connection. */
  function Reply<S, D, B>(s: Store<S, D>, result: Result<Created<S, D, B>, Error>): Outcome<S, D, B> {
    match result
    case Err(e) => Outcome(s, None, Some(e))
    case Ok(c) => Outcome(c.store, Some(Sent(c.record.connectionId, c.message)), None)
  }

  function Quiet<S, D, B>(s: Store<S, D>, result: Result<Changed<S, D>, Error>): Outcome<S, D, B> {
    match result
    case Err(e) => Outcome(s, None, Some(e))
    case Ok(c) => Outcome(c.store, None, None)
  }

  // ----- what a service method does -----------------------------------------------------------

  /** A create method answered with `reply` and left `after`, as `spec` says; a failure leaves the store alone. */
  ghost predicate Made<S, D, B>(before: Store<S, D>, spec: Result<Created<S, D, B>, Error>,
                                reply: Result<(Record<S, D>, Message<B>), Error>, after: Store<S, D>)
  {
    match spec
    case Err(e) => reply == Err(e) && after == before
    case Ok(c) => reply == Ok((c.record, c.message)) && after == c.store
  }

  ghost predicate Processed<S, D>(before: Store<S, D>, spec: Result<Changed<S, D>, Error>,
                                  result: Result<Record<S, D>, Error>, after: Store<S, D>)
  {
    match spec
    case Err(e) => result == Err(e) && after == before
    case Ok(c) => result == Ok(c.record) && after == c.store
  }

  // ----- histories --------------------------------------------------------------------------

  /** The announcements about one record, in order. */
  function Trail<S, D>(events: seq<StateChanged<S, D>>, id: nat): seq<StateChanged<S, D>> {
    if events == [] then []
    else
      var last := events[|events| - 1];
      Trail(events[..|events| - 1], id) + (if last.record.id == id then [last] else [])
  }

  /** Each announcement starts from the state in which the one before left the record; the first from none. */
  ghost predicate Chained<S, D>(trail: seq<StateChanged<S, D>>) {
    && (trail != [] ==> trail[0].previousState.None?)
    && forall i :: 0 < i < |trail| ==> trail[i].previousState == Some(trail[i - 1].record.state)
  }

  ghost predicate Recorded<S, D>(s: Store<S, D>, id: nat) {
    var trail := Trail(s.events, id);
    && Chained(trail)
    && (id in s.records <==> trail != [])
    && (id in s.records ==> s.records[id].id == id && s.records[id] == trail[|trail| - 1].record)
  }

  /** The announcements tell the whole story: they chain, and the last one shows what is stored. */
  ghost predicate History<S, D>(s: Store<S, D>) {
    forall id :: Recorded(s, id)
  }

  /** One more announcement extends the trail of its own record only. */
  lemma Announced<S, D>(s: Store<S, D>, s': Store<S, D>, e: StateChanged<S, D>)
    requires History(s) && s' == Store(s.records[e.record.id := e.record], s.events + [e])
    requires e.previousState ==
             if e.record.id in s.records then Some(s.records[e.record.id].state) else None
    ensures History(s')
  {
    forall id ensures Recorded(s', id) {
      assert Recorded(s, id);
      var trail, trail' := Trail(s.events, id), Trail(s'.events, id);
      assert s'.events[..|s.events|] == s.events;
      assert trail' == if e.record.id == id then trail + [e] else trail + [];
      forall i | 0 < i < |trail'|
        ensures trail'[i].previousState == Some(trail'[i - 1].record.state)
      {
        assert trail'[i - 1] == trail[i - 1];
        if i < |trail| { assert trail'[i] == trail[i]; }
      }
    }
  }

  lemma SaveKeepsHistory<S, D>(s: Store<S, D>, r: Record<S, D>)
    requires History(s) && r.id !in s.records
    ensures History(Save(s, r))
  {
    Announced(s, Save(s, r), StateChanged(r, None));
  }

  lemma UpdateKeepsHistory<S, D>(s: Store<S, D>, r: Record<S, D>, state: S)
    requires History(s) && r.id in s.records && s.records[r.id].state == r.state
    ensures History(UpdateState(s, r, state).store)
  {
    Announced(s, UpdateState(s, r, state).store, StateChanged(r.(state := state), Some(r.state)));
  }
}
