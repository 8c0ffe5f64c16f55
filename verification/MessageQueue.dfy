/** The queue of a mediator and its pickup (src/storage/InMemoryMessageRepository.ts,
    src/modules/routing/services/MessagePickupService.ts). */
module MessageQueue {
  import opened Results
  import C = Connections

  type Verkey = C.Verkey
  type Queues<W> = map<Verkey, seq<W>>

  function Waiting<W>(q: Queues<W>, key: Verkey): seq<W> {
    if key in q then q[key] else []
  }

  function Saved<W>(q: Queues<W>, key: Verkey, w: W): Queues<W> {
    q[key := Waiting(q, key) + [w]]
  }

  function Cleared<W>(q: Queues<W>, key: Verkey): Queues<W> {
    q[key := []]
  }

  // ----- any number of saves and pickups ----------------------------------------------------

  datatype Op<+W> = Save(key: Verkey, message: W) | PickUp(key: Verkey)

  function After<W>(ops: seq<Op<W>>): Queues<W> {
    if ops == [] then map[]
    else
      var last, q := ops[|ops| - 1], After(ops[..|ops| - 1]);
      match last
      case Save(key, w) => Saved(q, key, w)
      case PickUp(key) => Cleared(q, key)
  }

  /** All that was saved for a key, in order. */
  function SavedFor<W>(ops: seq<Op<W>>, key: Verkey): seq<W> {
    if ops == [] then []
    else
      var last := ops[|ops| - 1];
      SavedFor(ops[..|ops| - 1], key) + if last.Save? && last.key == key then [last.message] else []
  }

  /** All that the pickups for a key returned, one batch after another. */
  function ReturnedFor<W>(ops: seq<Op<W>>, key: Verkey): seq<W> {
    if ops == [] then []
    else
      var front, last := ops[..|ops| - 1], ops[|ops| - 1];
      ReturnedFor(front, key) + if last.PickUp? && last.key == key then Waiting(After(front), key) else []
  }

  /** Nothing is lost, repeated or reordered: the batches so far and then the queue are what was saved. */
  lemma {:induction false} NothingLost<W>(ops: seq<Op<W>>, key: Verkey)
    ensures ReturnedFor(ops, key) + Waiting(After(ops), key) == SavedFor(ops, key)
  {
    if ops != [] {
      NothingLost(ops[..|ops| - 1], key);
    }
  }

  // ----- the repository ---------------------------------------------------------------------

  // A JavaScript array: whoever holds it sees what is pushed to it.
  class MessageList<W> {
    var items: seq<W>

    constructor ()
      ensures items == []
    {
      items := [];
    }

    method Push(w: W)
      modifies this
      ensures items == old(items) + [w]
    {
      items := items + [w];
    }
  }

  class InMemoryMessageRepository<W> {
    var messages: map<Verkey, MessageList<W>>

    /** No two keys share a list. */
    ghost predicate Valid()
      reads this
    {
      forall k, l :: k in messages && l in messages && messages[k] == messages[l] ==> k == l
    }

    ghost function Lists(): set<MessageList<W>>
      reads this
    {
      set k | k in messages :: messages[k]
    }

    ghost function State(): Queues<W>
      reads this, Lists()
    {
      map k | k in messages :: messages[k].items
    }

    constructor ()
      ensures Valid() && State() == map[]
    {
      messages := map[];
    }

    /** Hands out the list itself if there is one for the key, and a new empty list if not. */
    method FindByVerkey(theirKey: Verkey) returns (found: MessageList<W>)
      ensures found.items == Waiting(State(), theirKey)
      ensures if theirKey in messages then found == messages[theirKey] else fresh(found)
    {
      if theirKey in messages {
        found := messages[theirKey];
      } else {
        found := new MessageList();
      }
    }

    /** Puts a new list in place of the old one, which keeps what it holds. */
    method DeleteAllByVerkey(theirKey: Verkey)
      requires Valid()
      modifies this
      ensures Valid() && State() == Cleared(old(State()), theirKey)
      ensures forall l :: l in old(Lists()) ==> l.items == old(l.items)
      ensures theirKey in messages && fresh(messages[theirKey]) && fresh(Lists() - old(Lists()))
      ensures theirKey in old(messages) ==> old(messages[theirKey]) !in Lists()
    {
      var list := new MessageList<W>();
      messages := messages[theirKey := list];
    }

    method Save(theirKey: Verkey, payload: W)
      requires Valid()
      modifies this, if theirKey in messages then {messages[theirKey]} else {}
      ensures Valid() && State() == Saved(old(State()), theirKey, payload)
      ensures theirKey in messages && fresh(Lists() - old(Lists()))
      ensures theirKey in old(messages) ==> messages == old(messages)
    {
      if theirKey !in messages {
        var list := new MessageList<W>();
        messages := messages[theirKey := list];
      }
      messages[theirKey].Push(payload);
    }
  }

  datatype Error = NoRepository | NoTheirKey

  class MessagePickupService<W> {
    const messageRepository: InMemoryMessageRepository?<W>

    constructor (messageRepository: InMemoryMessageRepository?<W>)
      ensures this.messageRepository == messageRepository
    {
      this.messageRepository := messageRepository;
    }

    /** Copies the waiting messages into a batch, and then clears the queue. */
    method Batch(connection: C.ConnectionRecord) returns (result: Result<seq<W>, Error>)
      requires messageRepository != null ==> messageRepository.Valid()
      modifies messageRepository
      ensures messageRepository != null ==> messageRepository.Valid()
      ensures result.Err? <==> messageRepository == null || connection.TheirKey().None?
      ensures messageRepository != null ==>
                if result.Ok?
                then result.value == Waiting(old(messageRepository.State()), connection.TheirKey().value)
                     && messageRepository.State() == Cleared(old(messageRepository.State()), connection.TheirKey().value)
                else messageRepository.State() == old(messageRepository.State())
    {
      if messageRepository == null { return Err(NoRepository); }
      if connection.TheirKey().None? { return Err(NoTheirKey); }
      var theirKey := connection.TheirKey().value;
      var messages := messageRepository.FindByVerkey(theirKey);
      var batchMessages := messages.items;
      messageRepository.DeleteAllByVerkey(theirKey);
      return Ok(batchMessages);
    }
  }

  /** The queue after more saves. */
  function AllSaved<W>(q: Queues<W>, more: seq<(Verkey, W)>): Queues<W> {
    if more == [] then q
    else Saved(AllSaved(q, more[..|more| - 1]), more[|more| - 1].0, more[|more| - 1].1)
  }

  /** A list handed out before a delete is left alone by the delete and by every later save, under any key. */
  method HandedOutList<W>(repository: InMemoryMessageRepository<W>, key: Verkey, more: seq<(Verkey, W)>) returns (list: MessageList<W>)
    requires repository.Valid() && key in repository.messages
    modifies repository, repository.Lists() - {repository.messages[key]}
    ensures list == old(repository.messages[key]) && list.items == old(repository.messages[key].items)
    ensures repository.Valid() && repository.State() == AllSaved(Cleared(old(repository.State()), key), more)
  {
    list := repository.FindByVerkey(key);
    repository.DeleteAllByVerkey(key);
    ghost var lists := old(repository.Lists()) - {list};
    for i := 0 to |more|
      invariant repository.Valid() && repository.State() == AllSaved(Cleared(old(repository.State()), key), more[..i])
      invariant list !in repository.Lists() && list.items == old(repository.messages[key].items)
      invariant fresh(repository.Lists() - lists)
    {
      repository.Save(more[i].0, more[i].1);
      assert more[..i + 1][..i] == more[..i];
    }
    assert more[..|more|] == more;
  }
}
