/** The store of an exchange service as it runs: records are written back under their id, and each write
    that changes a state is announced. */
module RecordStores {
  import opened Results
  import X = Exchange
  import Storage

  class RecordStore<S(==, !new), D(!new)> {
    var records: map<nat, X.Record<S, D>>
    var events: seq<X.StateChanged<S, D>>

    ghost function State(): X.Store<S, D>
      reads this
    {
      X.Store(records, events)
    }

    constructor ()
      ensures State() == X.Store(map[], [])
    {
      records, events := map[], [];
    }

    method Save(r: X.Record<S, D>)
      modifies this
      ensures State() == X.Save(old(State()), r)
    {
      records := records[r.id := r];
      events := events + [X.StateChanged(r, None)];
    }

    method UpdateState(record: X.Record<S, D>, newState: S) returns (r: X.Record<S, D>)
      modifies this
      ensures var c := X.UpdateState(old(State()), record, newState); State() == c.store && r == c.record
    {
      var previousState := record.state;
      r := record.(state := newState);
      records := records[r.id := r];
      events := events + [X.StateChanged(r, Some(previousState))];
    }

    method GetByThreadId(t: nat) returns (result: Result<X.Record<S, D>, X.Error>)
      ensures result == X.GetByThreadId(State(), t)
    {
      var found := Storage.Search(records, X.ByThread(t));
      match found
      case NoMatch => return Err(X.NotFound);
      case Many => return Err(X.MultipleRecords);
      case One(id) => return Ok(records[id]);
    }
  }
}
