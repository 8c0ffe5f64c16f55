/** The record store that every service searches by tag (src/storage/Repository.ts). */
module Storage {

  /** How many stored records a tag query meets. */
  datatype Match = NoMatch | One(id: nat) | Many

  ghost predicate Hit<R>(records: map<nat, R>, query: R -> bool, i: nat) {
    i in records && query(records[i])
  }

  /** What a tag query finds: nothing, the one record that meets it, or too many to tell. */
  ghost function Lookup<R>(records: map<nat, R>, query: R -> bool): (m: Match)
    ensures m.NoMatch? <==> forall i :: !Hit(records, query, i)
    ensures m.One? ==> Hit(records, query, m.id) && forall j :: Hit(records, query, j) ==> j == m.id
  {
    if exists i, j :: Hit(records, query, i) && Hit(records, query, j) && i != j then Many
    else if exists i :: Hit(records, query, i) then
      var i :| Hit(records, query, i); One(i)
    else NoMatch
  }

  /** Walks the stored records, keeps those that meet the query, and then counts them. */
  method Search<R>(records: map<nat, R>, query: R -> bool) returns (found: Match)
    ensures found == Lookup(records, query)
  {
    var todo := records.Keys;
    var hits: seq<nat> := [];
    while todo != {}
      invariant todo <= records.Keys
      invariant forall i :: i in hits <==> i in records && i !in todo && query(records[i])
      invariant forall a, b :: 0 <= a < b < |hits| ==> hits[a] != hits[b]
      decreases todo
    {
      var i :| i in todo;
      todo := todo - {i};
      if query(records[i]) {
        hits := hits + [i];
      }
    }
    assert forall i :: i in hits <==> Hit(records, query, i);
    if |hits| == 0 {
      found := NoMatch;
    } else if |hits| > 1 {
      assert Hit(records, query, hits[0]) && Hit(records, query, hits[1]);
      found := Many;
    } else {
      assert Hit(records, query, hits[0]);
      forall j | Hit(records, query, j) ensures j == hits[0] {
        assert j in hits;
      }
      found := One(hits[0]);
    }
  }
}
