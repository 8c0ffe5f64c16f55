/** Building a proof request from a proposal (src/modules/proofs/services/ProofService.ts). */
module ProofRequests {
  import opened Results

  datatype PreviewAttribute = PreviewAttribute(name: string, credentialDefinitionId: Option<string>,
                                               value: Option<string>, referent: Option<string>)
  datatype PreviewPredicate = PreviewPredicate(name: string, credentialDefinitionId: string, predicateType: string, threshold: int)
  datatype PresentationPreview = PresentationPreview(attributes: seq<PreviewAttribute>, predicates: seq<PreviewPredicate>)

  // An object used as a dictionary keeps its keys in the order they were added.
  datatype Entry<+T> = Entry(key: string, value: T)
  type Dict<+T> = seq<Entry<T>>

  datatype AttributeFilter = AttributeFilter(credentialDefinitionId: Option<string>)
  datatype AttributeInfo = AttributeInfo(name: Option<string>, names: Option<seq<string>>, restrictions: Option<seq<AttributeFilter>>)
  datatype PredicateInfo = PredicateInfo(name: string, predicateType: string, predicateValue: int,
                                         restrictions: Option<seq<AttributeFilter>>)
  datatype ProofRequest = ProofRequest(name: string, version: string, nonce: string,
                                       requestedAttributes: Dict<AttributeInfo>, requestedPredicates: Dict<PredicateInfo>)

  function Keys<T>(d: Dict<T>): (keys: seq<string>)
    ensures |keys| == |d| && forall i :: 0 <= i < |d| ==> keys[i] == d[i].key
  {
    seq(|d|, i requires 0 <= i < |d| => d[i].key)
  }

  ghost predicate Unique(keys: seq<string>) {
    forall i, j :: 0 <= i < j < |keys| ==> keys[i] != keys[j]
  }

  function IndexOf<T>(d: Dict<T>, key: string): (i: nat)
    ensures i <= |d| && (i < |d| ==> d[i].key == key) && forall j :: 0 <= j < i ==> d[j].key != key
  {
    if d == [] || d[0].key == key then 0 else 1 + IndexOf(d[1..], key)
  }

  /** Assigns under a key: in place if the key is there already, and at the end if not. */
  function Assign<T>(d: Dict<T>, key: string, value: T): Dict<T> {
    var i := IndexOf(d, key);
    if i < |d| then d[i := Entry(key, value)] else d + [Entry(key, value)]
  }

  lemma Indexed<T>(d: Dict<T>, key: string)
    ensures IndexOf(d, key) < |d| <==> key in Keys(d)
  {
    if key in Keys(d) { var j :| 0 <= j < |d| && Keys(d)[j] == key; }
    if IndexOf(d, key) < |d| { assert Keys(d)[IndexOf(d, key)] == key; }
  }

  /** A new key goes to the end; a known one stays where it is. */
  lemma Assigned<T>(d: Dict<T>, key: string, value: T)
    ensures key !in Keys(d) ==> Assign(d, key, value) == d + [Entry(key, value)] && Keys(Assign(d, key, value)) == Keys(d) + [key]
    ensures key in Keys(d) ==>
              IndexOf(d, key) < |d| && Assign(d, key, value) == d[IndexOf(d, key) := Entry(key, value)]
              && Keys(Assign(d, key, value)) == Keys(d)
  {
    Indexed(d, key);
  }

  // ----- grouping ---------------------------------------------------------------------------

  /** The referent that attribute `i` is grouped under: its own, or a new uuid if it has none. */
  function ReferentOf(attributes: seq<PreviewAttribute>, uuid: nat -> string, i: nat): string
    requires i < |attributes|
  {
    if attributes[i].referent.GetOr("") == "" then uuid(i) else attributes[i].referent.value
  }

  /** The first `n` attributes, as far as they are grouped under `referent`, in their order. */
  ghost function Group(attributes: seq<PreviewAttribute>, uuid: nat -> string, n: nat, referent: string): seq<PreviewAttribute>
    requires n <= |attributes|
  {
    if n == 0 then []
    else
      Group(attributes, uuid, n - 1, referent) +
      if ReferentOf(attributes, uuid, n - 1) == referent then [attributes[n - 1].(referent := Some(referent))] else []
  }

  /** The referents of the first `n` attributes, each where it first occurs. */
  ghost function Referents(attributes: seq<PreviewAttribute>, uuid: nat -> string, n: nat): seq<string>
    requires n <= |attributes|
  {
    if n == 0 then []
    else
      var before, r := Referents(attributes, uuid, n - 1), ReferentOf(attributes, uuid, n - 1);
      if r in before then before else before + [r]
  }

  lemma {:induction false} ReferentsUnique(attributes: seq<PreviewAttribute>, uuid: nat -> string, n: nat)
    requires n <= |attributes|
    ensures Unique(Referents(attributes, uuid, n))
  {
    hide ReferentOf;
    if n > 0 { ReferentsUnique(attributes, uuid, n - 1); }
  }

  /** `referent` is that of one of the first `n` attributes. */
  ghost predicate Occurs(attributes: seq<PreviewAttribute>, uuid: nat -> string, n: nat, referent: string)
    requires n <= |attributes|
  {
    exists i :: 0 <= i < n && ReferentOf(attributes, uuid, i) == referent
  }

  lemma OccursStep(attributes: seq<PreviewAttribute>, uuid: nat -> string, n: nat, referent: string)
    requires 0 < n <= |attributes|
    ensures Occurs(attributes, uuid, n, referent) <==>
            Occurs(attributes, uuid, n - 1, referent) || ReferentOf(attributes, uuid, n - 1) == referent
  {
    hide ReferentOf;
  }

  lemma {:induction false} ReferentsOccur(attributes: seq<PreviewAttribute>, uuid: nat -> string, n: nat, referent: string)
    requires n <= |attributes|
    ensures referent in Referents(attributes, uuid, n) <==> Occurs(attributes, uuid, n, referent)
    ensures referent in Referents(attributes, uuid, n) <==> Group(attributes, uuid, n, referent) != []
  {
    if n > 0 {
      ReferentsOccur(attributes, uuid, n - 1, referent);
      OccursStep(attributes, uuid, n, referent);
      hide ReferentOf, Occurs;
    }
  }

  lemma ReferentsAreKeys(attributes: seq<PreviewAttribute>, uuid: nat -> string, n: nat)
    requires n <= |attributes|
    ensures Unique(Referents(attributes, uuid, n))
    ensures forall r :: r in Referents(attributes, uuid, n) <==> Occurs(attributes, uuid, n, r)
    ensures forall r :: r in Referents(attributes, uuid, n) <==> Group(attributes, uuid, n, r) != []
  {
    hide *;
    ReferentsUnique(attributes, uuid, n);
    forall r
      ensures r in Referents(attributes, uuid, n) <==> Occurs(attributes, uuid, n, r)
      ensures r in Referents(attributes, uuid, n) <==> Group(attributes, uuid, n, r) != []
    {
      ReferentsOccur(attributes, uuid, n, r);
    }
  }

  ghost function Sizes(attributes: seq<PreviewAttribute>, uuid: nat -> string, n: nat, referents: seq<string>): nat
    requires n <= |attributes|
  {
    if referents == [] then 0
    else
      var last := |referents| - 1;
      Sizes(attributes, uuid, n, referents[..last]) + |Group(attributes, uuid, n, referents[last])|
  }

  lemma SizesAppend(attributes: seq<PreviewAttribute>, uuid: nat -> string, n: nat, referents: seq<string>, r: string)
    requires n <= |attributes|
    ensures Sizes(attributes, uuid, n, referents + [r]) ==
            Sizes(attributes, uuid, n, referents) + |Group(attributes, uuid, n, r)|
  {
    assert (referents + [r])[..|referents|] == referents;
  }

  /** One more attribute makes one group one longer. */
  lemma {:induction false} SizesGrow(attributes: seq<PreviewAttribute>, uuid: nat -> string, n: nat, referents: seq<string>)
    requires 0 < n <= |attributes| && Unique(referents)
    ensures Sizes(attributes, uuid, n, referents) ==
            Sizes(attributes, uuid, n - 1, referents) + if ReferentOf(attributes, uuid, n - 1) in referents then 1 else 0
  {
    if referents != [] {
      var last := |referents| - 1;
      SizesGrow(attributes, uuid, n, referents[..last]);
      assert referents == referents[..last] + [referents[last]];
    }
  }

  lemma ReferentsStep(attributes: seq<PreviewAttribute>, uuid: nat -> string, n: nat)
    requires 0 < n <= |attributes|
    ensures var before, r := Referents(attributes, uuid, n - 1), ReferentOf(attributes, uuid, n - 1);
            Referents(attributes, uuid, n) == if r in before then before else before + [r]
  {
  }

  lemma NoGroups(attributes: seq<PreviewAttribute>, uuid: nat -> string)
    ensures Sizes(attributes, uuid, 0, Referents(attributes, uuid, 0)) == 0
  {
  }

  /** The groups split the proposal: together they are as long as it is. */
  lemma {:induction false} GroupsPartition(attributes: seq<PreviewAttribute>, uuid: nat -> string, n: nat)
    requires n <= |attributes|
    ensures Sizes(attributes, uuid, n, Referents(attributes, uuid, n)) == n
  {
    hide *;
    if n == 0 {
      NoGroups(attributes, uuid);
    } else {
      var before, r := Referents(attributes, uuid, n - 1), ReferentOf(attributes, uuid, n - 1);
      GroupsPartition(attributes, uuid, n - 1);
      ReferentsUnique(attributes, uuid, n - 1);
      ReferentsStep(attributes, uuid, n);
      SizesGrow(attributes, uuid, n, before);
      if r !in before {
        NewGroup(attributes, uuid, n);
        SizesAppend(attributes, uuid, n, before, r);
      }
    }
  }

  lemma NewGroup(attributes: seq<PreviewAttribute>, uuid: nat -> string, n: nat)
    requires 0 < n <= |attributes| && ReferentOf(attributes, uuid, n - 1) !in Referents(attributes, uuid, n - 1)
    ensures |Group(attributes, uuid, n, ReferentOf(attributes, uuid, n - 1))| == 1
  {
    ReferentsAreKeys(attributes, uuid, n - 1);
  }

  /** Every attribute is in the group of its referent. */
  lemma {:induction false} InItsGroup(attributes: seq<PreviewAttribute>, uuid: nat -> string, n: nat, i: nat)
    requires i < n <= |attributes|
    ensures attributes[i].(referent := Some(ReferentOf(attributes, uuid, i))) in
            Group(attributes, uuid, n, ReferentOf(attributes, uuid, i))
  {
    if i < n - 1 { InItsGroup(attributes, uuid, n - 1, i); }
  }

  lemma {:induction false} GroupMember(attributes: seq<PreviewAttribute>, uuid: nat -> string, n: nat, referent: string, k: nat)
    returns (i: nat)
    requires n <= |attributes| && k < |Group(attributes, uuid, n, referent)|
    ensures i < n && ReferentOf(attributes, uuid, i) == referent
    ensures Group(attributes, uuid, n, referent)[k] == attributes[i].(referent := Some(referent))
  {
    if k < |Group(attributes, uuid, n - 1, referent)| {
      i := GroupMember(attributes, uuid, n - 1, referent, k);
    } else {
      i := n - 1;
    }
  }

  ghost predicate Grouped(groups: Dict<seq<PreviewAttribute>>, attributes: seq<PreviewAttribute>, uuid: nat -> string, n: nat) {
    && n <= |attributes| && Keys(groups) == Referents(attributes, uuid, n)
    && forall k :: 0 <= k < |groups| ==> groups[k].value == Group(attributes, uuid, n, groups[k].key)
  }

  lemma GroupedOneMore(groups: Dict<seq<PreviewAttribute>>, groups': Dict<seq<PreviewAttribute>>,
                       attributes: seq<PreviewAttribute>, uuid: nat -> string, i: nat)
    requires i < |attributes| && Grouped(groups, attributes, uuid, i)
    requires var r := ReferentOf(attributes, uuid, i);
             var k, a := IndexOf(groups, r), attributes[i].(referent := Some(r));
             groups' == Assign(groups, r, if k < |groups| then groups[k].value + [a] else [a])
    ensures Grouped(groups', attributes, uuid, i + 1)
  {
    hide IndexOf, Assign;
    var r := ReferentOf(attributes, uuid, i);
    var k, a := IndexOf(groups, r), attributes[i].(referent := Some(r));
    ReferentsAreKeys(attributes, uuid, i);
    Indexed(groups, r);
    Assigned(groups, r, if k < |groups| then groups[k].value + [a] else [a]);
    forall j | 0 <= j < |groups'| ensures groups'[j].value == Group(attributes, uuid, i + 1, groups'[j].key) {
      if j < |groups| && j != k {
        assert groups'[j] == groups[j] && Keys(groups)[j] == groups[j].key;
        if k < |groups| { assert Keys(groups)[k] == r; }
      }
    }
  }

  method GroupByReferent(attributes: seq<PreviewAttribute>, uuid: nat -> string) returns (groups: Dict<seq<PreviewAttribute>>)
    ensures Grouped(groups, attributes, uuid, |attributes|)
  {
    groups := [];
    for i := 0 to |attributes|
      invariant Grouped(groups, attributes, uuid, i)
    {
      hide Grouped, Assign;
      var attribute := attributes[i];
      if attribute.referent.None? || attribute.referent.value == "" {
        attribute := attribute.(referent := Some(uuid(i)));
      }
      var referent := attribute.referent.value;
      ghost var before := groups;
      var k := IndexOf(groups, referent);
      if k < |groups| {
        groups := Assign(groups, referent, groups[k].value + [attribute]);
      } else {
        groups := Assign(groups, referent, [attribute]);
      }
      GroupedOneMore(before, groups, attributes, uuid, i);
    }
  }

  // ----- the request ------------------------------------------------------------------------

  /** What is asked for a group: its one name or its list of names, from the first one's definition. */
  function AttributeInfoOf(group: seq<PreviewAttribute>): AttributeInfo
    requires group != []
  {
    AttributeInfo(
      if |group| == 1 then Some(group[0].name) else None,
      if |group| > 1 then Some(seq(|group|, i requires 0 <= i < |group| => group[i].name)) else None,
      Some([AttributeFilter(group[0].credentialDefinitionId)]))
  }

  function PredicateInfoOf(p: PreviewPredicate): PredicateInfo {
    PredicateInfo(p.name, p.predicateType, p.threshold, Some([AttributeFilter(Some(p.credentialDefinitionId))]))
  }

  /** The request asks for each group under its referent, and for each predicate under a uuid of its own. */
  ghost predicate BuiltFrom(request: ProofRequest, preview: PresentationPreview, uuid: nat -> string) {
    var n := |preview.attributes|;
    && Keys(request.requestedAttributes) == Referents(preview.attributes, uuid, n)
    && (forall k :: 0 <= k < |request.requestedAttributes| ==>
          var e := request.requestedAttributes[k];
          Group(preview.attributes, uuid, n, e.key) != []
          && e.value == AttributeInfoOf(Group(preview.attributes, uuid, n, e.key)))
    && |request.requestedPredicates| == |preview.predicates|
    && forall k :: 0 <= k < |preview.predicates| ==>
         request.requestedPredicates[k] == Entry(uuid(n + k), PredicateInfoOf(preview.predicates[k]))
  }

  /** That request. */
  ghost function RequestFrom(preview: PresentationPreview, name: string, version: string, nonce: string, uuid: nat -> string)
    : ProofRequest
  {
    var n := |preview.attributes|;
    var referents := Referents(preview.attributes, uuid, n);
    ReferentsAreKeys(preview.attributes, uuid, n);
    ProofRequest(name, version, nonce,
                 seq(|referents|, k requires 0 <= k < |referents| =>
                   Entry(referents[k], AttributeInfoOf(Group(preview.attributes, uuid, n, referents[k])))),
                 seq(|preview.predicates|, k requires 0 <= k < |preview.predicates| =>
                   Entry(uuid(n + k), PredicateInfoOf(preview.predicates[k]))))
  }

  lemma RequestIsBuilt(preview: PresentationPreview, name: string, version: string, nonce: string, uuid: nat -> string)
    ensures BuiltFrom(RequestFrom(preview, name, version, nonce, uuid), preview, uuid)
  {
    hide Group, Referents, AttributeInfoOf, PredicateInfoOf;
    ReferentsAreKeys(preview.attributes, uuid, |preview.attributes|);
  }

  /** There is only one request that is built from a proposal. */
  lemma BuiltOneWay(request: ProofRequest, preview: PresentationPreview, uuid: nat -> string)
    requires BuiltFrom(request, preview, uuid)
    ensures request == RequestFrom(preview, request.name, request.version, request.nonce, uuid)
  {
    RequestIsBuilt(preview, request.name, request.version, request.nonce, uuid);
    var other := RequestFrom(preview, request.name, request.version, request.nonce, uuid);
    forall k | 0 <= k < |request.requestedAttributes|
      ensures request.requestedAttributes[k] == other.requestedAttributes[k]
    {
      assert Keys(request.requestedAttributes)[k] == Keys(other.requestedAttributes)[k];
    }
  }

  ghost predicate Distinct(uuid: nat -> string) {
    forall i, j :: i != j ==> uuid(i) != uuid(j)
  }

  method CreateProofRequestFromProposal(preview: PresentationPreview, name: string, version: string, nonce: string,
                                        uuid: nat -> string) returns (request: ProofRequest)
    requires Distinct(uuid)
    ensures BuiltFrom(request, preview, uuid)
    ensures request.name == name && request.version == version && request.nonce == nonce
  {
    hide Assign, Group, Referents;
    var n := |preview.attributes|;
    request := ProofRequest(name, version, nonce, [], []);
    var groups := GroupByReferent(preview.attributes, uuid);
    ReferentsAreKeys(preview.attributes, uuid, n);
    for i := 0 to |groups|
      invariant request == ProofRequest(name, version, nonce, request.requestedAttributes, [])
      invariant Keys(request.requestedAttributes) == Keys(groups)[..i]
      invariant forall k :: 0 <= k < i ==> request.requestedAttributes[k].value == AttributeInfoOf(groups[k].value)
    {
      var referent, group := groups[i].key, groups[i].value;
      assert Keys(groups)[i] == referent;
      var attributeName, attributeNames := None, None;
      if |group| == 1 { attributeName := Some(group[0].name); }
      if |group| > 1 { attributeNames := Some(seq(|group|, j requires 0 <= j < |group| => group[j].name)); }
      var info := AttributeInfo(attributeName, attributeNames, Some([AttributeFilter(group[0].credentialDefinitionId)]));
      assert info == AttributeInfoOf(group);
      Assigned(request.requestedAttributes, referent, info);
      request := request.(requestedAttributes := Assign(request.requestedAttributes, referent, info));
    }
    assert Keys(groups)[..|groups|] == Keys(groups);
    for i := 0 to |preview.predicates|
      invariant request == ProofRequest(name, version, nonce, request.requestedAttributes, request.requestedPredicates)
      invariant Keys(request.requestedAttributes) == Keys(groups)
      invariant forall k :: 0 <= k < |groups| ==> request.requestedAttributes[k].value == AttributeInfoOf(groups[k].value)
      invariant |request.requestedPredicates| == i
      invariant forall k :: 0 <= k < i ==>
                  request.requestedPredicates[k] == Entry(uuid(n + k), PredicateInfoOf(preview.predicates[k]))
    {
      Assigned(request.requestedPredicates, uuid(n + i), PredicateInfoOf(preview.predicates[i]));
      request := request.(requestedPredicates :=
        Assign(request.requestedPredicates, uuid(n + i), PredicateInfoOf(preview.predicates[i])));
    }
    forall k | 0 <= k < |groups| ensures request.requestedAttributes[k].key == groups[k].key {
      assert Keys(request.requestedAttributes)[k] == Keys(groups)[k];
    }
  }

  /** The places of the first `n` attributes that are grouped under `referent`, in order. */
  ghost predicate PlacesOf(attributes: seq<PreviewAttribute>, uuid: nat -> string, n: nat, referent: string, at: seq<nat>)
    requires n <= |attributes|
  {
    && (forall x, y :: 0 <= x < y < |at| ==> at[x] < at[y])
    && (forall x :: 0 <= x < |at| ==> at[x] < n)
    && forall i: nat :: i < n ==> (i in at <==> OwnReferent(attributes[i], uuid(i)) == referent)
  }

  /** A referent that is missing or empty counts as none. */
  ghost function OwnReferent(a: PreviewAttribute, other: string): string {
    if a.referent in {None, Some("")} then other else a.referent.value
  }

  lemma PlacesGrow(attributes: seq<PreviewAttribute>, uuid: nat -> string, n: nat, referent: string, before: seq<nat>)
    requires 0 < n <= |attributes| && PlacesOf(attributes, uuid, n - 1, referent, before)
    ensures PlacesOf(attributes, uuid, n, referent,
                     if OwnReferent(attributes[n - 1], uuid(n - 1)) == referent then before + [n - 1] else before)
  {
    hide OwnReferent;
  }

  lemma GroupGrows(attributes: seq<PreviewAttribute>, uuid: nat -> string, n: nat, referent: string)
    requires 0 < n <= |attributes|
    ensures Group(attributes, uuid, n, referent) ==
            Group(attributes, uuid, n - 1, referent) +
            if OwnReferent(attributes[n - 1], uuid(n - 1)) == referent then [attributes[n - 1].(referent := Some(referent))] else []
  {
  }

  lemma NoPlaces(attributes: seq<PreviewAttribute>, uuid: nat -> string, referent: string)
    ensures PlacesOf(attributes, uuid, 0, referent, []) && Group(attributes, uuid, 0, referent) == []
  {
  }

  lemma {:induction false} GroupPlaces(attributes: seq<PreviewAttribute>, uuid: nat -> string, n: nat, referent: string)
    returns (at: seq<nat>)
    requires n <= |attributes|
    ensures PlacesOf(attributes, uuid, n, referent, at) && |Group(attributes, uuid, n, referent)| == |at|
    ensures forall x :: 0 <= x < |at| ==>
              at[x] < n && Group(attributes, uuid, n, referent)[x] == attributes[at[x]].(referent := Some(referent))
  {
    hide Group, PlacesOf, OwnReferent;
    if n == 0 {
      at := [];
      NoPlaces(attributes, uuid, referent);
    } else {
      var before := GroupPlaces(attributes, uuid, n - 1, referent);
      PlacesGrow(attributes, uuid, n, referent, before);
      GroupGrows(attributes, uuid, n, referent);
      var group := Group(attributes, uuid, n - 1, referent);
      if OwnReferent(attributes[n - 1], uuid(n - 1)) == referent {
        at := before + [n - 1];
        assert Group(attributes, uuid, n, referent) == group + [attributes[n - 1].(referent := Some(referent))];
      } else {
        at := before;
        assert Group(attributes, uuid, n, referent) == group;
      }
    }
  }

  /** Every proposed attribute is asked for under exactly one referent, its own or a fresh one: alone under its
      name, and among several, which are all those of that referent, in the list of their names in proposal order;
      restricted to the definition that the first of them proposes. */
  lemma EachAttributeAskedOnce(request: ProofRequest, preview: PresentationPreview, uuid: nat -> string, i: nat)
    returns (k: nat, at: seq<nat>)
    requires BuiltFrom(request, preview, uuid) && i < |preview.attributes|
    ensures k < |request.requestedAttributes|
    ensures forall j :: 0 <= j < |request.requestedAttributes| ==>
              (request.requestedAttributes[j].key == OwnReferent(preview.attributes[i], uuid(i)) <==> j == k)
    ensures PlacesOf(preview.attributes, uuid, |preview.attributes|, request.requestedAttributes[k].key, at) && i in at
    ensures request.requestedAttributes[k].value ==
            AttributeInfo(if |at| == 1 then Some(preview.attributes[i].name) else None,
                          if |at| > 1 then Some(seq(|at|, x requires 0 <= x < |at| => preview.attributes[at[x]].name)) else None,
                          Some([AttributeFilter(preview.attributes[at[0]].credentialDefinitionId)]))
  {
    var n, r := |preview.attributes|, OwnReferent(preview.attributes[i], uuid(i));
    ReferentsAreKeys(preview.attributes, uuid, n);
    assert ReferentOf(preview.attributes, uuid, i) == r;
    hide Group, Referents, ReferentOf;
    assert Occurs(preview.attributes, uuid, n, r);
    var keys := Keys(request.requestedAttributes);
    k :| 0 <= k < |keys| && keys[k] == r;
    at := GroupPlaces(preview.attributes, uuid, n, r);
    assert i in at;
    var info := request.requestedAttributes[k].value;
    if |at| > 1 {
      assert info.names.value == seq(|at|, x requires 0 <= x < |at| => preview.attributes[at[x]].name);
    }
  }

  /** Nothing is asked for under any other referent. */
  lemma NothingElseAsked(request: ProofRequest, preview: PresentationPreview, uuid: nat -> string, k: nat) returns (i: nat)
    requires BuiltFrom(request, preview, uuid) && k < |request.requestedAttributes|
    ensures i < |preview.attributes| && request.requestedAttributes[k].key == OwnReferent(preview.attributes[i], uuid(i))
  {
    var at := GroupPlaces(preview.attributes, uuid, |preview.attributes|, request.requestedAttributes[k].key);
    i := at[0];
    assert i in at;
  }

  /** Every proposed predicate is asked for under a uuid of its own, with its name, type and threshold, and
      restricted to exactly its definition; nothing else is asked for. */
  lemma EachPredicateAskedOnce(request: ProofRequest, preview: PresentationPreview, uuid: nat -> string, k: nat)
    requires BuiltFrom(request, preview, uuid) && Distinct(uuid) && k < |preview.predicates|
    ensures |request.requestedPredicates| == |preview.predicates|
    ensures forall j :: 0 <= j < |request.requestedPredicates| && request.requestedPredicates[j].key == request.requestedPredicates[k].key ==>
              j == k
    ensures var p, info := preview.predicates[k], request.requestedPredicates[k].value;
            && info.name == p.name && info.predicateType == p.predicateType && info.predicateValue == p.threshold
            && info.restrictions == Some([AttributeFilter(Some(p.credentialDefinitionId))])
  {
    var n := |preview.attributes|;
    hide PredicateInfoOf, AttributeInfoOf;
    forall j | 0 <= j < |request.requestedPredicates| && request.requestedPredicates[j].key == request.requestedPredicates[k].key
      ensures j == k
    {
      assert request.requestedPredicates[j].key == uuid(n + j);
    }
    AskedAsProposed(preview.predicates[k]);
  }

  lemma AskedAsProposed(p: PreviewPredicate)
    ensures var info := PredicateInfoOf(p);
            && info.name == p.name && info.predicateType == p.predicateType && info.predicateValue == p.threshold
            && info.restrictions == Some([AttributeFilter(Some(p.credentialDefinitionId))])
  {
  }
}
