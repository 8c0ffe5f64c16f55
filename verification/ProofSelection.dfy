/** Picking credentials for a proof request (src/modules/proofs/services/ProofService.ts). */
module ProofSelection {
  import opened Results
  import opened ProofRequests

  datatype Credential = Credential(referent: string, credentialDefinitionId: string, attributes: map<string, string>)
  datatype RequestedAttribute = RequestedAttribute(credentialId: string, revealed: bool)

  // A self-attested value can be undefined: nothing checks that the credential has the attribute.
  datatype RequestedCredentials = RequestedCredentials(
    requestedAttributes: map<string, RequestedAttribute>, requestedPredicates: map<string, string>,
    selfAttestedAttributes: map<string, Option<string>>)

  datatype Error = CannotConstruct

  function AttributeOf(c: Credential, name: Option<string>): Option<string> {
    if name.Some? && name.value in c.attributes then Some(c.attributes[name.value]) else None
  }

  /** The names asked for; one undefined name if the request gives neither `name` nor `names`. */
  function NamesOf(info: AttributeInfo): seq<Option<string>> {
    if info.names.Some? then seq(|info.names.value|, i requires 0 <= i < |info.names.value| => Some(info.names.value[i]))
    else [info.name]
  }

  /** A proposed attribute that speaks for the credential under this name. */
  predicate Proposes(a: PreviewAttribute, name: Option<string>, c: Credential) {
    && Some(a.name) == name
    && a.credentialDefinitionId == Some(c.credentialDefinitionId)
    && (a.value.GetOr("") == "" || a.value == AttributeOf(c, name))
  }

  /** The credential matches every name asked for. */
  predicate Matches(info: AttributeInfo, c: Credential, proposal: PresentationPreview) {
    forall name :: name in NamesOf(info) ==> exists a :: a in proposal.attributes && Proposes(a, name, c)
  }

  /** What a match means: for each name asked for, some proposed attribute has that name, is of the credential's own
      definition, and proposes no value or the very value that the credential has under the name. */
  ghost predicate Fits(info: AttributeInfo, c: Credential, proposal: PresentationPreview) {
    if info.names.Some? then forall i :: 0 <= i < |info.names.value| ==> SpeaksFor(info.names.value[i], c, proposal)
    else info.name.Some? && SpeaksFor(info.name.value, c, proposal)
  }

  ghost predicate SpeaksFor(name: string, c: Credential, proposal: PresentationPreview) {
    exists k :: 0 <= k < |proposal.attributes| &&
      var a := proposal.attributes[k];
      && a.name == name && a.credentialDefinitionId == Some(c.credentialDefinitionId)
      && (a.value in {None, Some("")} || (name in c.attributes && a.value == Some(c.attributes[name])))
  }

  lemma SpeaksForOne(name: string, c: Credential, proposal: PresentationPreview)
    ensures SpeaksFor(name, c, proposal) <==> exists a :: a in proposal.attributes && Proposes(a, Some(name), c)
  {
    if a :| a in proposal.attributes && Proposes(a, Some(name), c) {
      var k :| 0 <= k < |proposal.attributes| && proposal.attributes[k] == a;
    }
    if SpeaksFor(name, c, proposal) {
      var k :| 0 <= k < |proposal.attributes| && Proposes(proposal.attributes[k], Some(name), c);
      assert proposal.attributes[k] in proposal.attributes;
    }
  }

  lemma MatchesFit(info: AttributeInfo, c: Credential, proposal: PresentationPreview)
    ensures Matches(info, c, proposal) <==> Fits(info, c, proposal)
  {
    hide SpeaksFor, Proposes;
    var names := NamesOf(info);
    if info.names.Some? {
      forall i | 0 <= i < |info.names.value|
        ensures SpeaksFor(info.names.value[i], c, proposal) <==> exists a :: a in proposal.attributes && Proposes(a, names[i], c)
        ensures names[i] in names
      {
        SpeaksForOne(info.names.value[i], c, proposal);
      }
    } else {
      assert names == [info.name] && info.name in names;
      if info.name.Some? { SpeaksForOne(info.name.value, c, proposal); } else { Unnamed(c, proposal); }
    }
  }

  lemma Unnamed(c: Credential, proposal: PresentationPreview)
    ensures forall a :: a in proposal.attributes ==> !Proposes(a, None, c)
  {
  }

  /** Candidate `i` is the one to use: the first, unless there are several and a proposal to go by, and then the
      first that fits it. */
  ghost predicate Chosen(info: AttributeInfo, candidates: seq<Credential>, proposal: Option<PresentationPreview>, i: nat) {
    && i < |candidates|
    && if |candidates| == 1 || proposal.None? then i == 0
       else Fits(info, candidates[i], proposal.value) && forall j :: 0 <= j < i ==> !Fits(info, candidates[j], proposal.value)
  }

  /** The pick is the chosen candidate, and there is none exactly if no candidate is to be used. */
  lemma PickIsChosen(info: AttributeInfo, candidates: seq<Credential>, proposal: Option<PresentationPreview>) returns (i: nat)
    ensures Pick(info, candidates, proposal).Some? ==>
              Chosen(info, candidates, proposal, i) && Pick(info, candidates, proposal) == Some(candidates[i])
    ensures Pick(info, candidates, proposal).None? ==> forall j :: !Chosen(info, candidates, proposal, j)
  {
    hide Matches, Fits;
    i := 0;
    var c := Pick(info, candidates, proposal);
    if |candidates| > 1 && proposal.Some? {
      forall j | 0 <= j < |candidates|
        ensures Matches(info, candidates[j], proposal.value) <==> Fits(info, candidates[j], proposal.value)
      {
        MatchesFit(info, candidates[j], proposal.value);
      }
      if c.Some? {
        i :| i < |candidates| && c.value == candidates[i] && Matches(info, candidates[i], proposal.value)
             && forall j :: 0 <= j < i ==> !Matches(info, candidates[j], proposal.value);
      }
    }
  }

  /** The credential to use for an attribute: the only candidate, or the first one if there is no proposal
      to go by, or else the first one that matches the proposal. */
  ghost function Pick(info: AttributeInfo, candidates: seq<Credential>, proposal: Option<PresentationPreview>): (c: Option<Credential>)
    ensures c.Some? ==> c.value in candidates
    ensures |candidates| > 1 && proposal.Some? ==>
              if c.Some? then exists i :: 0 <= i < |candidates| && c.value == candidates[i]
                                          && Matches(info, candidates[i], proposal.value)
                                          && forall j :: 0 <= j < i ==> !Matches(info, candidates[j], proposal.value)
              else forall i :: 0 <= i < |candidates| ==> !Matches(info, candidates[i], proposal.value)
  {
    if |candidates| == 0 then None
    else if |candidates| == 1 || proposal.None? then Some(candidates[0])
    else FirstMatch(info, candidates, proposal.value)
  }

  ghost function FirstMatch(info: AttributeInfo, candidates: seq<Credential>, proposal: PresentationPreview): (c: Option<Credential>)
    ensures if c.Some? then exists i :: 0 <= i < |candidates| && c.value == candidates[i] && Matches(info, candidates[i], proposal)
                                        && forall j :: 0 <= j < i ==> !Matches(info, candidates[j], proposal)
            else forall i :: 0 <= i < |candidates| ==> !Matches(info, candidates[i], proposal)
  {
    if candidates == [] then None
    else if Matches(info, candidates[0], proposal) then Some(candidates[0])
    else
      var rest := FirstMatch(info, candidates[1..], proposal);
      assert forall i :: 0 < i < |candidates| ==> candidates[i] == candidates[1..][i - 1];
      rest
  }

  /** The first candidate that fits the proposal, if any does. */
  ghost predicate FirstFit(info: AttributeInfo, candidates: seq<Credential>, proposal: PresentationPreview, found: Option<Credential>) {
    if found.Some? then
      exists i :: 0 <= i < |candidates| && found.value == candidates[i] && Fits(info, candidates[i], proposal)
                  && forall j :: 0 <= j < i ==> !Fits(info, candidates[j], proposal)
    else forall i :: 0 <= i < |candidates| ==> !Fits(info, candidates[i], proposal)
  }

  method FindMatch(info: AttributeInfo, candidates: seq<Credential>, proposal: PresentationPreview) returns (found: Option<Credential>)
    ensures FirstFit(info, candidates, proposal, found)
  {
    hide Fits, Matches;
    found := None;
    for i := 0 to |candidates|
      invariant found.None? && forall j :: 0 <= j < i ==> !Fits(info, candidates[j], proposal)
    {
      MatchesFit(info, candidates[i], proposal);
      if Matches(info, candidates[i], proposal) {
        found := Some(candidates[i]);
        break;
      }
    }
  }

  lemma FirstFitIsPick(info: AttributeInfo, candidates: seq<Credential>, proposal: PresentationPreview, found: Option<Credential>)
    requires |candidates| > 1 && FirstFit(info, candidates, proposal, found)
    ensures found == Pick(info, candidates, Some(proposal))
  {
    hide Fits, Matches, Pick;
    var i := PickIsChosen(info, candidates, Some(proposal));
    if found.Some? {
      var k: nat :| k < |candidates| && found.value == candidates[k] && Fits(info, candidates[k], proposal)
                    && forall j :: 0 <= j < k ==> !Fits(info, candidates[j], proposal);
      assert Chosen(info, candidates, Some(proposal), k);
    }
  }

  // ----- the whole selection ----------------------------------------------------------------

  type Wallet = string -> seq<Credential>

  /** Every attribute asked for has a candidate to use, and every predicate has one at all. */
  ghost predicate Selectable(request: ProofRequest, proposal: Option<PresentationPreview>, wallet: Wallet) {
    && (forall e :: e in request.requestedAttributes ==> exists i :: Chosen(e.value, wallet(e.key), proposal, i))
    && (forall e :: e in request.requestedPredicates ==> |wallet(e.key)| > 0)
  }

  lemma SelectableByPick(request: ProofRequest, proposal: Option<PresentationPreview>, wallet: Wallet)
    ensures Selectable(request, proposal, wallet) <==>
            && (forall e :: e in request.requestedAttributes ==> Pick(e.value, wallet(e.key), proposal).Some?)
            && (forall e :: e in request.requestedPredicates ==> |wallet(e.key)| > 0)
  {
    hide Chosen, Pick;
    forall e | e in request.requestedAttributes
      ensures Pick(e.value, wallet(e.key), proposal).Some? <==> exists i :: Chosen(e.value, wallet(e.key), proposal, i)
    {
      var i := PickIsChosen(e.value, wallet(e.key), proposal);
    }
  }

  /** The attributes in `attributes` are catered for: picked if they are restricted, self-attested if not. */
  ghost predicate AttributesChosen(attributes: Dict<AttributeInfo>, proposal: Option<PresentationPreview>, wallet: Wallet,
                                   requested: map<string, RequestedAttribute>, attested: map<string, Option<string>>)
  {
    && (forall e :: e in attributes ==> Pick(e.value, wallet(e.key), proposal).Some?)
    && (forall key :: key in requested <==> exists e :: e in attributes && e.key == key && e.value.restrictions.Some?)
    && (forall key :: key in attested <==> exists e :: e in attributes && e.key == key && e.value.restrictions.None?)
    && forall e :: e in attributes ==>
         var c := Pick(e.value, wallet(e.key), proposal).value;
         if e.value.restrictions.Some? then requested[e.key] == RequestedAttribute(c.referent, true)
         else attested[e.key] == AttributeOf(c, e.value.name)
  }

  /** The predicates too: the first candidate is picked if they are restricted, and attested if not, over
      whatever was attested under the same referent before. */
  ghost predicate PredicatesChosen(predicates: Dict<PredicateInfo>, wallet: Wallet, requested: map<string, string>,
                                   attested: map<string, Option<string>>, attested': map<string, Option<string>>)
  {
    && (forall e :: e in predicates ==> |wallet(e.key)| > 0)
    && (forall key :: key in requested <==> exists e :: e in predicates && e.key == key && e.value.restrictions.Some?)
    && (forall key :: key in attested' <==>
          key in attested || exists e :: e in predicates && e.key == key && e.value.restrictions.None?)
    && (forall e :: e in predicates ==>
          if e.value.restrictions.Some? then requested[e.key] == wallet(e.key)[0].referent
          else attested'[e.key] == AttributeOf(wallet(e.key)[0], Some(e.value.name)))
    && forall key :: key in attested && (forall e :: e in predicates && e.value.restrictions.None? ==> e.key != key) ==>
         attested'[key] == attested[key]
  }

  ghost predicate Selected(request: ProofRequest, proposal: Option<PresentationPreview>, wallet: Wallet, rc: RequestedCredentials) {
    exists attested ::
      && AttributesChosen(request.requestedAttributes, proposal, wallet, rc.requestedAttributes, attested)
      && PredicatesChosen(request.requestedPredicates, wallet, rc.requestedPredicates, attested, rc.selfAttestedAttributes)
  }

  lemma NewKey<T>(d: Dict<T>, i: nat)
    requires i < |d| && Unique(Keys(d))
    ensures d[..i + 1] == d[..i] + [d[i]]
    ensures forall e :: e in d[..i] ==> e.key != d[i].key
    ensures forall e :: e in d[..i + 1] <==> e in d[..i] || e == d[i]
  {
    forall e | e in d[..i] ensures e.key != d[i].key {
      var j :| 0 <= j < i && d[j] == e;
      assert Keys(d)[j] == e.key && Keys(d)[i] == d[i].key;
    }
  }

  lemma AttributePicked(before: Dict<AttributeInfo>, after: Dict<AttributeInfo>, e: Entry<AttributeInfo>, c: Credential,
                        proposal: Option<PresentationPreview>, wallet: Wallet,
                        requested: map<string, RequestedAttribute>, attested: map<string, Option<string>>)
    requires AttributesChosen(before, proposal, wallet, requested, attested)
    requires (forall x :: x in before ==> x.key != e.key) && forall x :: x in after <==> x in before || x == e
    requires Pick(e.value, wallet(e.key), proposal) == Some(c) && e.value.restrictions.Some?
    ensures AttributesChosen(after, proposal, wallet, requested[e.key := RequestedAttribute(c.referent, true)], attested)
  {
    hide Pick;
    forall key ensures key in attested <==> exists x :: x in after && x.key == key && x.value.restrictions.None? {
      if key in attested { var x :| x in before && x.key == key && x.value.restrictions.None?; assert x in after; }
    }
    forall key ensures key in requested || key == e.key <==> exists x :: x in after && x.key == key && x.value.restrictions.Some? {
      if key in requested { var x :| x in before && x.key == key && x.value.restrictions.Some?; assert x in after; }
    }
  }

  lemma AttributeAttested(before: Dict<AttributeInfo>, after: Dict<AttributeInfo>, e: Entry<AttributeInfo>, c: Credential,
                          proposal: Option<PresentationPreview>, wallet: Wallet,
                          requested: map<string, RequestedAttribute>, attested: map<string, Option<string>>)
    requires AttributesChosen(before, proposal, wallet, requested, attested)
    requires (forall x :: x in before ==> x.key != e.key) && forall x :: x in after <==> x in before || x == e
    requires Pick(e.value, wallet(e.key), proposal) == Some(c) && e.value.restrictions.None?
    ensures AttributesChosen(after, proposal, wallet, requested, attested[e.key := AttributeOf(c, e.value.name)])
  {
    hide Pick, AttributeOf;
    forall key ensures key in attested || key == e.key <==> exists x :: x in after && x.key == key && x.value.restrictions.None? {
      if key in attested { var x :| x in before && x.key == key && x.value.restrictions.None?; assert x in after; }
    }
    forall key ensures key in requested <==> exists x :: x in after && x.key == key && x.value.restrictions.Some? {
      if key in requested { var x :| x in before && x.key == key && x.value.restrictions.Some?; assert x in after; }
    }
  }

  lemma PredicatePicked(before: Dict<PredicateInfo>, after: Dict<PredicateInfo>, e: Entry<PredicateInfo>, wallet: Wallet,
                        requested: map<string, string>, attested: map<string, Option<string>>, attested': map<string, Option<string>>)
    requires PredicatesChosen(before, wallet, requested, attested, attested') && |wallet(e.key)| > 0
    requires (forall x :: x in before ==> x.key != e.key) && forall x :: x in after <==> x in before || x == e
    requires e.value.restrictions.Some?
    ensures PredicatesChosen(after, wallet, requested[e.key := wallet(e.key)[0].referent], attested, attested')
  {
    hide AttributeOf;
    forall key ensures key in attested' <==> key in attested || exists x :: x in after && x.key == key && x.value.restrictions.None? {
      if x :| x in before && x.key == key && x.value.restrictions.None? { assert x in after; }
    }
    forall key ensures key in requested || key == e.key <==> exists x :: x in after && x.key == key && x.value.restrictions.Some? {
      if key in requested { var x :| x in before && x.key == key && x.value.restrictions.Some?; assert x in after; }
    }
  }

  lemma PredicateAttested(before: Dict<PredicateInfo>, after: Dict<PredicateInfo>, e: Entry<PredicateInfo>, wallet: Wallet,
                          requested: map<string, string>, attested: map<string, Option<string>>,
                          attested': map<string, Option<string>>)
    requires PredicatesChosen(before, wallet, requested, attested, attested') && |wallet(e.key)| > 0
    requires (forall x :: x in before ==> x.key != e.key) && forall x :: x in after <==> x in before || x == e
    requires e.value.restrictions.None?
    ensures PredicatesChosen(after, wallet, requested, attested,
                             attested'[e.key := AttributeOf(wallet(e.key)[0], Some(e.value.name))])
  {
    hide AttributeOf;
    forall key
      ensures key in attested' || key == e.key <==>
              key in attested || exists x :: x in after && x.key == key && x.value.restrictions.None?
    {
      if x :| x in before && x.key == key && x.value.restrictions.None? { assert x in after; }
    }
    forall key ensures key in requested <==> exists x :: x in after && x.key == key && x.value.restrictions.Some? {
      if key in requested { var x :| x in before && x.key == key && x.value.restrictions.Some?; assert x in after; }
    }
  }

  /** Fails exactly when some attribute has nothing to pick or some predicate has no candidate. */
  method GetRequestedCredentials(request: ProofRequest, proposal: Option<PresentationPreview>, wallet: Wallet)
    returns (result: Result<RequestedCredentials, Error>)
    requires Unique(Keys(request.requestedAttributes)) && Unique(Keys(request.requestedPredicates))
    ensures result.Ok? <==> Selectable(request, proposal, wallet)
    ensures result.Ok? ==> Selected(request, proposal, wallet, result.value)
  {
    hide AttributesChosen, PredicatesChosen, Selectable, FirstFit;
    SelectableByPick(request, proposal, wallet);
    var requestedAttributes: map<string, RequestedAttribute> := map[];
    var requestedPredicates: map<string, string> := map[];
    var selfAttested: map<string, Option<string>> := map[];
    NothingChosen(proposal, wallet);
    for i := 0 to |request.requestedAttributes|
      invariant AttributesChosen(request.requestedAttributes[..i], proposal, wallet, requestedAttributes, selfAttested)
    {
      var referent, info := request.requestedAttributes[i].key, request.requestedAttributes[i].value;
      var credentials := wallet(referent);
      var credentialMatch;
      if |credentials| == 0 {
        assert request.requestedAttributes[i] in request.requestedAttributes;
        return Err(CannotConstruct);
      } else if |credentials| == 1 || proposal.None? {
        credentialMatch := credentials[0];
      } else {
        var found := FindMatch(info, credentials, proposal.value);
        FirstFitIsPick(info, credentials, proposal.value, found);
        if found.None? {
          assert request.requestedAttributes[i] in request.requestedAttributes;
          return Err(CannotConstruct);
        }
        credentialMatch := found.value;
      }
      NewKey(request.requestedAttributes, i);
      ghost var before, after := request.requestedAttributes[..i], request.requestedAttributes[..i + 1];
      if info.restrictions.Some? {
        AttributePicked(before, after, request.requestedAttributes[i], credentialMatch, proposal, wallet,
                        requestedAttributes, selfAttested);
        requestedAttributes := requestedAttributes[referent := RequestedAttribute(credentialMatch.referent, true)];
      } else {
        AttributeAttested(before, after, request.requestedAttributes[i], credentialMatch, proposal, wallet,
                          requestedAttributes, selfAttested);
        selfAttested := selfAttested[referent := AttributeOf(credentialMatch, info.name)];
      }
    }
    assert request.requestedAttributes[..|request.requestedAttributes|] == request.requestedAttributes;
    ghost var attested := selfAttested;
    NoPredicates(wallet, attested);
    for i := 0 to |request.requestedPredicates|
      invariant PredicatesChosen(request.requestedPredicates[..i], wallet, requestedPredicates, attested, selfAttested)
    {
      var referent, info := request.requestedPredicates[i].key, request.requestedPredicates[i].value;
      var credentials := wallet(referent);
      if |credentials| == 0 {
        assert request.requestedPredicates[i] in request.requestedPredicates;
        return Err(CannotConstruct);
      }
      NewKey(request.requestedPredicates, i);
      ghost var before, after := request.requestedPredicates[..i], request.requestedPredicates[..i + 1];
      if info.restrictions.Some? {
        PredicatePicked(before, after, request.requestedPredicates[i], wallet, requestedPredicates, attested, selfAttested);
        requestedPredicates := requestedPredicates[referent := credentials[0].referent];
      } else {
        PredicateAttested(before, after, request.requestedPredicates[i], wallet, requestedPredicates, attested, selfAttested);
        selfAttested := selfAttested[referent := AttributeOf(credentials[0], Some(info.name))];
      }
    }
    assert request.requestedPredicates[..|request.requestedPredicates|] == request.requestedPredicates;
    var rc := RequestedCredentials(requestedAttributes, requestedPredicates, selfAttested);
    SelectedIsSelectable(request, proposal, wallet, rc, attested);
    return Ok(rc);
  }

  lemma NothingChosen(proposal: Option<PresentationPreview>, wallet: Wallet)
    ensures AttributesChosen([], proposal, wallet, map[], map[])
  {
  }

  lemma NoPredicates(wallet: Wallet, attested: map<string, Option<string>>)
    ensures PredicatesChosen([], wallet, map[], attested, attested)
  {
  }

  lemma SelectedIsSelectable(request: ProofRequest, proposal: Option<PresentationPreview>, wallet: Wallet,
                             rc: RequestedCredentials, attested: map<string, Option<string>>)
    requires AttributesChosen(request.requestedAttributes, proposal, wallet, rc.requestedAttributes, attested)
    requires PredicatesChosen(request.requestedPredicates, wallet, rc.requestedPredicates, attested, rc.selfAttestedAttributes)
    ensures Selected(request, proposal, wallet, rc) && Selectable(request, proposal, wallet)
  {
    SelectableByPick(request, proposal, wallet);
    hide Pick, Selectable;
  }

  lemma AttributeKeys(request: ProofRequest, proposal: Option<PresentationPreview>, wallet: Wallet, rc: RequestedCredentials,
                      attested: map<string, Option<string>>)
    requires AttributesChosen(request.requestedAttributes, proposal, wallet, rc.requestedAttributes, attested)
    ensures forall key :: key in Keys(request.requestedAttributes) <==> key in rc.requestedAttributes || key in attested
  {
    hide Pick, AttributeOf;
    forall key
      ensures key in Keys(request.requestedAttributes) <==> key in rc.requestedAttributes || key in attested
    {
      if key in Keys(request.requestedAttributes) {
        var i :| 0 <= i < |request.requestedAttributes| && Keys(request.requestedAttributes)[i] == key;
        assert request.requestedAttributes[i] in request.requestedAttributes;
      } else {
        forall e | e in request.requestedAttributes ensures e.key != key {
          var i :| 0 <= i < |request.requestedAttributes| && request.requestedAttributes[i] == e;
          assert Keys(request.requestedAttributes)[i] == e.key;
        }
      }
    }
  }

  lemma RequestedOfWallet(request: ProofRequest, proposal: Option<PresentationPreview>, wallet: Wallet, rc: RequestedCredentials,
                          attested: map<string, Option<string>>, key: string)
    requires AttributesChosen(request.requestedAttributes, proposal, wallet, rc.requestedAttributes, attested)
    requires key in rc.requestedAttributes
    ensures exists c :: c in wallet(key) && rc.requestedAttributes[key] == RequestedAttribute(c.referent, true)
  {
    var e :| e in request.requestedAttributes && e.key == key && e.value.restrictions.Some?;
    hide FirstMatch, AttributeOf;
    var c := Pick(e.value, wallet(key), proposal).value;
    assert c in wallet(key);
  }

  /** Requested and self-attested referents together are exactly the referents asked for, and whatever is
      requested is asked of a credential that the wallet offers for that referent. */
  lemma SelectionSound(request: ProofRequest, proposal: Option<PresentationPreview>, wallet: Wallet, rc: RequestedCredentials)
    requires Selected(request, proposal, wallet, rc)
    ensures forall key :: (key in rc.requestedAttributes || key in rc.requestedPredicates || key in rc.selfAttestedAttributes) <==>
                          (key in Keys(request.requestedAttributes) || key in Keys(request.requestedPredicates))
    ensures forall key :: key in rc.requestedAttributes ==>
                            exists c :: c in wallet(key) && rc.requestedAttributes[key] == RequestedAttribute(c.referent, true)
    ensures forall key :: key in rc.requestedPredicates ==> exists c :: c in wallet(key) && rc.requestedPredicates[key] == c.referent
  {
    var attested :|
      && AttributesChosen(request.requestedAttributes, proposal, wallet, rc.requestedAttributes, attested)
      && PredicatesChosen(request.requestedPredicates, wallet, rc.requestedPredicates, attested, rc.selfAttestedAttributes);
    hide *;
    AttributeKeys(request, proposal, wallet, rc, attested);
    PredicateKeys(request, wallet, rc, attested);
    forall key | key in rc.requestedAttributes
      ensures exists c :: c in wallet(key) && rc.requestedAttributes[key] == RequestedAttribute(c.referent, true)
    {
      RequestedOfWallet(request, proposal, wallet, rc, attested, key);
    }
  }

  /** The value that a credential shows under a name, if it has the attribute. */
  ghost predicate Shows(c: Credential, name: Option<string>, value: Option<string>) {
    if name.Some? && name.value in c.attributes then value == Some(c.attributes[name.value]) else value == None
  }

  lemma KeyOnce<T>(d: Dict<T>, j: nat, k: nat)
    requires Unique(Keys(d)) && j < |d| && k < |d| && d[j].key == d[k].key
    ensures j == k
  {
    assert Keys(d)[j] == d[j].key && Keys(d)[k] == d[k].key;
  }

  lemma SameEntry<T>(d: Dict<T>, e: Entry<T>, k: nat)
    requires Unique(Keys(d)) && k < |d| && e in d && e.key == d[k].key
    ensures e == d[k]
  {
    var j :| 0 <= j < |d| && d[j] == e;
    KeyOnce(d, j, k);
  }

  lemma AttributeServed(attributes: Dict<AttributeInfo>, proposal: Option<PresentationPreview>, wallet: Wallet,
                        requested: map<string, RequestedAttribute>, attested: map<string, Option<string>>, k: nat)
    returns (i: nat)
    requires AttributesChosen(attributes, proposal, wallet, requested, attested) && Unique(Keys(attributes)) && k < |attributes|
    ensures var key, info := attributes[k].key, attributes[k].value;
            && Chosen(info, wallet(key), proposal, i)
            && (info.restrictions.Some? ==>
                  key !in attested && key in requested && requested[key] == RequestedAttribute(wallet(key)[i].referent, true))
            && (info.restrictions.None? ==>
                  key !in requested && key in attested && Shows(wallet(key)[i], info.name, attested[key]))
  {
    hide Pick, Chosen;
    var e := attributes[k];
    assert e in attributes;
    i := PickIsChosen(e.value, wallet(e.key), proposal);
    forall x | x in attributes && x.key == e.key ensures x == e { SameEntry(attributes, x, k); }
  }

  /** What is made of an attribute asked for: if it is restricted, the chosen candidate is requested, revealed; if
      not, the value it shows is attested, unless an unrestricted predicate has the same referent. */
  lemma AttributeExactly(request: ProofRequest, proposal: Option<PresentationPreview>, wallet: Wallet, rc: RequestedCredentials,
                         k: nat) returns (i: nat)
    requires Selected(request, proposal, wallet, rc) && k < |request.requestedAttributes|
    requires Unique(Keys(request.requestedAttributes))
    ensures var key, info := request.requestedAttributes[k].key, request.requestedAttributes[k].value;
            && Chosen(info, wallet(key), proposal, i)
            && (info.restrictions.Some? ==>
                  key in rc.requestedAttributes
                  && rc.requestedAttributes[key] == RequestedAttribute(wallet(key)[i].referent, true))
            && (info.restrictions.None? && key !in Keys(request.requestedPredicates) ==>
                  key !in rc.requestedAttributes && key in rc.selfAttestedAttributes
                  && Shows(wallet(key)[i], info.name, rc.selfAttestedAttributes[key]))
  {
    var attested :|
      && AttributesChosen(request.requestedAttributes, proposal, wallet, rc.requestedAttributes, attested)
      && PredicatesChosen(request.requestedPredicates, wallet, rc.requestedPredicates, attested, rc.selfAttestedAttributes);
    hide AttributesChosen, PredicatesChosen, Chosen, Shows, Unique;
    i := AttributeServed(request.requestedAttributes, proposal, wallet, rc.requestedAttributes, attested, k);
    var key := request.requestedAttributes[k].key;
    if key !in Keys(request.requestedPredicates) && key in attested {
      NotOverwritten(request.requestedPredicates, wallet, rc.requestedPredicates, attested, rc.selfAttestedAttributes, key);
    }
  }

  lemma NotOverwritten(predicates: Dict<PredicateInfo>, wallet: Wallet, requested: map<string, string>,
                       attested: map<string, Option<string>>, attested': map<string, Option<string>>, key: string)
    requires PredicatesChosen(predicates, wallet, requested, attested, attested') && key !in Keys(predicates) && key in attested
    ensures key in attested' && attested'[key] == attested[key]
  {
    forall e | e in predicates ensures e.key != key {
      var j :| 0 <= j < |predicates| && predicates[j] == e;
      assert Keys(predicates)[j] == e.key;
    }
  }

  lemma PredicateServed(predicates: Dict<PredicateInfo>, wallet: Wallet, requested: map<string, string>,
                        attested: map<string, Option<string>>, attested': map<string, Option<string>>, k: nat)
    requires PredicatesChosen(predicates, wallet, requested, attested, attested') && Unique(Keys(predicates)) && k < |predicates|
    ensures var key, info := predicates[k].key, predicates[k].value;
            && |wallet(key)| > 0
            && (info.restrictions.Some? ==> key in requested && requested[key] == wallet(key)[0].referent)
            && (info.restrictions.None? ==>
                  key !in requested && key in attested' && Shows(wallet(key)[0], Some(info.name), attested'[key]))
  {
    var e := predicates[k];
    assert e in predicates;
    forall x | x in predicates && x.key == e.key ensures x == e { SameEntry(predicates, x, k); }
    hide Unique;
  }

  /** And of a predicate: the first candidate is requested, or the value it shows is attested. */
  lemma PredicateExactly(request: ProofRequest, proposal: Option<PresentationPreview>, wallet: Wallet, rc: RequestedCredentials, k: nat)
    requires Selected(request, proposal, wallet, rc) && k < |request.requestedPredicates|
    requires Unique(Keys(request.requestedPredicates))
    ensures var key, info := request.requestedPredicates[k].key, request.requestedPredicates[k].value;
            && |wallet(key)| > 0
            && (info.restrictions.Some? ==> key in rc.requestedPredicates && rc.requestedPredicates[key] == wallet(key)[0].referent)
            && (info.restrictions.None? ==>
                  key !in rc.requestedPredicates && key in rc.selfAttestedAttributes
                  && Shows(wallet(key)[0], Some(info.name), rc.selfAttestedAttributes[key]))
  {
    var attested :|
      && AttributesChosen(request.requestedAttributes, proposal, wallet, rc.requestedAttributes, attested)
      && PredicatesChosen(request.requestedPredicates, wallet, rc.requestedPredicates, attested, rc.selfAttestedAttributes);
    hide AttributesChosen, PredicatesChosen, Shows, Unique;
    PredicateServed(request.requestedPredicates, wallet, rc.requestedPredicates, attested, rc.selfAttestedAttributes, k);
  }

  lemma PredicateKeys(request: ProofRequest, wallet: Wallet, rc: RequestedCredentials, attested: map<string, Option<string>>)
    requires PredicatesChosen(request.requestedPredicates, wallet, rc.requestedPredicates, attested, rc.selfAttestedAttributes)
    ensures forall key :: (key in rc.requestedPredicates || key in rc.selfAttestedAttributes) <==>
                          (key in attested || key in Keys(request.requestedPredicates))
    ensures forall key :: key in rc.requestedPredicates ==> exists c :: c in wallet(key) && rc.requestedPredicates[key] == c.referent
  {
    forall key
      ensures key in Keys(request.requestedPredicates) <==> exists e :: e in request.requestedPredicates && e.key == key
    {
      if key in Keys(request.requestedPredicates) {
        var i :| 0 <= i < |request.requestedPredicates| && Keys(request.requestedPredicates)[i] == key;
        assert request.requestedPredicates[i] in request.requestedPredicates;
      }
      if e :| e in request.requestedPredicates && e.key == key {
        var i :| 0 <= i < |request.requestedPredicates| && request.requestedPredicates[i] == e;
        assert Keys(request.requestedPredicates)[i] == key;
      }
    }
    forall key | key in rc.requestedPredicates ensures exists c :: c in wallet(key) && rc.requestedPredicates[key] == c.referent {
      var e :| e in request.requestedPredicates && e.key == key && e.value.restrictions.Some?;
      assert wallet(key)[0] in wallet(key);
    }
  }

  /** A credential that agrees with everything a group of proposed attributes says. */
  ghost predicate AgreesWith(c: Credential, group: seq<PreviewAttribute>) {
    forall a :: a in group ==>
      && a.credentialDefinitionId == Some(c.credentialDefinitionId)
      && (a.value.GetOr("") == "" || a.value == AttributeOf(c, Some(a.name)))
  }

  lemma GroupMatches(preview: PresentationPreview, uuid: nat -> string, referent: string, c: Credential)
    requires Group(preview.attributes, uuid, |preview.attributes|, referent) != []
    requires AgreesWith(c, Group(preview.attributes, uuid, |preview.attributes|, referent))
    ensures Matches(AttributeInfoOf(Group(preview.attributes, uuid, |preview.attributes|, referent)), c, preview)
  {
    var group := Group(preview.attributes, uuid, |preview.attributes|, referent);
    var info := AttributeInfoOf(group);
    forall name | name in NamesOf(info) ensures exists a :: a in preview.attributes && Proposes(a, name, c) {
      var k: nat :| k < |group| && name == Some(group[k].name);
      var i := GroupMember(preview.attributes, uuid, |preview.attributes|, referent, k);
      assert group[k] in group;
      assert preview.attributes[i] in preview.attributes && Proposes(preview.attributes[i], name, c);
    }
  }

  lemma PickedIfMatching(info: AttributeInfo, candidates: seq<Credential>, proposal: PresentationPreview, c: Credential)
    requires c in candidates && Matches(info, c, proposal)
    ensures Pick(info, candidates, Some(proposal)).Some?
  {
    hide Matches;
  }

  /** From proposal to request to selection: if for every referent some candidate agrees with what was
      proposed under it, and every predicate has a candidate, selection by that proposal succeeds; and the
      request is one that selection can be called with. */
  lemma ProposalComposes(preview: PresentationPreview, uuid: nat -> string, request: ProofRequest, wallet: Wallet)
    requires BuiltFrom(request, preview, uuid)
    requires forall r :: r in Referents(preview.attributes, uuid, |preview.attributes|) ==>
               exists c :: c in wallet(r) && AgreesWith(c, Group(preview.attributes, uuid, |preview.attributes|, r))
    requires forall e :: e in request.requestedPredicates ==> |wallet(e.key)| > 0
    ensures Selectable(request, Some(preview), wallet)
    ensures Unique(Keys(request.requestedAttributes)) && (Distinct(uuid) ==> Unique(Keys(request.requestedPredicates)))
  {
    ReferentsAreKeys(preview.attributes, uuid, |preview.attributes|);
    SelectableByPick(request, Some(preview), wallet);
    hide Pick, FirstMatch, Group, Referents, AgreesWith, Matches, AttributeInfoOf, Selectable;
    forall e | e in request.requestedAttributes ensures Pick(e.value, wallet(e.key), Some(preview)).Some? {
      var k :| 0 <= k < |request.requestedAttributes| && request.requestedAttributes[k] == e;
      assert Keys(request.requestedAttributes)[k] == e.key;
      var c :| c in wallet(e.key) && AgreesWith(c, Group(preview.attributes, uuid, |preview.attributes|, e.key));
      GroupMatches(preview, uuid, e.key, c);
      PickedIfMatching(e.value, wallet(e.key), preview, c);
    }
  }

  // ----- identifiers ------------------------------------------------------------------------

  /** Collects the ids of all requested credentials, each once. */
  method GetCredentialIdentifiers(rc: RequestedCredentials) returns (ids: seq<string>)
    ensures forall id :: id in ids <==>
              (exists key :: key in rc.requestedAttributes && rc.requestedAttributes[key].credentialId == id)
              || exists key :: key in rc.requestedPredicates && rc.requestedPredicates[key] == id
    ensures Unique(ids)
  {
    ids := [];
    var todo := rc.requestedAttributes.Keys;
    while todo != {}
      invariant todo <= rc.requestedAttributes.Keys && Unique(ids)
      invariant forall id :: id in ids <==>
                  exists key :: key in rc.requestedAttributes && key !in todo && rc.requestedAttributes[key].credentialId == id
      decreases todo
    {
      var key :| key in todo;
      todo := todo - {key};
      var id := rc.requestedAttributes[key].credentialId;
      if id !in ids { ids := ids + [id]; }
    }
    ghost var before := ids;
    todo := rc.requestedPredicates.Keys;
    while todo != {}
      invariant todo <= rc.requestedPredicates.Keys && Unique(ids)
      invariant forall id :: id in ids <==>
                  id in before || exists key :: key in rc.requestedPredicates && key !in todo && rc.requestedPredicates[key] == id
      decreases todo
    {
      var key :| key in todo;
      todo := todo - {key};
      var id := rc.requestedPredicates[key];
      if id !in ids { ids := ids + [id]; }
    }
  }
}
