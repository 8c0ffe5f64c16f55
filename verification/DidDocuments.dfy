/** DID documents as objects and as plain JSON (src/modules/connections/models/did/DidDoc.ts and the
    transformers for public keys and authentications). */
module DidDocuments {
  import opened Results

  // The classes that stand behind a key's type; any other type gets the base class.
  datatype KeyClass = Rsa | Ed25519 | Secp256k1 | BaseKey

  datatype PublicKey = PublicKey(keyClass: KeyClass, id: Option<string>, controller: Option<string>, keyType: string,
                                 value: Option<string>)

  datatype Authentication =
    | Embedded(publicKey: PublicKey)
    | Referenced(publicKey: PublicKey, authType: string)

  datatype DidDoc<S> = DidDoc(id: string, publicKey: seq<PublicKey>, service: S, authentication: seq<Authentication>)

  // The same in JSON: a key's value is filed under a name that depends on its class, and a reference is an
  // authentication with a `publicKey` of its own.
  datatype KeyJson = KeyJson(id: Option<string>, controller: Option<string>, keyType: string, fields: map<string, string>)
  datatype AuthJson = AuthJson(publicKey: Option<string>, rest: KeyJson)
  datatype DocJson<S> = DocJson(id: string, publicKey: seq<KeyJson>, service: S, authentication: seq<AuthJson>)

  datatype Error = InvalidReference(id: string)

  function ClassOf(keyType: string): KeyClass {
    match keyType
    case "RsaVerificationKey2018" => Rsa
    case "Ed25519VerificationKey2018" => Ed25519
    case "Secp256k1VerificationKey2018" => Secp256k1
    case _ => BaseKey
  }

  function FieldOf(c: KeyClass): string {
    match c
    case Rsa => "publicKeyPem"
    case Ed25519 => "publicKeyBase58"
    case Secp256k1 => "publicKeyHex"
    case BaseKey => "value"
  }

  function FindKey(keys: seq<PublicKey>, id: string): (found: Option<PublicKey>)
    ensures found.Some? ==> found.value in keys && found.value.id == Some(id)
    ensures found.None? <==> forall key :: key in keys ==> key.id != Some(id)
  {
    if keys == [] then None
    else if keys[0].id == Some(id) then Some(keys[0])
    else FindKey(keys[1..], id)
  }

  function GetPublicKey<S>(doc: DidDoc<S>, id: string): Option<PublicKey> {
    FindKey(doc.publicKey, id)
  }

  // ----- printing ---------------------------------------------------------------------------

  function PrintKey(key: PublicKey): KeyJson {
    KeyJson(key.id, key.controller, key.keyType,
            if key.value.Some? then map[FieldOf(key.keyClass) := key.value.value] else map[])
  }

  /** An embedded key is printed in full, a referenced one as its id. */
  function PrintAuthentication(a: Authentication): AuthJson {
    match a
    case Embedded(key) => AuthJson(None, PrintKey(key))
    case Referenced(key, authType) => AuthJson(key.id, KeyJson(None, None, authType, map[]))
  }

  function PrintKeys(keys: seq<PublicKey>): seq<KeyJson> {
    if keys == [] then [] else [PrintKey(keys[0])] + PrintKeys(keys[1..])
  }

  function PrintAuthentications(auths: seq<Authentication>): seq<AuthJson> {
    if auths == [] then [] else [PrintAuthentication(auths[0])] + PrintAuthentications(auths[1..])
  }

  function Print<S>(doc: DidDoc<S>): DocJson<S> {
    DocJson(doc.id, PrintKeys(doc.publicKey), doc.service, PrintAuthentications(doc.authentication))
  }

  // ----- parsing ----------------------------------------------------------------------------

  function ParseKey(json: KeyJson): PublicKey {
    var c := ClassOf(json.keyType);
    PublicKey(c, json.id, json.controller, json.keyType,
              if FieldOf(c) in json.fields then Some(json.fields[FieldOf(c)]) else None)
  }

  function FindKeyJson(keys: seq<KeyJson>, id: string): Option<KeyJson> {
    if keys == [] then None
    else if keys[0].id == Some(id) then Some(keys[0])
    else FindKeyJson(keys[1..], id)
  }

  /** A reference takes the first listed key of its id; without one, the document is refused. */
  function ParseAuthentication(keys: seq<KeyJson>, json: AuthJson): Result<Authentication, Error> {
    if json.publicKey.GetOr("") != "" then
      var found := FindKeyJson(keys, json.publicKey.value);
      if found.None? then Err(InvalidReference(json.publicKey.value))
      else Ok(Referenced(ParseKey(found.value), json.rest.keyType))
    else Ok(Embedded(ParseKey(json.rest)))
  }

  function ParseKeys(keys: seq<KeyJson>): seq<PublicKey> {
    if keys == [] then [] else [ParseKey(keys[0])] + ParseKeys(keys[1..])
  }

  function ParseAuthentications(keys: seq<KeyJson>, auths: seq<AuthJson>): Result<seq<Authentication>, Error> {
    if auths == [] then Ok([])
    else
      match ParseAuthentication(keys, auths[0])
      case Err(e) => Err(e)
      case Ok(a) =>
        match ParseAuthentications(keys, auths[1..])
        case Err(e) => Err(e)
        case Ok(rest) => Ok([a] + rest)
  }

  function Parse<S>(json: DocJson<S>): Result<DidDoc<S>, Error> {
    match ParseAuthentications(json.publicKey, json.authentication)
    case Err(e) => Err(e)
    case Ok(auths) => Ok(DidDoc(json.id, ParseKeys(json.publicKey), json.service, auths))
  }

  /** The JSON names of what a key holds: each class has its own name for the value, and a key read under a type
      takes its value from the name of that type's class and from no other. */
  lemma JsonNames(key: PublicKey, json: KeyJson)
    ensures PrintKey(key).id == key.id && PrintKey(key).controller == key.controller && PrintKey(key).keyType == key.keyType
    ensures var name := match key.keyClass
              case Rsa => "publicKeyPem"
              case Ed25519 => "publicKeyBase58"
              case Secp256k1 => "publicKeyHex"
              case BaseKey => "value";
            PrintKey(key).fields == if key.value.Some? then map[name := key.value.value] else map[]
    ensures ParseKey(json).id == json.id && ParseKey(json).controller == json.controller && ParseKey(json).keyType == json.keyType
    ensures var class_, name :=
              if json.keyType == "RsaVerificationKey2018" then Rsa
              else if json.keyType == "Ed25519VerificationKey2018" then Ed25519
              else if json.keyType == "Secp256k1VerificationKey2018" then Secp256k1 else BaseKey,
              if json.keyType == "RsaVerificationKey2018" then "publicKeyPem"
              else if json.keyType == "Ed25519VerificationKey2018" then "publicKeyBase58"
              else if json.keyType == "Secp256k1VerificationKey2018" then "publicKeyHex" else "value";
            && ParseKey(json).keyClass == class_
            && ParseKey(json).value == if name in json.fields then Some(json.fields[name]) else None
  {
  }

  /** An embedded authentication is the key's own JSON, a referenced one the key's id next to its type. */
  lemma JsonAuthentications(key: PublicKey, authType: string)
    ensures PrintAuthentication(Embedded(key)) == AuthJson(None, PrintKey(key))
    ensures PrintAuthentication(Referenced(key, authType)).publicKey == key.id
    ensures PrintAuthentication(Referenced(key, authType)).rest.keyType == authType
  {
  }

  // ----- round trip -------------------------------------------------------------------------

  /** The key is an object of the class that its type stands for. */
  predicate Classed(key: PublicKey) { key.keyClass == ClassOf(key.keyType) }

  predicate AllClassed<S>(doc: DidDoc<S>) {
    && (forall key :: key in doc.publicKey ==> Classed(key))
    && (forall a :: a in doc.authentication ==> Classed(a.publicKey))
  }

  /** The reference can be followed, and leads to the key it holds. */
  predicate Resolves(keys: seq<PublicKey>, a: Authentication) {
    a.Referenced? ==> a.publicKey.id.GetOr("") != "" && FindKey(keys, a.publicKey.id.value) == Some(a.publicKey)
  }

  predicate Dangles(keys: seq<PublicKey>, a: Authentication) {
    a.Referenced? && a.publicKey.id.GetOr("") != "" && FindKey(keys, a.publicKey.id.value).None?
  }

  lemma KeyReadsBack(key: PublicKey)
    requires Classed(key)
    ensures ParseKey(PrintKey(key)) == key
  {
  }

  lemma {:induction false} KeysReadBack(keys: seq<PublicKey>)
    requires forall key :: key in keys ==> Classed(key)
    ensures ParseKeys(PrintKeys(keys)) == keys
  {
    if keys != [] {
      KeyReadsBack(keys[0]);
      KeysReadBack(keys[1..]);
      assert PrintKeys(keys)[1..] == PrintKeys(keys[1..]);
    }
  }

  /** Looking a key up in the JSON and in the document comes to the same. */
  lemma {:induction false} FoundAlike(keys: seq<PublicKey>, id: string)
    ensures FindKeyJson(PrintKeys(keys), id) ==
            if FindKey(keys, id).Some? then Some(PrintKey(FindKey(keys, id).value)) else None
  {
    if keys != [] {
      FoundAlike(keys[1..], id);
      assert PrintKeys(keys)[1..] == PrintKeys(keys[1..]);
    }
  }

  /** One authentication comes back as it was exactly if it resolves, and is refused exactly if it dangles. */
  lemma OneReadsBack(keys: seq<PublicKey>, a: Authentication)
    requires (forall key :: key in keys ==> Classed(key)) && Classed(a.publicKey)
    ensures var r := ParseAuthentication(PrintKeys(keys), PrintAuthentication(a));
            (r == Ok(a) <==> Resolves(keys, a)) && (r.Err? <==> Dangles(keys, a))
  {
    match a
    case Embedded(key) => KeyReadsBack(key);
    case Referenced(key, authType) =>
      if key.id.GetOr("") != "" {
        FoundAlike(keys, key.id.value);
        if FindKey(keys, key.id.value).Some? { KeyReadsBack(FindKey(keys, key.id.value).value); }
      }
  }

  lemma {:induction false} AllReadBack(keys: seq<PublicKey>, auths: seq<Authentication>)
    requires (forall key :: key in keys ==> Classed(key)) && forall a :: a in auths ==> Classed(a.publicKey)
    ensures var r := ParseAuthentications(PrintKeys(keys), PrintAuthentications(auths));
            && (r == Ok(auths) <==> forall a :: a in auths ==> Resolves(keys, a))
            && (r.Err? <==> exists a :: a in auths && Dangles(keys, a))
            && (r.Ok? ==> |r.value| == |auths|)
  {
    if auths != [] {
      OneReadsBack(keys, auths[0]);
      AllReadBack(keys, auths[1..]);
      assert PrintAuthentications(auths)[1..] == PrintAuthentications(auths[1..]);
      assert auths == [auths[0]] + auths[1..];
      assert forall a :: a in auths <==> a == auths[0] || a in auths[1..];
      var r := ParseAuthentications(PrintKeys(keys), PrintAuthentications(auths));
      if r.Ok? {
        assert r.value[1..] == ParseAuthentications(PrintKeys(keys), PrintAuthentications(auths[1..])).value;
      }
    }
  }

  /** Printing and parsing a document gives it back exactly if every reference has a non-empty id under which
      its own key is the first listed one; it is refused exactly if a non-empty id is not listed at all. */
  lemma RoundTrip<S>(doc: DidDoc<S>)
    requires AllClassed(doc)
    ensures Parse(Print(doc)) == Ok(doc) <==> forall a :: a in doc.authentication ==> Resolves(doc.publicKey, a)
    ensures Parse(Print(doc)).Err? <==> exists a :: a in doc.authentication && Dangles(doc.publicKey, a)
  {
    KeysReadBack(doc.publicKey);
    AllReadBack(doc.publicKey, doc.authentication);
  }

  lemma {:induction false} ParsedKeysFound(keys: seq<KeyJson>, id: string)
    ensures FindKey(ParseKeys(keys), id) == if FindKeyJson(keys, id).Some? then Some(ParseKey(FindKeyJson(keys, id).value)) else None
    ensures forall key :: key in ParseKeys(keys) ==> Classed(key)
  {
    if keys != [] {
      ParsedKeysFound(keys[1..], id);
      assert ParseKeys(keys)[1..] == ParseKeys(keys[1..]);
    }
  }

  lemma {:induction false} FoundKeyHasId(keys: seq<KeyJson>, id: string)
    ensures FindKeyJson(keys, id).Some? ==> FindKeyJson(keys, id).value.id == Some(id)
  {
    if keys != [] { FoundKeyHasId(keys[1..], id); }
  }

  lemma {:induction false} ParsedAuthenticationsResolve(keys: seq<KeyJson>, auths: seq<AuthJson>)
    requires ParseAuthentications(keys, auths).Ok?
    ensures forall a :: a in ParseAuthentications(keys, auths).value ==> Classed(a.publicKey) && Resolves(ParseKeys(keys), a)
  {
    if auths != [] {
      ParsedAuthenticationsResolve(keys, auths[1..]);
      if auths[0].publicKey.GetOr("") != "" {
        ParsedKeysFound(keys, auths[0].publicKey.value);
        FoundKeyHasId(keys, auths[0].publicKey.value);
      }
    }
  }

  /** In a parsed document, whatever it was parsed from, `getPublicKey` answers every reference with the key that
      the reference holds; and such a document survives printing and parsing. */
  lemma ParsedResolves<S>(json: DocJson<S>)
    requires Parse(json).Ok?
    ensures forall a :: a in Parse(json).value.authentication && a.Referenced? ==>
              a.publicKey.id.Some? && GetPublicKey(Parse(json).value, a.publicKey.id.value) == Some(a.publicKey)
    ensures Parse(Print(Parse(json).value)) == Parse(json)
  {
    ParsedAuthenticationsResolve(json.publicKey, json.authentication);
    ParsedKeysFound(json.publicKey, "");
    RoundTrip(Parse(json).value);
  }

  /** In particular: with unique non-empty key ids, it is enough that every reference is to a listed key. */
  lemma ListedKeysSuffice<S>(doc: DidDoc<S>)
    requires AllClassed(doc)
    requires forall key :: key in doc.publicKey ==> key.id.GetOr("") != ""
    requires forall key, other :: key in doc.publicKey && other in doc.publicKey && key.id == other.id ==> key == other
    requires forall a :: a in doc.authentication && a.Referenced? ==> a.publicKey in doc.publicKey
    ensures Parse(Print(doc)) == Ok(doc)
  {
    RoundTrip(doc);
  }
}
