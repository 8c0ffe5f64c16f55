/** How attribute values are encoded as integers when a credential is issued, and checked again when a
    proof is verified (src/modules/credentials/CredentialUtils.ts). */
module Encoding {
  import opened Results

  // An attribute value as JavaScript holds it. A number is a safe integer or some other number, of
  // which only the text matters.
  datatype Value = Text(s: string) | Integer(n: int) | OtherNumber(text: string) | Boolean(b: bool) | Null

  // The digest function of the library: 32 bytes for any text.
  type Digest = string -> seq<nat>

  ghost predicate IsDigest(sha256: Digest) {
    forall s :: |sha256(s)| == 32 && forall i :: 0 <= i < 32 ==> sha256(s)[i] < 256
  }

  const DIGITS: string := "0123456789"
  const MIN_INT32 := -2147483648
  const MAX_INT32 := 2147483647

  predicate IsDigit(c: char) { '0' <= c <= '9' }

  predicate AllDigits(s: string) { forall i :: 0 <= i < |s| ==> IsDigit(s[i]) }

  function DecimalOfNat(n: nat): (s: string)
    ensures s != "" && AllDigits(s)
  {
    if n < 10 then [DIGITS[n]] else DecimalOfNat(n / 10) + [DIGITS[n % 10]]
  }

  /** What `toString` makes of a safe integer, and of a big number. */
  function Decimal(n: int): string {
    if n < 0 then "-" + DecimalOfNat(-n) else DecimalOfNat(n)
  }

  function NatOfDecimal(s: string): nat
    requires AllDigits(s)
  {
    if s == "" then 0 else 10 * NatOfDecimal(s[..|s| - 1]) + (s[|s| - 1] as int - '0' as int)
  }

  /** `Number(text)` for decimal integer numerals, with or without a sign and with any leading zeros;
      None stands for NaN. */
  function ToNumber(s: string): Option<int> {
    if s != "" && AllDigits(s) then Some(NatOfDecimal(s))
    else if |s| > 1 && s[0] == '-' && AllDigits(s[1..]) then Some(-(NatOfDecimal(s[1..]) as int))
    else if |s| > 1 && s[0] == '+' && AllDigits(s[1..]) then Some(NatOfDecimal(s[1..]))
    else None
  }

  predicate IsInt32(n: int) { MIN_INT32 <= n <= MAX_INT32 }

  /** The big-endian value of some bytes. */
  function FromBytes(bs: seq<nat>): nat {
    if bs == [] then 0 else 256 * FromBytes(bs[..|bs| - 1]) + bs[|bs| - 1]
  }

  function Encode(v: Value, sha256: Digest): string {
    match v
    case Boolean(b) => if b then "1" else "0"
    case Integer(n) => if IsInt32(n) then Decimal(n) else Hashed(Decimal(n), sha256)
    case Text(s) =>
      if s != "" && ToNumber(s).Some? && IsInt32(ToNumber(s).value) then s else Hashed(s, sha256)
    case OtherNumber(text) => Hashed(text, sha256)
    case Null => Hashed("None", sha256)
  }

  function Hashed(s: string, sha256: Digest): string {
    Decimal(FromBytes(sha256(s)))
  }

  predicate CheckValidEncoding(raw: Value, encoded: string, sha256: Digest) {
    encoded == Encode(raw, sha256)
  }

  // ----- the encoding -----------------------------------------------------------------------

  lemma {:induction false} NumeralOfNat(n: nat)
    ensures NatOfDecimal(DecimalOfNat(n)) == n
  {
    if n >= 10 {
      var s := DecimalOfNat(n);
      assert s[..|s| - 1] == DecimalOfNat(n / 10);
      NumeralOfNat(n / 10);
    }
  }

  lemma {:induction false} NoLeadingZero(n: nat)
    ensures DecimalOfNat(n)[0] == '0' <==> n == 0
    ensures n < 10 ==> |DecimalOfNat(n)| == 1
  {
    if n >= 10 {
      NoLeadingZero(n / 10);
      assert DecimalOfNat(n)[0] == DecimalOfNat(n / 10)[0];
    }
  }

  lemma {:induction false} LeadingZero(s: string)
    requires AllDigits(s)
    ensures AllDigits("0" + s) && NatOfDecimal("0" + s) == NatOfDecimal(s)
  {
    if s != "" {
      LeadingZero(s[..|s| - 1]);
      assert ("0" + s)[..|s|] == "0" + s[..|s| - 1];
    }
  }

  /** What counts as an integer numeral, and what it is worth: digits with at most one sign in front, each digit
      ten times the ones after it, leading zeros and a plus sign making no difference. */
  lemma NumeralsRead(s: string, d: char)
    requires s != "" && AllDigits(s) && '0' <= d <= '9'
    ensures ToNumber([d]) == Some(d as int - 48)
    ensures ToNumber(s).Some? && ToNumber(s + [d]) == Some(10 * ToNumber(s).value + (d as int - 48))
    ensures ToNumber("0" + s) == ToNumber(s) && ToNumber("+" + s) == ToNumber(s)
    ensures ToNumber("-" + s) == Some(-ToNumber(s).value)
  {
    LeadingZero(s);
    assert (s + [d])[..|s|] == s;
    assert [d][..0] == "" && NatOfDecimal([d]) == 10 * NatOfDecimal("") + (d as int - 48);
    var plus, minus := "+" + s, "-" + s;
    assert plus[0] == '+' && plus[1..] == s && minus[0] == '-' && minus[1..] == s;
  }

  /** And nothing else is one. */
  lemma OnlyNumeralsRead(s: string)
    ensures ToNumber(s).Some? <==>
            (s != "" && forall i :: 0 <= i < |s| ==> '0' <= s[i] <= '9')
            || (|s| > 1 && s[0] in {'+', '-'} && forall i :: 1 <= i < |s| ==> '0' <= s[i] <= '9')
  {
    if |s| > 1 {
      assert forall i :: 1 <= i < |s| ==> s[i] == s[1..][i - 1];
      assert AllDigits(s[1..]) <==> forall i :: 1 <= i < |s| ==> '0' <= s[i] <= '9';
    }
  }

  /** Reading a number back from its own text, which has no leading zero. */
  lemma NumeralOf(n: int)
    ensures ToNumber(Decimal(n)) == Some(n)
    ensures n != 0 ==> Decimal(n)[if n < 0 then 1 else 0] != '0' && Decimal(n)[0] != '+'
  {
    NumeralOfNat(if n < 0 then -n else n);
    NoLeadingZero(if n < 0 then -n else n);
    if n < 0 {
      assert Decimal(n)[1..] == DecimalOfNat(-n);
    }
  }

  /** An integer and its decimal text have the same encoding. */
  lemma TextAgrees(n: int, sha256: Digest)
    ensures Encode(Integer(n), sha256) == Encode(Text(Decimal(n)), sha256)
  {
    NumeralOf(n);
  }

  lemma {:induction false} BytesBound(bs: seq<nat>)
    requires forall i :: 0 <= i < |bs| ==> bs[i] < 256
    ensures FromBytes(bs) < Power256(|bs|)
  {
    if bs != [] { BytesBound(bs[..|bs| - 1]); }
  }

  function Power256(n: nat): nat {
    if n == 0 then 1 else 256 * Power256(n - 1)
  }

  const TWO_TO_THE_256: nat := 0x1_0000000000000000_0000000000000000_0000000000000000_0000000000000000

  lemma Power256Of32()
    ensures Power256(32) == TWO_TO_THE_256
  {
    assert Power256(8) == 0x1_0000000000000000;
    assert Power256(16) == 0x1_0000000000000000_0000000000000000;
    assert Power256(24) == 0x1_0000000000000000_0000000000000000_0000000000000000;
  }

  /** Whether a value is encoded as itself: it is, or spells, an integer of 32 bits. */
  ghost predicate Plain(v: Value, n: int) {
    -2147483648 <= n <= 2147483647 && (v == Integer(n) || (v.Text? && ToNumber(v.s) == Some(n)))
  }

  /** The text of a value that is not encoded as itself. */
  function TextOf(v: Value): string {
    match v
    case Text(s) => s
    case Integer(n) => Decimal(n)
    case OtherNumber(text) => text
    case Boolean(b) => if b then "true" else "false"
    case Null => "None"
  }

  /** Every encoding reads back as an integer: the value itself if it is an integer of 32 bits, a
      truth value as 0 or 1, and otherwise the digest of its text, which is below 2^256. */
  lemma EncodingReads(v: Value, sha256: Digest)
    requires IsDigest(sha256)
    ensures ToNumber(Encode(v, sha256)).Some?
    ensures forall n :: Plain(v, n) ==> ToNumber(Encode(v, sha256)) == Some(n)
    ensures v.Boolean? ==> ToNumber(Encode(v, sha256)) == Some(if v.b then 1 else 0)
    ensures !v.Boolean? && (forall n :: !Plain(v, n)) ==>
              ToNumber(Encode(v, sha256)) == Some(FromBytes(sha256(TextOf(v)))) && FromBytes(sha256(TextOf(v))) < TWO_TO_THE_256
  {
    match v
    case Boolean(b) =>
      NumeralOf(if b then 1 else 0);
      assert Decimal(1) == "1" && Decimal(0) == "0";
    case Integer(n) =>
      NumeralOf(n);
      if IsInt32(n) { assert Plain(v, n); } else { HashReads(Decimal(n), sha256); }
    case Text(s) =>
      if s != "" && ToNumber(s).Some? && IsInt32(ToNumber(s).value) {
        assert Plain(v, ToNumber(s).value);
      } else {
        HashReads(s, sha256);
      }
    case OtherNumber(text) => HashReads(text, sha256);
    case Null => HashReads("None", sha256);
  }

  /** An encoding reads as the integer its value is or spells, as 0 or 1 for a truth value, or as the digest. */
  ghost predicate ReadsAs(v: Value, encoded: string, sha256: Digest) {
    && (forall n :: Plain(v, n) ==> ToNumber(encoded) == Some(n))
    && (v.Boolean? ==> ToNumber(encoded) == Some(if v.b then 1 else 0))
    && (!v.Boolean? && (forall n :: !Plain(v, n)) ==> ToNumber(encoded) == Some(FromBytes(sha256(TextOf(v)))))
  }

  /** Each value has exactly one accepted encoding: its own text if it is or spells an integer of 32 bits, `0` or
      `1` for a truth value, and otherwise the digest in decimal. */
  lemma OneEncoding(v: Value, encoded: string, sha256: Digest)
    ensures forall n :: Plain(v, n) ==> (CheckValidEncoding(v, encoded, sha256) <==> encoded == TextOf(v))
    ensures v.Boolean? ==> (CheckValidEncoding(v, encoded, sha256) <==> encoded == if v.b then "1" else "0")
    ensures !v.Boolean? && (forall n :: !Plain(v, n)) ==>
              (CheckValidEncoding(v, encoded, sha256) <==> encoded == Decimal(FromBytes(sha256(TextOf(v)))))
  {
    if v.Integer? && IsInt32(v.n) { assert Plain(v, v.n); }
    if v.Text? && v.s != "" && ToNumber(v.s).Some? && IsInt32(ToNumber(v.s).value) { assert Plain(v, ToNumber(v.s).value); }
  }

  /** An encoding that does not read as its value is refused. */
  lemma WrongNumberRefused(v: Value, encoded: string, sha256: Digest)
    requires !ReadsAs(v, encoded, sha256)
    ensures !CheckValidEncoding(v, encoded, sha256)
  {
    OneEncoding(v, encoded, sha256);
    NumeralOf(FromBytes(sha256(TextOf(v))));
    if v.Boolean? {
      NumeralOf(if v.b then 1 else 0);
      assert Decimal(1) == "1" && Decimal(0) == "0";
    }
    if v.Integer? { NumeralOf(v.n); }
  }

  lemma HashReads(s: string, sha256: Digest)
    requires IsDigest(sha256)
    ensures ToNumber(Hashed(s, sha256)) == Some(FromBytes(sha256(s))) && FromBytes(sha256(s)) < TWO_TO_THE_256
  {
    NumeralOf(FromBytes(sha256(s)));
    BytesBound(sha256(s));
    Power256Of32();
  }

  // ----- credential values ------------------------------------------------------------------

  datatype Attribute = Attribute(name: string, value: string)
  type Preview = seq<Attribute>
  datatype Entry = Entry(raw: string, encoded: string)
  type CredentialValues = map<string, Entry>

  /** Folds the attributes from the left; what is already there wins over a later attribute. */
  function ConvertPreviewToValues(preview: Preview, sha256: Digest): CredentialValues {
    if preview == [] then map[]
    else
      var attribute := preview[|preview| - 1];
      map[attribute.name := Entry(attribute.value, Encode(Text(attribute.value), sha256))]
      + ConvertPreviewToValues(preview[..|preview| - 1], sha256)
  }

  /** `i` is where the name of attribute `i` occurs for the first time. */
  ghost predicate First(preview: Preview, i: nat) {
    i < |preview| && forall j :: 0 <= j < i ==> preview[j].name != preview[i].name
  }

  /** The values have one entry for each attribute name. */
  lemma {:induction false} ValueNames(preview: Preview, sha256: Digest, name: string)
    ensures name in ConvertPreviewToValues(preview, sha256) <==> exists i :: 0 <= i < |preview| && preview[i].name == name
  {
    if preview != [] {
      ValueNames(preview[..|preview| - 1], sha256, name);
    }
  }

  /** That entry is made from the first attribute of the name. */
  lemma {:induction false} FirstWins(preview: Preview, i: nat, sha256: Digest)
    requires First(preview, i)
    ensures preview[i].name in ConvertPreviewToValues(preview, sha256)
    ensures ConvertPreviewToValues(preview, sha256)[preview[i].name] ==
            Entry(preview[i].value, Encode(Text(preview[i].value), sha256))
  {
    var front := preview[..|preview| - 1];
    if i < |front| {
      FirstWins(front, i, sha256);
    } else {
      ValueNames(front, sha256, preview[i].name);
    }
  }

  /** The values of a credential made from this preview: an entry for each attribute name and for no other, with the
      value of the first attribute of that name and the one encoding of that text. */
  ghost predicate MadeFrom(values: CredentialValues, preview: Preview, sha256: Digest) {
    && (forall name :: name in values <==> exists i :: 0 <= i < |preview| && preview[i].name == name)
    && forall i: nat :: First(preview, i) ==>
         && preview[i].name in values && values[preview[i].name].raw == preview[i].value
         && CheckValidEncoding(Text(preview[i].value), values[preview[i].name].encoded, sha256)
         && ReadsAs(Text(preview[i].value), values[preview[i].name].encoded, sha256)
  }

  lemma ConvertedMadeFrom(preview: Preview, sha256: Digest)
    ensures MadeFrom(ConvertPreviewToValues(preview, sha256), preview, sha256)
  {
    var values := ConvertPreviewToValues(preview, sha256);
    hide ConvertPreviewToValues, ReadsAs;
    forall name ensures name in values <==> exists i :: 0 <= i < |preview| && preview[i].name == name {
      ValueNames(preview, sha256, name);
    }
    forall i: nat | First(preview, i)
      ensures preview[i].name in values && values[preview[i].name].raw == preview[i].value
      ensures CheckValidEncoding(Text(preview[i].value), values[preview[i].name].encoded, sha256)
      ensures ReadsAs(Text(preview[i].value), values[preview[i].name].encoded, sha256)
    {
      FirstWins(preview, i, sha256);
      if !ReadsAs(Text(preview[i].value), values[preview[i].name].encoded, sha256) {
        WrongNumberRefused(Text(preview[i].value), values[preview[i].name].encoded, sha256);
      }
    }
  }

  datatype Revealed = Revealed(referent: string, raw: Value, encoded: string)

  /** Whatever is accepted reads as its value. */
  lemma AcceptedRead(revealed: seq<Revealed>, sha256: Digest)
    requires forall r :: r in revealed ==> CheckValidEncoding(r.raw, r.encoded, sha256)
    ensures forall r :: r in revealed ==> ReadsAs(r.raw, r.encoded, sha256)
  {
    hide ReadsAs, CheckValidEncoding;
    forall r | r in revealed ensures ReadsAs(r.raw, r.encoded, sha256) {
      if !ReadsAs(r.raw, r.encoded, sha256) { WrongNumberRefused(r.raw, r.encoded, sha256); }
    }
  }

  /** The encoding check that runs over all revealed attributes before a proof is verified; it stops
      at the first one that does not match. */
  method CheckEncodings(revealed: seq<Revealed>, sha256: Digest) returns (bad: Option<string>)
    ensures (exists r :: r in revealed && !ReadsAs(r.raw, r.encoded, sha256)) ==> bad.Some?
    ensures bad.None? <==> forall r :: r in revealed ==> CheckValidEncoding(r.raw, r.encoded, sha256)
    ensures bad.Some? ==>
              exists i :: 0 <= i < |revealed| && bad.value == revealed[i].referent
                          && !CheckValidEncoding(revealed[i].raw, revealed[i].encoded, sha256)
                          && forall j :: 0 <= j < i ==> CheckValidEncoding(revealed[j].raw, revealed[j].encoded, sha256)
  {
    for i := 0 to |revealed|
      invariant forall j :: 0 <= j < i ==> CheckValidEncoding(revealed[j].raw, revealed[j].encoded, sha256)
    {
      if !CheckValidEncoding(revealed[i].raw, revealed[i].encoded, sha256) {
        return Some(revealed[i].referent);
      }
    }
    AcceptedRead(revealed, sha256);
    return None;
  }

  /** Attributes revealed from issued values always pass the verifier's encoding check. */
  lemma {:induction false} IssuedValuesPass(preview: Preview, revealed: seq<Revealed>, sha256: Digest)
    requires forall r :: r in revealed ==>
               exists name :: name in ConvertPreviewToValues(preview, sha256) &&
                 r.raw == Text(ConvertPreviewToValues(preview, sha256)[name].raw) &&
                 r.encoded == ConvertPreviewToValues(preview, sha256)[name].encoded
    ensures forall r :: r in revealed ==> CheckValidEncoding(r.raw, r.encoded, sha256)
  {
    forall r | r in revealed ensures CheckValidEncoding(r.raw, r.encoded, sha256) {
      var name :| name in ConvertPreviewToValues(preview, sha256) &&
                  r.raw == Text(ConvertPreviewToValues(preview, sha256)[name].raw) &&
                  r.encoded == ConvertPreviewToValues(preview, sha256)[name].encoded;
      EntryIsEncoded(preview, name, sha256);
    }
  }

  lemma {:induction false} EntryIsEncoded(preview: Preview, name: string, sha256: Digest)
    requires name in ConvertPreviewToValues(preview, sha256)
    ensures var e := ConvertPreviewToValues(preview, sha256)[name]; e.encoded == Encode(Text(e.raw), sha256)
  {
    var front := preview[..|preview| - 1];
    if name in ConvertPreviewToValues(front, sha256) { EntryIsEncoded(front, name, sha256); }
  }
}
