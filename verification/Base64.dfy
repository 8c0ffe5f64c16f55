/** Base64 text and its URL-safe form (src/utils/base64.ts, src/utils/BufferEncoder.ts; sections 4 and 5 of
    RFC 4648). */
module Base64 {
  import opened Results

  type Bytes = seq<nat>

  predicate AreBytes(bs: Bytes) {
    forall i :: 0 <= i < |bs| ==> bs[i] < 256
  }

  predicate AreDigits(ds: seq<nat>) {
    forall i :: 0 <= i < |ds| ==> ds[i] < 64
  }

  // ----- digits -----------------------------------------------------------------------------

  function Digit0(a: nat): nat { a / 4 }

  function Digit1(a: nat, b: nat): nat { a % 4 * 16 + b / 16 }

  function Digit2(b: nat, c: nat): nat { b % 16 * 4 + c / 64 }

  function Digit3(c: nat): nat { c % 64 }

  /** Three bytes make four digits; one or two at the end make two or three. */
  function Digits(bs: Bytes): (ds: seq<nat>)
    requires AreBytes(bs)
    ensures AreDigits(ds)
  {
    if |bs| == 0 then []
    else if |bs| == 1 then [Digit0(bs[0]), Digit1(bs[0], 0)]
    else if |bs| == 2 then [Digit0(bs[0]), Digit1(bs[0], bs[1]), Digit2(bs[1], 0)]
    else [Digit0(bs[0]), Digit1(bs[0], bs[1]), Digit2(bs[1], bs[2]), Digit3(bs[2])] + Digits(bs[3..])
  }

  function Byte0(d0: nat, d1: nat): nat { d0 * 4 + d1 / 16 }

  function Byte1(d1: nat, d2: nat): nat { d1 % 16 * 16 + d2 / 4 }

  function Byte2(d2: nat, d3: nat): nat { d2 % 4 * 64 + d3 }

  function FromDigits(ds: seq<nat>): Bytes {
    if |ds| < 2 then []
    else if |ds| == 2 then [Byte0(ds[0], ds[1])]
    else if |ds| == 3 then [Byte0(ds[0], ds[1]), Byte1(ds[1], ds[2])]
    else [Byte0(ds[0], ds[1]), Byte1(ds[1], ds[2]), Byte2(ds[2], ds[3])] + FromDigits(ds[4..])
  }

  lemma ThreeBytes(a: nat, b: nat, c: nat)
    requires a < 256 && b < 256 && c < 256
    ensures Byte0(Digit0(a), Digit1(a, b)) == a
    ensures Byte1(Digit1(a, b), Digit2(b, c)) == b
    ensures Byte2(Digit2(b, c), Digit3(c)) == c
  {
  }

  lemma {:induction false} DigitsReadBack(bs: Bytes)
    requires AreBytes(bs)
    ensures FromDigits(Digits(bs)) == bs
  {
    hide Digit0, Digit1, Digit2, Digit3, Byte0, Byte1, Byte2;
    var ds := Digits(bs);
    if |bs| == 1 {
      ThreeBytes(bs[0], 0, 0);
    } else if |bs| == 2 {
      ThreeBytes(bs[0], bs[1], 0);
    } else if |bs| >= 3 {
      DigitsReadBack(bs[3..]);
      ThreeBytes(bs[0], bs[1], bs[2]);
      assert ds[4..] == Digits(bs[3..]);
      assert bs == [bs[0], bs[1], bs[2]] + bs[3..];
    }
  }

  // ----- characters -------------------------------------------------------------------------

  function CharOf(d: nat): char
    requires d < 64
  {
    if d < 26 then ('A' as int + d) as char
    else if d < 52 then ('a' as int + d - 26) as char
    else if d < 62 then ('0' as int + d - 52) as char
    else if d == 62 then '+' else '/'
  }

  /** The digit a character stands for in either alphabet. */
  function DigitOf(c: char): (d: Option<nat>)
    ensures d.Some? ==> d.value < 64
  {
    if 'A' <= c <= 'Z' then Some(c as int - 'A' as int)
    else if 'a' <= c <= 'z' then Some(c as int - 'a' as int + 26)
    else if '0' <= c <= '9' then Some(c as int - '0' as int + 52)
    else if c == '+' || c == '-' then Some(62)
    else if c == '/' || c == '_' then Some(63)
    else None
  }

  function Chars(ds: seq<nat>): string
    requires AreDigits(ds)
  {
    if ds == [] then "" else [CharOf(ds[0])] + Chars(ds[1..])
  }

  /** Padding makes the length a multiple of four. */
  function ToBase64(bs: Bytes): string
    requires AreBytes(bs)
  {
    Chars(Digits(bs)) + if |bs| % 3 == 1 then "==" else if |bs| % 3 == 2 then "=" else ""
  }

  /** Replaces every occurrence of one character. */
  function ReplaceAll(s: string, c: char, other: string): string {
    if s == "" then "" else (if s[0] == c then other else [s[0]]) + ReplaceAll(s[1..], c, other)
  }

  function Base64ToBase64URL(base64: string): string {
    ReplaceAll(ReplaceAll(ReplaceAll(base64, '+', "-"), '/', "_"), '=', "")
  }

  function ToBase64URL(bs: Bytes): string
    requires AreBytes(bs)
  {
    Base64ToBase64URL(ToBase64(bs))
  }

  /** The digits of a text up to its padding; characters of neither alphabet are passed over. */
  function DigitsOfText(s: string): (ds: seq<nat>)
    ensures AreDigits(ds)
  {
    if s == "" || s[0] == '=' then []
    else (if DigitOf(s[0]).Some? then [DigitOf(s[0]).value] else []) + DigitsOfText(s[1..])
  }

  function FromBase64(s: string): Bytes {
    FromDigits(DigitsOfText(s))
  }

  // ----- the standard -----------------------------------------------------------------------

  /** The alphabet of section 4 of RFC 4648: `A` to `Z`, `a` to `z`, `0` to `9`, `+`, `/`, given as character codes;
      that of section 5 has `-` and `_` instead of the last two. */
  lemma StandardAlphabet(d: nat)
    requires d < 64
    ensures CharOf(d) as int ==
            if d < 26 then 65 + d else if d < 52 then 97 + (d - 26) else if d < 62 then 48 + (d - 52)
            else if d == 62 then 43 else 47
    ensures URLCharOf(d) as int == if d == 62 then 45 else if d == 63 then 95 else CharOf(d) as int
  {
  }

  /** Four digits are the same 24 bits as three bytes, and the two or three digits at the end the same bits as the
      bytes at the end, with zeros after them. */
  lemma SameBits(a: nat, b: nat, c: nat)
    requires a < 256 && b < 256 && c < 256
    ensures ((Digit0(a) * 64 + Digit1(a, b)) * 64 + Digit2(b, c)) * 64 + Digit3(c) == (a * 256 + b) * 256 + c
    ensures Digits([a]) == [Digit0(a), Digit1(a, 0)] && Digits([a, b]) == [Digit0(a), Digit1(a, b), Digit2(b, 0)]
    ensures Digits([a, b, c]) == [Digit0(a), Digit1(a, b), Digit2(b, c), Digit3(c)]
  {
    assert [a, b, c][3..] == [];
  }

  // ----- round trips ------------------------------------------------------------------------

  lemma {:induction false} ReplaceAppend(s: string, t: string, c: char, other: string)
    ensures ReplaceAll(s + t, c, other) == ReplaceAll(s, c, other) + ReplaceAll(t, c, other)
  {
    if s == "" {
      assert s + t == t;
    } else {
      ReplaceAppend(s[1..], t, c, other);
      assert (s + t)[0] == s[0] && (s + t)[1..] == s[1..] + t;
      var head := if s[0] == c then other else [s[0]];
      assert head + (ReplaceAll(s[1..], c, other) + ReplaceAll(t, c, other)) ==
             (head + ReplaceAll(s[1..], c, other)) + ReplaceAll(t, c, other);
    }
  }

  lemma URLAppend(s: string, t: string)
    ensures Base64ToBase64URL(s + t) == Base64ToBase64URL(s) + Base64ToBase64URL(t)
  {
    ReplaceAppend(s, t, '+', "-");
    var s1, t1 := ReplaceAll(s, '+', "-"), ReplaceAll(t, '+', "-");
    ReplaceAppend(s1, t1, '/', "_");
    ReplaceAppend(ReplaceAll(s1, '/', "_"), ReplaceAll(t1, '/', "_"), '=', "");
  }

  function URLCharOf(d: nat): char
    requires d < 64
  {
    if d == 62 then '-' else if d == 63 then '_' else CharOf(d)
  }

  lemma ReplaceOne(c: char, b: char, other: string)
    ensures ReplaceAll([c], b, other) == if c == b then other else [c]
  {
    assert [c][1..] == "";
  }

  lemma URLOneChar(d: nat)
    requires d < 64
    ensures Base64ToBase64URL([CharOf(d)]) == [URLCharOf(d)] && DigitOf(URLCharOf(d)) == Some(d) && URLCharOf(d) != '='
  {
    var c := CharOf(d);
    ReplaceOne(c, '+', "-");
    var c1 := if c == '+' then '-' else c;
    ReplaceOne(c1, '/', "_");
    var c2 := if c1 == '/' then '_' else c1;
    ReplaceOne(c2, '=', "");
  }

  lemma PaddingGone()
    ensures Base64ToBase64URL("") == "" && Base64ToBase64URL("=") == "" && Base64ToBase64URL("==") == ""
  {
    ReplaceOne('=', '+', "-");
    ReplaceOne('=', '/', "_");
    ReplaceOne('=', '=', "");
    URLAppend("=", "=");
    assert "==" == "=" + "=";
  }

  function URLChars(ds: seq<nat>): string
    requires AreDigits(ds)
  {
    if ds == [] then "" else [URLCharOf(ds[0])] + URLChars(ds[1..])
  }

  lemma {:induction false} URLText(ds: seq<nat>)
    requires AreDigits(ds)
    ensures Base64ToBase64URL(Chars(ds)) == URLChars(ds) && DigitsOfText(URLChars(ds)) == ds
  {
    if ds == [] {
      PaddingGone();
    } else {
      URLAppend([CharOf(ds[0])], Chars(ds[1..]));
      URLOneChar(ds[0]);
      URLText(ds[1..]);
      assert URLChars(ds)[1..] == URLChars(ds[1..]);
    }
  }

  /** The URL-safe text is the digits in the URL-safe alphabet, without padding, and decodes to the bytes. */
  lemma URLReadsBack(bs: Bytes)
    requires AreBytes(bs)
    ensures ToBase64URL(bs) == URLChars(Digits(bs))
    ensures FromBase64(ToBase64URL(bs)) == bs
  {
    var padding := if |bs| % 3 == 1 then "==" else if |bs| % 3 == 2 then "=" else "";
    URLAppend(Chars(Digits(bs)), padding);
    PaddingGone();
    URLText(Digits(bs));
    DigitsReadBack(bs);
  }

  lemma CharReadsBack(d: nat)
    requires d < 64
    ensures DigitOf(CharOf(d)) == Some(d) && CharOf(d) != '='
  {
  }

  lemma FirstDigit(c: char, s: string)
    requires DigitOf(c).Some? && c != '='
    ensures DigitsOfText([c] + s) == [DigitOf(c).value] + DigitsOfText(s)
  {
    assert ([c] + s)[1..] == s;
  }

  lemma {:induction false} PlainText(ds: seq<nat>, padding: string)
    requires AreDigits(ds) && padding in {"", "=", "=="}
    ensures DigitsOfText(Chars(ds) + padding) == ds
  {
    if ds == [] {
      assert Chars(ds) + padding == padding;
    } else {
      FirstChar(ds, padding);
      hide *;
      PlainText(ds[1..], padding);
      CharReadsBack(ds[0]);
      FirstDigit(CharOf(ds[0]), Chars(ds[1..]) + padding);
      assert ds == [ds[0]] + ds[1..];
    }
  }

  lemma FirstChar(ds: seq<nat>, padding: string)
    requires AreDigits(ds) && ds != []
    ensures AreDigits(ds[1..]) && ds[0] < 64
    ensures Chars(ds) + padding == [CharOf(ds[0])] + (Chars(ds[1..]) + padding)
  {
  }

  /** Ordinary base64 text decodes to the bytes as well, and its length is a multiple of four. */
  lemma ReadsBack(bs: Bytes)
    requires AreBytes(bs)
    ensures FromBase64(ToBase64(bs)) == bs && |ToBase64(bs)| % 4 == 0
  {
    PlainText(Digits(bs), if |bs| % 3 == 1 then "==" else if |bs| % 3 == 2 then "=" else "");
    DigitsReadBack(bs);
    PaddedLength(bs);
  }

  lemma PaddedLength(bs: Bytes)
    requires AreBytes(bs)
    ensures |ToBase64(bs)| % 4 == 0
  {
    Lengths(bs);
    CharsLength(Digits(bs));
    var quads := if |bs| % 3 == 0 then |bs| / 3 else |bs| / 3 + 1;
    hide Digits, Chars;
    assert |ToBase64(bs)| == 4 * quads;
  }

  lemma {:induction false} Lengths(bs: Bytes)
    requires AreBytes(bs)
    ensures |Digits(bs)| == |bs| / 3 * 4 + if |bs| % 3 == 0 then 0 else |bs| % 3 + 1
  {
    if |bs| >= 3 { Lengths(bs[3..]); }
  }

  lemma {:induction false} CharsLength(ds: seq<nat>)
    requires AreDigits(ds)
    ensures |Chars(ds)| == |ds|
  {
    if ds != [] { CharsLength(ds[1..]); }
  }

  /** The URL-safe text holds letters, digits, `-` and `_` only. */
  lemma {:induction false} URLSafe(ds: seq<nat>, i: nat)
    requires AreDigits(ds) && i < |URLChars(ds)|
    ensures var c := URLChars(ds)[i];
            'A' <= c <= 'Z' || 'a' <= c <= 'z' || '0' <= c <= '9' || c == '-' || c == '_'
  {
    if i > 0 { URLSafe(ds[1..], i - 1); }
  }
}
