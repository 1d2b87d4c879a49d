/** Canonical base64url of src/app/e2ee.py (sections 3.5 and 5 of RFC 4648). */
module Base64Url {
  import opened Prelude

  type Byte = b: int | 0 <= b < 256

  type Sextet = n: int | 0 <= n < 64

  function Letter(n: Sextet): char {
    if n < 26 then 'A' + n as char
    else if n < 52 then 'a' + (n - 26) as char
    else if n < 62 then '0' + (n - 52) as char
    else if n == 62 then '-' else '_'
  }

  function Value(c: char): Option<Sextet> {
    if 'A' <= c <= 'Z' then Some(c as int - 'A' as int)
    else if 'a' <= c <= 'z' then Some(c as int - 'a' as int + 26)
    else if '0' <= c <= '9' then Some(c as int - '0' as int + 52)
    else if c == '-' then Some(62)
    else if c == '_' then Some(63)
    else None
  }

  lemma LetterValue(n: Sextet)
    ensures Value(Letter(n)) == Some(n) && Letter(n) != '='
  {
  }

  predicate InAlphabet(s: string) { forall i :: 0 <= i < |s| ==> Value(s[i]).Some? }

  /** The unpadded form. */
  function EncodeCore(bs: seq<Byte>): string {
    if |bs| == 0 then ""
    else if |bs| == 1 then [Letter(bs[0] / 4), Letter(bs[0] % 4 * 16)]
    else if |bs| == 2 then [Letter(bs[0] / 4), Letter(bs[0] % 4 * 16 + bs[1] / 16), Letter(bs[1] % 16 * 4)]
    else Group(bs[0], bs[1], bs[2]) + EncodeCore(bs[3..])
  }

  /** Three bytes spread over four letters. */
  function Group(a: Byte, b: Byte, c: Byte): string {
    [Letter(a / 4), Letter(a % 4 * 16 + b / 16), Letter(b % 16 * 4 + c / 64), Letter(c % 64)]
  }

  function Padding(length: nat): string {
    if length % 4 == 2 then "==" else if length % 4 == 3 then "=" else ""
  }

  /** `encode_base64url`: padded. */
  function Encode(bs: seq<Byte>): string { EncodeCore(bs) + Padding(|EncodeCore(bs)|) }

  /** The library decoder on an unpadded body: leftover low bits are dropped. */
  function DecodeCore(s: string): seq<Byte>
    requires InAlphabet(s) && |s| % 4 != 1
  {
    if |s| == 0 then []
    else if |s| == 2 then [Value(s[0]).value * 4 + Value(s[1]).value / 16]
    else if |s| == 3 then
      [Value(s[0]).value * 4 + Value(s[1]).value / 16, Value(s[1]).value % 16 * 16 + Value(s[2]).value / 4]
    else
      [Value(s[0]).value * 4 + Value(s[1]).value / 16, Value(s[1]).value % 16 * 16 + Value(s[2]).value / 4,
       Value(s[2]).value % 4 * 64 + Value(s[3]).value] + DecodeCore(s[4..])
  }

  /** `value.rstrip("=")`. */
  function Stripped(s: string): string {
    if |s| > 0 && s[|s| - 1] == '=' then Stripped(s[..|s| - 1]) else s
  }

  datatype Limits = Limits(min: nat, max: Option<nat>, exact: Option<nat>)

  predicate Fits(n: nat, l: Limits) {
    l.min <= n && (l.max.Some? ==> n <= l.max.value) && (l.exact.Some? ==> n == l.exact.value)
  }

  /** `decode_base64_strict`, as its checks come in the source; `None` is a validation error. */
  function DecodeStrict(value: string, l: Limits): Option<seq<Byte>> {
    var core := Stripped(value);
    var explicit := |value| - |core|;
    if !InAlphabet(core) || explicit > 2 then None
    else if core == "" && l.min > 0 then None
    else if |core| % 4 == 1 then None
    else if explicit != 0 && explicit != |Padding(|core|)| then None
    else
      var estimated := |core| * 6 / 8;
      if (l.exact.Some? && estimated > l.exact.value) || (l.max.Some? && estimated > l.max.value) then None
      else
        var decoded := DecodeCore(core);
        if EncodeCore(decoded) != core || !Fits(|decoded|, l) then None else Some(decoded)
  }

  // ---------------------------------------------------------------- round trip

  /** A group in the alphabet in front of a text in the alphabet. */
  lemma AlphabetJoin(head: string, tail: string, whole: string)
    requires whole == head + tail && InAlphabet(head) && InAlphabet(tail)
    ensures InAlphabet(whole)
  {
    forall i | 0 <= i < |whole| ensures Value(whole[i]).Some? {
      assert whole[i] == if i < |head| then head[i] else tail[i - |head|];
    }
  }

  lemma GroupShape(a: Byte, b: Byte, c: Byte)
    ensures InAlphabet(Group(a, b, c))
  {
    LetterValue(a / 4);
    LetterValue(a % 4 * 16 + b / 16);
    LetterValue(b % 16 * 4 + c / 64);
    LetterValue(c % 64);
  }

  lemma LastShape(bs: seq<Byte>)
    requires 0 < |bs| < 3
    ensures InAlphabet(EncodeCore(bs)) && |EncodeCore(bs)| == |bs| + 1
  {
    LetterValue(bs[0] / 4);
    if |bs| == 1 {
      LetterValue(bs[0] % 4 * 16);
    } else {
      LetterValue(bs[0] % 4 * 16 + bs[1] / 16);
      LetterValue(bs[1] % 16 * 4);
    }
  }

  lemma {:induction false} CoreLetters(bs: seq<Byte>)
    ensures InAlphabet(EncodeCore(bs))
  {
    if |bs| >= 3 {
      CoreLetters(bs[3..]);
      GroupShape(bs[0], bs[1], bs[2]);
      AlphabetJoin(Group(bs[0], bs[1], bs[2]), EncodeCore(bs[3..]), EncodeCore(bs));
    } else if |bs| > 0 {
      LastShape(bs);
    }
  }

  lemma {:induction false} CoreLength(bs: seq<Byte>)
    ensures |EncodeCore(bs)| == |bs| / 3 * 4 + (if |bs| % 3 == 0 then 0 else |bs| % 3 + 1)
  {
    if |bs| >= 3 {
      CoreLength(bs[3..]);
      assert |EncodeCore(bs)| == 4 + |EncodeCore(bs[3..])|;
    }
  }

  lemma CoreShape(bs: seq<Byte>)
    ensures InAlphabet(EncodeCore(bs)) && |EncodeCore(bs)| % 4 != 1
    ensures |EncodeCore(bs)| * 6 / 8 == |bs|
  {
    CoreLetters(bs);
    CoreLength(bs);
  }

  lemma LettersAreNotPadding(s: string)
    requires InAlphabet(s)
    ensures forall i :: 0 <= i < |s| ==> s[i] != '='
  {
  }

  /** Two neighbouring bytes are recovered from the sextets they were spread over. */
  lemma SextetsRecover(a: Byte, b: Byte, c: Byte)
    ensures a / 4 * 4 + (a % 4 * 16 + b / 16) / 16 == a
    ensures (a % 4 * 16 + b / 16) % 16 * 16 + (b % 16 * 4 + c / 64) / 4 == b
    ensures (b % 16 * 4 + c / 64) % 4 * 64 + c % 64 == c
  {
  }

  /** One full group. */
  lemma GroupRoundTrip(bs: seq<Byte>)
    requires |bs| >= 3
    ensures var s := EncodeCore(bs);
      && |s| >= 4 && s[4..] == EncodeCore(bs[3..])
      && Value(s[0]) == Some(bs[0] / 4) && Value(s[1]) == Some(bs[0] % 4 * 16 + bs[1] / 16)
      && Value(s[2]) == Some(bs[1] % 16 * 4 + bs[2] / 64) && Value(s[3]) == Some(bs[2] % 64)
  {
    LetterValue(bs[0] / 4);
    LetterValue(bs[0] % 4 * 16 + bs[1] / 16);
    LetterValue(bs[1] % 16 * 4 + bs[2] / 64);
    LetterValue(bs[2] % 64);
  }

  lemma ShortRoundTrip(bs: seq<Byte>)
    requires |bs| < 3
    ensures InAlphabet(EncodeCore(bs)) && |EncodeCore(bs)| % 4 != 1
    ensures DecodeCore(EncodeCore(bs)) == bs
  {
    if |bs| > 0 {
      LetterValue(bs[0] / 4);
      if |bs| == 1 {
        LetterValue(bs[0] % 4 * 16);
        SextetsRecover(bs[0], 0, 0);
      } else {
        LetterValue(bs[0] % 4 * 16 + bs[1] / 16);
        LetterValue(bs[1] % 16 * 4);
        SextetsRecover(bs[0], bs[1], 0);
      }
    }
  }

  lemma DecodeGroup(s: string, n0: Sextet, n1: Sextet, n2: Sextet, n3: Sextet)
    requires InAlphabet(s) && |s| % 4 != 1 && |s| >= 4
    requires Value(s[0]) == Some(n0) && Value(s[1]) == Some(n1) && Value(s[2]) == Some(n2) && Value(s[3]) == Some(n3)
    ensures InAlphabet(s[4..]) && |s[4..]| % 4 != 1
    ensures DecodeCore(s) == [n0 * 4 + n1 / 16, n1 % 16 * 16 + n2 / 4, n2 % 4 * 64 + n3] + DecodeCore(s[4..])
  {
  }

  lemma GroupDecodes(s: string, a: Byte, b: Byte, c: Byte)
    requires InAlphabet(s) && |s| % 4 != 1 && |s| >= 4
    requires Value(s[0]) == Some(a / 4) && Value(s[1]) == Some(a % 4 * 16 + b / 16)
    requires Value(s[2]) == Some(b % 16 * 4 + c / 64) && Value(s[3]) == Some(c % 64)
    ensures InAlphabet(s[4..]) && |s[4..]| % 4 != 1
    ensures DecodeCore(s) == [a, b, c] + DecodeCore(s[4..])
  {
    SextetsRecover(a, b, c);
    DecodeGroup(s, a / 4, a % 4 * 16 + b / 16, b % 16 * 4 + c / 64, c % 64);
  }

  lemma {:induction false} CoreRoundTrip(bs: seq<Byte>)
    ensures InAlphabet(EncodeCore(bs)) && |EncodeCore(bs)| % 4 != 1
    ensures DecodeCore(EncodeCore(bs)) == bs
  {
    CoreShape(bs);
    if |bs| < 3 {
      ShortRoundTrip(bs);
    } else {
      CoreRoundTrip(bs[3..]);
      GroupRoundTrip(bs);
      GroupDecodes(EncodeCore(bs), bs[0], bs[1], bs[2]);
      assert bs == [bs[0], bs[1], bs[2]] + bs[3..];
    }
  }

  lemma {:induction false} StrippedShape(s: string)
    ensures Stripped(s) <= s
    ensures forall i :: |Stripped(s)| <= i < |s| ==> s[i] == '='
    ensures |Stripped(s)| > 0 ==> Stripped(s)[|Stripped(s)| - 1] != '='
  {
    if |s| > 0 && s[|s| - 1] == '=' { StrippedShape(s[..|s| - 1]); }
  }

  lemma {:induction false} StripsPadding(core: string, pad: string)
    requires |core| > 0 ==> core[|core| - 1] != '='
    requires forall i :: 0 <= i < |pad| ==> pad[i] == '='
    ensures Stripped(core + pad) == core
    decreases |pad|
  {
    if |pad| > 0 {
      var s := core + pad;
      assert s[..|s| - 1] == core + pad[..|pad| - 1];
      StripsPadding(core, pad[..|pad| - 1]);
    } else {
      assert core + pad == core;
    }
  }

  /** An accepted text is the canonical form of what it decodes to, with or without its padding. */
  lemma AcceptedIsCanonical(value: string, l: Limits)
    requires DecodeStrict(value, l).Some?
    ensures var bs := DecodeStrict(value, l).value;
      (value == Encode(bs) || value == EncodeCore(bs)) && Fits(|bs|, l)
  {
    var core := Stripped(value);
    StrippedShape(value);
    assert value[..|core|] == core;
    if |value| > |core| {
      assert value == core + value[|core|..];
      assert value[|core|..] == Padding(|core|);
    } else {
      assert value == core;
    }
  }

  /** Once its padding is recognised, a canonical body passes every check. */
  lemma PassesChecks(value: string, bs: seq<Byte>, l: Limits)
    requires Fits(|bs|, l) && Stripped(value) == EncodeCore(bs)
    requires |value| == |EncodeCore(bs)| || |value| == |EncodeCore(bs)| + |Padding(|EncodeCore(bs)|)|
    ensures DecodeStrict(value, l) == Some(bs)
  {
    CoreShape(bs);
    CoreRoundTrip(bs);
  }

  /** The canonical form of any bytes within the limits is accepted and decodes to them. */
  lemma CanonicalIsAccepted(bs: seq<Byte>, l: Limits)
    requires Fits(|bs|, l)
    ensures DecodeStrict(Encode(bs), l) == Some(bs) && DecodeStrict(EncodeCore(bs), l) == Some(bs)
  {
    var core := EncodeCore(bs);
    CoreShape(bs);
    LettersAreNotPadding(core);
    StripsPadding(core, Padding(|core|));
    StripsPadding(core, "");
    assert core + "" == core;
    PassesChecks(core, bs, l);
    PassesChecks(Encode(bs), bs, l);
  }

  /** Strict decoding accepts exactly the canonical padded and unpadded forms. */
  lemma StrictDecodingIsExact(value: string, l: Limits, bs: seq<Byte>)
    ensures DecodeStrict(value, l) == Some(bs) <==> (value == Encode(bs) || value == EncodeCore(bs)) && Fits(|bs|, l)
  {
    if DecodeStrict(value, l).Some? { AcceptedIsCanonical(value, l); }
    if Fits(|bs|, l) { CanonicalIsAccepted(bs, l); }
  }

  lemma EncodingIsInjective(a: seq<Byte>, b: seq<Byte>)
    requires Encode(a) == Encode(b)
    ensures a == b
  {
    var l := Limits(0, None, None);
    CanonicalIsAccepted(a, l);
    CanonicalIsAccepted(b, l);
  }
}
