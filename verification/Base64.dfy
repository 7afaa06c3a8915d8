/** The two base64 forms of sections 3.2 and 4 of RFC 4648 and the decoder that tells them apart
    by length alone (xrpc/internal/util/util.go:93-103). Encoding follows the RFC; decoding is
    that of Go's encoding/base64, which ignores line breaks and the unused low bits of the last
    character. */
module Base64 {
  import opened Packets

  type Bytes = seq<byte>

  const PAD: byte := 61
  const LF: byte := 10
  const CR: byte := 13

  type Sextet = v: byte | v < 64

  function Encode6(v: Sextet): byte {
    if v < 26 then 65 + v
    else if v < 52 then 97 + (v - 26)
    else if v < 62 then 48 + (v - 52)
    else if v == 62 then 43
    else 47
  }

  function Decode6(c: byte): Option<Sextet> {
    if 65 <= c <= 90 then Some(c - 65)
    else if 97 <= c <= 122 then Some(c - 97 + 26)
    else if 48 <= c <= 57 then Some(c - 48 + 52)
    else if c == 43 then Some(62)
    else if c == 47 then Some(63)
    else None
  }

  predicate InAlphabet(c: byte) {
    Decode6(c).Some?
  }

  lemma Sextets(v: Sextet)
    ensures Decode6(Encode6(v)) == Some(v) && Encode6(v) != PAD && Encode6(v) != LF && Encode6(v) != CR
  {
  }

  // ---------------------------------------------------------------- encoding

  /** The four sextets of three bytes. */
  function Cut1(a: byte): Sextet { a >> 2 }
  function Cut2(a: byte, b: byte): Sextet { ((a & 3) << 4) | (b >> 4) }
  function Cut3(b: byte, c: byte): Sextet { ((b & 15) << 2) | (c >> 6) }
  function Cut4(c: byte): Sextet { c & 63 }

  /** A full group: three bytes as four characters. */
  function Group3(a: byte, b: byte, c: byte): Bytes {
    [Encode6(Cut1(a)), Encode6(Cut2(a, b)), Encode6(Cut3(b, c)), Encode6(Cut4(c))]
  }

  function Group2(a: byte, b: byte): Bytes {
    [Encode6(Cut1(a)), Encode6(Cut2(a, b)), Encode6(Cut3(b, 0))]
  }

  function Group1(a: byte): Bytes {
    [Encode6(Cut1(a)), Encode6(Cut2(a, 0))]
  }

  function Encode(bs: Bytes, padded: bool): Bytes {
    if |bs| == 0 then []
    else if |bs| == 1 then Group1(bs[0]) + if padded then [PAD, PAD] else []
    else if |bs| == 2 then Group2(bs[0], bs[1]) + if padded then [PAD] else []
    else Group3(bs[0], bs[1], bs[2]) + Encode(bs[3..], padded)
  }

  // ---------------------------------------------------------------- decoding

  function Strip(s: Bytes): Bytes {
    if s == [] then []
    else (if s[0] == LF || s[0] == CR then [] else [s[0]]) + Strip(s[1..])
  }

  /** The three bytes of four sextets. */
  function First(a: Sextet, b: Sextet): byte { (a << 2) | (b >> 4) }
  function Second(b: Sextet, c: Sextet): byte { ((b & 15) << 4) | (c >> 2) }
  function Third(c: Sextet, d: Sextet): byte { ((c & 3) << 6) | d }

  /** The last group, when it is not four characters of the alphabet. */
  function DecodeTail(s: Bytes, padded: bool): Option<Bytes> {
    var n := if padded && |s| == 4 && s[3] == PAD then (if s[2] == PAD then 2 else 3) else if padded then 0 else |s|;
    if n == 2 && InAlphabet(s[0]) && InAlphabet(s[1]) then
      Some([First(Decode6(s[0]).value, Decode6(s[1]).value)])
    else if n == 3 && InAlphabet(s[0]) && InAlphabet(s[1]) && InAlphabet(s[2]) then
      Some([First(Decode6(s[0]).value, Decode6(s[1]).value), Second(Decode6(s[1]).value, Decode6(s[2]).value)])
    else None
  }

  predicate FullGroup(s: Bytes) {
    |s| >= 4 && InAlphabet(s[0]) && InAlphabet(s[1]) && InAlphabet(s[2]) && InAlphabet(s[3])
  }

  function DecodeGroup(s: Bytes): Bytes
    requires FullGroup(s)
  {
    var a, b, c, d := Decode6(s[0]).value, Decode6(s[1]).value, Decode6(s[2]).value, Decode6(s[3]).value;
    [First(a, b), Second(b, c), Third(c, d)]
  }

  function DecodeStripped(s: Bytes, padded: bool): Option<Bytes> {
    if s == [] then Some([])
    else if FullGroup(s) then
      var rest := DecodeStripped(s[4..], padded);
      if rest.Some? then Some(DecodeGroup(s) + rest.value) else None
    else DecodeTail(s, padded)
  }

  /** DecodeString of StdEncoding and of RawStdEncoding. */
  function DecodeString(s: Bytes, padded: bool): Option<Bytes> {
    DecodeStripped(Strip(s), padded)
  }

  /** encodeBinHeader */
  function EncodeBin(bs: Bytes): Bytes {
    Encode(bs, false)
  }

  /** decodeBinHeader */
  function DecodeBin(s: Bytes): Option<Bytes> {
    DecodeString(s, |s| % 4 == 0)
  }

  // ---------------------------------------------------------------- properties

  lemma {:induction false} EncodedSize(bs: Bytes)
    ensures |EncodeBin(bs)| == |bs| / 3 * 4 + (if |bs| % 3 == 0 then 0 else |bs| % 3 + 1)
    ensures |Encode(bs, true)| == |bs| / 3 * 4 + (if |bs| % 3 == 0 then 0 else 4)
  {
    if |bs| >= 3 {
      hide Encode6;
      EncodedSize(bs[3..]);
      assert |bs| / 3 == |bs[3..]| / 3 + 1;
    }
  }

  /** Unpadded, a length of 0 mod 4 means no padding was left out, and 1 mod 4 does not occur;
      padded, the length is always 0 mod 4. So the length tells which decoder fits. */
  lemma EncodedLength(bs: Bytes)
    ensures |EncodeBin(bs)| % 4 == 0 <==> |bs| % 3 == 0
    ensures |EncodeBin(bs)| % 4 != 1
    ensures |Encode(bs, true)| % 4 == 0
  {
    EncodedSize(bs);
    hide Encode;
  }

  /** When no padding is needed, both forms are the same. */
  lemma {:induction false} SameWithoutPadding(bs: Bytes)
    requires |bs| % 3 == 0
    ensures Encode(bs, true) == EncodeBin(bs)
  {
    if bs != [] {
      hide Group3;
      SameWithoutPadding(bs[3..]);
    }
  }

  lemma {:induction false} StripNothing(s: Bytes)
    requires forall i | 0 <= i < |s| :: s[i] != LF && s[i] != CR
    ensures Strip(s) == s
  {
    if s != [] {
      assert forall i | 0 <= i < |s| - 1 :: s[1..][i] == s[i + 1];
      StripNothing(s[1..]);
      assert s == [s[0]] + s[1..];
    }
  }

  lemma {:induction false} NoLineBreaks(bs: Bytes, padded: bool)
    ensures forall i | 0 <= i < |Encode(bs, padded)| :: Encode(bs, padded)[i] != LF && Encode(bs, padded)[i] != CR
  {
    if |bs| >= 3 { NoLineBreaks(bs[3..], padded); }
  }

  lemma GroupRoundTrip(a: byte, b: byte, c: byte)
    ensures FullGroup(Group3(a, b, c)) && DecodeGroup(Group3(a, b, c)) == [a, b, c]
  {
    Sextets(Cut1(a));
    Sextets(Cut2(a, b));
    Sextets(Cut3(b, c));
    Sextets(Cut4(c));
    BitsRejoin(a, b, c);
    hide Encode6, Decode6, First, Second, Third, Cut1, Cut2, Cut3, Cut4;
  }

  /** The sextets cut from three bytes join to the same bytes. */
  lemma BitsRejoin(a: byte, b: byte, c: byte)
    ensures First(Cut1(a), Cut2(a, b)) == a
    ensures Second(Cut2(a, b), Cut3(b, c)) == b
    ensures Third(Cut3(b, c), Cut4(c)) == c
  {
  }

  lemma FirstRejoins(a: byte)
    ensures First(Cut1(a), Cut2(a, 0)) == a
  {
    BitsRejoin(a, 0, 0);
  }

  /** A tail of two characters, or three, with the padding that belongs to it. */
  lemma TailOfTwo(x: Sextet, y: Sextet, padded: bool)
    ensures var s := [Encode6(x), Encode6(y)] + if padded then [PAD, PAD] else [];
            !FullGroup(s) && DecodeTail(s, padded) == Some([First(x, y)])
  {
    Sextets(x);
    Sextets(y);
    assert !InAlphabet(PAD);
    hide Encode6, Decode6, First;
  }

  lemma TailOfThree(x: Sextet, y: Sextet, z: Sextet, padded: bool)
    ensures var s := [Encode6(x), Encode6(y), Encode6(z)] + if padded then [PAD] else [];
            !FullGroup(s) && DecodeTail(s, padded) == Some([First(x, y), Second(y, z)])
  {
    Sextets(x);
    Sextets(y);
    Sextets(z);
    assert !InAlphabet(PAD);
    hide Encode6, Decode6, First, Second;
  }

  lemma ShortEncodings(a: byte, b: byte, padded: bool)
    ensures Encode([a], padded) == [Encode6(Cut1(a)), Encode6(Cut2(a, 0))] + if padded then [PAD, PAD] else []
    ensures Encode([a, b], padded) ==
            [Encode6(Cut1(a)), Encode6(Cut2(a, b)), Encode6(Cut3(b, 0))] + if padded then [PAD] else []
  {
    hide Encode6, Cut1, Cut2, Cut3;
  }

  lemma OneByteRoundTrip(a: byte, padded: bool)
    ensures !FullGroup(Encode([a], padded)) && DecodeTail(Encode([a], padded), padded) == Some([a])
  {
    hide *;
    FirstRejoins(a);
    ShortEncodings(a, 0, padded);
    TailOfTwo(Cut1(a), Cut2(a, 0), padded);
  }

  lemma TwoBytesRoundTrip(a: byte, b: byte, padded: bool)
    ensures !FullGroup(Encode([a, b], padded)) && DecodeTail(Encode([a, b], padded), padded) == Some([a, b])
  {
    hide *;
    BitsRejoin(a, b, 0);
    ShortEncodings(a, b, padded);
    TailOfThree(Cut1(a), Cut2(a, b), Cut3(b, 0), padded);
  }

  lemma {:induction false} StrippedRoundTrip(bs: Bytes, padded: bool)
    ensures DecodeStripped(Encode(bs, padded), padded) == Some(bs)
  {
    hide Encode6, Decode6, FullGroup, DecodeGroup, DecodeTail;
    if |bs| >= 3 {
      GroupRoundTrip(bs[0], bs[1], bs[2]);
      StrippedRoundTrip(bs[3..], padded);
      GroupPrefix(Group3(bs[0], bs[1], bs[2]), Encode(bs[3..], padded));
      assert bs == [bs[0], bs[1], bs[2]] + bs[3..];
    } else if |bs| == 1 {
      assert bs == [bs[0]];
      OneByteRoundTrip(bs[0], padded);
    } else if |bs| == 2 {
      assert bs == [bs[0], bs[1]];
      TwoBytesRoundTrip(bs[0], bs[1], padded);
    }
  }

  lemma GroupPrefix(g: Bytes, rest: Bytes)
    requires |g| == 4 && FullGroup(g)
    ensures FullGroup(g + rest) && DecodeGroup(g + rest) == DecodeGroup(g) && (g + rest)[4..] == rest
  {
  }

  lemma StringRoundTrip(bs: Bytes, padded: bool)
    ensures DecodeString(Encode(bs, padded), padded) == Some(bs)
  {
    hide Encode, DecodeStripped, Strip;
    NoLineBreaks(bs, padded);
    StripNothing(Encode(bs, padded));
    StrippedRoundTrip(bs, padded);
  }

  /** The decoder returns every byte string from its unpadded and from its padded encoding. */
  lemma DecodesBothForms(bs: Bytes)
    ensures DecodeBin(EncodeBin(bs)) == Some(bs)
    ensures DecodeBin(Encode(bs, true)) == Some(bs)
  {
    hide Encode, DecodeString;
    EncodedLength(bs);
    StringRoundTrip(bs, false);
    StringRoundTrip(bs, true);
    if |bs| % 3 == 0 { SameWithoutPadding(bs); }
  }

  // ---------------------------------------------------------------- what is not an encoding

  lemma {:induction false} StripIsShorter(s: Bytes)
    ensures |Strip(s)| <= |s|
  {
    if s != [] { StripIsShorter(s[1..]); }
  }

  lemma {:induction false} StrippedShrinks(s: Bytes, padded: bool)
    requires DecodeStripped(s, padded).Some?
    ensures 4 * |DecodeStripped(s, padded).value| <= 3 * |s|
  {
    hide First, Second, Third;
    if FullGroup(s) { StrippedShrinks(s[4..], padded); }
  }

  /** Decoded bytes are fewer than the characters they came from. */
  lemma DecodingShrinks(s: Bytes)
    requires DecodeBin(s).Some?
    ensures 4 * |DecodeBin(s).value| <= 3 * |s|
  {
    hide DecodeStripped, Strip;
    StripIsShorter(s);
    StrippedShrinks(Strip(s), |s| % 4 == 0);
  }

  predicate AllInAlphabet(s: Bytes) {
    forall i | 0 <= i < |s| :: InAlphabet(s[i])
  }

  /** How many padding characters a string ends with, up to two. */
  function Pads(s: Bytes): (n: nat)
    ensures n <= |s|
  {
    if |s| >= 2 && s[|s|-1] == PAD && s[|s|-2] == PAD then 2 else if |s| >= 1 && s[|s|-1] == PAD then 1 else 0
  }

  /** The characters that carry bits. */
  function Body(s: Bytes, padded: bool): Bytes {
    if padded then s[..|s| - Pads(s)] else s
  }

  /** Padded to a multiple of four with at most two padding characters; or unpadded, with no single
      character left over. */
  predicate Accepts(s: Bytes, padded: bool) {
    (if padded then |s| % 4 == 0 else |s| % 4 != 1) && AllInAlphabet(Body(s, padded))
  }

  lemma GroupBody(s: Bytes, padded: bool)
    requires FullGroup(s) && (padded ==> |s| % 4 == 0)
    ensures Pads(s[4..]) == Pads(s) && Body(s, padded) == s[..4] + Body(s[4..], padded)
  {
    assert !InAlphabet(PAD);
  }

  lemma {:induction false} DecodesWhatItAccepts(s: Bytes, padded: bool)
    ensures DecodeStripped(s, padded).Some? <==> Accepts(s, padded)
  {
    hide FullGroup, DecodeGroup, DecodeTail, AllInAlphabet, Body;
    if FullGroup(s) {
      AcceptsRest(s, padded);
      DecodesWhatItAccepts(s[4..], padded);
    } else if s == [] {
      EmptyBody(padded);
    } else {
      TailAccepts(s, padded);
    }
  }

  lemma EmptyBody(padded: bool)
    ensures Accepts([], padded)
  {
  }

  lemma AcceptsRest(s: Bytes, padded: bool)
    requires FullGroup(s)
    ensures |s| >= 4 && (Accepts(s, padded) <==> Accepts(s[4..], padded))
  {
    LessFour(|s|);
    if padded ==> |s| % 4 == 0 {
      GroupBody(s, padded);
      AllInConcat(s[..4], Body(s[4..], padded));
      hide AllInAlphabet, Body;
    }
  }

  lemma LessFour(n: nat)
    requires n >= 4
    ensures (n - 4) % 4 == n % 4
  {
  }

  lemma AllInConcat(a: Bytes, b: Bytes)
    ensures AllInAlphabet(a + b) <==> AllInAlphabet(a) && AllInAlphabet(b)
  {
    if AllInAlphabet(a + b) {
      assert forall i | 0 <= i < |a| :: a[i] == (a + b)[i];
      assert forall i | 0 <= i < |b| :: b[i] == (a + b)[|a| + i];
    }
  }

  lemma TailAccepts(s: Bytes, padded: bool)
    requires s != [] && !FullGroup(s)
    ensures DecodeTail(s, padded).Some? <==> Accepts(s, padded)
  {
    assert !InAlphabet(PAD);
    hide Decode6;
    var body := Body(s, padded);
    assert body == s[..|body|];
  }

  /** Encoding what a full group decodes to gives the group back. */
  lemma GroupBack(s: Bytes)
    requires |s| == 4 && FullGroup(s)
    ensures var bs := DecodeGroup(s); Group3(bs[0], bs[1], bs[2]) == s
  {
    hide Encode6, Decode6, First, Second, Third, Cut1, Cut2, Cut3, Cut4;
    var a, b, c, d := Decode6(s[0]).value, Decode6(s[1]).value, Decode6(s[2]).value, Decode6(s[3]).value;
    SameChar(s[0], a);
    SameChar(s[1], b);
    SameChar(s[2], c);
    SameChar(s[3], d);
    SextetsBack(a, b, c, d);
  }

  lemma SameChar(x: byte, v: Sextet)
    requires Decode6(x) == Some(v)
    ensures Encode6(v) == x
  {
  }

  lemma SextetsBack(a: Sextet, b: Sextet, c: Sextet, d: Sextet)
    ensures Cut1(First(a, b)) == a && Cut2(First(a, b), Second(b, c)) == b
    ensures Cut3(Second(b, c), Third(c, d)) == c && Cut4(Third(c, d)) == d
    ensures Cut2(First(a, b), 0) == HighTwo(b) && Cut3(Second(b, c), 0) == HighFour(c)
  {
  }

  /** A sextet of which only the two, or four, high bits count. */
  function HighTwo(v: Sextet): Sextet { v & 48 }
  function HighFour(v: Sextet): Sextet { v & 60 }

  /** The body with the bits that carry nothing cleared in its last character. */
  function Cleared(body: Bytes): Bytes
    requires AllInAlphabet(body)
  {
    if |body| >= 4 then body[..4] + Cleared(body[4..])
    else if |body| == 3 then body[..2] + [Encode6(HighFour(Decode6(body[2]).value))]
    else if |body| == 2 then body[..1] + [Encode6(HighTwo(Decode6(body[1]).value))]
    else body
  }

  /** Encoding again what was decoded gives the body back, up to those bits. */
  lemma {:induction false} EncodesBack(s: Bytes, padded: bool)
    requires Accepts(s, padded) && DecodeStripped(s, padded).Some?
    ensures EncodeBin(DecodeStripped(s, padded).value) == Cleared(Body(s, padded))
  {
    hide Encode6, Decode6, First, Second, Third, Group3, Cut1, Cut2, Cut3, Cut4, HighTwo, HighFour;
    if FullGroup(s) {
      GroupBody(s, padded);
      AllInConcat(s[..4], Body(s[4..], padded));
      DecodesWhatItAccepts(s[4..], padded);
      EncodesBack(s[4..], padded);
      GroupBack(s[..4]);
      FullStep(s, DecodeStripped(s[4..], padded).value, Body(s[4..], padded));
    } else if s != [] {
      TailBack(s, padded);
    }
  }

  lemma FullStep(s: Bytes, rest: Bytes, body: Bytes)
    requires FullGroup(s) && AllInAlphabet(body) && EncodeBin(rest) == Cleared(body) && AllInAlphabet(s[..4] + body)
    requires var bs := DecodeGroup(s); Group3(bs[0], bs[1], bs[2]) == s[..4]
    ensures EncodeBin(DecodeGroup(s) + rest) == Cleared(s[..4] + body)
  {
    assert (DecodeGroup(s) + rest)[3..] == rest;
    assert (s[..4] + body)[4..] == body && (s[..4] + body)[..4] == s[..4];
  }

  lemma TailBack(s: Bytes, padded: bool)
    requires s != [] && !FullGroup(s) && Accepts(s, padded) && DecodeTail(s, padded).Some?
    ensures EncodeBin(DecodeTail(s, padded).value) == Cleared(Body(s, padded))
  {
    hide *;
    var body := Body(s, padded);
    BodyIsTail(s, padded);
    if |body| == 2 { TailBackTwo(s, padded, body); } else { TailBackThree(s, padded, body); }
  }

  lemma TailBackTwo(s: Bytes, padded: bool, body: Bytes)
    requires |body| == 2 && AllInAlphabet(body) && s == body + if padded then [PAD, PAD] else []
    ensures DecodeTail(s, padded).Some? && EncodeBin(DecodeTail(s, padded).value) == Cleared(body)
  {
    assert InAlphabet(body[0]) && InAlphabet(body[1]);
    var x, y := Decode6(body[0]).value, Decode6(body[1]).value;
    hide Encode6, Decode6, First, Second, Group1, Group2, FullGroup, DecodeTail, HighTwo, HighFour;
    SameChar(body[0], x);
    SameChar(body[1], y);
    assert body == [Encode6(x), Encode6(y)];
    TailOfTwo(x, y, padded);
    TwoBack(x, y);
  }

  lemma TailBackThree(s: Bytes, padded: bool, body: Bytes)
    requires |body| == 3 && AllInAlphabet(body) && s == body + if padded then [PAD] else []
    ensures DecodeTail(s, padded).Some? && EncodeBin(DecodeTail(s, padded).value) == Cleared(body)
  {
    assert InAlphabet(body[0]) && InAlphabet(body[1]) && InAlphabet(body[2]);
    var x, y, z := Decode6(body[0]).value, Decode6(body[1]).value, Decode6(body[2]).value;
    hide Encode6, Decode6, First, Second, Group1, Group2, FullGroup, DecodeTail, HighTwo, HighFour;
    SameChar(body[0], x);
    SameChar(body[1], y);
    SameChar(body[2], z);
    assert body == [Encode6(x), Encode6(y), Encode6(z)];
    hide Cleared, Group3;
    ClearedThree(body);
    TailOfThree(x, y, z, padded);
    ThreeBack(x, y, z);
  }

  lemma ClearedThree(body: Bytes)
    requires |body| == 3 && AllInAlphabet(body)
    ensures InAlphabet(body[2]) && Cleared(body) == [body[0], body[1], Encode6(HighFour(Decode6(body[2]).value))]
  {
    hide Encode6, Decode6, HighFour;
  }

  lemma BodyIsTail(s: Bytes, padded: bool)
    requires s != [] && !FullGroup(s) && Accepts(s, padded)
    ensures var body := Body(s, padded);
            && 2 <= |body| <= 3 && AllInAlphabet(body)
            && s == body + if !padded then [] else if |body| == 2 then [PAD, PAD] else [PAD]
  {
    hide Decode6;
    var body := Body(s, padded);
    assert body == s[..|body|];
  }

  lemma TwoBack(a: Sextet, b: Sextet)
    ensures Group1(First(a, b)) == [Encode6(a), Encode6(HighTwo(b))]
  {
    SextetsBack(a, b, 0, 0);
    hide Encode6, First, Second, Third, Cut1, Cut2, Cut3, HighTwo, HighFour;
  }

  lemma ThreeBack(a: Sextet, b: Sextet, c: Sextet)
    ensures Group2(First(a, b), Second(b, c)) == [Encode6(a), Encode6(b), Encode6(HighFour(c))]
  {
    SextetsBack(a, b, c, 0);
    hide Encode6, First, Second, Third, Cut1, Cut2, Cut3, HighTwo, HighFour;
  }

  /** What the length-directed decoder accepts, for every string. Without line breaks these are the
      strings of length 0 mod 4 over the alphabet that may end in one or two padding characters,
      and those of length 2 or 3 mod 4 over the alphabet. */
  lemma AcceptanceOfDecodeBin(s: Bytes)
    ensures DecodeBin(s).Some? <==> Accepts(Strip(s), |s| % 4 == 0)
    ensures (forall i | 0 <= i < |s| :: s[i] != LF && s[i] != CR) ==>
              (DecodeBin(s).Some? <==> |s| % 4 != 1 && AllInAlphabet(Body(s, |s| % 4 == 0)))
  {
    hide DecodeStripped, Strip, AllInAlphabet, Body;
    DecodesWhatItAccepts(Strip(s), |s| % 4 == 0);
    if forall i | 0 <= i < |s| :: s[i] != LF && s[i] != CR { StripNothing(s); }
  }

  /** Two accepted strings without line breaks decode to the same bytes if and only if their bodies
      agree up to the bits that carry nothing: padding does not matter, nor do those bits. */
  lemma SameBytes(s: Bytes, t: Bytes)
    requires (forall i | 0 <= i < |s| :: s[i] != LF && s[i] != CR)
    requires (forall i | 0 <= i < |t| :: t[i] != LF && t[i] != CR)
    requires DecodeBin(s).Some? && DecodeBin(t).Some?
    ensures AllInAlphabet(Body(s, |s| % 4 == 0)) && AllInAlphabet(Body(t, |t| % 4 == 0))
    ensures DecodeBin(s) == DecodeBin(t) <==> Cleared(Body(s, |s| % 4 == 0)) == Cleared(Body(t, |t| % 4 == 0))
  {
    hide DecodeStripped, Strip, AllInAlphabet, Body, Encode, Cleared;
    ReEncoded(s);
    ReEncoded(t);
    DecodesBothForms(DecodeBin(s).value);
    DecodesBothForms(DecodeBin(t).value);
  }

  lemma ReEncoded(s: Bytes)
    requires (forall i | 0 <= i < |s| :: s[i] != LF && s[i] != CR) && DecodeBin(s).Some?
    ensures AllInAlphabet(Body(s, |s| % 4 == 0)) && EncodeBin(DecodeBin(s).value) == Cleared(Body(s, |s| % 4 == 0))
  {
    hide DecodeStripped, Strip, AllInAlphabet, Body, Encode, Cleared;
    StripNothing(s);
    DecodesWhatItAccepts(s, |s| % 4 == 0);
    EncodesBack(s, |s| % 4 == 0);
  }

  /** "QQ" and "QR" are the same byte. */
  lemma DecodingIsNotInjective()
    ensures DecodeBin([81, 81]) == DecodeBin([81, 82]) == Some([65])
  {
  }
}
