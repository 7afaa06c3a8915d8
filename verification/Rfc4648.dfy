/** What module Base64 computes, against sections 3.2 and 4 of RFC 4648 read bit by bit: the input is a
    string of bits, six of them make a character of the table, and what lacks to a group of four
    characters is padding (xrpc/internal/util/util.go:93-103). */
module Rfc4648 {
  import opened Packets
  import opened Base64

  /** Table 1 of RFC 4648, sixteen entries a row: A to Z, a to z, 0 to 9, plus and slash. */
  const ROW0: Bytes := [65, 66, 67, 68, 69, 70, 71, 72, 73, 74, 75, 76, 77, 78, 79, 80]
  const ROW1: Bytes := [81, 82, 83, 84, 85, 86, 87, 88, 89, 90, 97, 98, 99, 100, 101, 102]
  const ROW2: Bytes := [103, 104, 105, 106, 107, 108, 109, 110, 111, 112, 113, 114, 115, 116, 117, 118]
  const ROW3: Bytes := [119, 120, 121, 122, 48, 49, 50, 51, 52, 53, 54, 55, 56, 57, 43, 47]

  function Table(n: nat): byte
    requires n < 64
  {
    if n < 16 then ROW0[n] else if n < 32 then ROW1[n - 16] else if n < 48 then ROW2[n - 32] else ROW3[n - 48]
  }

  /** Bit `p` of a byte, the most significant one first. */
  predicate BitOf(b: byte, p: nat)
    requires p < 8
  {
    b & (if p == 0 then 128 else if p == 1 then 64 else if p == 2 then 32 else if p == 3 then 16
         else if p == 4 then 8 else if p == 5 then 4 else if p == 6 then 2 else 1) != 0
  }

  /** Bit `j` of a byte string, followed by as many zero bits as are wanted. */
  predicate Bit(bs: Bytes, j: nat) {
    j / 8 < |bs| && BitOf(bs[j / 8], j % 8)
  }

  /** The number that the six bits from `j` on make. */
  function SixBits(bs: Bytes, j: nat): (n: nat)
    ensures n < 64
  {
    Number(Bit(bs, j), Bit(bs, j + 1), Bit(bs, j + 2), Bit(bs, j + 3), Bit(bs, j + 4), Bit(bs, j + 5))
  }

  function Number(a: bool, b: bool, c: bool, d: bool, e: bool, f: bool): (n: nat)
    ensures n < 64
  {
    (if a then 32 else 0) + (if b then 16 else 0) + (if c then 8 else 0) + (if d then 4 else 0) +
    (if e then 2 else 0) + (if f then 1 else 0)
  }

  /** A sextet with these bits. */
  predicate HasBits(v: Sextet, a: bool, b: bool, c: bool, d: bool, e: bool, f: bool) {
    && (v & 32 != 0 <==> a) && (v & 16 != 0 <==> b) && (v & 8 != 0 <==> c)
    && (v & 4 != 0 <==> d) && (v & 2 != 0 <==> e) && (v & 1 != 0 <==> f)
  }

  /** Each sextet is encoded by its entry in the table. */
  lemma TableEntry(v: Sextet, a: bool, b: bool, c: bool, d: bool, e: bool, f: bool)
    requires HasBits(v, a, b, c, d, e, f)
    ensures Encode6(v) == Table(Number(a, b, c, d, e, f))
  {
    if a { if b { } else { } } else { if b { } else { } }
  }

  /** The four sextets of three bytes are their bits, six at a time. */
  lemma CutsAreBits(a: byte, b: byte, c: byte)
    ensures HasBits(Cut1(a), BitOf(a, 0), BitOf(a, 1), BitOf(a, 2), BitOf(a, 3), BitOf(a, 4), BitOf(a, 5))
    ensures HasBits(Cut2(a, b), BitOf(a, 6), BitOf(a, 7), BitOf(b, 0), BitOf(b, 1), BitOf(b, 2), BitOf(b, 3))
    ensures HasBits(Cut3(b, c), BitOf(b, 4), BitOf(b, 5), BitOf(b, 6), BitOf(b, 7), BitOf(c, 0), BitOf(c, 1))
    ensures HasBits(Cut4(c), BitOf(c, 2), BitOf(c, 3), BitOf(c, 4), BitOf(c, 5), BitOf(c, 6), BitOf(c, 7))
    ensures forall p: nat | p < 8 :: !BitOf(0, p)
  {
  }

  lemma LaterBit(bs: Bytes, j: nat)
    requires |bs| >= 3
    ensures Bit(bs, j + 24) <==> Bit(bs[3..], j)
  {
    assert (j + 24) / 8 == j / 8 + 3 && (j + 24) % 8 == j % 8;
    hide BitOf;
  }

  lemma LaterBits(bs: Bytes, j: nat)
    requires |bs| >= 3
    ensures SixBits(bs, j + 24) == SixBits(bs[3..], j)
  {
    hide Bit, Number;
    LaterBit(bs, j);
    LaterBit(bs, j + 1);
    LaterBit(bs, j + 2);
    LaterBit(bs, j + 3);
    LaterBit(bs, j + 4);
    LaterBit(bs, j + 5);
  }

  /** A group of up to three bytes; those that lack count as zero. */
  function ByteAt(bs: Bytes, i: nat): byte {
    if i < |bs| then bs[i] else 0
  }

  lemma BitsOfByte(bs: Bytes, i: nat, b: byte)
    requires b == ByteAt(bs, i)
    ensures (Bit(bs, 8 * i) <==> BitOf(b, 0)) && (Bit(bs, 8 * i + 1) <==> BitOf(b, 1))
    ensures (Bit(bs, 8 * i + 2) <==> BitOf(b, 2)) && (Bit(bs, 8 * i + 3) <==> BitOf(b, 3))
    ensures (Bit(bs, 8 * i + 4) <==> BitOf(b, 4)) && (Bit(bs, 8 * i + 5) <==> BitOf(b, 5))
    ensures (Bit(bs, 8 * i + 6) <==> BitOf(b, 6)) && (Bit(bs, 8 * i + 7) <==> BitOf(b, 7))
  {
    CutsAreBits(0, 0, 0);
    hide BitOf;
  }

  lemma BitsOfBytes(bs: Bytes, a: byte, b: byte, c: byte)
    requires a == ByteAt(bs, 0) && b == ByteAt(bs, 1) && c == ByteAt(bs, 2)
    ensures SixBits(bs, 0) == Number(BitOf(a, 0), BitOf(a, 1), BitOf(a, 2), BitOf(a, 3), BitOf(a, 4), BitOf(a, 5))
    ensures SixBits(bs, 6) == Number(BitOf(a, 6), BitOf(a, 7), BitOf(b, 0), BitOf(b, 1), BitOf(b, 2), BitOf(b, 3))
    ensures SixBits(bs, 12) == Number(BitOf(b, 4), BitOf(b, 5), BitOf(b, 6), BitOf(b, 7), BitOf(c, 0), BitOf(c, 1))
    ensures SixBits(bs, 18) == Number(BitOf(c, 2), BitOf(c, 3), BitOf(c, 4), BitOf(c, 5), BitOf(c, 6), BitOf(c, 7))
  {
    BitsOfByte(bs, 0, a);
    BitsOfByte(bs, 1, b);
    BitsOfByte(bs, 2, c);
    hide Bit, BitOf, ByteAt, Number;
  }

  /** The sextets of the first group are the first four times six bits. */
  lemma FirstGroup(bs: Bytes)
    ensures var a, b, c := ByteAt(bs, 0), ByteAt(bs, 1), ByteAt(bs, 2);
            && Encode6(Cut1(a)) == Table(SixBits(bs, 0)) && Encode6(Cut2(a, b)) == Table(SixBits(bs, 6))
            && Encode6(Cut3(b, c)) == Table(SixBits(bs, 12)) && Encode6(Cut4(c)) == Table(SixBits(bs, 18))
  {
    hide *;
    var a, b, c := ByteAt(bs, 0), ByteAt(bs, 1), ByteAt(bs, 2);
    CutsAreBits(a, b, c);
    BitsOfBytes(bs, a, b, c);
    TableEntry(Cut1(a), BitOf(a, 0), BitOf(a, 1), BitOf(a, 2), BitOf(a, 3), BitOf(a, 4), BitOf(a, 5));
    TableEntry(Cut2(a, b), BitOf(a, 6), BitOf(a, 7), BitOf(b, 0), BitOf(b, 1), BitOf(b, 2), BitOf(b, 3));
    TableEntry(Cut3(b, c), BitOf(b, 4), BitOf(b, 5), BitOf(b, 6), BitOf(b, 7), BitOf(c, 0), BitOf(c, 1));
    TableEntry(Cut4(c), BitOf(c, 2), BitOf(c, 3), BitOf(c, 4), BitOf(c, 5), BitOf(c, 6), BitOf(c, 7));
  }

  lemma FirstSextets(bs: Bytes)
    ensures var s, a, b, c := EncodeBin(bs), ByteAt(bs, 0), ByteAt(bs, 1), ByteAt(bs, 2);
            && (|s| > 0 ==> s[0] == Encode6(Cut1(a))) && (|s| > 1 ==> s[1] == Encode6(Cut2(a, b)))
            && (|s| > 2 ==> s[2] == Encode6(Cut3(b, c))) && (|s| > 3 ==> s[3] == Encode6(Cut4(c)))
  {
    hide Encode6, Cut1, Cut2, Cut3, Cut4;
  }

  lemma FirstCharacters(bs: Bytes, i: nat)
    requires i < |EncodeBin(bs)| && i < 4
    ensures EncodeBin(bs)[i] == Table(SixBits(bs, 6 * i))
  {
    hide *;
    FirstSextets(bs);
    FirstGroup(bs);
    if i == 0 { } else if i == 1 { } else if i == 2 { } else { }
  }

  lemma LaterCharacters(bs: Bytes, i: nat)
    requires |bs| >= 3 && 4 <= i < |EncodeBin(bs)|
    ensures i - 4 < |EncodeBin(bs[3..])| && EncodeBin(bs)[i] == EncodeBin(bs[3..])[i - 4]
  {
    hide Encode6, Cut1, Cut2, Cut3, Cut4;
  }

  /** The unpadded encoding: as many characters as six times that many bits cover the input, and
      each is the table's entry for its six bits. */
  lemma {:induction false} EncodingIsStandard(bs: Bytes, i: nat)
    requires i < |EncodeBin(bs)|
    ensures |EncodeBin(bs)| == (8 * |bs| + 5) / 6
    ensures EncodeBin(bs)[i] == Table(SixBits(bs, 6 * i))
    decreases |bs|
  {
    EncodedSize(bs);
    hide EncodeBin, SixBits, Table;
    if i < 4 {
      FirstCharacters(bs, i);
    } else {
      LaterCharacters(bs, i);
      EncodingIsStandard(bs[3..], i - 4);
      LaterBits(bs, 6 * (i - 4));
    }
  }

  /** The padded one adds the padding characters that make the length a multiple of four. */
  lemma {:induction false} PaddingIsStandard(bs: Bytes)
    ensures Encode(bs, true) == EncodeBin(bs) + if |bs| % 3 == 1 then [61, 61] else if |bs| % 3 == 2 then [61] else []
  {
    hide Group1, Group2, Group3;
    if |bs| >= 3 { PaddingIsStandard(bs[3..]); }
  }

  predicate Base64Char(c: byte) {
    65 <= c <= 90 || 97 <= c <= 122 || 48 <= c <= 57 || c == 43 || c == 47
  }

  lemma AlphabetIsStandard(c: byte)
    ensures InAlphabet(c) <==> Base64Char(c)
  {
  }

  predicate IsText(s: Bytes) {
    forall i | 0 <= i < |s| :: Base64Char(s[i])
  }

  lemma GroupsAreText(a: byte, b: byte, c: byte)
    ensures IsText(Group1(a)) && IsText(Group2(a, b)) && IsText(Group3(a, b, c))
  {
    forall v: Sextet ensures Base64Char(Encode6(v)) { Sextets(v); AlphabetIsStandard(Encode6(v)); }
    hide Cut1, Cut2, Cut3, Cut4, Encode6, Base64Char;
  }

  /** Unpadded text has no other characters. */
  lemma {:induction false} EncodedIsText(bs: Bytes)
    ensures IsText(EncodeBin(bs))
    decreases |bs|
  {
    GroupsAreText(ByteAt(bs, 0), ByteAt(bs, 1), ByteAt(bs, 2));
    hide Base64Char, Group1, Group2, Group3;
    if |bs| >= 3 { EncodedIsText(bs[3..]); }
  }

  lemma FirstOfStrip(c: byte, s: Bytes)
    ensures Strip([c] + s) == (if c == 13 || c == 10 then [] else [c]) + Strip(s)
  {
    assert ([c] + s)[1..] == s && [c] + [] == [c];
  }

  /** The decoder skips carriage returns and line feeds, and nothing else. */
  lemma {:induction false} LineBreaksAreSkipped(s: Bytes, t: Bytes, c: byte)
    ensures Strip(s + t) == Strip(s) + Strip(t)
    ensures Strip([c]) == if c == 13 || c == 10 then [] else [c]
    decreases |s|
  {
    FirstOfStrip(c, []);
    if s == [] {
      assert s + t == t;
    } else {
      assert s + t == [s[0]] + (s[1..] + t) && s == [s[0]] + s[1..];
      FirstOfStrip(s[0], s[1..] + t);
      FirstOfStrip(s[0], s[1..]);
      hide Strip;
      LineBreaksAreSkipped(s[1..], t, c);
    }
  }

  /** The examples of section 10 of RFC 4648 for "f", "fo" and "foo", in both forms. */
  lemma StandardExamples()
    ensures EncodeBin([102]) == [90, 103] && Encode([102], true) == [90, 103, 61, 61]
    ensures EncodeBin([102, 111]) == [90, 109, 56] && Encode([102, 111], true) == [90, 109, 56, 61]
    ensures EncodeBin([102, 111, 111]) == [90, 109, 57, 118] == Encode([102, 111, 111], true)
  {
    assert [102, 111, 111][3..] == [];
  }
}
