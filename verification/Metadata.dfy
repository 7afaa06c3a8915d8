/** Metadata, a map from keys to lists of values, packed into invoke pairs and into HTTP headers
    and unpacked again (xrpc/internal/util/util.go:26-118). A Go string is its bytes. A Go map is
    ranged over in any order: each method takes some order, and the lemmas hold for all. */
module Metadata {
  import opened Packets
  import opened Base64
  import opened Rfc4648

  type Str = Bytes
  type Multimap = map<Str, seq<Str>>

  datatype Pair = Pair(key: Str, value: Str)

  // ---------------------------------------------------------------- keys

  function LowerByte(c: byte): byte {
    if 65 <= c <= 90 then c + 32 else c
  }

  function UpperByte(c: byte): byte {
    if 97 <= c <= 122 then c - 32 else c
  }

  /** strings.ToLower, for ASCII. */
  function Lower(s: Str): (r: Str)
    ensures |r| == |s| && forall i | 0 <= i < |s| :: r[i] == if 65 <= s[i] <= 90 then s[i] + 32 else s[i]
  {
    seq(|s|, i requires 0 <= i < |s| => LowerByte(s[i]))
  }

  predicate IsLower(k: Str) {
    forall i | 0 <= i < |k| :: !(65 <= k[i] <= 90)
  }

  /** A character of a header field name (the token of section 5.6.2 of RFC 9110). */
  predicate TokenByte(c: byte) {
    (48 <= c <= 57) || (65 <= c <= 90) || (97 <= c <= 122) ||
    c == 33 || (35 <= c <= 39) || c == 42 || c == 43 || c == 45 || c == 46 || c == 94 || c == 95 || c == 96 ||
    c == 124 || c == 126
  }

  /** The name as http.Header stores it: upper case at the start and after a hyphen, lower case
      elsewhere; a name with any other character stays as it is. */
  function Canonical(k: Str): (r: Str)
    ensures |r| == |k|
    ensures (forall i | 0 <= i < |k| :: TokenByte(k[i])) ==>
              forall i | 0 <= i < |k| :: r[i] == if i == 0 || k[i-1] == 45 then UpperByte(k[i]) else LowerByte(k[i])
    ensures !(forall i | 0 <= i < |k| :: TokenByte(k[i])) ==> r == k
  {
    if forall i | 0 <= i < |k| :: TokenByte(k[i]) then
      seq(|k|, i requires 0 <= i < |k| => if i == 0 || k[i-1] == 45 then UpperByte(k[i]) else LowerByte(k[i]))
    else k
  }

  /** Distinct lower-case keys never merge: the canonical name gives the key back. */
  lemma LowerUndoesCanonical(k: Str)
    ensures Lower(Canonical(k)) == Lower(k)
    ensures IsLower(k) ==> Lower(Canonical(k)) == k
  {
    assert forall i | 0 <= i < |k| :: LowerByte(UpperByte(k[i])) == LowerByte(k[i]);
  }

  lemma LowerIsLower(k: Str)
    ensures IsLower(Lower(k)) && (IsLower(k) <==> Lower(k) == k)
  {
    if !IsLower(k) {
      var i :| 0 <= i < |k| && 65 <= k[i] <= 90;
      assert Lower(k)[i] != k[i];
    }
  }

  const BIN_SUFFIX: Str := [45, 98, 105, 110]

  predicate HasBinSuffix(k: Str) {
    |k| >= 4 && k[|k|-4..] == BIN_SUFFIX
  }

  /** encodeMetadataHeader */
  function EncodeHeader(k: Str, v: Str): Str {
    if HasBinSuffix(k) then EncodeBin(v) else v
  }

  /** decodeMetadataHeader */
  function DecodeHeader(k: Str, v: Str): Option<Str> {
    if HasBinSuffix(k) then DecodeBin(v) else Some(v)
  }

  /** A value survives one header, whatever case its key is in, unless only the lower-case form of
      the key has the binary suffix: then a value is decoded that was not encoded. */
  lemma HeaderRoundTrip(k: Str, v: Str)
    ensures DecodeHeader(Lower(Canonical(k)), EncodeHeader(k, v)) == Some(v) <==>
            HasBinSuffix(k) || !HasBinSuffix(Lower(k)) || v == []
  {
    LowerUndoesCanonical(k);
    hide Base64.EncodeBin, Base64.DecodeBin, Canonical, Lower;
    if HasBinSuffix(k) {
      SuffixSurvivesLower(k);
      DecodesBothForms(v);
    } else if HasBinSuffix(Lower(k)) {
      if v == [] { DecodesBothForms([]); EmptyEncoding(); }
      else if DecodeBin(v) == Some(v) { DecodingShrinks(v); }
    }
  }

  lemma EmptyEncoding()
    ensures EncodeBin([]) == []
  {
  }

  lemma SuffixSurvivesLower(k: Str)
    requires HasBinSuffix(k)
    ensures HasBinSuffix(Lower(k))
  {
    var n := |k| - 4;
    assert k[n..][0] == k[n] && k[n..][1] == k[n+1] && k[n..][2] == k[n+2] && k[n..][3] == k[n+3];
    assert Lower(k)[n..] == [45, 98, 105, 110];
  }

  /** How names are spelled: in a name of token characters no lower-case letter stands first or after a
      hyphen and no upper-case letter elsewhere; only the case of letters changes. */
  lemma CanonicalSpelling(k: Str)
    ensures forall c :: TokenByte(c) <==>
                        65 <= c <= 90 || 97 <= c <= 122 || 48 <= c <= 57 ||
                        c in [33, 35, 36, 37, 38, 39, 42, 43, 45, 46, 94, 95, 96, 124, 126]
    ensures |Canonical(k)| == |k| && Lower(Canonical(k)) == Lower(k)
    ensures (exists i :: 0 <= i < |k| && !TokenByte(k[i])) ==> Canonical(k) == k
    ensures (forall i | 0 <= i < |k| :: TokenByte(k[i])) ==>
              forall i | 0 <= i < |k| :: if i == 0 || k[i-1] == 45 then !(97 <= Canonical(k)[i] <= 122)
                                         else !(65 <= Canonical(k)[i] <= 90)
  {
    LowerUndoesCanonical(k);
  }

  /** What stands in a header for a value `v` under the key `k`: if the key ends in "-bin", base64 text
      without padding that decodes to the value, and else the value itself. */
  predicate StandsFor(stored: Str, k: Str, v: Str) {
    if |k| >= 4 && k[|k|-4..] == [45, 98, 105, 110] then
      && IsText(stored) && |stored| == (8 * |v| + 5) / 6 && DecodeBin(stored) == Some(v)
    else stored == v
  }

  lemma EncodedStandsFor(k: Str, v: Str)
    ensures StandsFor(EncodeHeader(k, v), k, v)
  {
    if HasBinSuffix(k) {
      EncodedSize(v);
      DecodesBothForms(v);
      EncodedIsText(v);
      hide EncodeBin, DecodeBin, IsText;
    }
  }

  /** What a value stored under `name` is read as. */
  predicate ReadAs(stored: Str, name: Str, v: Str) {
    var k := Lower(name);
    if |k| >= 4 && k[|k|-4..] == [45, 98, 105, 110] then DecodeBin(stored) == Some(v) else v == stored
  }

  lemma DecodedIsReadAs(name: Str, stored: Str)
    ensures Decodable(name, stored) <==> exists v :: ReadAs(stored, name, v)
    ensures Decodable(name, stored) ==> ReadAs(stored, name, DecodeHeader(Lower(name), stored).value)
  {
    hide DecodeBin, Lower;
    if Decodable(name, stored) { assert ReadAs(stored, name, DecodeHeader(Lower(name), stored).value); }
  }

  // ---------------------------------------------------------------- multimaps and pair lists

  function ValuesAt(md: Multimap, k: Str): seq<Str> {
    if k in md then md[k] else []
  }

  /** `md[k] = append(md[k], v)` */
  function Append(md: Multimap, k: Str, v: Str): Multimap {
    md[k := ValuesAt(md, k) + [v]]
  }

  /** The multimap that a list of pairs fills. */
  function Gather(ps: seq<Pair>): Multimap {
    if ps == [] then map[] else Append(Gather(ps[..|ps|-1]), ps[|ps|-1].key, ps[|ps|-1].value)
  }

  /** The values paired with `k`, in order. */
  function ValuesIn(ps: seq<Pair>, k: Str): seq<Str> {
    if ps == [] then []
    else ValuesIn(ps[..|ps|-1], k) + if ps[|ps|-1].key == k then [ps[|ps|-1].value] else []
  }

  lemma {:induction false} GatherHasValues(ps: seq<Pair>, k: Str)
    ensures ValuesAt(Gather(ps), k) == ValuesIn(ps, k)
    ensures k in Gather(ps) <==> ValuesIn(ps, k) != []
  {
    if ps != [] { GatherHasValues(ps[..|ps|-1], k); }
  }

  /** The pairs of one key. */
  function PairsOf(k: Str, vs: seq<Str>): seq<Pair> {
    if vs == [] then [] else PairsOf(k, vs[..|vs|-1]) + [Pair(k, vs[|vs|-1])]
  }

  /** All pairs, key by key in the given order. */
  function PairsIn(order: seq<Str>, md: Multimap): seq<Pair>
  {
    if order == [] then []
    else PairsIn(order[..|order|-1], md) + PairsOf(order[|order|-1], ValuesAt(md, order[|order|-1]))
  }

  /** One pass over the map: every key once. */
  ghost predicate Enumerates(order: seq<Str>, md: Multimap) {
    && (forall k :: k in order <==> k in md)
    && Distinct(order)
  }

  lemma {:induction false} ValuesInConcat(ps: seq<Pair>, qs: seq<Pair>, k: Str)
    ensures ValuesIn(ps + qs, k) == ValuesIn(ps, k) + ValuesIn(qs, k)
    decreases |qs|
  {
    if qs == [] {
      assert ps + qs == ps;
    } else {
      var n := |qs| - 1;
      assert (ps + qs)[..|ps| + n] == ps + qs[..n];
      ValuesInConcat(ps, qs[..n], k);
    }
  }

  lemma ValuesInAppend(ps: seq<Pair>, p: Pair, k: Str)
    ensures ValuesIn(ps + [p], k) == ValuesIn(ps, k) + if p.key == k then [p.value] else []
  {
    assert (ps + [p])[..|ps|] == ps;
  }

  lemma {:induction false} ValuesInPairsOf(key: Str, vs: seq<Str>, k: Str)
    ensures ValuesIn(PairsOf(key, vs), k) == if k == key then vs else []
    ensures forall p | p in PairsOf(key, vs) :: p.key == key && p.value in vs
  {
    PairsOfMembers(key, vs);
    hide ValuesIn;
    if vs == [] {
      NoValuesOf(key, k);
    } else {
      var n := |vs| - 1;
      ValuesInPairsOf(key, vs[..n], k);
      assert vs == vs[..n] + [vs[n]];
      ValuesInAppend(PairsOf(key, vs[..n]), Pair(key, vs[n]), k);
    }
  }

  lemma NoValuesOf(key: Str, k: Str)
    ensures ValuesIn(PairsOf(key, []), k) == []
  {
  }

  lemma {:induction false} PairsOfMembers(key: Str, vs: seq<Str>)
    ensures forall p | p in PairsOf(key, vs) :: p.key == key && p.value in vs
  {
    if vs != [] {
      var n := |vs| - 1;
      PairsOfMembers(key, vs[..n]);
      assert forall v | v in vs[..n] :: v in vs;
    }
  }

  predicate Distinct(order: seq<Str>) {
    forall i, j | 0 <= i < j < |order| :: order[i] != order[j]
  }

  lemma DistinctFront(order: seq<Str>, k: Str)
    requires order != [] && Distinct(order)
    ensures var n := |order| - 1;
            Distinct(order[..n]) && order[n] !in order[..n] && (k in order <==> k in order[..n] || k == order[n])
  {
    assert order == order[..|order|-1] + [order[|order|-1]];
  }

  /** In any order, each key keeps its own list of values. */
  lemma {:induction false} ValuesInPairsIn(order: seq<Str>, md: Multimap, k: Str)
    requires Distinct(order)
    ensures ValuesIn(PairsIn(order, md), k) == if k in order then ValuesAt(md, k) else []
    decreases |order|
  {
    hide Distinct, PairsOf, ValuesAt;
    if order != [] {
      var n := |order| - 1;
      DistinctFront(order, k);
      ValuesInPairsIn(order[..n], md, k);
      ValuesInPairsOf(order[n], ValuesAt(md, order[n]), k);
      ValuesInConcat(PairsIn(order[..n], md), PairsOf(order[n], ValuesAt(md, order[n])), k);
    }
  }

  lemma {:induction false} PairsAreOwn(order: seq<Str>, md: Multimap)
    ensures forall p | p in PairsIn(order, md) :: p.key in order && p.value in ValuesAt(md, p.key)
    decreases |order|
  {
    if order != [] {
      var n := |order| - 1;
      PairsAreOwn(order[..n], md);
      ValuesInPairsOf(order[n], ValuesAt(md, order[n]), []);
    }
  }

  lemma EnumeratedValues(order: seq<Str>, md: Multimap, k: Str)
    requires Enumerates(order, md)
    ensures ValuesIn(PairsIn(order, md), k) == ValuesAt(md, k)
    ensures forall p | p in PairsIn(order, md) :: p.key in md && p.value in md[p.key]
  {
    ValuesInPairsIn(order, md, k);
    PairsAreOwn(order, md);
  }

  // ---------------------------------------------------------------- invoke metadata

  function LowerKeys(ps: seq<Pair>): seq<Pair> {
    if ps == [] then [] else LowerKeys(ps[..|ps|-1]) + [Pair(Lower(ps[|ps|-1].key), ps[|ps|-1].value)]
  }

  /** Keys and values in turn, as metadata.Pairs takes them. */
  function Flatten(ps: seq<Pair>): (kv: seq<Str>)
    ensures |kv| == 2 * |ps|
  {
    if ps == [] then [] else Flatten(ps[..|ps|-1]) + [ps[|ps|-1].key, ps[|ps|-1].value]
  }

  /** metadata.Pairs, which lowers the keys; it panics on an odd number of strings. */
  function MetadataPairs(kv: seq<Str>): Multimap
    requires |kv| % 2 == 0
  {
    if kv == [] then map[]
    else
      var n := |kv| - 2;
      Append(MetadataPairs(kv[..n]), Lower(kv[n]), kv[n + 1])
  }

  lemma {:induction false} FlattenThenPairs(ps: seq<Pair>)
    ensures MetadataPairs(Flatten(ps)) == Gather(LowerKeys(ps))
  {
    if ps != [] {
      var n := |ps| - 1;
      FlattenThenPairs(ps[..n]);
      assert Flatten(ps)[..2 * n] == Flatten(ps[..n]);
    }
  }

  /** What unpacking gives for packed pairs; None is a request without metadata. */
  function Unpacked(md: Option<seq<Pair>>): Multimap {
    if md.None? then map[] else Gather(LowerKeys(md.value))
  }

  lemma PairsOfTakeOne(k: Str, vs: seq<Str>, i: nat)
    requires i < |vs|
    ensures PairsOf(k, vs[..i+1]) == PairsOf(k, vs[..i]) + [Pair(k, vs[i])]
  {
    assert vs[..i+1][..i] == vs[..i];
  }

  lemma PairsInAppend(order: seq<Str>, md: Multimap, k: Str)
    requires k in md
    ensures PairsIn(order + [k], md) == PairsIn(order, md) + PairsOf(k, md[k])
  {
    assert (order + [k])[..|order|] == order;
  }

  /** A pass over the map that has the keys `left` to go. */
  ghost predicate Visited(order: seq<Str>, md: Multimap, left: set<Str>) {
    && left <= md.Keys
    && (forall k :: k in order <==> k in md && k !in left)
    && Distinct(order)
  }

  lemma VisitNext(order: seq<Str>, md: Multimap, left: set<Str>, k: Str)
    requires Visited(order, md, left) && k in left
    ensures k in md && Visited(order + [k], md, left - {k})
  {
  }

  lemma LeftIsKey(order: seq<Str>, md: Multimap, left: set<Str>, k: Str)
    requires Visited(order, md, left) && k in left
    ensures k in md
  {
  }

  lemma VisitStart(md: Multimap)
    ensures Visited([], md, md.Keys)
  {
  }

  lemma VisitEnd(order: seq<Str>, md: Multimap)
    requires Visited(order, md, {})
    ensures Enumerates(order, md) && forall k :: k in order <==> k in md
  {
  }

  method PackInvokeMetadata(md: Multimap) returns (pairs: seq<Pair>)
    ensures exists order :: Enumerates(order, md) && pairs == PairsIn(order, md)
  {
    pairs := [];
    var left := md.Keys;
    ghost var order: seq<Str> := [];
    VisitStart(md);
    hide Visited, Enumerates;
    while left != {}
      invariant Visited(order, md, left)
      invariant pairs == PairsIn(order, md)
      decreases |left|
    {
      var k :| k in left;
      LeftIsKey(order, md, left, k);
      var i := 0;
      while i < |md[k]|
        invariant 0 <= i <= |md[k]|
        invariant pairs == PairsIn(order, md) + PairsOf(k, md[k][..i])
      {
        PairsOfTakeOne(k, md[k], i);
        pairs := pairs + [Pair(k, md[k][i])];
        i := i + 1;
      }
      assert md[k][..i] == md[k];
      PairsInAppend(order, md, k);
      VisitNext(order, md, left, k);
      order := order + [k];
      left := left - {k};
    }
    VisitEnd(order, md);
  }

  method UnpackInvokeMetadata(md: Option<seq<Pair>>) returns (r: Multimap)
    ensures r == Unpacked(md)
  {
    if md.None? { return map[]; }
    var plain, i := [], 0;
    while i < |md.value|
      invariant 0 <= i <= |md.value| && plain == Flatten(md.value[..i])
    {
      assert md.value[..i+1][..i] == md.value[..i];
      plain := plain + [md.value[i].key, md.value[i].value];
      i := i + 1;
    }
    assert md.value[..i] == md.value;
    FlattenThenPairs(md.value);
    r := MetadataPairs(plain);
  }

  ghost predicate LowerCase(md: Multimap) {
    forall k | k in md :: IsLower(k)
  }

  /** Keys without values cannot be packed. */
  function DropEmpty(md: Multimap): Multimap {
    map k | k in md && md[k] != [] :: md[k]
  }

  lemma {:induction false} LowerKeysSame(ps: seq<Pair>)
    requires forall i | 0 <= i < |ps| :: IsLower(ps[i].key)
    ensures LowerKeys(ps) == ps
  {
    if ps != [] {
      LowerKeysSame(ps[..|ps|-1]);
      LowerIsLower(ps[|ps|-1].key);
    }
  }

  /** A list of pairs holds a multimap when it holds the values of each key. */
  lemma GatheredIs(ps: seq<Pair>, md: Multimap)
    requires forall k :: ValuesIn(ps, k) == ValuesAt(md, k)
    ensures Gather(ps) == DropEmpty(md)
  {
    var g := Gather(ps);
    forall k ensures (k in g <==> k in DropEmpty(md)) && (k in g ==> g[k] == md[k]) {
      GatherHasValues(ps, k);
    }
  }

  /** Lower-case keys: every list comes back in order, for every order of iteration; exactly the
      keys with empty lists are lost. */
  lemma InvokeRoundTrip(md: Multimap, order: seq<Str>)
    requires LowerCase(md) && Enumerates(order, md)
    ensures Unpacked(Some(PairsIn(order, md))) == DropEmpty(md)
    ensures Unpacked(Some(PairsIn(order, md))) == md <==> forall k | k in md :: md[k] != []
  {
    var ps := PairsIn(order, md);
    forall k ensures ValuesIn(ps, k) == ValuesAt(md, k) { EnumeratedValues(order, md, k); }
    EnumeratedValues(order, md, []);
    LowerKeysSame(ps);
    GatheredIs(ps, md);
    DroppedNothing(md);
  }

  /** The values under all keys that become `k`, key by key. */
  function Merged(order: seq<Str>, md: Multimap, k: Str): seq<Str>
  {
    if order == [] then []
    else
      var n := |order| - 1;
      Merged(order[..n], md, k) + if Lower(order[n]) == k then ValuesAt(md, order[n]) else []
  }

  lemma {:induction false} LowerKeysConcat(ps: seq<Pair>, qs: seq<Pair>)
    ensures LowerKeys(ps + qs) == LowerKeys(ps) + LowerKeys(qs)
    decreases |qs|
  {
    if qs == [] {
      assert ps + qs == ps;
    } else {
      var n := |qs| - 1;
      assert (ps + qs)[..|ps| + n] == ps + qs[..n];
      LowerKeysConcat(ps, qs[..n]);
    }
  }

  lemma {:induction false} LowerPairsOf(key: Str, vs: seq<Str>)
    ensures LowerKeys(PairsOf(key, vs)) == PairsOf(Lower(key), vs)
  {
    if vs != [] {
      var n := |vs| - 1;
      LowerPairsOf(key, vs[..n]);
      assert PairsOf(key, vs)[..|PairsOf(key, vs)|-1] == PairsOf(key, vs[..n]);
    }
  }

  lemma {:induction false} MergedValues(order: seq<Str>, md: Multimap, k: Str)
    ensures ValuesIn(LowerKeys(PairsIn(order, md)), k) == Merged(order, md, k)
    decreases |order|
  {
    if order != [] {
      var n := |order| - 1;
      MergedValues(order[..n], md, k);
      LowerKeysConcat(PairsIn(order[..n], md), PairsOf(order[n], ValuesAt(md, order[n])));
      LowerPairsOf(order[n], ValuesAt(md, order[n]));
      ValuesInConcat(LowerKeys(PairsIn(order[..n], md)), PairsOf(Lower(order[n]), ValuesAt(md, order[n])), k);
      ValuesInPairsOf(Lower(order[n]), ValuesAt(md, order[n]), k);
    }
  }

  /** All values under keys that become `k`, without an order. */
  ghost function Bag(md: Multimap, k: Str): multiset<Str>
    decreases |md|
  {
    if md == map[] then multiset{}
    else
      var l :| l in md;
      BagOf(l, md[l], k) + Bag(md - {l}, k)
  }

  ghost function BagOf(l: Str, vs: seq<Str>, k: Str): multiset<Str> {
    if Lower(l) == k then multiset(vs) else multiset{}
  }

  lemma {:induction false} BagRemove(md: Multimap, k: Str, l: Str)
    requires l in md
    ensures Bag(md, k) == BagOf(l, md[l], k) + Bag(md - {l}, k)
    decreases |md|
  {
    hide BagOf;
    var m :| m in md && Bag(md, k) == BagOf(m, md[m], k) + Bag(md - {m}, k);
    if m != l {
      BagRemove(md - {m}, k, l);
      BagRemove(md - {l}, k, m);
      assert md - {m} - {l} == md - {l} - {m};
    }
  }

  lemma {:induction false} MergedOfPart(order: seq<Str>, part: Multimap, md: Multimap, k: Str)
    requires forall l | l in order :: ValuesAt(part, l) == ValuesAt(md, l)
    ensures Merged(order, part, k) == Merged(order, md, k)
  {
    if order != [] { MergedOfPart(order[..|order|-1], part, md, k); }
  }

  lemma EnumeratesRest(order: seq<Str>, md: Multimap)
    requires Enumerates(order, md) && order != []
    ensures var n := |order| - 1;
            && order[n] in md && Enumerates(order[..n], md - {order[n]})
            && (forall l | l in order[..n] :: ValuesAt(md - {order[n]}, l) == ValuesAt(md, l))
  {
    assert order == order[..|order|-1] + [order[|order|-1]];
  }

  lemma {:induction false} MergedBag(order: seq<Str>, md: Multimap, k: Str)
    requires Enumerates(order, md)
    ensures multiset(Merged(order, md, k)) == Bag(md, k)
    decreases |order|
  {
    if order == [] {
      assert md == map[] by { assert forall l :: l !in md; }
    } else {
      var n := |order| - 1;
      var l, rest := order[n], md - {order[n]};
      EnumeratesRest(order, md);
      hide Enumerates, Bag;
      MergedBag(order[..n], rest, k);
      MergedOfPart(order[..n], rest, md, k);
      BagRemove(md, k, l);
    }
  }

  /** Keys of any case: all values of the keys that agree in lower case end up together under that
      key. Each key's own list stays together and in order; which key's list comes first depends
      on the order of iteration, but which values there are does not. */
  lemma InvokeMergesCases(md: Multimap, order: seq<Str>, k: Str)
    requires Enumerates(order, md)
    ensures var r := Unpacked(Some(PairsIn(order, md)));
            ValuesAt(r, k) == Merged(order, md, k) && multiset(ValuesAt(r, k)) == Bag(md, k)
            && (k in r <==> Bag(md, k) != multiset{})
  {
    MergedValues(order, md, k);
    MergedBag(order, md, k);
    GatherHasValues(LowerKeys(PairsIn(order, md)), k);
    var vs := Merged(order, md, k);
    if vs != [] { assert vs[0] in multiset(vs); }
  }

  // ---------------------------------------------------------------- HTTP headers

  function HeaderPair(p: Pair): Pair {
    Pair(Canonical(p.key), EncodeHeader(p.key, p.value))
  }

  function HeaderPairs(ps: seq<Pair>): (r: seq<Pair>)
    ensures |r| == |ps|
  {
    if ps == [] then [] else HeaderPairs(ps[..|ps|-1]) + [HeaderPair(ps[|ps|-1])]
  }

  /** The headers packing gives when it takes the keys in this order. */
  function HeadersIn(order: seq<Str>, md: Multimap): Multimap
  {
    Gather(HeaderPairs(PairsIn(order, md)))
  }

  /** The value of a header can be read: it is not base64 text, or such that the decoder accepts it. */
  predicate Decodable(name: Str, v: Str) {
    var k := Lower(name);
    |k| >= 4 && k[|k|-4..] == [45, 98, 105, 110] ==> DecodeBin(v).Some?
  }

  /** The pairs unpacking collects from header pairs; None when a value cannot be decoded. */
  function DecodePairs(ps: seq<Pair>): Option<seq<Pair>> {
    if ps == [] then Some([])
    else
      var before, p := DecodePairs(ps[..|ps|-1]), ps[|ps|-1];
      if before.Some? && Decodable(p.key, p.value)
      then Some(before.value + [Pair(Lower(p.key), DecodeHeader(Lower(p.key), p.value).value)])
      else None
  }

  function UnpackedHeaders(order: seq<Str>, h: Multimap): Option<Multimap>
  {
    var ps := DecodePairs(PairsIn(order, h));
    if ps.Some? then Some(Gather(LowerKeys(ps.value))) else None
  }

  lemma HeaderPairsMore(ps: seq<Pair>, p: Pair)
    ensures HeaderPairs(ps + [p]) == HeaderPairs(ps) + [HeaderPair(p)]
  {
    assert (ps + [p])[..|ps|] == ps;
    hide HeaderPair;
  }

  lemma HeaderPairsAppend(ps: seq<Pair>, p: Pair)
    ensures HeaderPairs(ps + [p]) == HeaderPairs(ps) + [HeaderPair(p)]
    ensures Gather(HeaderPairs(ps + [p])) == Append(Gather(HeaderPairs(ps)), HeaderPair(p).key, HeaderPair(p).value)
  {
    HeaderPairsMore(ps, p);
    var qs := HeaderPairs(ps);
    assert (qs + [HeaderPair(p)])[..|qs|] == qs;
  }

  lemma NothingPacked(md: Multimap)
    ensures PairsIn([], md) == [] && HeadersIn([], md) == map[] && DecodePairs([]) == Some([])
    ensures AllDecodable([], md)
  {
  }

  lemma NoPairsYet(ps: seq<Pair>, k: Str, vs: seq<Str>)
    ensures ps + PairsOf(k, vs[..0]) == ps
  {
  }

  method PackHTTPHeaders(md: Multimap) returns (h: Multimap)
    ensures exists order :: Enumerates(order, md) && h == HeadersIn(order, md)
    ensures HoldsAll(h, md)
  {
    hide Gather, HeaderPairs, PairsIn, PairsOf, Canonical, EncodeHeader, Append, HoldsAll;
    NothingPacked(md);
    h := map[];
    var left := md.Keys;
    ghost var order: seq<Str> := [];
    while left != {}
      invariant Visited(order, md, left)
      invariant h == HeadersIn(order, md)
      decreases |left|
    {
      var k :| k in left;
      var i := 0;
      ghost var ps := PairsIn(order, md);
      NoPairsYet(ps, k, md[k]);
      while i < |md[k]|
        invariant 0 <= i <= |md[k]|
        invariant h == Gather(HeaderPairs(ps + PairsOf(k, md[k][..i])))
      {
        PairsOfTakeOne(k, md[k], i);
        HeaderPairsAppend(ps + PairsOf(k, md[k][..i]), Pair(k, md[k][i]));
        assert ps + PairsOf(k, md[k][..i+1]) == ps + PairsOf(k, md[k][..i]) + [Pair(k, md[k][i])];
        h := Append(h, Canonical(k), EncodeHeader(k, md[k][i]));
        i := i + 1;
      }
      assert md[k][..i] == md[k];
      PairsInAppend(order, md, k);
      VisitNext(order, md, left, k);
      order := order + [k];
      left := left - {k};
    }
    PackedHoldsAll(order, md);
  }

  lemma DecodePairsAppend(ps: seq<Pair>, p: Pair)
    requires DecodePairs(ps).Some? && Decodable(p.key, p.value)
    ensures DecodePairs(ps + [p]) == Some(DecodePairs(ps).value
                                          + [Pair(Lower(p.key), DecodeHeader(Lower(p.key), p.value).value)])
  {
    assert (ps + [p])[..|ps|] == ps;
  }

  lemma FlattenAppend(ps: seq<Pair>, p: Pair)
    ensures Flatten(ps + [p]) == Flatten(ps) + [p.key, p.value]
  {
    assert (ps + [p])[..|ps|] == ps;
  }

  lemma DecodeOneMore(before: seq<Pair>, k: Str, vs: seq<Str>, i: nat)
    requires i < |vs| && Decodable(k, vs[i]) && DecodePairs(before + PairsOf(k, vs[..i])).Some?
    ensures DecodePairs(before + PairsOf(k, vs[..i+1])) ==
            Some(DecodePairs(before + PairsOf(k, vs[..i])).value
                 + [Pair(Lower(k), DecodeHeader(Lower(k), vs[i]).value)])
    ensures forall w | w in vs[..i+1] :: w in vs[..i] || w == vs[i]
  {
    PairsOfTakeOne(k, vs, i);
    assert before + PairsOf(k, vs[..i+1]) == before + PairsOf(k, vs[..i]) + [Pair(k, vs[i])];
    DecodePairsAppend(before + PairsOf(k, vs[..i]), Pair(k, vs[i]));
  }

  predicate ValuesDecode(k: Str, vs: seq<Str>) {
    forall v | v in vs :: Decodable(k, v)
  }

  /** Every value of every header can be decoded. */
  predicate HeadersDecode(h: Multimap) {
    forall k | k in h :: ValuesDecode(k, h[k])
  }

  ghost predicate AllDecodable(order: seq<Str>, md: Multimap)
  {
    forall k | k in order :: ValuesDecode(k, ValuesAt(md, k))
  }

  lemma EvenLength(ps: seq<Pair>)
    ensures |Flatten(ps)| % 2 == 0
  {
  }

  lemma UnpackedAre(order: seq<Str>, md: Multimap, ps: seq<Pair>)
    requires DecodePairs(PairsIn(order, md)) == Some(ps)
    ensures UnpackedHeaders(order, md) == Some(Gather(LowerKeys(ps)))
  {
  }

  lemma BadHeader(md: Multimap, k: Str)
    requires k in md && !ValuesDecode(k, md[k])
    ensures !HeadersDecode(md)
  {
  }

  lemma DecodableAppend(order: seq<Str>, md: Multimap, k: Str)
    requires k in md && AllDecodable(order, md)
    requires ValuesDecode(k, md[k])
    ensures AllDecodable(order + [k], md)
  {
  }

  lemma DecodableWhole(order: seq<Str>, md: Multimap)
    requires (forall k :: k in order <==> k in md) && AllDecodable(order, md)
    ensures HeadersDecode(md)
  {
  }

  lemma NothingFlattened()
    ensures Flatten([]) == []
  {
  }

  lemma DecodableMeans(k: Str, v: Str)
    ensures Decodable(k, v) <==> DecodeHeader(Lower(k), v).Some?
  {
  }

  /** The inner loop of UnpackHTTPHeaders: the values of one header after the pairs before it. */
  method CollectValues(k: Str, vs: seq<Str>, plain: seq<Str>, ghost before: seq<Pair>, ghost ps: seq<Pair>)
    returns (r: Option<seq<Str>>, ghost qs: seq<Pair>)
    requires DecodePairs(before) == Some(ps) && plain == Flatten(ps)
    ensures r.Some? <==> ValuesDecode(k, vs)
    ensures r.Some? ==> DecodePairs(before + PairsOf(k, vs)) == Some(qs) && r.value == Flatten(qs)
  {
    hide PairsOf, Decodable, DecodePairs, Flatten, Lower, DecodeHeader;
    NoPairsYet(before, k, vs);
    var kv, i := plain, 0;
    qs := ps;
    while i < |vs|
      invariant 0 <= i <= |vs|
      invariant forall v | v in vs[..i] :: Decodable(k, v)
      invariant DecodePairs(before + PairsOf(k, vs[..i])) == Some(qs) && kv == Flatten(qs)
    {
      var v := DecodeHeader(Lower(k), vs[i]);
      DecodableMeans(k, vs[i]);
      if v.None? {
        assert vs[i] in vs;
        return None, [];
      }
      DecodeOneMore(before, k, vs, i);
      FlattenAppend(qs, Pair(Lower(k), v.value));
      kv := kv + [Lower(k), v.value];
      qs := qs + [Pair(Lower(k), v.value)];
      i := i + 1;
    }
    assert vs[..i] == vs;
    r := Some(kv);
  }

  /** Fails exactly when some value of some header cannot be decoded, in whatever order the
      headers are taken. (isAllowedHeader allows every header.) */
  method UnpackHTTPHeaders(h: Option<Multimap>) returns (r: Option<Multimap>)
    ensures h.None? ==> r == Some(map[])
    ensures h.Some? && r.Some? ==> exists order :: Enumerates(order, h.value) && r == UnpackedHeaders(order, h.value)
    ensures h.Some? ==> (r.Some? <==> HeadersDecode(h.value))
    ensures h.Some? && r.Some? ==> ReadsAll(r.value, h.value)
  {
    if h.None? { return Some(map[]); }
    hide *;
    var md := h.value;
    NothingPacked(md);
    NothingFlattened();
    VisitStart(md);
    var plain, left := [], md.Keys;
    ghost var ps, order: seq<Str> := [], [];
    while left != {}
      invariant Visited(order, md, left)
      invariant AllDecodable(order, md)
      invariant DecodePairs(PairsIn(order, md)) == Some(ps) && plain == Flatten(ps)
      decreases |left|
    {
      var k :| k in left;
      LeftIsKey(order, md, left, k);
      var kv, qs := CollectValues(k, md[k], plain, PairsIn(order, md), ps);
      if kv.None? {
        BadHeader(md, k);
        return None;
      }
      plain, ps := kv.value, qs;
      PairsInAppend(order, md, k);
      DecodableAppend(order, md, k);
      VisitNext(order, md, left, k);
      order := order + [k];
      left := left - {k};
    }
    VisitEnd(order, md);
    DecodableWhole(order, md);
    FlattenThenPairs(ps);
    UnpackedAre(order, md, ps);
    EvenLength(ps);
    UnpackedReadsAll(order, md);
    r := Some(MetadataPairs(plain));
  }

  function EncodeAll(k: Str, vs: seq<Str>): seq<Str> {
    if vs == [] then [] else EncodeAll(k, vs[..|vs|-1]) + [EncodeHeader(k, vs[|vs|-1])]
  }

  lemma EncodeAllAppend(k: Str, vs: seq<Str>, v: Str)
    ensures EncodeAll(k, vs + [v]) == EncodeAll(k, vs) + [EncodeHeader(k, v)]
  {
    assert (vs + [v])[..|vs|] == vs;
  }

  /** One more pair under a lower-case key. */
  lemma HeaderValuesStep(ps: seq<Pair>, p: Pair, k: Str)
    requires IsLower(k) && IsLower(p.key)
    requires ValuesIn(HeaderPairs(ps), Canonical(k)) == EncodeAll(k, ValuesIn(ps, k))
    ensures ValuesIn(HeaderPairs(ps + [p]), Canonical(k)) == EncodeAll(k, ValuesIn(ps + [p], k))
  {
    LowerUndoesCanonical(k);
    LowerUndoesCanonical(p.key);
    HeaderPairsAppend(ps, p);
    ValuesInAppend(HeaderPairs(ps), HeaderPair(p), Canonical(k));
    ValuesInAppend(ps, p, k);
    EncodeAllAppend(k, ValuesIn(ps, k), p.value);
    assert ValuesIn(ps, k) + [] == ValuesIn(ps, k);
    hide Canonical, Lower, EncodeHeader, IsLower, ValuesIn, HeaderPairs, EncodeAll, Gather;
  }

  /** Header by header, the values are those of the one key with that canonical name. */
  lemma {:induction false} HeaderValues(ps: seq<Pair>, k: Str)
    requires IsLower(k) && forall i | 0 <= i < |ps| :: IsLower(ps[i].key)
    ensures ValuesIn(HeaderPairs(ps), Canonical(k)) == EncodeAll(k, ValuesIn(ps, k))
  {
    hide Canonical, IsLower, ValuesIn, HeaderPairs, EncodeAll;
    if ps == [] {
      NoHeaderValues(k);
    } else {
      var n := |ps| - 1;
      assert forall i | 0 <= i < n :: ps[..n][i] == ps[i];
      HeaderValues(ps[..n], k);
      HeaderValuesStep(ps[..n], ps[n], k);
      assert ps[..n] + [ps[n]] == ps;
    }
  }

  lemma NoHeaderValues(k: Str)
    ensures ValuesIn(HeaderPairs([]), Canonical(k)) == EncodeAll(k, ValuesIn([], k))
  {
    hide Canonical;
  }

  predicate FromLowerKey(name: Str) {
    name == Canonical(Lower(name))
  }

  lemma {:induction false} HeaderNames(ps: seq<Pair>)
    requires forall i | 0 <= i < |ps| :: IsLower(ps[i].key)
    ensures forall p | p in HeaderPairs(ps) :: FromLowerKey(p.key) && Decodable(p.key, p.value)
  {
    if ps != [] {
      var n := |ps| - 1;
      HeaderNames(ps[..n]);
      HeaderIsDecodable(ps[n]);
      hide FromLowerKey, Decodable, IsLower;
    }
  }

  lemma HeaderIsDecodable(p: Pair)
    requires IsLower(p.key)
    ensures FromLowerKey(HeaderPair(p).key) && Decodable(HeaderPair(p).key, HeaderPair(p).value)
  {
    LowerUndoesCanonical(p.key);
    LowerIsLower(p.key);
    HeaderRoundTrip(p.key, p.value);
    DecodableMeans(Canonical(p.key), EncodeHeader(p.key, p.value));
    hide Canonical, Lower, EncodeHeader, DecodeHeader, Decodable;
  }

  /** One more header value, under the name of `k` or under another. */
  lemma DecodedStep(ps: seq<Pair>, p: Pair, k: Str) returns (v: Str)
    requires IsLower(k) && FromLowerKey(p.key) && Decodable(p.key, p.value) && DecodePairs(ps).Some?
    ensures DecodePairs(ps + [p]).Some? && DecodeHeader(Lower(p.key), p.value) == Some(v)
    ensures p.key == Canonical(k) ==> Lower(p.key) == k
    ensures ValuesIn(LowerKeys(DecodePairs(ps + [p]).value), k) ==
            ValuesIn(LowerKeys(DecodePairs(ps).value), k) + if p.key == Canonical(k) then [v] else []
  {
    v := DecodeHeader(Lower(p.key), p.value).value;
    var qs := DecodePairs(ps).value;
    LowerUndoesCanonical(k);
    LowerIsLower(Lower(p.key));
    LowerIsLower(p.key);
    DecodePairsAppend(ps, p);
    LowerAppend(qs, Lower(p.key), v);
    ValuesInAppend(LowerKeys(qs), Pair(Lower(Lower(p.key)), v), k);
    hide Canonical, Lower, DecodeHeader, IsLower, ValuesIn, LowerKeys, DecodePairs;
  }

  /** A header value of `k` decodes to what was encoded; others do not concern `k`. */
  lemma DecodedMore(ps: seq<Pair>, p: Pair, k: Str, vs: seq<Str>, x: Str)
    requires IsLower(k) && FromLowerKey(p.key) && Decodable(p.key, p.value) && DecodePairs(ps).Some?
    requires ValuesIn(LowerKeys(DecodePairs(ps).value), k) == vs
    requires p.key == Canonical(k) ==> p.value == EncodeHeader(k, x)
    ensures DecodePairs(ps + [p]).Some?
    ensures ValuesIn(LowerKeys(DecodePairs(ps + [p]).value), k) == vs + if p.key == Canonical(k) then [x] else []
  {
    hide *;
    var v := DecodedStep(ps, p, k);
    OwnHeaderRoundTrip(k, x);
  }

  lemma NothingDecoded(k: Str, vs: seq<Str>)
    requires EncodeAll(k, vs) == []
    ensures vs == [] && DecodePairs([]) == Some([]) && ValuesIn(LowerKeys([]), k) == []
  {
  }

  /** If the header of `k` holds the encoded `vs`, decoding all headers collects `vs` under `k`. */
  lemma {:induction false} DecodedValues(ps: seq<Pair>, k: Str, vs: seq<Str>)
    requires IsLower(k) && forall i | 0 <= i < |ps| :: FromLowerKey(ps[i].key) && Decodable(ps[i].key, ps[i].value)
    requires ValuesIn(ps, Canonical(k)) == EncodeAll(k, vs)
    ensures DecodePairs(ps).Some? && ValuesIn(LowerKeys(DecodePairs(ps).value), k) == vs
    decreases |ps|
  {
    hide *;
    if ps == [] {
      NoValues(Canonical(k));
      NothingDecoded(k, vs);
    } else {
      var n := |ps| - 1;
      assert ps[..n] + [ps[n]] == ps;
      ValuesInAppend(ps[..n], ps[n], Canonical(k));
      if ps[n].key == Canonical(k) {
        LastEncoded(k, vs, ValuesIn(ps[..n], Canonical(k)), ps[n].value);
        DecodedValues(ps[..n], k, vs[..|vs|-1]);
        DecodedMore(ps[..n], ps[n], k, vs[..|vs|-1], vs[|vs|-1]);
      } else {
        assert ValuesIn(ps[..n], Canonical(k)) + [] == ValuesIn(ps[..n], Canonical(k));
        DecodedValues(ps[..n], k, vs);
        DecodedMore(ps[..n], ps[n], k, vs, []);
        assert vs + [] == vs;
      }
    }
  }

  lemma NoValues(k: Str)
    ensures ValuesIn([], k) == []
  {
  }

  lemma OwnHeaderRoundTrip(k: Str, v: Str)
    requires IsLower(k)
    ensures DecodeHeader(k, EncodeHeader(k, v)) == Some(v)
  {
    LowerUndoesCanonical(k);
    LowerIsLower(k);
    HeaderRoundTrip(k, v);
    hide Canonical, Lower, EncodeHeader, DecodeHeader;
  }

  lemma LowerAppend(qs: seq<Pair>, k: Str, v: Str)
    ensures LowerKeys(qs + [Pair(k, v)]) == LowerKeys(qs) + [Pair(Lower(k), v)]
  {
    assert (qs + [Pair(k, v)])[..|qs|] == qs;
  }

  lemma LastEncoded(k: Str, vs: seq<Str>, before: seq<Str>, last: Str)
    requires before + [last] == EncodeAll(k, vs)
    ensures vs != [] && before == EncodeAll(k, vs[..|vs|-1]) && last == EncodeHeader(k, vs[|vs|-1])
  {
    assert |before + [last]| > 0;
    var e := EncodeAll(k, vs);
    assert e[|e|-1] == last && e[..|e|-1] == before;
  }

  lemma {:induction false} LoweredKeysAreLower(ps: seq<Pair>, k: Str)
    requires !IsLower(k)
    ensures ValuesIn(LowerKeys(ps), k) == []
  {
    if ps != [] {
      var n := |ps| - 1;
      LoweredKeysAreLower(ps[..n], k);
      LowerIsLower(ps[n].key);
      hide Lower;
    }
  }

  lemma PairsAreLower(md: Multimap, order: seq<Str>)
    requires LowerCase(md) && Enumerates(order, md)
    ensures forall i | 0 <= i < |PairsIn(order, md)| :: IsLower(PairsIn(order, md)[i].key)
  {
    EnumeratedValues(order, md, []);
    var ps := PairsIn(order, md);
    forall i | 0 <= i < |ps| ensures IsLower(ps[i].key) { assert ps[i] in ps; }
  }

  /** The headers of lower-case metadata: each key's values, encoded, under its own name. */
  lemma PackedHeader(md: Multimap, order: seq<Str>, k: Str)
    requires LowerCase(md) && Enumerates(order, md) && IsLower(k)
    ensures ValuesAt(HeadersIn(order, md), Canonical(k)) == EncodeAll(k, ValuesAt(md, k))
  {
    hide *;
    PairsAreLower(md, order);
    EnumeratedValues(order, md, k);
    HeaderValues(PairsIn(order, md), k);
    HeadersAre(order, md, Canonical(k));
  }

  lemma HeadersAre(order: seq<Str>, md: Multimap, name: Str)
    requires Enumerates(order, md)
    ensures ValuesAt(HeadersIn(order, md), name) == ValuesIn(HeaderPairs(PairsIn(order, md)), name)
  {
    GatherHasValues(HeaderPairs(PairsIn(order, md)), name);
  }

  /** Every stored value stands under a name made from a lower-case key and can be decoded. */
  lemma PackedNames(md: Multimap, order: seq<Str>, name: Str, v: Str)
    requires LowerCase(md) && Enumerates(order, md)
    requires name in HeadersIn(order, md) && v in HeadersIn(order, md)[name]
    ensures FromLowerKey(name) && Decodable(name, v)
  {
    var ps := HeaderPairs(PairsIn(order, md));
    hide FromLowerKey, Decodable, HeaderPairs, PairsIn;
    PairsAreLower(md, order);
    HeaderNames(PairsIn(order, md));
    GatherHasValues(ps, name);
    ValuesArePaired(ps, name, v);
  }

  lemma {:induction false} ValuesArePaired(ps: seq<Pair>, k: Str, v: Str)
    requires v in ValuesIn(ps, k)
    ensures Pair(k, v) in ps
  {
    if v in ValuesIn(ps[..|ps|-1], k) { ValuesArePaired(ps[..|ps|-1], k, v); }
  }

  lemma UnpackedValues(md: Multimap, packing: seq<Str>, unpacking: seq<Str>, k: Str)
    requires LowerCase(md) && Enumerates(packing, md) && Enumerates(unpacking, HeadersIn(packing, md))
    ensures DecodePairs(PairsIn(unpacking, HeadersIn(packing, md))).Some?
    ensures ValuesIn(LowerKeys(DecodePairs(PairsIn(unpacking, HeadersIn(packing, md))).value), k) == ValuesAt(md, k)
  {
    var h := HeadersIn(packing, md);
    var ps := PairsIn(unpacking, h);
    hide FromLowerKey, Decodable, PairsIn, HeadersIn, DecodePairs, LowerKeys, ValuesIn, Canonical, EncodeAll, IsLower;
    EnumeratedValues(unpacking, h, k);
    forall i | 0 <= i < |ps| ensures FromLowerKey(ps[i].key) && Decodable(ps[i].key, ps[i].value) {
      assert ps[i] in ps;
      PackedNames(md, packing, ps[i].key, ps[i].value);
    }
    if IsLower(k) {
      EnumeratedValues(unpacking, h, Canonical(k));
      PackedHeader(md, packing, k);
      DecodedValues(ps, k, ValuesAt(md, k));
    } else {
      var l := Lower(k);
      LowerIsLower(k);
      EnumeratedValues(unpacking, h, Canonical(l));
      PackedHeader(md, packing, l);
      DecodedValues(ps, l, ValuesAt(md, l));
      LoweredKeysAreLower(DecodePairs(ps).value, k);
    }
  }

  /** Through HTTP headers: for every order of iteration on both sides, metadata with lower-case
      keys comes back with every list in order and every byte of it, binary values included;
      exactly the keys with empty lists are lost. */
  lemma HTTPRoundTrip(md: Multimap, packing: seq<Str>, unpacking: seq<Str>)
    requires LowerCase(md) && Enumerates(packing, md) && Enumerates(unpacking, HeadersIn(packing, md))
    ensures UnpackedHeaders(unpacking, HeadersIn(packing, md)) == Some(DropEmpty(md))
    ensures UnpackedHeaders(unpacking, HeadersIn(packing, md)) == Some(md) <==> forall k | k in md :: md[k] != []
  {
    hide DecodePairs, HeadersIn, PairsIn, LowerKeys, Gather, ValuesIn, ValuesAt, LowerCase;
    UnpackedValues(md, packing, unpacking, []);
    var qs := LowerKeys(DecodePairs(PairsIn(unpacking, HeadersIn(packing, md))).value);
    forall k ensures ValuesIn(qs, k) == ValuesAt(md, k) { UnpackedValues(md, packing, unpacking, k); }
    GatheredIs(qs, md);
    DroppedNothing(md);
  }

  lemma DroppedNothing(md: Multimap)
    ensures DropEmpty(md) == md <==> forall k | k in md :: md[k] != []
  {
    if DropEmpty(md) == md {
      forall k | k in md ensures md[k] != [] { assert k in DropEmpty(md); }
    }
  }

  // ---------------------------------------------------------------- header values, byte by byte

  /** The lists of all `l` whose name is `k`, one after the other. */
  function MergedBy(order: seq<Str>, name: Str -> Str, values: Str -> seq<Str>, k: Str): seq<Str> {
    if order == [] then []
    else
      var n := |order| - 1;
      MergedBy(order[..n], name, values, k) + if name(order[n]) == k then values(order[n]) else []
  }

  /** `part` stands in `whole` from `at` on. */
  predicate StandsAt(part: seq<Str>, whole: seq<Str>, at: nat) {
    at + |part| <= |whole| && whole[at..at + |part|] == part
  }

  lemma StandsInConcat(part: seq<Str>, a: seq<Str>, b: seq<Str>, at: nat)
    ensures StandsAt(part, a, at) ==> StandsAt(part, a + b, at)
    ensures StandsAt(part, a + part, |a|)
  {
  }

  /** Each list is there, whole. */
  lemma {:induction false} EachIsMerged(order: seq<Str>, name: Str -> Str, values: Str -> seq<Str>, l: Str)
    returns (at: nat)
    requires l in order
    ensures StandsAt(values(l), MergedBy(order, name, values, name(l)), at)
    decreases |order|
  {
    var n := |order| - 1;
    var before := MergedBy(order[..n], name, values, name(l));
    hide StandsAt;
    if l == order[n] {
      at := |before|;
      StandsInConcat(values(l), before, [], at);
    } else {
      assert order == order[..n] + [order[n]];
      at := EachIsMerged(order[..n], name, values, l);
      StandsInConcat(values(l), before, if name(order[n]) == name(l) then values(order[n]) else [], at);
    }
  }

  /** A list whose name is its own is all there is. */
  lemma {:induction false} AloneIsMerged(order: seq<Str>, name: Str -> Str, values: Str -> seq<Str>, l: Str)
    requires Distinct(order) && forall m | m in order && name(m) == name(l) :: m == l
    ensures MergedBy(order, name, values, name(l)) == if l in order then values(l) else []
    decreases |order|
  {
    if order != [] {
      var n := |order| - 1;
      DistinctFront(order, l);
      assert forall m | m in order[..n] :: m in order;
      assert order[n] in order;
      hide Distinct;
      var before := MergedBy(order[..n], name, values, name(l));
      assert before + [] == before && [] + values(l) == values(l);
      AloneIsMerged(order[..n], name, values, l);
    }
  }

  lemma {:induction false} HeaderPairsConcat(ps: seq<Pair>, qs: seq<Pair>)
    ensures HeaderPairs(ps + qs) == HeaderPairs(ps) + HeaderPairs(qs)
    decreases |qs|
  {
    if qs == [] {
      assert ps + qs == ps;
    } else {
      hide HeaderPairs, HeaderPair;
      var n := |qs| - 1;
      assert ps + qs == (ps + qs[..n]) + [qs[n]] && qs == qs[..n] + [qs[n]];
      HeaderPairsConcat(ps, qs[..n]);
      HeaderPairsMore(ps + qs[..n], qs[n]);
      HeaderPairsMore(qs[..n], qs[n]);
    }
  }

  lemma {:induction false} HeaderPairsOf(k: Str, vs: seq<Str>)
    ensures HeaderPairs(PairsOf(k, vs)) == PairsOf(Canonical(k), EncodeAll(k, vs))
  {
    hide Canonical, EncodeHeader;
    if vs != [] {
      var n := |vs| - 1;
      HeaderPairsOf(k, vs[..n]);
      assert PairsOf(k, vs)[..|PairsOf(k, vs)|-1] == PairsOf(k, vs[..n]);
      PairsOfAppend(Canonical(k), EncodeAll(k, vs[..n]), EncodeHeader(k, vs[n]));
    }
  }

  lemma PairsOfAppend(k: Str, vs: seq<Str>, v: Str)
    ensures PairsOf(k, vs + [v]) == PairsOf(k, vs) + [Pair(k, v)]
  {
    assert (vs + [v])[..|vs|] == vs;
  }

  lemma {:induction false} EncodeAllStands(k: Str, vs: seq<Str>)
    ensures |EncodeAll(k, vs)| == |vs|
    ensures forall i | 0 <= i < |vs| :: StandsFor(EncodeAll(k, vs)[i], k, vs[i])
  {
    hide EncodeHeader, StandsFor;
    if vs != [] {
      EncodeAllStands(k, vs[..|vs|-1]);
      EncodedStandsFor(k, vs[|vs|-1]);
    }
  }

  /** The headers, name by name: the encoded lists of all keys with that canonical name. */
  lemma {:induction false} HeadersAreMerged(order: seq<Str>, md: Multimap, name: Str)
    ensures ValuesIn(HeaderPairs(PairsIn(order, md)), name) ==
            MergedBy(order, Canonical, k => EncodeAll(k, ValuesAt(md, k)), name)
    decreases |order|
  {
    hide Canonical, EncodeAll, PairsOf, HeaderPairs;
    if order == [] {
      NoHeaders(name);
    } else {
      var n := |order| - 1;
      var vs := ValuesAt(md, order[n]);
      HeadersAreMerged(order[..n], md, name);
      HeaderPairsConcat(PairsIn(order[..n], md), PairsOf(order[n], vs));
      HeaderPairsOf(order[n], vs);
      ValuesInConcat(HeaderPairs(PairsIn(order[..n], md)), PairsOf(Canonical(order[n]), EncodeAll(order[n], vs)), name);
      ValuesInPairsOf(Canonical(order[n]), EncodeAll(order[n], vs), name);
    }
  }

  lemma NoHeaders(name: Str)
    ensures ValuesIn(HeaderPairs([]), name) == []
  {
  }

  /** The values of `vs`, in order, among the stored ones, from `at` on. */
  predicate StoredFrom(stored: seq<Str>, at: nat, k: Str, vs: seq<Str>) {
    at + |vs| <= |stored| && forall i | 0 <= i < |vs| :: StandsFor(stored[at + i], k, vs[i])
  }

  lemma EncodedStoredFrom(stored: seq<Str>, at: nat, k: Str, vs: seq<Str>)
    requires StandsAt(EncodeAll(k, vs), stored, at)
    ensures StoredFrom(stored, at, k, vs)
  {
    hide EncodeAll, StandsFor;
    EncodeAllStands(k, vs);
    forall i | 0 <= i < |vs| ensures StandsFor(stored[at + i], k, vs[i]) {
      assert stored[at..at + |vs|][i] == stored[at + i];
    }
  }

  /** Every key's list is in the headers `h`, under the canonical name of the key: in order, without gaps,
      and nothing else unless another key has the same canonical name. */
  ghost predicate HoldsAll(h: Multimap, md: Multimap) {
    forall k | k in md ::
      && (exists at: nat :: StoredFrom(ValuesAt(h, Canonical(k)), at, k, md[k]))
      && ((forall l | l in md && Canonical(l) == Canonical(k) :: l == k) ==>
            |ValuesAt(h, Canonical(k))| == |md[k]| && StoredFrom(ValuesAt(h, Canonical(k)), 0, k, md[k]))
  }

  lemma PackedHoldsKey(order: seq<Str>, md: Multimap, k: Str)
    requires Enumerates(order, md) && k in md
    ensures exists at: nat :: StoredFrom(ValuesAt(HeadersIn(order, md), Canonical(k)), at, k, md[k])
    ensures (forall l | l in md && Canonical(l) == Canonical(k) :: l == k) ==>
              var stored := ValuesAt(HeadersIn(order, md), Canonical(k));
              |stored| == |md[k]| && StoredFrom(stored, 0, k, md[k])
  {
    hide Canonical, EncodeAll, PairsIn, HeaderPairs, StoredFrom, StandsAt, MergedBy;
    var values := l => EncodeAll(l, ValuesAt(md, l));
    HeadersAreMerged(order, md, Canonical(k));
    HeadersAre(order, md, Canonical(k));
    var at := EachIsMerged(order, Canonical, values, k);
    EncodedStoredFrom(ValuesAt(HeadersIn(order, md), Canonical(k)), at, k, md[k]);
    if forall l | l in md && Canonical(l) == Canonical(k) :: l == k {
      AloneIsMerged(order, Canonical, values, k);
      EncodeAllStands(k, md[k]);
      WholeStands(EncodeAll(k, md[k]));
      EncodedStoredFrom(EncodeAll(k, md[k]), 0, k, md[k]);
    }
  }

  lemma WholeStands(part: seq<Str>)
    ensures StandsAt(part, part, 0)
  {
  }

  /** Packing, byte by byte, for keys of any case and every order of iteration. */
  lemma PackedHoldsAll(order: seq<Str>, md: Multimap)
    requires Enumerates(order, md)
    ensures HoldsAll(HeadersIn(order, md), md)
  {
    hide HeadersIn, Enumerates, StoredFrom, Canonical;
    forall k | k in md
      ensures exists at: nat :: StoredFrom(ValuesAt(HeadersIn(order, md), Canonical(k)), at, k, md[k])
      ensures (forall l | l in md && Canonical(l) == Canonical(k) :: l == k) ==>
                var stored := ValuesAt(HeadersIn(order, md), Canonical(k));
                |stored| == |md[k]| && StoredFrom(stored, 0, k, md[k])
    {
      PackedHoldsKey(order, md, k);
    }
  }

  /** The values of one header, decoded. */
  function DecodedAll(name: Str, vs: seq<Str>): (r: seq<Str>)
    ensures |r| == |vs|
  {
    if vs == [] then []
    else
      var n := |vs| - 1;
      DecodedAll(name, vs[..n]) +
      [if Decodable(name, vs[n]) then DecodeHeader(Lower(name), vs[n]).value else []]
  }

  lemma {:induction false} DecodePairsConcat(ps: seq<Pair>, qs: seq<Pair>)
    requires DecodePairs(ps + qs).Some?
    ensures DecodePairs(ps).Some? && DecodePairs(qs).Some?
    ensures DecodePairs(ps + qs).value == DecodePairs(ps).value + DecodePairs(qs).value
    decreases |qs|
  {
    hide Decodable, DecodeHeader, Lower;
    if qs == [] {
      assert ps + qs == ps;
    } else {
      var n := |qs| - 1;
      assert (ps + qs)[..|ps| + n] == ps + qs[..n];
      DecodePairsConcat(ps, qs[..n]);
    }
  }

  lemma {:induction false} DecodePairsOf(name: Str, vs: seq<Str>)
    requires DecodePairs(PairsOf(name, vs)).Some?
    ensures DecodePairs(PairsOf(name, vs)).value == PairsOf(Lower(name), DecodedAll(name, vs))
    ensures ValuesDecode(name, vs)
  {
    hide Decodable, DecodeHeader, Lower;
    if vs != [] {
      var n := |vs| - 1;
      assert PairsOf(name, vs)[..|PairsOf(name, vs)|-1] == PairsOf(name, vs[..n]);
      DecodePairsOf(name, vs[..n]);
      PairsOfAppend(Lower(name), DecodedAll(name, vs[..n]), DecodedAll(name, vs)[n]);
      assert vs == vs[..n] + [vs[n]];
    }
  }

  lemma LoweredPairsOf(name: Str, vs: seq<Str>)
    ensures LowerKeys(PairsOf(Lower(name), vs)) == PairsOf(Lower(name), vs)
  {
    hide Lower, PairsOf, LowerKeys;
    LowerPairsOf(Lower(name), vs);
    LowerIsLower(name);
    LowerIsLower(Lower(name));
  }

  /** What unpacking collects, key by key: the decoded lists of all headers with that lower-case name. */
  lemma {:induction false} UnpackedAreMerged(order: seq<Str>, h: Multimap, k: Str)
    requires DecodePairs(PairsIn(order, h)).Some?
    ensures ValuesIn(LowerKeys(DecodePairs(PairsIn(order, h)).value), k) ==
            MergedBy(order, Lower, name => DecodedAll(name, ValuesAt(h, name)), k)
    decreases |order|
  {
    hide Lower, DecodedAll, PairsOf, DecodePairs, LowerKeys, ValuesIn;
    if order == [] {
      NoneUnpacked(h, k);
    } else {
      var n := |order| - 1;
      var vs := ValuesAt(h, order[n]);
      DecodePairsConcat(PairsIn(order[..n], h), PairsOf(order[n], vs));
      UnpackedAreMerged(order[..n], h, k);
      DecodePairsOf(order[n], vs);
      var ps, qs := DecodePairs(PairsIn(order[..n], h)).value, PairsOf(Lower(order[n]), DecodedAll(order[n], vs));
      LowerKeysConcat(ps, qs);
      LoweredPairsOf(order[n], DecodedAll(order[n], vs));
      ValuesInConcat(LowerKeys(ps), qs, k);
      ValuesInPairsOf(Lower(order[n]), DecodedAll(order[n], vs), k);
    }
  }

  lemma NoneUnpacked(h: Multimap, k: Str)
    ensures DecodePairs(PairsIn([], h)) == Some([]) && ValuesIn(LowerKeys([]), k) == []
  {
  }

  /** The values of `stored`, in order, as they are read, from `at` on. */
  predicate ReadFrom(r: seq<Str>, at: nat, name: Str, stored: seq<Str>) {
    at + |stored| <= |r| && forall i | 0 <= i < |stored| :: ReadAs(stored[i], name, r[at + i])
  }

  lemma {:induction false} DecodedAllReads(name: Str, vs: seq<Str>)
    requires ValuesDecode(name, vs)
    ensures forall i | 0 <= i < |vs| :: ReadAs(vs[i], name, DecodedAll(name, vs)[i])
  {
    hide Decodable, DecodeHeader, ReadAs;
    if vs != [] {
      var n := |vs| - 1;
      DecodedAllReads(name, vs[..n]);
      DecodedIsReadAs(name, vs[n]);
    }
  }

  lemma DecodedReadFrom(r: seq<Str>, at: nat, name: Str, stored: seq<Str>)
    requires ValuesDecode(name, stored) && StandsAt(DecodedAll(name, stored), r, at)
    ensures ReadFrom(r, at, name, stored)
  {
    hide DecodedAll, ReadAs, ValuesDecode;
    DecodedAllReads(name, stored);
    forall i | 0 <= i < |stored| ensures ReadAs(stored[i], name, r[at + i]) {
      assert r[at..at + |stored|][i] == r[at + i];
    }
  }

  /** Every header's list is in `md`, as it is read, under the lower-case name: in order, without gaps,
      and nothing else unless another header has the same lower-case name. */
  ghost predicate ReadsAll(md: Multimap, h: Multimap) {
    forall name | name in h ::
      && (exists at: nat :: ReadFrom(ValuesAt(md, Lower(name)), at, name, h[name]))
      && ((forall l | l in h && Lower(l) == Lower(name) :: l == name) ==>
            |ValuesAt(md, Lower(name))| == |h[name]| && ReadFrom(ValuesAt(md, Lower(name)), 0, name, h[name]))
  }

  lemma UnpackedReadsHeader(order: seq<Str>, h: Multimap, name: Str)
    requires Enumerates(order, h) && name in h && HeadersDecode(h) && UnpackedHeaders(order, h).Some?
    ensures exists at: nat :: ReadFrom(ValuesAt(UnpackedHeaders(order, h).value, Lower(name)), at, name, h[name])
    ensures (forall l | l in h && Lower(l) == Lower(name) :: l == name) ==>
              var r := ValuesAt(UnpackedHeaders(order, h).value, Lower(name));
              |r| == |h[name]| && ReadFrom(r, 0, name, h[name])
  {
    hide Lower, DecodedAll, PairsIn, DecodePairs, LowerKeys, ReadFrom, StandsAt, MergedBy, ValuesDecode;
    var values := l => DecodedAll(l, ValuesAt(h, l));
    var r := ValuesAt(UnpackedHeaders(order, h).value, Lower(name));
    UnpackedAreMerged(order, h, Lower(name));
    GatherHasValues(LowerKeys(DecodePairs(PairsIn(order, h)).value), Lower(name));
    var at := EachIsMerged(order, Lower, values, name);
    DecodedReadFrom(r, at, name, h[name]);
    if forall l | l in h && Lower(l) == Lower(name) :: l == name {
      AloneIsMerged(order, Lower, values, name);
      WholeStands(DecodedAll(name, h[name]));
      DecodedReadFrom(r, 0, name, h[name]);
    }
  }

  /** Unpacking, byte by byte, for headers of any case and every order of iteration. */
  lemma UnpackedReadsAll(order: seq<Str>, h: Multimap)
    requires Enumerates(order, h) && HeadersDecode(h) && UnpackedHeaders(order, h).Some?
    ensures ReadsAll(UnpackedHeaders(order, h).value, h)
  {
    hide UnpackedHeaders, Enumerates, HeadersDecode, ReadFrom, Lower;
    forall name | name in h
      ensures exists at: nat :: ReadFrom(ValuesAt(UnpackedHeaders(order, h).value, Lower(name)), at, name, h[name])
      ensures (forall l | l in h && Lower(l) == Lower(name) :: l == name) ==>
                var r := ValuesAt(UnpackedHeaders(order, h).value, Lower(name));
                |r| == |h[name]| && ReadFrom(r, 0, name, h[name])
    {
      UnpackedReadsHeader(order, h, name);
    }
  }
}
