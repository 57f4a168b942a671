/** The bytes of a replica snapshot: exactly which images are accepted, and as what. */
module SnapshotImage {
  import opened BigEndian
  import opened RaftTypes
  import opened Records

  const MAGIC: Bytes := [76, 83, 77, 83, 78, 65, 80, 1]
  const MAX_FIELD: nat := 67108864
  const MAX_COUNT: nat := 0x7fff_ffff_ffff_ffff

  datatype Pair = Pair(key: Key, value: Bytes)

  predicate Fits(p: Pair) { 0 < |p.key| <= MAX_FIELD && |p.value| <= MAX_FIELD }

  /** Every pair fits and its key follows the one before, the first one following `previous`. */
  predicate WellFormed(ps: seq<Pair>, previous: Key) {
    ps != [] ==> Fits(ps[0]) && Below(previous, ps[0].key) && WellFormed(ps[1..], ps[0].key)
  }

  function EncodePair(p: Pair): Bytes { PutBig(|p.key|, 4) + PutBig(|p.value|, 4) + p.key + p.value }

  function EncodePairs(ps: seq<Pair>): Bytes {
    if ps == [] then [] else EncodePair(ps[0]) + EncodePairs(ps[1..])
  }

  function Encode(ps: seq<Pair>): Bytes { MAGIC + PutBig(|ps|, 8) + EncodePairs(ps) }

  // ---- reading ----------------------------------------------------------------

  datatype First = First(pair: Pair, size: nat)

  /** The pair at the front. */
  function ParsePair(b: Bytes): (r: Option<First>)
    ensures r.Some? ==> 8 <= r.value.size <= |b|
  {
    if |b| < 8 then None
    else
      var k, v := GetBig(b[..4]), GetBig(b[4..8]);
      if k == 0 || k > MAX_FIELD || v > MAX_FIELD || |b| < 8 + k + v then None
      else Some(First(Pair(b[8..8 + k], b[8 + k..8 + k + v]), 8 + k + v))
  }

  /** Exactly `count` pairs in ascending key order, and nothing after them. */
  function ParsePairs(b: Bytes, count: nat, previous: Key): (r: Option<seq<Pair>>)
    ensures r.Some? ==> |r.value| == count
  {
    if count == 0 then (if b == [] then Some([]) else None)
    else
      var f := ParsePair(b);
      if f.None? || !Below(previous, f.value.pair.key) then None
      else
        var rest := ParsePairs(b[f.value.size..], count - 1, f.value.pair.key);
        if rest.None? then None else Some([f.value.pair] + rest.value)
  }

  function Decode(b: Bytes): Option<seq<Pair>> {
    if |b| < 16 || b[..8] != MAGIC then None
    else
      var count := GetBig(b[8..16]);
      if count > (|b| - 16) / 8 || count > MAX_COUNT then None else ParsePairs(b[16..], count, [])
  }

  // ---- what is written reads back -------------------------------------------------

  /** What the fixed-width lengths can carry; anything longer is not written. */
  predicate Writable(p: Pair) { |p.key| < TWO_32 && |p.value| < TWO_32 }

  lemma ParseEncoded(p: Pair, rest: Bytes)
    requires Writable(p)
    ensures ParsePair(EncodePair(p) + rest) == if Fits(p) then Some(First(p, |EncodePair(p)|)) else None
  {
    hide PutBig, GetBig;
    var b, k, v := EncodePair(p) + rest, |p.key|, |p.value|;
    Widths();
    BigRoundTrip(k, 4);
    BigRoundTrip(v, 4);
    assert b[..4] == PutBig(k, 4) && b[4..8] == PutBig(v, 4) && b[8..8 + k] == p.key && b[8 + k..8 + k + v] == p.value;
  }

  lemma {:induction false} ParsesBack(ps: seq<Pair>, previous: Key)
    requires forall i :: 0 <= i < |ps| ==> Writable(ps[i])
    ensures ParsePairs(EncodePairs(ps), |ps|, previous) == if WellFormed(ps, previous) then Some(ps) else None
    ensures |EncodePairs(ps)| >= 8 * |ps|
  {
    hide ParsePair, EncodePair, Fits, Writable;
    if ps != [] {
      var e := EncodePair(ps[0]);
      ParseEncoded(ps[0], EncodePairs(ps[1..]));
      ParsesBack(ps[1..], ps[0].key);
      assert (e + EncodePairs(ps[1..]))[|e|..] == EncodePairs(ps[1..]);
      assert ps == [ps[0]] + ps[1..];
      assert |e| >= 8 by { PairSize(ps[0]); }
    }
  }

  lemma PairSize(p: Pair)
    ensures |EncodePair(p)| == 8 + |p.key| + |p.value|
  {
  }

  // ---- what reads was written so ----------------------------------------------------

  lemma {:induction false} PutGet(b: Bytes)
    ensures PutBig(GetBig(b), |b|) == b
  {
    if b != [] {
      var n := |b| - 1;
      PutGet(b[..n]);
      assert GetBig(b) / 256 == GetBig(b[..n]) && GetBig(b) % 256 == b[n] as nat;
      assert b == b[..n] + [b[n]];
    }
  }

  lemma ParsedPair(b: Bytes)
    requires ParsePair(b).Some?
    ensures var f := ParsePair(b).value; Fits(f.pair) && EncodePair(f.pair) == b[..f.size]
  {
    hide PutBig, GetBig;
    PutGet(b[..4]);
    PutGet(b[4..8]);
    var f := ParsePair(b).value;
    assert b[..f.size] == b[..4] + b[4..8] + f.pair.key + f.pair.value;
  }

  lemma {:induction false} ParsedPairs(b: Bytes, count: nat, previous: Key)
    requires ParsePairs(b, count, previous).Some?
    ensures var ps := ParsePairs(b, count, previous).value; WellFormed(ps, previous) && EncodePairs(ps) == b
    decreases count
  {
    hide ParsePair, EncodePair, Fits;
    if count > 0 {
      var f, ps := ParsePair(b).value, ParsePairs(b, count, previous).value;
      ParsedPair(b);
      ParsedPairs(b[f.size..], count - 1, f.pair.key);
      assert ps[1..] == ParsePairs(b[f.size..], count - 1, f.pair.key).value;
      assert b == b[..f.size] + b[f.size..];
    }
  }

  /** A written image is accepted exactly when the keys are non-empty and strictly ascending and every field
      is within the limit, and then as what was written. */
  lemma DecodesBack(ps: seq<Pair>)
    requires |ps| <= MAX_COUNT && forall i :: 0 <= i < |ps| ==> Writable(ps[i])
    ensures Decode(Encode(ps)) == if WellFormed(ps, []) then Some(ps) else None
  {
    hide ParsePairs, EncodePairs, WellFormed, Writable, PutBig, GetBig;
    var b := Encode(ps);
    Widths();
    BigRoundTrip(|ps|, 8);
    assert b[..8] == MAGIC && b[8..16] == PutBig(|ps|, 8) && b[16..] == EncodePairs(ps);
    ParsesBack(ps, []);
  }

  /** Every accepted image is the encoding of what it is accepted as. */
  lemma EncodedSo(b: Bytes, ps: seq<Pair>)
    requires Decode(b) == Some(ps)
    ensures b == Encode(ps) && WellFormed(ps, [])
  {
    hide ParsePairs, EncodePairs, WellFormed, PutBig, GetBig;
    PutGet(b[8..16]);
    ParsedPairs(b[16..], GetBig(b[8..16]), []);
    assert b == b[..8] + b[8..16] + b[16..];
  }
}
