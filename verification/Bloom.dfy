/** The Bloom filter: bits packed in 64-bit words, positions by double hashing. */
module Bloom {
  import opened BigEndian
  import opened RaftTypes

  type Words = seq<bv64>

  /** numBits is always 64 * |words|. */
  datatype Filter = Filter(words: Words, hashes: nat)

  // ---- positions ----------------------------------------------------------

  function Fnv1a(key: Bytes): bv64 {
    if key == [] then 0xcbf29ce484222325
    else (Fnv1a(key[..|key| - 1]) ^ (key[|key| - 1] as bv64)) * 0x100000001b3
  }

  function Second(h: bv64): bv64 { ((h << 17) | (h >> 47)) | 1 }

  /** The i-th bit of a key: 64-bit wrap-around, then the remainder by the filter's size. */
  function Position(key: Bytes, i: nat, size: nat): (p: nat)
    requires size > 0
    ensures p < size
  {
    var h := Fnv1a(key);
    ((h as nat + i * (Second(h) as nat)) % TWO_64) % size
  }

  // ---- bits ---------------------------------------------------------------

  function Slot(p: nat): bv6 { (p % 64) as bv6 }

  function Mask(p: nat): bv64 { (1 as bv64) << Slot(p) }

  function Common(w: bv64, m: bv64): bv64 { w & m }

  predicate Meets(w: bv64, m: bv64) { Common(w, m) != 0 }

  function Join(w: bv64, m: bv64): bv64 { w | m }

  lemma SlotValue(p: nat)
    ensures Slot(p) as nat == p % 64
  {
  }

  lemma SameSlot(p: nat, q: nat)
    ensures Slot(p) == Slot(q) <==> p % 64 == q % 64
  {
    SlotValue(p);
    SlotValue(q);
    hide *;
  }

  lemma JoinMeets(w: bv64, m: bv64, n: bv64)
    ensures Meets(Join(w, m), n) <==> Meets(w, n) || Meets(m, n)
  {
    hide Common, Join;
    Distributes(w, m, n);
    ZeroJoin(Common(w, n), Common(m, n));
  }

  lemma Distributes(w: bv64, m: bv64, n: bv64)
    ensures Common(Join(w, m), n) == Join(Common(w, n), Common(m, n))
  {
    assert (w | m) & n == (w & n) | (m & n) by { hide Common, Join; }
  }

  lemma ZeroJoin(x: bv64, y: bv64)
    ensures Join(x, y) == 0 <==> x == 0 && y == 0
  {
  }

  lemma ZeroMeetsNone(m: bv64)
    ensures !Meets(0, m)
  {
  }

  lemma OneBit(a: bv6, b: bv6)
    ensures ((1 as bv64) << a) & ((1 as bv64) << b) != 0 <==> a == b
  {
  }

  lemma MasksMeet(p: nat, q: nat)
    ensures Meets(Mask(p), Mask(q)) <==> p % 64 == q % 64
  {
    hide Slot;
    SameSlot(p, q);
    OneBit(Slot(p), Slot(q));
  }

  predicate HasBit(words: Words, p: nat)
    requires p < 64 * |words|
  { Meets(words[p / 64], Mask(p)) }

  function WithBit(words: Words, p: nat): Words
    requires p < 64 * |words|
  { words[p / 64 := Join(words[p / 64], Mask(p))] }

  /** Setting a bit sets that bit and no other. */
  lemma WithBitExact(words: Words, p: nat, q: nat)
    requires p < 64 * |words| && q < 64 * |words|
    ensures HasBit(WithBit(words, p), q) <==> q == p || HasBit(words, q)
  {
    hide Meets, Join, Mask;
    JoinMeets(words[p / 64], Mask(p), Mask(q));
    MasksMeet(p, q);
    assert q == p <==> q / 64 == p / 64 && q % 64 == p % 64;
  }

  // ---- adding and asking ----------------------------------------------------

  /** The first n bits of a key set. */
  function Marked(words: Words, key: Bytes, n: nat): (r: Words)
    requires words != []
    ensures |r| == |words|
  {
    if n == 0 then words
    else
      var w := Marked(words, key, n - 1);
      WithBit(w, Position(key, n - 1, 64 * |words|))
  }

  function Added(f: Filter, key: Bytes): (r: Filter)
    requires f.words != []
    ensures |r.words| == |f.words| && r.hashes == f.hashes
  { Filter(Marked(f.words, key, f.hashes), f.hashes) }

  function AddedAll(f: Filter, keys: seq<Bytes>): (r: Filter)
    requires f.words != []
    ensures |r.words| == |f.words| && r.hashes == f.hashes
  { if keys == [] then f else Added(AddedAll(f, keys[..|keys| - 1]), keys[|keys| - 1]) }

  predicate MayContain(f: Filter, key: Bytes)
    requires f.words != []
  { forall i :: 0 <= i < f.hashes ==> HasBit(f.words, Position(key, i, 64 * |f.words|)) }

  /** p is one of the key's first n bits. */
  ghost predicate Hits(key: Bytes, n: nat, p: nat, size: nat)
    requires size > 0
  { exists i :: 0 <= i < n && Position(key, i, size) == p }

  lemma {:induction false} MarkedExact(words: Words, key: Bytes, n: nat, q: nat)
    requires words != [] && q < 64 * |words|
    ensures HasBit(Marked(words, key, n), q) <==> HasBit(words, q) || Hits(key, n, q, 64 * |words|)
  {
    hide HasBit, WithBit, Position;
    if n > 0 {
      var last := Position(key, n - 1, 64 * |words|);
      MarkedExact(words, key, n - 1, q);
      WithBitExact(Marked(words, key, n - 1), last, q);
    }
  }

  /** p is a bit of one of the keys. */
  ghost predicate Covered(keys: seq<Bytes>, n: nat, p: nat, size: nat)
    requires size > 0
  { exists k :: k in keys && Hits(k, n, p, size) }

  lemma {:induction false} AddedAllExact(f: Filter, keys: seq<Bytes>, q: nat)
    requires f.words != [] && q < 64 * |f.words|
    ensures HasBit(AddedAll(f, keys).words, q) <==> HasBit(f.words, q) || Covered(keys, f.hashes, q, 64 * |f.words|)
  {
    hide HasBit, Hits, Marked;
    if keys != [] {
      var front, last := keys[..|keys| - 1], keys[|keys| - 1];
      AddedAllExact(f, front, q);
      MarkedExact(AddedAll(f, front).words, last, f.hashes, q);
      assert keys == front + [last];
    }
  }

  function Empty(size: nat, hashes: nat): (f: Filter)
    ensures |f.words| == size && f.hashes == hashes
  { Filter(seq(size, _ => 0), hashes) }

  lemma EmptyHasNone(size: nat, hashes: nat, q: nat)
    requires q < 64 * size
    ensures !HasBit(Empty(size, hashes).words, q)
  {
    hide Meets, Mask;
    ZeroMeetsNone(Mask(q));
  }

  lemma BitIsCovered(size: nat, hashes: nat, keys: seq<Bytes>, q: nat)
    requires q < 64 * size
    ensures HasBit(AddedAll(Empty(size, hashes), keys).words, q) <==> Covered(keys, hashes, q, 64 * size)
  {
    hide HasBit, Covered, AddedAll, Empty;
    AddedAllExact(Empty(size, hashes), keys, q);
    EmptyHasNone(size, hashes, q);
  }

  /** The filter answers yes exactly when every bit of the key is a bit of some added key;
      in particular for every added key. */
  lemma AnswersExactly(size: nat, hashes: nat, keys: seq<Bytes>, key: Bytes)
    requires size > 0
    ensures MayContain(AddedAll(Empty(size, hashes), keys), key)
       <==> forall i :: 0 <= i < hashes ==> Covered(keys, hashes, Position(key, i, 64 * size), 64 * size)
    ensures key in keys ==> MayContain(AddedAll(Empty(size, hashes), keys), key)
  {
    hide HasBit, AddedAll, Position, Empty, Covered;
    forall i | 0 <= i < hashes
      ensures HasBit(AddedAll(Empty(size, hashes), keys).words, Position(key, i, 64 * size))
         <==> Covered(keys, hashes, Position(key, i, 64 * size), 64 * size)
      ensures key in keys ==> Covered(keys, hashes, Position(key, i, 64 * size), 64 * size)
    {
      BitIsCovered(size, hashes, keys, Position(key, i, 64 * size));
      if key in keys { OwnBitCovered(keys, key, hashes, i, 64 * size); }
    }
  }

  lemma OwnBitCovered(keys: seq<Bytes>, key: Bytes, hashes: nat, i: nat, size: nat)
    requires size > 0 && key in keys && i < hashes
    ensures Covered(keys, hashes, Position(key, i, size), size)
  {
    assert Hits(key, hashes, Position(key, i, size), size);
  }

  // ---- bytes --------------------------------------------------------------

  function EncodeWords(words: Words): (b: Bytes)
    ensures |b| == 8 * |words|
  { if words == [] then [] else EncodeWords(words[..|words| - 1]) + PutBig(words[|words| - 1] as nat, 8) }

  /** Bit count, hash count, words. */
  function Encode(f: Filter): (b: Bytes)
    ensures |b| == 16 + 8 * |f.words|
  { PutBig(64 * |f.words|, 8) + PutBig(f.hashes, 8) + EncodeWords(f.words) }

  /** The k-th word of the data after the two counts. */
  function WordAt(data: Bytes, k: nat): bv64
    requires 16 + 8 * k + 8 <= |data|
  {
    var b := data[16 + 8 * k..16 + 8 * k + 8];
    WordFits(b);
    GetBig(b) as bv64
  }

  lemma {:induction false} GetBigBound(b: Bytes)
    ensures GetBig(b) < Power256(|b|)
  {
    if b != [] { GetBigBound(b[..|b| - 1]); }
  }

  lemma WordFits(b: Bytes)
    requires |b| == 8
    ensures GetBig(b) < TWO_64
  {
    GetBigBound(b);
    Widths();
  }

  function Decode(data: Bytes): Option<Filter> {
    if |data| < 16 then None
    else
      var bits, hashes := GetBig(data[..8]), GetBig(data[8..16]);
      if bits == 0 || bits % 64 != 0 || |data| - 16 < bits / 64 * 8 then None
      else Some(Filter(WordsFrom(data, bits / 64), hashes))
  }

  function WordsFrom(data: Bytes, count: nat): (words: Words)
    requires 16 + 8 * count <= |data|
    ensures |words| == count && forall k :: 0 <= k < count ==> words[k] == WordAt(data, k)
  { seq(count, k requires 0 <= k < count => WordAt(data, k)) }

  lemma {:induction false} EncodedWordAt(words: Words, k: nat)
    requires k < |words|
    ensures EncodeWords(words)[8 * k..8 * k + 8] == PutBig(words[k] as nat, 8)
  {
    var n := |words| - 1;
    hide PutBig;
    if k < n {
      EncodedWordAt(words[..n], k);
      FrontSlice(EncodeWords(words[..n]), PutBig(words[n] as nat, 8), 8 * k, 8 * k + 8);
    }
  }

  lemma WordReadsBack(f: Filter, rest: Bytes, k: nat)
    requires k < |f.words|
    ensures WordAt(Encode(f) + rest, k) == f.words[k]
  {
    hide EncodeWords;
    var data, w := Encode(f) + rest, f.words[k];
    EncodedWordAt(f.words, k);
    assert data[16 + 8 * k..16 + 8 * k + 8] == EncodeWords(f.words)[8 * k..8 * k + 8];
    Widths();
    BigRoundTrip(w as nat, 8);
    WordRoundTrip(w);
  }

  lemma WordRoundTrip(w: bv64)
    ensures (w as nat) as bv64 == w
  {
  }

  /** A written filter reads back, whatever follows it. */
  lemma DecodesBack(f: Filter, rest: Bytes)
    requires f.words != [] && 64 * |f.words| < TWO_64 && f.hashes < TWO_64
    ensures Decode(Encode(f) + rest) == Some(f)
  {
    hide WordAt, EncodeWords, WordsFrom, PutBig, GetBig;
    var data := Encode(f) + rest;
    Widths();
    BigRoundTrip(64 * |f.words|, 8);
    BigRoundTrip(f.hashes, 8);
    assert data[..8] == PutBig(64 * |f.words|, 8) && data[8..16] == PutBig(f.hashes, 8);
    forall k | 0 <= k < |f.words| ensures WordAt(data, k) == f.words[k] { WordReadsBack(f, rest, k); }
    assert 64 * |f.words| / 64 == |f.words| && WordsFrom(data, |f.words|) == f.words;
  }

  class BloomFilter {
    const words: array<bv64>
    const hashes: nat

    ghost predicate Valid() { words.Length > 0 }

    ghost function Value(): (f: Filter)
      requires Valid()
      reads words
      ensures f.words != [] && |f.words| == words.Length
    { Filter(words[..], hashes) }

    constructor (size: nat, hashes: nat)
      requires size > 0
      ensures fresh(words) && Valid() && Value() == Empty(size, hashes)
    {
      this.words := new bv64[size](_ => 0);
      this.hashes := hashes;
    }

    constructor From(data: Bytes)
      requires Decode(data).Some?
      ensures fresh(words) && Valid() && Some(Value()) == Decode(data)
    {
      var count := GetBig(data[..8]) / 64;
      words := new bv64[count](k requires 0 <= k < count => WordAt(data, k));
      hashes := GetBig(data[8..16]);
      new;
      assert words[..] == WordsFrom(data, count);
    }

    method Add(key: Bytes)
      requires Valid()
      modifies words
      ensures Value() == Added(old(Value()), key)
    {
      hide Join, Mask, Position;
      for i := 0 to hashes
        invariant words[..] == Marked(old(words[..]), key, i)
      {
        var p := Position(key, i, 64 * words.Length);
        words[p / 64] := Join(words[p / 64], Mask(p));
      }
    }

    method Asks(key: Bytes) returns (yes: bool)
      requires Valid()
      ensures yes == MayContain(Value(), key)
    {
      hide Meets, Mask, Position;
      for i := 0 to hashes
        invariant forall j :: 0 <= j < i ==> HasBit(words[..], Position(key, j, 64 * words.Length))
      {
        var p := Position(key, i, 64 * words.Length);
        if !Meets(words[p / 64], Mask(p)) { return false; }
      }
      return true;
    }

    method Encoded() returns (b: Bytes)
      requires Valid()
      ensures b == Encode(Value())
    {
      b := PutBig(64 * words.Length, 8) + PutBig(hashes, 8);
      ghost var head := b;
      for k := 0 to words.Length
        invariant b == head + EncodeWords(words[..k])
      {
        b := b + PutBig(words[k] as nat, 8);
        assert words[..k + 1][..k] == words[..k];
      }
      assert words[..words.Length] == words[..];
    }
  }
}
