/** The bytes of a sorted table: records, key range, Bloom filter, sparse index, footer. */
module TableFormat {
  import opened BigEndian
  import opened RaftTypes
  import opened Records
  import Bloom

  const HEADER: nat := 17
  const INDEX_STEP: nat := 16
  const FOOTER: nat := 48

  datatype IndexEntry = IndexEntry(key: Key, offset: nat)

  // ---- records ------------------------------------------------------------

  predicate Encodable(r: Record) { |r.key| < TWO_32 && |r.value| < TWO_32 && r.seqNum < TWO_64 }

  function KindByte(k: Kind): byte { if k.Put? then 0 else 1 }

  function EncodeRecord(r: Record): (b: Bytes)
    ensures |b| == HEADER + |r.key| + |r.value|
  { PutBig(|r.key|, 4) + PutBig(|r.value|, 4) + PutBig(r.seqNum, 8) + [KindByte(r.kind)] + r.key + r.value }

  /** The data section. */
  function Data(rs: seq<Record>): Bytes {
    if rs == [] then [] else Data(rs[..|rs| - 1]) + EncodeRecord(rs[|rs| - 1])
  }

  lemma {:induction false} DataConcat(a: seq<Record>, b: seq<Record>)
    ensures Data(a + b) == Data(a) + Data(b)
  {
    hide EncodeRecord;
    if b == [] {
      assert a + b == a;
    } else {
      var n := |b| - 1;
      DataConcat(a, b[..n]);
      assert (a + b)[..|a + b| - 1] == a + b[..n];
    }
  }

  datatype Item = Item(rec: Record, size: nat)

  /** The record at the front of b; none when b is too short. */
  function ParseRecord(b: Bytes): (r: Option<Item>)
    ensures r.Some? ==> HEADER <= r.value.size <= |b|
  {
    if |b| < HEADER then None
    else
      var k, v := GetBig(b[..4]), GetBig(b[4..8]);
      if |b| < HEADER + k + v then None
      else
        var kind := if b[16] == 0 then Put else Delete;
        Some(Item(Record(b[HEADER..HEADER + k], b[HEADER + k..HEADER + k + v], GetBig(b[8..16]), kind), HEADER + k + v))
  }

  lemma ParseEncoded(r: Record, rest: Bytes)
    requires Encodable(r)
    ensures ParseRecord(EncodeRecord(r) + rest) == Some(Item(r, |EncodeRecord(r)|))
  {
    hide PutBig, GetBig;
    var b, k, v := EncodeRecord(r) + rest, |r.key|, |r.value|;
    Widths();
    BigRoundTrip(k, 4);
    BigRoundTrip(v, 4);
    BigRoundTrip(r.seqNum, 8);
    assert b[..4] == PutBig(k, 4) && b[4..8] == PutBig(v, 4) && b[8..16] == PutBig(r.seqNum, 8);
    assert b[16] == KindByte(r.kind) && b[HEADER..HEADER + k] == r.key && b[HEADER + k..HEADER + k + v] == r.value;
  }

  // ---- offsets --------------------------------------------------------------

  /** Where the i-th record starts. */
  function Offset(rs: seq<Record>, i: nat): nat
    requires i <= |rs|
  { |Data(rs[..i])| }

  lemma OffsetStep(rs: seq<Record>, i: nat)
    requires i < |rs|
    ensures Offset(rs, i + 1) == Offset(rs, i) + |EncodeRecord(rs[i])|
  {
    assert rs[..i + 1][..i] == rs[..i];
  }

  lemma OffsetWithin(rs: seq<Record>, i: nat)
    requires i <= |rs|
    ensures Offset(rs, i) <= |Data(rs)| && (Offset(rs, i) == |Data(rs)| <==> i == |rs|)
  {
    DataConcat(rs[..i], rs[i..]);
    assert rs[..i] + rs[i..] == rs;
    if i < |rs| { assert |Data(rs[i..])| > 0; }
  }

  lemma DataAround(rs: seq<Record>, i: nat)
    requires i < |rs|
    ensures Data(rs) == Data(rs[..i]) + (EncodeRecord(rs[i]) + Data(rs[i + 1..]))
  {
    hide EncodeRecord;
    DataConcat(rs[..i], rs[i..]);
    DataConcat([rs[i]], rs[i + 1..]);
    assert rs[..i] + rs[i..] == rs && [rs[i]] + rs[i + 1..] == rs[i..];
    assert Data([rs[i]]) == EncodeRecord(rs[i]) by { assert [rs[i]][..0] == []; }
  }

  lemma DropFront(a: Bytes, b: Bytes, c: Bytes, d: Bytes)
    ensures ((a + (b + c)) + d)[|a|..] == b + (c + d)
  {
  }

  /** The record found at the i-th offset is the i-th record. */
  lemma RecordAt(rs: seq<Record>, i: nat, file: Bytes)
    requires i < |rs| && Encodable(rs[i]) && |Data(rs)| <= |file| && file[..|Data(rs)|] == Data(rs)
    ensures Offset(rs, i) <= |file|
    ensures ParseRecord(file[Offset(rs, i)..]) == Some(Item(rs[i], |EncodeRecord(rs[i])|))
  {
    hide ParseRecord, EncodeRecord, Data;
    var tail := file[|Data(rs)|..];
    DataAround(rs, i);
    assert file == Data(rs) + tail;
    DropFront(Data(rs[..i]), EncodeRecord(rs[i]), Data(rs[i + 1..]), tail);
    ParseEncoded(rs[i], Data(rs[i + 1..]) + tail);
  }

  // ---- the sparse index -------------------------------------------------------

  /** One entry for every sixteenth record. */
  function IndexOf(rs: seq<Record>): seq<IndexEntry> {
    if rs == [] then []
    else
      var n := |rs| - 1;
      IndexOf(rs[..n]) + if n % INDEX_STEP == 0 then [IndexEntry(rs[n].key, |Data(rs[..n])|)] else []
  }

  lemma {:induction false} IndexShape(rs: seq<Record>)
    ensures |IndexOf(rs)| == (|rs| + INDEX_STEP - 1) / INDEX_STEP
  {
    if rs != [] { IndexShape(rs[..|rs| - 1]); }
  }

  lemma {:induction false} IndexAt(rs: seq<Record>, e: nat)
    requires e < |IndexOf(rs)|
    ensures e * INDEX_STEP < |rs|
    ensures IndexOf(rs)[e] == IndexEntry(rs[e * INDEX_STEP].key, Offset(rs, e * INDEX_STEP))
  {
    var n := |rs| - 1;
    IndexShape(rs);
    IndexShape(rs[..n]);
    if e < |IndexOf(rs[..n])| {
      IndexAt(rs[..n], e);
      assert rs[..n][..e * INDEX_STEP] == rs[..e * INDEX_STEP];
    }
  }

  function EncodeEntry(e: IndexEntry): Bytes { PutBig(|e.key|, 4) + e.key + PutBig(e.offset, 8) }

  function EncodeIndex(es: seq<IndexEntry>): Bytes {
    if es == [] then [] else EncodeEntry(es[0]) + EncodeIndex(es[1..])
  }

  /** The entries encoded in b, from `pos` on. */
  function DecodeIndex(b: Bytes): Option<seq<IndexEntry>> {
    if b == [] then Some([])
    else if |b| < 4 then None
    else
      var k := GetBig(b[..4]);
      if |b| < 4 + k + 8 then None
      else
        var rest := DecodeIndex(b[4 + k + 8..]);
        if rest.None? then None
        else Some([IndexEntry(b[4..4 + k], GetBig(b[4 + k..4 + k + 8]))] + rest.value)
  }

  predicate EntryFits(e: IndexEntry) { |e.key| < TWO_32 && e.offset < TWO_64 }

  lemma {:induction false} IndexDecodesBack(es: seq<IndexEntry>)
    requires forall e :: e in es ==> EntryFits(e)
    ensures DecodeIndex(EncodeIndex(es)) == Some(es)
  {
    hide PutBig, GetBig;
    if es != [] {
      var e, b := es[0], EncodeIndex(es);
      var k := |e.key|;
      assert EntryFits(e);
      IndexDecodesBack(es[1..]);
      Widths();
      BigRoundTrip(k, 4);
      BigRoundTrip(e.offset, 8);
      assert b[..4] == PutBig(k, 4) && b[4..4 + k] == e.key && b[4 + k..4 + k + 8] == PutBig(e.offset, 8);
      assert b[4 + k + 8..] == EncodeIndex(es[1..]);
      assert es == [e] + es[1..];
    }
  }

  // ---- the whole table ----------------------------------------------------------

  function Keys(rs: seq<Record>): seq<Bytes> { seq(|rs|, i requires 0 <= i < |rs| => rs[i].key) }

  /** How large a filter for a number of keys is made. */
  datatype Sizing = Sizing(words: nat, hashes: nat)

  predicate SizingFits(s: Sizing) { 0 < s.words && 64 * s.words < TWO_64 && s.hashes < TWO_64 }

  function FilterOf(rs: seq<Record>, s: Sizing): (f: Bloom.Filter)
    requires s.words > 0
    ensures |f.words| == s.words && f.hashes == s.hashes
  { Bloom.AddedAll(Bloom.Empty(s.words, s.hashes), Keys(rs)) }

  function Meta(least: Key, greatest: Key): (b: Bytes)
    ensures |b| == 8 + |least| + |greatest|
  { PutBig(|least|, 4) + least + PutBig(|greatest|, 4) + greatest }

  function Footer(meta: nat, bloom: nat, bloomLen: nat, index: nat, indexLen: nat, count: nat): (b: Bytes)
    ensures |b| == FOOTER
  {
    PutBig(meta, 8) + PutBig(bloom, 8) + PutBig(bloomLen, 8) + PutBig(index, 8) + PutBig(indexLen, 8) + PutBig(count, 8)
  }

  /** Everything after the data section. */
  function Trailer(data: nat, least: Key, greatest: Key, f: Bloom.Filter, index: seq<IndexEntry>, count: nat): Bytes {
    var meta, bloom, entries := Meta(least, greatest), Bloom.Encode(f), EncodeIndex(index);
    meta + bloom + entries
    + Footer(data, data + |meta|, |bloom|, data + |meta| + |bloom|, |entries|, count)
  }

  /** The file written for a non-empty record list. */
  function Table(rs: seq<Record>, s: Sizing): Bytes
    requires rs != [] && s.words > 0
  {
    Data(rs) + Trailer(|Data(rs)|, rs[0].key, rs[|rs| - 1].key, FilterOf(rs, s), IndexOf(rs), |rs|)
  }
}
