/** Reading a sorted table: the fast path against a linear search. */
module TableReader {
  import opened BigEndian
  import opened MemTables
  import opened RaftTypes
  import opened Records
  import opened TableFormat
  import Bloom

  // ---- opening -----------------------------------------------------------

  datatype Range = Range(least: Key, greatest: Key)

  datatype Opened =
    Opened(filter: Bloom.Filter, index: seq<IndexEntry>, range: Range, count: nat, dataEnd: nat)

  function ParseMeta(b: Bytes): Option<Range> {
    if |b| < 4 then None
    else
      var l := GetBig(b[..4]);
      if |b| < 4 + l + 4 then None
      else
        var g := GetBig(b[4 + l..4 + l + 4]);
        if |b| < 8 + l + g then None else Some(Range(b[4..4 + l], b[8 + l..8 + l + g]))
  }

  lemma MetaReadsBack(least: Key, greatest: Key)
    requires |least| < TWO_32 && |greatest| < TWO_32
    ensures ParseMeta(Meta(least, greatest)) == Some(Range(least, greatest))
  {
    hide PutBig, GetBig;
    var b, l, g := Meta(least, greatest), |least|, |greatest|;
    Widths();
    BigRoundTrip(l, 4);
    BigRoundTrip(g, 4);
    assert b[..4] == PutBig(l, 4) && b[4..4 + l] == least;
    assert b[4 + l..4 + l + 4] == PutBig(g, 4) && b[8 + l..8 + l + g] == greatest;
  }

  /** The k-th number of a footer. */
  function Field(footer: Bytes, k: nat): nat
    requires |footer| == FOOTER && k < 6
  { GetBig(footer[8 * k..8 * k + 8]) }

  lemma FooterReadsBack(a: nat, b: nat, c: nat, d: nat, e: nat, f: nat)
    requires a < TWO_64 && b < TWO_64 && c < TWO_64 && d < TWO_64 && e < TWO_64 && f < TWO_64
    ensures Field(Footer(a, b, c, d, e, f), 0) == a && Field(Footer(a, b, c, d, e, f), 1) == b
    ensures Field(Footer(a, b, c, d, e, f), 2) == c && Field(Footer(a, b, c, d, e, f), 3) == d
    ensures Field(Footer(a, b, c, d, e, f), 4) == e && Field(Footer(a, b, c, d, e, f), 5) == f
  {
    hide PutBig, GetBig;
    var x := Footer(a, b, c, d, e, f);
    Widths();
    BigRoundTrip(a, 8);
    BigRoundTrip(b, 8);
    BigRoundTrip(c, 8);
    BigRoundTrip(d, 8);
    BigRoundTrip(e, 8);
    BigRoundTrip(f, 8);
    assert x[0..8] == PutBig(a, 8) && x[8..16] == PutBig(b, 8) && x[16..24] == PutBig(c, 8);
    assert x[24..32] == PutBig(d, 8) && x[32..40] == PutBig(e, 8);
    var front := PutBig(a, 8) + PutBig(b, 8) + PutBig(c, 8) + PutBig(d, 8) + PutBig(e, 8);
    assert x == front + PutBig(f, 8) && |front| == 40;
    assert x[40..] == PutBig(f, 8) && x[40..48] == x[40..];
  }

  /** `length` bytes at `at`, or none past the end of the file. */
  function Slice(file: Bytes, at: nat, length: nat): Option<Bytes> {
    if at + length <= |file| then Some(file[at..at + length]) else None
  }

  function OpenTable(file: Bytes): Option<Opened> {
    if |file| < FOOTER then None
    else
      var ft := file[|file| - FOOTER..];
      var dataEnd, bloomAt := Field(ft, 0), Field(ft, 1);
      if bloomAt < dataEnd then None
      else
        var meta, bits, entries :=
          Slice(file, dataEnd, bloomAt - dataEnd), Slice(file, bloomAt, Field(ft, 2)),
          if Field(ft, 4) > 0 then Slice(file, Field(ft, 3), Field(ft, 4)) else Some([]);
        if meta.None? || bits.None? || entries.None? then None
        else
          var range, filter, index := ParseMeta(meta.value), Bloom.Decode(bits.value), DecodeIndex(entries.value);
          if range.None? || filter.None? || index.None? then None
          else Some(Opened(filter.value, index.value, range.value, Field(ft, 5), dataEnd))
  }

  ghost predicate Writable(rs: seq<Record>, s: Sizing) {
    && rs != [] && Sorted(rs) && (forall i :: 0 <= i < |rs| ==> Encodable(rs[i]))
    && SizingFits(s) && |Table(rs, s)| < TWO_64 && |rs| < TWO_64
  }

  lemma Sections(d: Bytes, m: Bytes, b: Bytes, x: Bytes, f: Bytes)
    requires |f| == FOOTER
    ensures var file := d + (m + b + x + f);
            && file[|file| - FOOTER..] == f
            && Slice(file, |d|, |m|) == Some(m)
            && Slice(file, |d| + |m|, |b|) == Some(b)
            && Slice(file, |d| + |m| + |b|, |x|) == Some(x)
  {
    var file := d + (m + b + x + f);
    assert file[|file| - FOOTER..] == f;
    assert file[|d|..|d| + |m|] == m;
    assert file[|d| + |m|..|d| + |m| + |b|] == b;
    assert file[|d| + |m| + |b|..|d| + |m| + |b| + |x|] == x;
  }

  lemma IndexFits(rs: seq<Record>)
    requires |Data(rs)| < TWO_64 && (forall i :: 0 <= i < |rs| ==> Encodable(rs[i]))
    ensures forall e :: e in IndexOf(rs) ==> EntryFits(e)
  {
    forall e | e in IndexOf(rs) ensures EntryFits(e) {
      var k :| 0 <= k < |IndexOf(rs)| && IndexOf(rs)[k] == e;
      IndexAt(rs, k);
      OffsetWithin(rs, k * INDEX_STEP);
      assert Encodable(rs[k * INDEX_STEP]);
    }
  }

  /** A written table opens to what was written. */
  lemma OpensBack(rs: seq<Record>, s: Sizing)
    requires Writable(rs, s)
    ensures OpenTable(Table(rs, s))
         == Some(Opened(FilterOf(rs, s), IndexOf(rs), Range(rs[0].key, rs[|rs| - 1].key), |rs|, |Data(rs)|))
  {
    hide Data, Footer, Meta, EncodeIndex, Bloom.Encode, Bloom.Decode, DecodeIndex, ParseMeta, FilterOf, IndexOf, Field;
    hide Slice, Sorted;
    var d, m := Data(rs), Meta(rs[0].key, rs[|rs| - 1].key);
    var b, x := Bloom.Encode(FilterOf(rs, s)), EncodeIndex(IndexOf(rs));
    var f := Footer(|d|, |d| + |m|, |b|, |d| + |m| + |b|, |x|, |rs|);
    assert Table(rs, s) == d + (m + b + x + f);
    Sections(d, m, b, x, f);
    FooterReadsBack(|d|, |d| + |m|, |b|, |d| + |m| + |b|, |x|, |rs|);
    assert Encodable(rs[0]) && Encodable(rs[|rs| - 1]);
    MetaReadsBack(rs[0].key, rs[|rs| - 1].key);
    Bloom.DecodesBack(FilterOf(rs, s), []);
    assert b + [] == b;
    IndexFits(rs);
    IndexDecodesBack(IndexOf(rs));
  }

  // ---- linear search -------------------------------------------------------

  /** What a linear search of all the records finds: the newest version of the key. */
  function Find(rs: seq<Record>, key: Key): Option<Record> {
    if rs == [] then None
    else
      var best, last := Find(rs[..|rs| - 1], key), rs[|rs| - 1];
      if last.key == key && (best.None? || last.seqNum > best.value.seqNum) then Some(last) else best
  }

  lemma {:induction false} FindExact(rs: seq<Record>, key: Key)
    ensures match Find(rs, key)
            case None => forall i :: 0 <= i < |rs| ==> rs[i].key != key
            case Some(r) => r in rs && r.key == key
  {
    if rs != [] { FindExact(rs[..|rs| - 1], key); }
  }

  // ---- the fast path -------------------------------------------------------

  ghost predicate IndexSorted(index: seq<IndexEntry>) {
    forall e, f :: 0 <= e < f < |index| ==> Below(index[e].key, index[f].key)
  }

  lemma IndexIsSorted(rs: seq<Record>)
    requires Sorted(rs)
    ensures IndexSorted(IndexOf(rs))
  {
    forall e, f | 0 <= e < f < |IndexOf(rs)| ensures Below(IndexOf(rs)[e].key, IndexOf(rs)[f].key) {
      IndexAt(rs, e);
      IndexAt(rs, f);
    }
  }

  /** Binary search: how many index keys are at most `key`. */
  method IndexFloor(index: seq<IndexEntry>, key: Key) returns (n: nat)
    requires IndexSorted(index)
    ensures n <= |index| && forall e :: 0 <= e < |index| ==> (e < n <==> !Below(key, index[e].key))
  {
    var lo: nat, hi := 0, |index|;
    while lo < hi
      invariant 0 <= lo <= hi <= |index|
      invariant forall e :: 0 <= e < lo ==> !Below(key, index[e].key)
      invariant forall e :: hi <= e < |index| ==> Below(key, index[e].key)
    {
      var mid := (lo + hi) / 2;
      if Below(key, index[mid].key) {
        forall e | mid < e < |index| ensures Below(key, index[e].key) { BelowTrans(key, index[mid].key, index[e].key); }
        hi := mid;
      } else {
        forall e | 0 <= e < mid ensures !Below(key, index[e].key) {
          if Below(key, index[e].key) { BelowTrans(key, index[e].key, index[mid].key); }
        }
        lo := mid + 1;
      }
    }
    n := lo;
  }

  /** Where a search for `key` starts: at a record, with only smaller keys before it. */
  method StartOffset(index: seq<IndexEntry>, key: Key, ghost rs: seq<Record>) returns (pos: nat, ghost i: nat)
    requires Sorted(rs) && index == IndexOf(rs)
    ensures i <= |rs| && pos == Offset(rs, i) && forall j :: 0 <= j < i ==> Below(rs[j].key, key)
  {
    pos, i := 0, 0;
    IndexIsSorted(rs);
    var n := IndexFloor(index, key);
    if n > 0 {
      pos := index[n - 1].offset;
      IndexAt(rs, n - 1);
      i := (n - 1) * INDEX_STEP;
      forall j | 0 <= j < i ensures Below(rs[j].key, key) {
        BelowTotal(rs[i].key, key);
        if rs[i].key != key { BelowTrans(rs[j].key, rs[i].key, key); }
      }
    }
  }

  class Reader {
    const file: Bytes
    const bf: Bloom.BloomFilter
    const index: seq<IndexEntry>
    const range: Range
    const recordCount: nat
    const metaOffset: nat
    var bloomSkips: nat

    /** The reader was opened on a table that holds rs. */
    ghost predicate Holds(rs: seq<Record>)
      reads bf.words
    {
      && rs != [] && Sorted(rs) && (forall i :: 0 <= i < |rs| ==> Encodable(rs[i]))
      && metaOffset == |Data(rs)| <= |file| && file[..metaOffset] == Data(rs)
      && index == IndexOf(rs) && range == Range(rs[0].key, rs[|rs| - 1].key)
      && bf.Valid() && forall i :: 0 <= i < |rs| ==> Bloom.MayContain(bf.Value(), rs[i].key)
    }

    constructor (file: Bytes)
      requires OpenTable(file).Some?
      ensures this.file == file && bloomSkips == 0 && fresh(bf.words) && bf.Valid()
      ensures Some(Opened(bf.Value(), index, range, recordCount, metaOffset)) == OpenTable(file)
    {
      var o := OpenTable(file).value;
      this.file, index, range, recordCount, metaOffset := file, o.index, o.range, o.count, o.dataEnd;
      bloomSkips := 0;
      var ft := file[|file| - FOOTER..];
      bf := new Bloom.BloomFilter.From(Slice(file, Field(ft, 1), Field(ft, 2)).value);
    }

    /** Bloom filter, key range, sparse index and forward scan find what a linear search finds. */
    method Get(key: Key, ghost rs: seq<Record>) returns (r: Option<Record>)
      requires Holds(rs)
      modifies this
      ensures r == Find(rs, key)
      ensures bloomSkips == old(bloomSkips) + if Bloom.MayContain(bf.Value(), key) then 0 else 1
    {
      hide Offset, Bloom.MayContain, Data, IndexOf, ParseRecord, EncodeRecord;
      var maybe := bf.Asks(key);
      if !maybe {
        bloomSkips := bloomSkips + 1;
        NotFound(rs, key);
        return None;
      }
      if Below(key, range.least) || Below(range.greatest, key) {
        OutOfRange(rs, key);
        return None;
      }
      var pos;
      ghost var i;
      pos, i := StartOffset(index, key, rs);
      r := None;
      AbsentBefore(rs, key, i);
      OffsetWithin(rs, i);
      while pos < metaOffset
        invariant i <= |rs| && pos == Offset(rs, i) && (pos < metaOffset <==> i < |rs|)
        invariant r == Find(rs[..i], key) && bloomSkips == old(bloomSkips)
        decreases |rs| - i
      {
        RecordAt(rs, i, file);
        OffsetStep(rs, i);
        OffsetWithin(rs, i + 1);
        var item := ParseRecord(file[pos..]).value;
        assert rs[..i + 1][..i] == rs[..i];
        pos, i := pos + item.size, i + 1;
        if item.rec.key == key {
          if r.None? || item.rec.seqNum > r.value.seqNum { r := Some(item.rec); }
        } else if Below(key, item.rec.key) {
          FindRest(rs, key, i);
          return;
        }
      }
      assert rs[..i] == rs;
    }

    /** All records from `from` to `to`. */
    method Scan(from: Key, to: Key, ghost rs: seq<Record>) returns (out: seq<Record>)
      requires Holds(rs)
      ensures out == Ranged(rs, from, to)
    {
      hide Offset, Data, IndexOf, ParseRecord, EncodeRecord, Ranged;
      if Below(to, range.least) || Below(range.greatest, from) {
        NoneInRange(rs, from, to);
        return [];
      }
      var pos;
      ghost var i;
      pos, i := StartOffset(index, from, rs);
      var byKey: map<Key, Record> := map[];
      NoneBefore(rs, from, to, i);
      OffsetWithin(rs, i);
      while pos < metaOffset
        invariant i <= |rs| && pos == Offset(rs, i) && (pos < metaOffset <==> i < |rs|)
        invariant IsListing(Ranged(rs[..i], from, to), byKey)
        decreases |rs| - i
      {
        RecordAt(rs, i, file);
        OffsetStep(rs, i);
        OffsetWithin(rs, i + 1);
        var item := ParseRecord(file[pos..]).value;
        if Below(to, item.rec.key) {
          NoneAfter(rs, from, to, i);
          break;
        }
        RangeNext(rs, from, to, i, byKey);
        pos, i := pos + item.size, i + 1;
        if !Below(item.rec.key, from) { byKey := Insert(byKey, item.rec); }
      }
      assert i == |rs| ==> rs[..i] == rs;
      out := ListRecords(byKey);
      ListingUnique(out, Ranged(rs, from, to), byKey);
    }

    /** Every record, in key order. */
    method LoadAll(ghost rs: seq<Record>) returns (out: seq<Record>)
      requires Holds(rs)
      ensures out == rs
    {
      hide Offset, Data, IndexOf, ParseRecord, EncodeRecord;
      out := [];
      var pos := 0;
      ghost var i := 0;
      OffsetWithin(rs, 0);
      assert Offset(rs, 0) == 0 by { StartsAtZero(rs); }
      while pos < metaOffset
        invariant i <= |rs| && pos == Offset(rs, i) && (pos < metaOffset <==> i < |rs|)
        invariant out == rs[..i]
        decreases |rs| - i
      {
        RecordAt(rs, i, file);
        OffsetStep(rs, i);
        OffsetWithin(rs, i + 1);
        var item := ParseRecord(file[pos..]).value;
        out := out + [item.rec];
        pos, i := pos + item.size, i + 1;
      }
    }
  }

  lemma StartsAtZero(rs: seq<Record>)
    ensures Offset(rs, 0) == 0
  {
  }

  lemma NoneInRange(rs: seq<Record>, from: Key, to: Key)
    requires rs != [] && Sorted(rs) && (Below(to, rs[0].key) || Below(rs[|rs| - 1].key, from))
    ensures Ranged(rs, from, to) == []
  {
    forall i | 0 <= i < |rs| ensures !Between(rs[i].key, from, to) {
      if Below(to, rs[0].key) {
        if i > 0 { BelowTrans(to, rs[0].key, rs[i].key); }
      } else if i < |rs| - 1 {
        BelowTrans(rs[i].key, rs[|rs| - 1].key, from);
      }
    }
    RangedNone(rs, from, to);
  }

  lemma NoneBefore(rs: seq<Record>, from: Key, to: Key, i: nat)
    requires i <= |rs| && forall j :: 0 <= j < i ==> Below(rs[j].key, from)
    ensures Ranged(rs[..i], from, to) == []
  {
    RangedNone(rs[..i], from, to);
  }

  lemma NoneAfter(rs: seq<Record>, from: Key, to: Key, i: nat)
    requires Sorted(rs) && i < |rs| && Below(to, rs[i].key)
    ensures Ranged(rs, from, to) == Ranged(rs[..i], from, to)
  {
    forall j | i <= j < |rs| ensures !Between(rs[j].key, from, to) {
      if i < j { BelowTrans(to, rs[i].key, rs[j].key); }
    }
    RangedNone(rs[i..], from, to);
    RangedConcat(rs[..i], rs[i..], from, to);
    assert rs[..i] + rs[i..] == rs;
  }

  lemma RangeNext(rs: seq<Record>, from: Key, to: Key, i: nat, m: map<Key, Record>)
    requires Sorted(rs) && i < |rs| && IsListing(Ranged(rs[..i], from, to), m)
    ensures IsListing(Ranged(rs[..i + 1], from, to), if Between(rs[i].key, from, to) then Insert(m, rs[i]) else m)
  {
    assert rs[..i + 1][..i] == rs[..i];
    var was := Ranged(rs[..i], from, to);
    forall r | r in was ensures Below(r.key, rs[i].key) {
      RangedHolds(rs[..i], from, to, r);
      var j :| 0 <= j < i && rs[..i][j] == r;
      assert rs[j] == r;
    }
    BelowTotal(rs[i].key, rs[i].key);
    forall k | k in m ensures k != rs[i].key { assert m[k] in was; }
  }

  lemma NotFound(rs: seq<Record>, key: Key)
    requires forall i :: 0 <= i < |rs| ==> rs[i].key != key
    ensures Find(rs, key) == None
  {
    FindExact(rs, key);
  }

  lemma OutOfRange(rs: seq<Record>, key: Key)
    requires rs != [] && Sorted(rs) && (Below(key, rs[0].key) || Below(rs[|rs| - 1].key, key))
    ensures Find(rs, key) == None
  {
    forall i | 0 <= i < |rs| ensures rs[i].key != key {
      BelowTotal(rs[i].key, rs[0].key);
      BelowTotal(rs[i].key, rs[|rs| - 1].key);
    }
    NotFound(rs, key);
  }

  lemma AbsentBefore(rs: seq<Record>, key: Key, i: nat)
    requires i <= |rs| && forall j :: 0 <= j < i ==> Below(rs[j].key, key)
    ensures Find(rs[..i], key) == None
  {
    BelowTotal(key, key);
    NotFound(rs[..i], key);
  }

  /** Past a greater key nothing more is found. */
  lemma {:induction false} FindRest(rs: seq<Record>, key: Key, i: nat)
    requires Sorted(rs) && 0 < i <= |rs| && Below(key, rs[i - 1].key)
    ensures Find(rs, key) == Find(rs[..i], key)
    decreases |rs|
  {
    if i < |rs| {
      var n := |rs| - 1;
      BelowTrans(key, rs[i - 1].key, rs[n].key);
      BelowTotal(key, rs[n].key);
      FindRest(rs[..n], key, i);
      assert rs[..n][..i] == rs[..i];
    } else {
      assert rs[..i] == rs;
    }
  }

  /** A reader opened on a written table holds what was written. */
  lemma OpenedHolds(r: Reader, rs: seq<Record>, s: Sizing)
    requires Writable(rs, s) && r.file == Table(rs, s) && r.bf.Valid()
    requires Some(Opened(r.bf.Value(), r.index, r.range, r.recordCount, r.metaOffset)) == OpenTable(r.file)
    ensures r.Holds(rs) && r.recordCount == |rs|
  {
    hide OpenTable, Data, Trailer, IndexOf, Bloom.MayContain, Bloom.AddedAll, Bloom.Empty;
    OpensBack(rs, s);
    forall i | 0 <= i < |rs| ensures Bloom.MayContain(r.bf.Value(), rs[i].key) {
      assert Keys(rs)[i] == rs[i].key;
      Bloom.AnswersExactly(s.words, s.hashes, Keys(rs), rs[i].key);
    }
  }
}
