/** Writing a sorted table at once and as a stream: the same bytes. */
module TableWriter {
  import opened BigEndian
  import opened RaftTypes
  import opened Records
  import opened TableFormat
  import Bloom

  lemma FilterStep(rs: seq<Record>, r: Record, s: Sizing)
    requires s.words > 0
    ensures FilterOf(rs + [r], s) == Bloom.Added(FilterOf(rs, s), r.key)
  {
    hide Bloom.Added, Bloom.Empty;
    var all := Keys(rs + [r]);
    assert all == Keys(rs) + [r.key];
    assert all[..|rs|] == Keys(rs);
  }

  lemma DataStep(rs: seq<Record>, r: Record)
    ensures Data(rs + [r]) == Data(rs) + EncodeRecord(r)
    ensures IndexOf(rs + [r]) == IndexOf(rs) + if |rs| % INDEX_STEP == 0 then [IndexEntry(r.key, |Data(rs)|)] else []
  {
    hide EncodeRecord;
    assert (rs + [r])[..|rs|] == rs;
  }

  lemma SortedStep(rs: seq<Record>, r: Record)
    requires Sorted(rs) && (rs != [] ==> Below(rs[|rs| - 1].key, r.key))
    ensures Sorted(rs + [r])
  {
    forall i | 0 <= i < |rs| ensures Below(rs[i].key, r.key) {
      if i < |rs| - 1 { BelowTrans(rs[i].key, rs[|rs| - 1].key, r.key); }
    }
  }

  lemma {:induction false} EntryStep(es: seq<IndexEntry>, e: IndexEntry)
    ensures EncodeIndex(es + [e]) == EncodeIndex(es) + EncodeEntry(e)
  {
    hide EncodeEntry;
    if es == [] {
      assert [e][1..] == [];
    } else {
      EntryStep(es[1..], e);
      assert (es + [e])[1..] == es[1..] + [e];
    }
  }

  /** The key range, the filter, the index and the footer. */
  method WriteTrailer(data: nat, least: Key, greatest: Key, bf: Bloom.BloomFilter, index: seq<IndexEntry>, count: nat)
    returns (b: Bytes)
    requires bf.Valid()
    ensures b == Trailer(data, least, greatest, bf.Value(), index, count)
  {
    hide EncodeIndex, EncodeEntry, Footer;
    b := Meta(least, greatest);
    var bloomAt := data + |b|;
    var bits := bf.Encoded();
    b := b + bits;
    var entries: Bytes := [];
    assert EncodeIndex(index[..0]) == [] by { NoEntries(); }
    for i := 0 to |index|
      invariant entries == EncodeIndex(index[..i])
    {
      EntryStep(index[..i], index[i]);
      assert index[..i + 1] == index[..i] + [index[i]];
      entries := entries + EncodeEntry(index[i]);
    }
    assert index[..|index|] == index;
    b := b + entries + Footer(data, bloomAt, |bits|, bloomAt + |bits|, |entries|, count);
  }

  lemma NoEntries()
    ensures EncodeIndex([]) == []
  {
  }

  /** Writes records that are already in key order; nothing is written for none. */
  method Write(rs: seq<Record>, sizing: nat -> Sizing) returns (file: Option<Bytes>)
    requires sizing(|rs|).words > 0
    ensures file == if rs == [] then None else Some(Table(rs, sizing(|rs|)))
  {
    hide Data, IndexOf, FilterOf, Trailer;
    if rs == [] { return None; }
    var s := sizing(|rs|);
    var bf := new Bloom.BloomFilter(s.words, s.hashes);
    EmptyFilter(s);
    for i := 0 to |rs|
      invariant bf.Valid() && fresh(bf.words) && bf.Value() == FilterOf(rs[..i], s)
    {
      FilterStep(rs[..i], rs[i], s);
      assert rs[..i + 1] == rs[..i] + [rs[i]];
      bf.Add(rs[i].key);
    }
    assert rs[..|rs|] == rs;
    var data: Bytes, index: seq<IndexEntry> := [], [];
    for i := 0 to |rs|
      invariant bf.Valid() && bf.Value() == FilterOf(rs, s)
      invariant data == Data(rs[..i]) && index == IndexOf(rs[..i])
    {
      DataStep(rs[..i], rs[i]);
      assert rs[..i + 1] == rs[..i] + [rs[i]];
      if i % INDEX_STEP == 0 { index := index + [IndexEntry(rs[i].key, |data|)]; }
      data := data + EncodeRecord(rs[i]);
    }
    var tail := WriteTrailer(|data|, rs[0].key, rs[|rs| - 1].key, bf, index, |rs|);
    file := Some(data + tail);
  }

  lemma EmptyFilter(s: Sizing)
    requires s.words > 0
    ensures FilterOf([], s) == Bloom.Empty(s.words, s.hashes) && Data([]) == [] && IndexOf([]) == []
  {
  }

  /** A record the stream accepts after `last`. */
  predicate Streamable(r: Record, last: Option<Key>) {
    && r.key != [] && (last.Some? ==> Below(last.value, r.key))
    && |r.key| < TWO_32 && |r.value| < TWO_32
  }

  function LastKey(rs: seq<Record>): Option<Key> { if rs == [] then None else Some(rs[|rs| - 1].key) }

  ghost predicate AllStreamable(rs: seq<Record>) {
    forall i :: 0 <= i < |rs| ==> Streamable(rs[i], LastKey(rs[..i]))
  }

  lemma StreamedSorted(rs: seq<Record>, r: Record)
    requires Sorted(rs) && Streamable(r, LastKey(rs))
    ensures Sorted(rs + [r])
  {
    SortedStep(rs, r);
  }

  class StreamWriter {
    var file: Bytes
    const expected: nat
    var written: nat
    var dataOffset: nat
    var index: seq<IndexEntry>
    const bloom: Bloom.BloomFilter
    var minKey: Key
    var maxKey: Key
    var lastKey: Key
    var closed: bool
    ghost const sizing: Sizing
    ghost var added: seq<Record>

    ghost predicate Valid()
      reads this, bloom.words
    {
      && sizing.words > 0 && bloom.Valid() && bloom.Value() == FilterOf(added, sizing)
      && written == |added| <= expected && dataOffset == |Data(added)| && index == IndexOf(added)
      && (added != [] ==> minKey == added[0].key && maxKey == lastKey == added[|added| - 1].key)
      && Sorted(added)
      && (!closed ==> file == Data(added))
      && expected > 0
    }

    constructor (expected: nat, sizing: nat -> Sizing)
      requires expected > 0 && sizing(expected).words > 0
      ensures Valid() && fresh(bloom.words) && added == [] && !closed
      ensures this.expected == expected && this.sizing == sizing(expected)
    {
      var s := sizing(expected);
      file, this.expected, written, dataOffset, index, closed := [], expected, 0, 0, [], false;
      minKey, maxKey, lastKey := [], [], [];
      this.sizing, added := s, [];
      bloom := new Bloom.BloomFilter(s.words, s.hashes);
      EmptyFilter(s);
    }

    method Append(r: Record)
      requires Valid() && !closed && |added| < expected && Streamable(r, LastKey(added))
      modifies this, bloom.words
      ensures Valid() && !closed && added == old(added) + [r]
    {
      hide Data, IndexOf, FilterOf, EncodeRecord, Streamable, LastKey, Sorted, Bloom.Added;
      DataStep(added, r);
      FilterStep(added, r, sizing);
      StreamedSorted(added, r);
      if written % INDEX_STEP == 0 { index := index + [IndexEntry(r.key, dataOffset)]; }
      var b := EncodeRecord(r);
      file := file + b;
      if written == 0 { minKey := r.key; }
      maxKey, lastKey := r.key, r.key;
      bloom.Add(r.key);
      dataOffset, written := dataOffset + |b|, written + 1;
      added := added + [r];
    }

    method Add(r: Record) returns (ok: bool)
      requires Valid()
      modifies this, bloom.words
      ensures Valid() && closed == old(closed)
      ensures ok <==> !old(closed) && |old(added)| < expected && Streamable(r, LastKey(old(added)))
      ensures added == if ok then old(added) + [r] else old(added)
    {
      hide Streamable, Data, IndexOf, FilterOf, Sorted;
      if closed || written >= expected { return false; }
      if !Streamable(r, if written == 0 then None else Some(lastKey)) { return false; }
      Append(r);
      return true;
    }

    method Finish() returns (ok: bool)
      requires Valid()
      modifies this
      ensures Valid() && added == old(added)
      ensures ok <==> !old(closed) && |added| == expected
      ensures closed == (old(closed) || ok)
      ensures ok ==> file == Table(added, sizing)
    {
      hide Data, IndexOf, FilterOf, Trailer;
      if closed { return false; }
      if written != expected { return false; }
      var tail := WriteTrailer(dataOffset, minKey, maxKey, bloom, index, written);
      file := file + tail;
      closed := true;
      return true;
    }
  }

  /** A stream of exactly the announced records is accepted when they are in strictly ascending
      order with non-empty keys, and then gives the bytes Write gives. */
  method WriteStream(rs: seq<Record>, sizing: nat -> Sizing) returns (file: Option<Bytes>)
    requires sizing(|rs|).words > 0
    ensures file.Some? <==> rs != [] && AllStreamable(rs)
    ensures file.Some? ==> file == Some(Table(rs, sizing(|rs|)))
  {
    hide Data, IndexOf, FilterOf, Table, Streamable;
    if |rs| == 0 { return None; }
    var w := new StreamWriter(|rs|, sizing);
    for i := 0 to |rs|
      invariant w.Valid() && fresh(w) && fresh(w.bloom.words) && !w.closed && w.added == rs[..i]
      invariant w.expected == |rs| && w.sizing == sizing(|rs|)
      invariant forall j :: 0 <= j < i ==> Streamable(rs[j], LastKey(rs[..j]))
    {
      var ok := w.Add(rs[i]);
      if !ok { return None; }
      assert rs[..i + 1] == rs[..i] + [rs[i]];
    }
    assert rs[..|rs|] == rs;
    var done := w.Finish();
    file := Some(w.file);
  }
}
