/** The embedded engine as it runs: memtable, tables, log and manifest updated step by step. */
module Engine {
  import opened EngineDisk
  import opened EngineRuns
  import opened Merging
  import opened MemTables
  import opened RaftTypes
  import opened Records
  import opened TableReader
  import Wal

  // ---- replaying a log -----------------------------------------------------------

  function Top(rs: seq<Record>, low: nat): nat {
    if rs == [] then low
    else
      var t := Top(rs[..|rs| - 1], low);
      if rs[|rs| - 1].seqNum > t then rs[|rs| - 1].seqNum else t
  }

  predicate Reused(rs: seq<Record>, lastSeq: nat) { exists i :: 0 <= i < |rs| && rs[i].seqNum <= lastSeq }

  function Renumbered(rs: seq<Record>, base: nat): (out: seq<Record>)
    ensures |out| == |rs|
  { seq(|rs|, i requires 0 <= i < |rs| => rs[i].(seqNum := base + i + 1)) }

  /** The records to put in the memtable. A database without a published highest number whose log reuses
      published numbers has every record renumbered, in log order. */
  function Sequenced(rs: seq<Record>, lastSeq: nat, legacy: bool): seq<Record> {
    if !legacy then Kept(rs, lastSeq)
    else if Reused(rs, lastSeq) then Renumbered(rs, Top(rs, lastSeq))
    else rs
  }

  method SequenceWAL(rs: seq<Record>, lastSeq: nat, legacy: bool) returns (out: seq<Record>, renumbered: bool)
    ensures out == Sequenced(rs, lastSeq, legacy) && renumbered == (legacy && Reused(rs, lastSeq))
  {
    if !legacy {
      out := [];
      for i := 0 to |rs|
        invariant out == Kept(rs[..i], lastSeq)
      {
        assert rs[..i + 1][..i] == rs[..i];
        if rs[i].seqNum > lastSeq { out := out + [rs[i]]; }
      }
      assert rs[..|rs|] == rs;
      return out, false;
    }
    var base, reused := lastSeq, false;
    for i := 0 to |rs|
      invariant base == Top(rs[..i], lastSeq) && reused == Reused(rs[..i], lastSeq)
    {
      assert rs[..i + 1][..i] == rs[..i];
      ReusedNext(rs, lastSeq, i);
      base := if rs[i].seqNum > base then rs[i].seqNum else base;
      reused := reused || rs[i].seqNum <= lastSeq;
    }
    assert rs[..|rs|] == rs;
    if !reused { return rs, false; }
    out := [];
    for i := 0 to |rs|
      invariant |out| == i && forall j :: 0 <= j < i ==> out[j] == rs[j].(seqNum := base + j + 1)
    {
      out := out + [rs[i].(seqNum := base + i + 1)];
    }
    return out, true;
  }

  lemma ReusedNext(rs: seq<Record>, lastSeq: nat, i: nat)
    requires i < |rs|
    ensures Reused(rs[..i + 1], lastSeq) <==> Reused(rs[..i], lastSeq) || rs[i].seqNum <= lastSeq
  {
    assert forall j :: 0 <= j < i ==> rs[..i][j] == rs[..i + 1][j] == rs[j];
    assert rs[..i + 1][i] == rs[i];
  }

  /** The changes a log records. */
  function Changes(rs: seq<Record>): seq<Change> {
    seq(|rs|, i requires 0 <= i < |rs| =>
      Change(rs[i].key, if rs[i].kind.Put? then Some(rs[i].value) else None))
  }

  ghost predicate Ascending(rs: seq<Record>) {
    && (forall i :: 0 <= i < |rs| ==> (rs[i].kind.Delete? ==> rs[i].value == []))
    && forall i, j :: 0 <= i < j < |rs| ==> rs[i].seqNum < rs[j].seqNum
  }

  lemma {:induction false} TopBounds(rs: seq<Record>, low: nat, i: nat)
    requires i < |rs|
    ensures rs[i].seqNum <= Top(rs, low) && low <= Top(rs, low)
  {
    var n := |rs| - 1;
    if n > 0 { TopBounds(rs[..n], low, if i < n then i else 0); }
  }

  /** A log without published numbers replays in the order it was written: from numbers that were reused,
      however they repeat, as from numbers that only rise. The published number after the upgrade then
      covers every number in the old log. */
  lemma LegacyReplays(rs: seq<Record>, lastSeq: nat, tables: seq<Run>, base: map<Key, Bytes>, key: Key)
    requires forall i :: 0 <= i < |rs| ==> (rs[i].kind.Delete? ==> rs[i].value == [])
    requires Reused(rs, lastSeq) || Ascending(rs)
    requires Live(FirstIn(tables, key)) == At(base, key)
    ensures var m := RawAll(Mem(map[], lastSeq + 1), Sequenced(rs, lastSeq, true));
      && Live(Lookup(m.entries, tables, key)) == At(Applied(base, Changes(rs)), key)
      && forall i :: 0 <= i < |rs| ==> rs[i].seqNum < m.nextSeq
  {
    hide RawAll, FirstIn, Lookup, Applied, Top;
    var out := Sequenced(rs, lastSeq, true);
    forall i | 0 <= i < |rs| ensures rs[i].seqNum <= out[i].seqNum && lastSeq < out[i].seqNum {
      TopBounds(rs, lastSeq, i);
    }
    assert Numbered(out, Changes(rs), lastSeq);
    ReplayApplies(out, Changes(rs), lastSeq, tables, base, key);
    forall i | 0 <= i < |rs| ensures rs[i].seqNum < RawAll(Mem(map[], lastSeq + 1), out).nextSeq {
      RawAllBelow(Mem(map[], lastSeq + 1), out, out[i]);
    }
  }

  // ---- a flush and what follows it --------------------------------------------------

  ghost function CompactedFully(d: Disk): (d': Disk)
    requires DiskOK(d)
    ensures DiskOK(d')
  {
    CompactOK(d, 2 + |d.manifest.names|);
    Compacted(d, 2 + |d.manifest.names|)
  }

  /** A flush, and a compaction once there are enough tables. */
  ghost function FlushedFully(d: Disk, compactAt: nat): (d': Disk)
    requires DiskOK(d)
    ensures DiskOK(d')
  {
    MemFresh(d);
    FlushOK(d, 3);
    var f := Flushed(d, 3);
    if MemOf(d).entries == map[] || |f.manifest.names| < compactAt then f else CompactedFully(f)
  }

  ghost function Settled(d: Disk, flushAt: nat, compactAt: nat): (d': Disk)
    requires DiskOK(d)
    ensures DiskOK(d')
  { if |MemOf(d).entries| < flushAt then d else FlushedFully(d, compactAt) }

  lemma SettledMeans(d: Disk, flushAt: nat, compactAt: nat, truth: map<Key, Bytes>)
    requires DiskOK(d) && Means(d, truth)
    ensures Means(Settled(d, flushAt, compactAt), truth) && Means(FlushedFully(d, compactAt), truth)
  {
    hide DiskOK, Means, Flushed, Compacted, MemOf;
    MemFresh(d);
    FlushMeans(d, 3, truth);
    var f := Flushed(d, 3);
    CompactMeans(f, 2 + |f.manifest.names|, truth);
  }

  // ---- scanning -----------------------------------------------------------------------

  datatype Pair = Pair(key: Key, value: Bytes)

  /** The pairs of a map with keys in [from, to], in key order. */
  ghost predicate IsScan(out: seq<Pair>, truth: map<Key, Bytes>, from: Key, to: Key) {
    && (forall i, j :: 0 <= i < j < |out| ==> Below(out[i].key, out[j].key))
    && (forall p :: p in out ==> Between(p.key, from, to) && At(truth, p.key) == Some(p.value))
    && (forall k :: k in truth && Between(k, from, to) ==> Pair(k, truth[k]) in out)
  }

  lemma {:induction false} FlatNext(layers: seq<Run>, i: nat)
    requires i < |layers|
    ensures Flat(layers[..i + 1]) == Flat(layers[..i]) + layers[i]
    decreases i
  {
    if i == 0 {
      assert layers[..1][1..] == [];
    } else {
      FlatNext(layers[1..], i - 1);
      assert layers[1..][..i] == layers[..i + 1][1..] && layers[1..][..i - 1] == layers[..i][1..];
    }
  }

  /** Keeping the highest number per key finds what looking newest-first finds. */
  lemma RangeReads(layers: seq<Run>, top: nat, from: Key, to: Key, key: Key)
    requires Layered(layers, top)
    ensures var m := Latest(Ranged(Flat(layers), from, to));
      && Keyed(m)
      && (if key in m then Some(m[key]) else None)
         == if Between(key, from, to) then FirstIn(layers, key) else None
  {
    hide Layered, Flat, Latest, Ranged, FirstIn, Between, Mergeable;
    var rs := Ranged(Flat(layers), from, to);
    var m := Latest(rs);
    LatestHolds(rs);
    FirstIsNewest(layers, top, key);
    LayersCoherent(layers, top);
    FlatElements(layers);
    CoherentLayers(layers);
    forall r ensures r in rs <==> r in All(layers) && Between(r.key, from, to) {
      RangedHolds(Flat(layers), from, to, r);
      assert r in Elements(Flat(layers)) <==> r in Flat(layers);
    }
    var f := FirstIn(layers, key);
    if key in m { assert Newest(m[key], Elements(rs)); assert m[key] in rs; }
    if f.Some? && Between(key, from, to) { assert f.value in rs; assert f.value in Elements(rs); }
  }

  lemma CoherentLayers(layers: seq<Run>)
    requires Mergeable(layers)
    ensures Coherent(All(layers))
  {
  }

  lemma LayersOf(d: Disk)
    requires DiskOK(d) && Keyed(MemOf(d).entries)
    ensures Layered([Listing(MemOf(d).entries)] + Tables(d.files, d.manifest.names), MemOf(d).nextSeq)
  {
    hide MemOf, Tables;
    MemFresh(d);
    var run, top, m := Listing(MemOf(d).entries), d.manifest.lastSeq, MemOf(d);
    forall i | 0 <= i < |run| ensures top < run[i].seqNum < m.nextSeq {
      assert run[i] in run && m.entries[run[i].key] == run[i];
    }
    LayeredGrows(run, Tables(d.files, d.manifest.names), top, m.nextSeq);
  }

  // ---- the engine ---------------------------------------------------------------------------

  class DB {
    // what a crash leaves
    var files: map<nat, Run>
    var manifest: Manifest
    var wal: seq<Record>
    // what a crash loses
    var mem: MemTable
    var readers: seq<Run>
    var nextSST: nat
    const flushAt: nat
    const compactAt: nat

    ghost function OnDisk(): Disk
      reads this
    { Disk(files, manifest, wal) }

    /** The running state is what opening the disk would give. */
    ghost predicate Valid()
      reads this, mem
    {
      && DiskOK(OnDisk()) && flushAt > 0
      && mem.Valid() && mem.Value() == MemOf(OnDisk())
      && readers == Tables(files, manifest.names) && nextSST == manifest.next
    }

    /** Opens a store: replays its log over its published tables. */
    constructor (d: Disk, flushAt: nat, compactAt: nat)
      requires DiskOK(d) && flushAt > 0
      ensures Valid() && fresh(mem) && OnDisk() == Reopened(d)
      ensures this.flushAt == flushAt && this.compactAt == compactAt
    {
      files, manifest, wal := d.files, d.manifest, Wal.Replayable(d.wal);
      readers, nextSST, this.flushAt, this.compactAt := [], d.manifest.next, flushAt, compactAt;
      mem := new MemTable(d.manifest.lastSeq + 1);
      new;
      hide Layered;
      OpenTables();
      Replay();
    }

    /** Opens the published tables, newest first. */
    method OpenTables()
      requires Named(files, manifest.names) && readers == []
      modifies this`readers
      ensures readers == Tables(files, manifest.names)
    {
      var n := |manifest.names|;
      assert manifest.names[..n] == manifest.names;
      for i := n downto 0
        invariant readers + Tables(files, manifest.names[..i]) == Tables(files, manifest.names)
      {
        assert manifest.names[..i + 1][..i] == manifest.names[..i];
        readers := readers + [files[manifest.names[i]]];
      }
    }

    method Replay()
      requires mem.Value() == Mem(map[], manifest.lastSeq + 1) && mem.Valid()
      modifies mem
      ensures mem.Valid() && mem.Value() == MemOf(OnDisk())
    {
      var rs, renumbered := SequenceWAL(wal, manifest.lastSeq, false);
      for i := 0 to |rs|
        invariant mem.Valid() && mem.Value() == RawAll(Mem(map[], manifest.lastSeq + 1), rs[..i])
      {
        assert rs[..i + 1][..i] == rs[..i];
        mem.SetRaw(rs[i]);
      }
      assert rs[..|rs|] == rs;
    }

    method Set(key: Key, value: Bytes, ghost truth: map<Key, Bytes>)
      requires Valid() && Means(OnDisk(), truth)
      modifies this, mem
      ensures Valid() && (mem == old(mem) || fresh(mem))
      ensures OnDisk() == Settled(Written(old(OnDisk()), key, Some(value)), flushAt, compactAt)
      ensures Means(OnDisk(), truth[key := value])
    {
      Append(key, Some(value), truth);
      MaybeFlush(truth[key := value]);
    }

    method Delete(key: Key, ghost truth: map<Key, Bytes>)
      requires Valid() && Means(OnDisk(), truth)
      modifies this, mem
      ensures Valid() && (mem == old(mem) || fresh(mem))
      ensures OnDisk() == Settled(Written(old(OnDisk()), key, None), flushAt, compactAt)
      ensures Means(OnDisk(), truth - {key})
    {
      Append(key, None, truth);
      MaybeFlush(truth - {key});
    }

    /** The log record is written before the memtable is updated. */
    method Append(key: Key, value: Option<Bytes>, ghost truth: map<Key, Bytes>)
      requires Valid() && Means(OnDisk(), truth)
      modifies this`wal, mem
      ensures Valid() && OnDisk() == Written(old(OnDisk()), key, value)
      ensures Means(OnDisk(), Updated(truth, key, value))
    {
      hide MemOf, Tables, Layered, Means;
      WriteMeans(OnDisk(), key, value, truth);
      WrittenMem(OnDisk(), key, value);
      AllocatedRaw(mem.Value(), Logged(OnDisk(), key, value));
      var s := mem.AllocSeq();
      var r := Record(key, if value.Some? then value.value else [], s, if value.Some? then Put else Kind.Delete);
      wal := wal + [r];
      mem.SetRaw(r);
    }

    method MaybeFlush(ghost truth: map<Key, Bytes>)
      requires Valid() && Means(OnDisk(), truth)
      modifies this, mem
      ensures Valid() && (mem == old(mem) || fresh(mem))
      ensures OnDisk() == Settled(old(OnDisk()), flushAt, compactAt) && Means(OnDisk(), truth)
    {
      hide MemOf, Tables, Layered, Means, FlushedFully;
      if |mem.entries| >= flushAt { Flush(truth); }
    }

    method Flush(ghost truth: map<Key, Bytes>)
      requires Valid() && Means(OnDisk(), truth)
      modifies this, mem
      ensures Valid() && (mem == old(mem) || fresh(mem))
      ensures OnDisk() == FlushedFully(old(OnDisk()), compactAt) && Means(OnDisk(), truth)
    {
      hide MemOf, Tables, Layered, Means, Flushed, Compacted, CompactedFully, Listing;
      SettledMeans(OnDisk(), 0, compactAt, truth);
      var records := mem.SortedEntries();
      NothingListed(mem.entries);
      ghost var d := OnDisk();
      if |records| == 0 {
        NoFlush(d);
        return;
      }
      Publish(records);
      if |readers| >= compactAt { CompactAll(); }
    }

    /** The memtable becomes the newest table: written, published, and only then dropped from the log. */
    method Publish(records: seq<Record>)
      requires Valid() && records == Listing(mem.entries) && mem.entries != map[]
      modifies this
      ensures Valid() && fresh(mem) && OnDisk() == Flushed(old(OnDisk()), 3)
    {
      hide MemOf, Tables, Layered, Listing;
      ghost var d := OnDisk();
      FlushedMem(d, 3);
      FlushLayers(d, 3);
      nextSST := nextSST + 1;
      files := files[nextSST := records];
      var top := if manifest.lastSeq > mem.nextSeq - 1 then manifest.lastSeq else mem.nextSeq - 1;
      manifest := Manifest(manifest.names + [nextSST], nextSST, top);
      readers := [records] + readers;
      mem := new MemTable(mem.nextSeq);
      wal := [];
      assert OnDisk() == Flushed(d, 3);
    }

    /** All tables become one, without tombstones. */
    method CompactAll()
      requires Valid()
      modifies this
      ensures Valid() && mem == old(mem) && OnDisk() == CompactedFully(old(OnDisk()))
    {
      hide MemOf, Tables, Layered, Merged, IsMerge, Mergeable;
      if |readers| == 0 { return; }
      ghost var d := OnDisk();
      var names := manifest.names;
      LayersCoherent(readers, manifest.lastSeq);
      CompactOK(d, 2 + |names|);
      CompactLayers(d, 2 + |names|);
      nextSST := nextSST + 1;
      var out := Merging.Merge(readers, true);
      MergeUnique(out, Merged(readers), All(readers), true);
      if |out| > 0 { files := files[nextSST := out]; }
      manifest := Manifest(if |out| > 0 then [nextSST] else [], nextSST, manifest.lastSeq);
      readers := if |out| > 0 then [out] else [];
      RemoveFiles(names);
      assert OnDisk() == Compacted(d, 2 + |names|);
    }

    method RemoveFiles(names: seq<nat>)
      modifies this`files
      ensures files == old(files) - NameSet(names)
    {
      for i := 0 to |names|
        invariant files == old(files) - NameSet(names[|names| - i..])
      {
        var n := names[|names| - 1 - i];
        assert names[|names| - (i + 1)..] == [n] + names[|names| - i..];
        files := files - {n};
      }
      assert names[0..] == names;
    }

    /** The memtable first, then the tables newest-first: the last write of the key. */
    method Get(key: Key, ghost truth: map<Key, Bytes>) returns (v: Option<Bytes>)
      requires Valid() && Means(OnDisk(), truth)
      ensures v == At(truth, key)
    {
      hide MemOf, Tables, Layered, Find;
      assert Live(Lookup(mem.entries, readers, key)) == At(truth, key);
      if key in mem.entries { return Live(Some(mem.entries[key])); }
      var i := 0;
      while i < |readers|
        invariant i <= |readers| && FirstIn(readers, key) == FirstIn(readers[i..], key)
      {
        assert readers[i..][1..] == readers[i + 1..];
        var r := Find(readers[i], key);
        if r.Some? { return Live(r); }
        i := i + 1;
      }
      return None;
    }

    /** One map of the newest record per key over all sources: the live pairs in the range. */
    method Scan(from: Key, to: Key, ghost truth: map<Key, Bytes>) returns (out: seq<Pair>)
      requires Valid() && Means(OnDisk(), truth)
      ensures IsScan(out, truth, from, to)
    {
      hide MemOf, Tables, Layered, FirstIn, Flat, Ranged, Latest, IsScan;
      ghost var layers := [Listing(mem.entries)] + readers;
      LayersOf(OnDisk());
      var all := CollectRange(from, to);
      var byKey: map<Key, Record> := map[];
      assert Latest(all[..0]) == map[] by { LatestNone(all); }
      for i := 0 to |all|
        invariant byKey == Latest(all[..i])
      {
        LatestNext(all, i);
        byKey := Insert(byKey, all[i]);
      }
      assert all[..|all|] == all;
      forall key
        ensures Keyed(byKey)
        ensures Live(if key in byKey then Some(byKey[key]) else None)
             == if Between(key, from, to) then At(truth, key) else None
      {
        RangeReads(layers, mem.nextSeq, from, to, key);
        FirstOf(Listing(mem.entries), readers, key);
        FindListing(Listing(mem.entries), mem.entries, key);
        assert Live(Lookup(mem.entries, readers, key)) == At(truth, key);
      }
      out := LivePairs(byKey, truth, from, to);
    }

    method CollectRange(from: Key, to: Key) returns (all: seq<Record>)
      requires mem.Valid()
      ensures all == Ranged(Flat([Listing(mem.entries)] + readers), from, to)
    {
      hide Flat, Ranged;
      ghost var layers := [Listing(mem.entries)] + readers;
      all := mem.ScanRange(from, to);
      assert Flat(layers[..1]) == layers[0] by { FlatNext(layers, 0); FlatNone(); assert layers[..0] == []; }
      for i := 0 to |readers|
        invariant all == Ranged(Flat(layers[..i + 1]), from, to)
      {
        FlatNext(layers, i + 1);
        assert layers[i + 1] == readers[i];
        RangedConcat(Flat(layers[..i + 1]), readers[i], from, to);
        all := all + Ranged(readers[i], from, to);
      }
      assert layers[..|readers| + 1] == layers;
    }
  }

  lemma NoFlush(d: Disk)
    requires Keyed(MemOf(d).entries) && MemOf(d).entries == map[]
    ensures Flushed(d, 3) == d
  {
  }

  /** Reserving a number first does not change what is written. */
  lemma AllocatedRaw(m: Mem, r: Record)
    requires r.seqNum == m.nextSeq
    ensures Raw(Mem(m.entries, m.nextSeq + 1), r) == Raw(m, r)
  {
  }

  lemma FlatNone()
    ensures Flat([]) == []
  {
  }

  /** The live records of a map as pairs in key order. */
  method LivePairs(m: map<Key, Record>, ghost truth: map<Key, Bytes>, ghost from: Key, ghost to: Key)
    returns (out: seq<Pair>)
    requires Keyed(m)
    requires forall k ::
      Live(if k in m then Some(m[k]) else None) == if Between(k, from, to) then At(truth, k) else None
    ensures IsScan(out, truth, from, to)
  {
    hide Between, Below;
    var live := map k | k in m && m[k].kind.Put? :: m[k];
    var rs := ListRecords(live);
    out := [];
    for i := 0 to |rs|
      invariant |out| == i && forall j :: 0 <= j < i ==> out[j] == Pair(rs[j].key, rs[j].value)
    {
      out := out + [Pair(rs[i].key, rs[i].value)];
    }
    forall p | p in out ensures Between(p.key, from, to) && At(truth, p.key) == Some(p.value) {
      var j :| 0 <= j < |out| && out[j] == p;
      assert rs[j] in rs && live[rs[j].key] == rs[j];
    }
    forall k | k in truth && Between(k, from, to) ensures Pair(k, truth[k]) in out {
      assert k in live && live[k] in rs;
      var j :| 0 <= j < |rs| && rs[j] == live[k];
      assert out[j] == Pair(k, truth[k]);
    }
  }
}
