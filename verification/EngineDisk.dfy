/** The embedded engine's durable state, what it means, and every durable write it makes. */
module EngineDisk {
  import opened Merging
  import opened MemTables
  import opened RaftTypes
  import opened Records
  import opened TableReader

  /** A sorted table's records. */
  type Run = seq<Record>

  /** The published tables, oldest first, the last file number used and the highest published sequence number. */
  datatype Manifest = Manifest(names: seq<nat>, next: nat, lastSeq: nat)

  datatype Disk = Disk(files: map<nat, Run>, manifest: Manifest, wal: seq<Record>)

  // ---- what opening a disk gives --------------------------------------------

  ghost predicate Named(files: map<nat, Run>, names: seq<nat>) {
    forall i :: 0 <= i < |names| ==> names[i] in files
  }

  /** The published tables, newest first. */
  function Tables(files: map<nat, Run>, names: seq<nat>): (ts: seq<Run>)
    requires Named(files, names)
    ensures |ts| == |names|
  {
    if names == [] then [] else [files[names[|names| - 1]]] + Tables(files, names[..|names| - 1])
  }

  /** Records the published tables already hold are dropped. */
  function Kept(wal: seq<Record>, lastSeq: nat): seq<Record> {
    if wal == [] then []
    else
      var last := wal[|wal| - 1];
      Kept(wal[..|wal| - 1], lastSeq) + if last.seqNum > lastSeq then [last] else []
  }

  function MemOf(d: Disk): Mem {
    RawAll(Mem(map[], d.manifest.lastSeq + 1), Kept(d.wal, d.manifest.lastSeq))
  }

  // ---- reading -----------------------------------------------------------------

  /** The first table, newest first, that holds the key decides. */
  function FirstIn(tables: seq<Run>, key: Key): Option<Record> {
    if tables == [] then None
    else
      var r := Find(tables[0], key);
      if r.Some? then r else FirstIn(tables[1..], key)
  }

  /** The memtable decides before the tables. */
  function Lookup(entries: map<Key, Record>, tables: seq<Run>, key: Key): Option<Record> {
    if key in entries then Some(entries[key]) else FirstIn(tables, key)
  }

  function Live(r: Option<Record>): Option<Bytes> {
    if r.Some? && r.value.kind.Put? then Some(r.value.value) else None
  }

  function At(m: map<Key, Bytes>, key: Key): Option<Bytes> { if key in m then Some(m[key]) else None }

  // ---- the invariant ------------------------------------------------------------

  /** Everything in a is newer than everything in b. */
  ghost predicate Above(a: Run, b: Run) {
    forall i, j :: 0 <= i < |a| && 0 <= j < |b| ==> a[i].seqNum > b[j].seqNum
  }

  ghost predicate UpTo(a: Run, top: nat) {
    forall i :: 0 <= i < |a| ==> a[i].seqNum <= top
  }

  /** Sorted tables whose sequence ranges descend from the newest table to the oldest. */
  ghost predicate Layered(tables: seq<Run>, top: nat) {
    && (forall i :: 0 <= i < |tables| ==> Sorted(tables[i]) && UpTo(tables[i], top))
    && (forall i, j :: 0 <= i < j < |tables| ==> Above(tables[i], tables[j]))
  }

  ghost predicate DiskOK(d: Disk) {
    && Named(d.files, d.manifest.names)
    && (forall i :: 0 <= i < |d.manifest.names| ==> d.manifest.names[i] <= d.manifest.next)
    && Layered(Tables(d.files, d.manifest.names), d.manifest.lastSeq)
  }

  /** A read of the disk's state gives exactly the map. */
  ghost predicate Means(d: Disk, truth: map<Key, Bytes>)
    requires DiskOK(d)
  {
    forall key :: Live(Lookup(MemOf(d).entries, Tables(d.files, d.manifest.names), key)) == At(truth, key)
  }

  /** What every entry of a replayed memtable is: newer than anything published. */
  ghost predicate Fresh(m: Mem, lastSeq: nat) {
    && Keyed(m.entries) && lastSeq < m.nextSeq
    && forall k :: k in m.entries ==> lastSeq < m.entries[k].seqNum < m.nextSeq
  }

  lemma {:induction false} RawAllFresh(rs: seq<Record>, lastSeq: nat)
    requires forall i :: 0 <= i < |rs| ==> rs[i].seqNum > lastSeq
    ensures Fresh(RawAll(Mem(map[], lastSeq + 1), rs), lastSeq)
  {
    if rs != [] { RawAllFresh(rs[..|rs| - 1], lastSeq); }
  }

  lemma {:induction false} KeptAbove(wal: seq<Record>, lastSeq: nat)
    ensures forall i :: 0 <= i < |Kept(wal, lastSeq)| ==> Kept(wal, lastSeq)[i].seqNum > lastSeq
  {
    if wal != [] { KeptAbove(wal[..|wal| - 1], lastSeq); }
  }

  lemma MemFresh(d: Disk)
    ensures Fresh(MemOf(d), d.manifest.lastSeq)
  {
    KeptAbove(d.wal, d.manifest.lastSeq);
    RawAllFresh(Kept(d.wal, d.manifest.lastSeq), d.manifest.lastSeq);
  }

  // ---- a write ----------------------------------------------------------------------

  /** A write's log record: the next sequence number. */
  function Logged(d: Disk, key: Key, value: Option<Bytes>): Record {
    Record(key, if value.Some? then value.value else [], MemOf(d).nextSeq, if value.Some? then Put else Delete)
  }

  function Written(d: Disk, key: Key, value: Option<Bytes>): Disk { d.(wal := d.wal + [Logged(d, key, value)]) }

  function Updated(truth: map<Key, Bytes>, key: Key, value: Option<Bytes>): map<Key, Bytes> {
    if value.Some? then truth[key := value.value] else truth - {key}
  }

  lemma KeptAppend(wal: seq<Record>, r: Record, lastSeq: nat)
    requires r.seqNum > lastSeq
    ensures Kept(wal + [r], lastSeq) == Kept(wal, lastSeq) + [r]
  {
    assert (wal + [r])[..|wal|] == wal;
  }

  lemma WrittenMem(d: Disk, key: Key, value: Option<Bytes>)
    ensures MemOf(Written(d, key, value)) == Raw(MemOf(d), Logged(d, key, value))
    ensures MemOf(Written(d, key, value)).entries == MemOf(d).entries[key := Logged(d, key, value)]
  {
    MemFresh(d);
    var r, kept := Logged(d, key, value), Kept(d.wal, d.manifest.lastSeq);
    KeptAppend(d.wal, r, d.manifest.lastSeq);
    assert (kept + [r])[..|kept|] == kept;
  }

  lemma WriteMeans(d: Disk, key: Key, value: Option<Bytes>, truth: map<Key, Bytes>)
    requires DiskOK(d) && Means(d, truth)
    ensures DiskOK(Written(d, key, value)) && Means(Written(d, key, value), Updated(truth, key, value))
  {
    hide MemOf, Tables, Layered, FirstIn;
    WrittenMem(d, key, value);
    var tables, d' := Tables(d.files, d.manifest.names), Written(d, key, value);
    forall k ensures Live(Lookup(MemOf(d').entries, tables, k)) == At(Updated(truth, key, value), k) {
      assert Live(Lookup(MemOf(d).entries, tables, k)) == At(truth, k);
    }
  }

  // ---- a flush -------------------------------------------------------------------------

  /** Durable writes of a flush, in order: the new table, the manifest, the log reset. */
  ghost function Flushed(d: Disk, writes: nat): Disk
    requires Keyed(MemOf(d).entries)
  {
    var m, n := MemOf(d), d.manifest.next + 1;
    if writes == 0 || m.entries == map[] then d
    else
      var files := d.files[n := Listing(m.entries)];
      var last := if d.manifest.lastSeq > m.nextSeq - 1 then d.manifest.lastSeq else m.nextSeq - 1;
      if writes == 1 then d.(files := files)
      else Disk(files, Manifest(d.manifest.names + [n], n, last), if writes == 2 then d.wal else [])
  }

  lemma {:induction false} TablesFrame(files: map<nat, Run>, files': map<nat, Run>, names: seq<nat>)
    requires Named(files, names) && Named(files', names)
    requires forall i :: 0 <= i < |names| ==> files'[names[i]] == files[names[i]]
    ensures Tables(files', names) == Tables(files, names)
  {
    if names != [] { TablesFrame(files, files', names[..|names| - 1]); }
  }

  /** A file that is not published changes nothing. */
  lemma UnpublishedFile(d: Disk, n: nat, run: Run)
    requires DiskOK(d) && n > d.manifest.next
    ensures DiskOK(d.(files := d.files[n := run])) && MemOf(d.(files := d.files[n := run])) == MemOf(d)
    ensures Tables(d.files[n := run], d.manifest.names) == Tables(d.files, d.manifest.names)
  {
    hide Layered;
    TablesFrame(d.files, d.files[n := run], d.manifest.names);
  }

  lemma {:induction false} AllDropped(wal: seq<Record>, lastSeq: nat)
    requires forall i :: 0 <= i < |wal| ==> wal[i].seqNum <= lastSeq
    ensures Kept(wal, lastSeq) == []
  {
    if wal != [] { AllDropped(wal[..|wal| - 1], lastSeq); }
  }

  lemma {:induction false} KeptHolds(wal: seq<Record>, lastSeq: nat, i: nat)
    requires i < |wal| && wal[i].seqNum > lastSeq
    ensures wal[i] in Kept(wal, lastSeq)
  {
    if i < |wal| - 1 { KeptHolds(wal[..|wal| - 1], lastSeq, i); }
  }

  lemma {:induction false} RawAllBelow(m: Mem, rs: seq<Record>, r: Record)
    requires r in rs
    ensures r.seqNum < RawAll(m, rs).nextSeq
  {
    var n := |rs| - 1;
    if r != rs[n] {
      assert r in rs[..n] by { var i :| 0 <= i < |rs| && rs[i] == r; assert rs[..n][i] == r; }
      RawAllBelow(m, rs[..n], r);
    }
  }

  /** Every logged record is below the next sequence number. */
  lemma LogBelow(d: Disk, i: nat)
    requires i < |d.wal|
    ensures d.wal[i].seqNum < MemOf(d).nextSeq
  {
    MemFresh(d);
    if d.wal[i].seqNum > d.manifest.lastSeq {
      KeptHolds(d.wal, d.manifest.lastSeq, i);
      RawAllBelow(Mem(map[], d.manifest.lastSeq + 1), Kept(d.wal, d.manifest.lastSeq), d.wal[i]);
    }
  }

  /** After the publish, whether or not the log was reset, the memtable is empty and goes on counting. */
  lemma FlushedMem(d: Disk, writes: nat)
    requires writes >= 2 && Keyed(MemOf(d).entries) && MemOf(d).entries != map[]
    ensures MemOf(Flushed(d, writes)) == Mem(map[], MemOf(d).nextSeq)
  {
    hide Kept, RawAll;
    var d' := Flushed(d, writes);
    MemFresh(d);
    forall i | 0 <= i < |d'.wal| ensures d'.wal[i].seqNum <= d'.manifest.lastSeq {
      if writes == 2 { LogBelow(d, i); }
    }
    AllDropped(d'.wal, d'.manifest.lastSeq);
    NothingReplayed(Mem(map[], d'.manifest.lastSeq + 1));
  }

  lemma NothingReplayed(m: Mem)
    ensures RawAll(m, []) == m
  {
  }

  lemma FindListing(run: Run, m: map<Key, Record>, key: Key)
    requires IsListing(run, m)
    ensures Find(run, key) == if key in m then Some(m[key]) else None
  {
    FindExact(run, key);
    if key in m { assert m[key] in run; var i :| 0 <= i < |run| && run[i] == m[key]; }
  }

  lemma PublishedTables(d: Disk, n: nat, run: Run)
    requires DiskOK(d) && n > d.manifest.next
    ensures Tables(d.files[n := run], d.manifest.names + [n]) == [run] + Tables(d.files, d.manifest.names)
  {
    var names := d.manifest.names;
    assert (names + [n])[..|names|] == names;
    TablesFrame(d.files, d.files[n := run], names);
  }

  lemma LayeredGrows(run: Run, tables: seq<Run>, top: nat, top': nat)
    requires Layered(tables, top) && Sorted(run) && UpTo(run, top') && top <= top'
    requires forall i :: 0 <= i < |run| ==> run[i].seqNum > top
    ensures Layered([run] + tables, top')
  {
    var ts := [run] + tables;
    forall i | 0 <= i < |ts| ensures Sorted(ts[i]) && UpTo(ts[i], top') {
      if i > 0 { assert ts[i] == tables[i - 1] && UpTo(tables[i - 1], top); }
    }
    forall i, j | 0 <= i < j < |ts| ensures Above(ts[i], ts[j]) {
      assert ts[j] == tables[j - 1] && UpTo(tables[j - 1], top);
      if i > 0 { assert ts[i] == tables[i - 1]; }
    }
  }

  lemma FlushOK(d: Disk, writes: nat)
    requires DiskOK(d) && Keyed(MemOf(d).entries)
    ensures DiskOK(Flushed(d, writes))
  {
    hide MemOf, Tables, Layered, IsListing;
    if writes == 1 { UnpublishedFile(d, d.manifest.next + 1, Listing(MemOf(d).entries)); }
    if writes >= 2 && MemOf(d).entries != map[] { FlushLayers(d, writes); }
  }

  /** However far a flush got, the disk means the same. */
  lemma FlushMeans(d: Disk, writes: nat, truth: map<Key, Bytes>)
    requires DiskOK(d) && Means(d, truth) && Keyed(MemOf(d).entries)
    ensures DiskOK(Flushed(d, writes)) && Means(Flushed(d, writes), truth)
    ensures MemOf(Flushed(d, writes)).nextSeq == MemOf(d).nextSeq
  {
    hide MemOf, Tables, Layered, FirstIn, IsListing;
    var m := MemOf(d);
    FlushOK(d, writes);
    if writes == 0 || m.entries == map[] {
    } else if writes == 1 {
      UnpublishedFile(d, d.manifest.next + 1, Listing(m.entries));
    } else {
      FlushedMem(d, writes);
      FlushLayers(d, writes);
      var run, tables := Listing(m.entries), Tables(d.files, d.manifest.names);
      forall k ensures Live(Lookup(map[], [run] + tables, k)) == At(truth, k) {
        assert Live(Lookup(m.entries, tables, k)) == At(truth, k);
        FindListing(run, m.entries, k);
        FirstOf(run, tables, k);
      }
    }
  }

  lemma SameLog(d: Disk, d': Disk)
    requires d'.wal == d.wal && d'.manifest.lastSeq == d.manifest.lastSeq
    ensures MemOf(d') == MemOf(d)
  {
  }

  lemma FirstOf(run: Run, tables: seq<Run>, key: Key)
    ensures FirstIn([run] + tables, key) == if Find(run, key).Some? then Find(run, key) else FirstIn(tables, key)
  {
    assert ([run] + tables)[1..] == tables;
  }

  lemma FlushLayers(d: Disk, writes: nat)
    requires DiskOK(d) && writes >= 2 && Keyed(MemOf(d).entries) && MemOf(d).entries != map[]
    ensures var d' := Flushed(d, writes);
            && DiskOK(d')
            && Tables(d'.files, d'.manifest.names) == [Listing(MemOf(d).entries)] + Tables(d.files, d.manifest.names)
  {
    hide MemOf, Tables, Layered;
    var m, d' := MemOf(d), Flushed(d, writes);
    var run := Listing(m.entries);
    MemFresh(d);
    PublishedTables(d, d.manifest.next + 1, run);
    forall i | 0 <= i < |run| ensures d.manifest.lastSeq < run[i].seqNum <= d'.manifest.lastSeq {
      assert run[i] in run && m.entries[run[i].key] == run[i];
    }
    LayeredGrows(run, Tables(d.files, d.manifest.names), d.manifest.lastSeq, d'.manifest.lastSeq);
  }

  // ---- layers ------------------------------------------------------------------------------

  lemma LayersCoherent(tables: seq<Run>, top: nat)
    requires Layered(tables, top)
    ensures Mergeable(tables)
  {
    forall r, o | r in All(tables) && o in All(tables) && r.key == o.key && r.seqNum == o.seqNum ensures r == o {
      var s, i :| 0 <= s < |tables| && 0 <= i < |tables[s]| && tables[s][i] == r;
      var t, j :| 0 <= t < |tables| && 0 <= j < |tables[t]| && tables[t][j] == o;
      BelowTotal(r.key, o.key);
      Apart(tables, top, s, i, t, j);
      Apart(tables, top, t, j, s, i);
    }
  }

  lemma Apart(tables: seq<Run>, top: nat, s: nat, i: nat, t: nat, j: nat)
    requires Layered(tables, top) && s < |tables| && i < |tables[s]| && t < |tables| && j < |tables[t]|
    ensures s < t ==> tables[s][i].seqNum > tables[t][j].seqNum
  {
    if s < t { assert Above(tables[s], tables[t]); }
  }

  /** In descending layers the first match is the newest record of the key. */
  lemma {:induction false} FirstIsNewest(tables: seq<Run>, top: nat, key: Key)
    requires Layered(tables, top)
    ensures match FirstIn(tables, key)
            case None => forall r :: r in All(tables) ==> r.key != key
            case Some(r) => r.key == key && Newest(r, All(tables))
  {
    if tables != [] {
      var rest := tables[1..];
      assert Layered(rest, top);
      FirstIsNewest(rest, top, key);
      FindExact(tables[0], key);
      AllSplits(tables);
      if Find(tables[0], key).Some? { TopIsNewest(tables, top, Find(tables[0], key).value); }
    }
  }

  lemma AllSplits(tables: seq<Run>)
    requires tables != []
    ensures forall r :: r in All(tables) <==> r in tables[0] || r in All(tables[1..])
  {
    forall r ensures r in All(tables) <==> r in tables[0] || r in All(tables[1..]) {
      FlatHolds(tables, r);
      FlatHolds(tables[1..], r);
    }
  }

  lemma TopIsNewest(tables: seq<Run>, top: nat, r: Record)
    requires Layered(tables, top) && tables != [] && r in tables[0]
    ensures Newest(r, All(tables))
  {
    var i :| 0 <= i < |tables[0]| && tables[0][i] == r;
    assert r in All(tables);
    forall o | o in All(tables) && o.key == r.key ensures o.seqNum <= r.seqNum {
      var t, j :| 0 <= t < |tables| && 0 <= j < |tables[t]| && tables[t][j] == o;
      BelowTotal(r.key, o.key);
      if t > 0 { assert Above(tables[0], tables[t]); }
    }
  }

  // ---- a compaction --------------------------------------------------------------------------

  function Survivors(m: map<Key, Record>, live: bool): map<Key, Record> {
    map k | k in m && !(live && m[k].kind.Delete?) :: m[k]
  }

  /** Listing the newest records in key order, with or without tombstones, is the merge. */
  lemma ListedIsMerge(m: map<Key, Record>, all: set<Record>, out: seq<Record>, live: bool)
    requires Coherent(all) && Holds(m, all) && IsListing(out, Survivors(m, live))
    ensures IsMerge(out, all, live)
  {
    forall r | r in out ensures Newest(r, all) && !(live && r.kind.Delete?) {
      assert Survivors(m, live)[r.key] == r && Newest(m[r.key], all);
    }
    forall r | Newest(r, all) && !(live && r.kind.Delete?) ensures r in out {
      assert Newest(m[r.key], all) && m[r.key] == r;
      assert r.key in Survivors(m, live);
    }
  }

  lemma MergeExists(rs: seq<Record>, live: bool)
    requires Coherent(Elements(rs))
    ensures exists out :: IsMerge(out, Elements(rs), live)
  {
    LatestHolds(rs);
    ListedIsMerge(Latest(rs), Elements(rs), Listing(Survivors(Latest(rs), live)), live);
  }

  /** The merge of layered tables. */
  ghost function Merged(tables: seq<Run>): (out: Run)
    requires Mergeable(tables)
    ensures IsMerge(out, All(tables), true)
  {
    FlatElements(tables);
    MergeExists(Flat(tables), true);
    var out :| IsMerge(out, All(tables), true); out
  }

  function NameSet(names: seq<nat>): set<nat> { set x | x in names }

  /** Durable writes of a compaction, in order: the new table unless it is empty, the manifest,
      then the removal of the old files, newest first. */
  ghost function Compacted(d: Disk, writes: nat): Disk
    requires DiskOK(d)
  {
    var names, n := d.manifest.names, d.manifest.next + 1;
    var tables := Tables(d.files, names);
    LayersCoherent(tables, d.manifest.lastSeq);
    var out := Merged(tables);
    var files := if out == [] then d.files else d.files[n := out];
    if names == [] || writes == 0 then d
    else if writes == 1 then d.(files := files)
    else
      var removed := if writes - 2 < |names| then names[|names| - (writes - 2)..] else names;
      Disk(files - NameSet(removed), Manifest(if out == [] then [] else [n], n, d.manifest.lastSeq), d.wal)
  }

  lemma MergedReads(tables: seq<Run>, out: Run, top: nat, key: Key)
    requires Layered(tables, top) && IsMerge(out, All(tables), true)
    ensures Live(Find(out, key)) == Live(FirstIn(tables, key))
    ensures Sorted(out) && UpTo(out, top)
  {
    hide FirstIn, Find;
    FirstIsNewest(tables, top, key);
    LayersCoherent(tables, top);
    FindExact(out, key);
    forall i | 0 <= i < |out| ensures out[i].seqNum <= top { InAll(tables, top, out[i]); }
    var r := FirstIn(tables, key);
    if r.Some? && r.value.kind.Put? {
      assert r.value in out;
      var i :| 0 <= i < |out| && out[i] == r.value;
      assert Find(out, key).Some?;
      var j :| 0 <= j < |out| && out[j] == Find(out, key).value;
      BelowTotal(out[i].key, out[j].key);
    }
    if Find(out, key).Some? { assert Newest(Find(out, key).value, All(tables)); }
  }

  lemma InAll(tables: seq<Run>, top: nat, r: Record)
    requires Layered(tables, top) && r in All(tables)
    ensures r.seqNum <= top
  {
    var s, i :| 0 <= s < |tables| && 0 <= i < |tables[s]| && tables[s][i] == r;
    assert UpTo(tables[s], top);
  }

  lemma OneTable(files: map<nat, Run>, n: nat)
    requires n in files
    ensures Tables(files, [n]) == [files[n]] && Named(files, [n])
  {
    assert [n][..0] == [];
  }

  lemma OneLayer(out: Run, top: nat)
    requires Sorted(out) && UpTo(out, top)
    ensures Layered([out], top) && Layered([], top)
  {
  }

  lemma CompactOK(d: Disk, writes: nat)
    requires DiskOK(d)
    ensures DiskOK(Compacted(d, writes)) && MemOf(Compacted(d, writes)) == MemOf(d)
  {
    hide MemOf, Tables, Layered, FirstIn, IsMerge, Mergeable;
    var d', tables := Compacted(d, writes), Tables(d.files, d.manifest.names);
    SameLog(d, d');
    LayersCoherent(tables, d.manifest.lastSeq);
    if writes == 1 && Merged(tables) != [] { UnpublishedFile(d, d.manifest.next + 1, Merged(tables)); }
    if writes >= 2 && d.manifest.names != [] { CompactLayers(d, writes); }
  }

  lemma CompactLayers(d: Disk, writes: nat)
    requires DiskOK(d) && writes >= 2 && d.manifest.names != []
    ensures Mergeable(Tables(d.files, d.manifest.names))
    ensures var d', out := Compacted(d, writes), Merged(Tables(d.files, d.manifest.names));
            DiskOK(d') && Tables(d'.files, d'.manifest.names) == if out == [] then [] else [out]
  {
    hide MemOf, Tables, Layered, FirstIn, IsMerge, Mergeable;
    var d', tables := Compacted(d, writes), Tables(d.files, d.manifest.names);
    LayersCoherent(tables, d.manifest.lastSeq);
    var out := Merged(tables);
    MergedReads(tables, out, d.manifest.lastSeq, []);
    OneLayer(out, d.manifest.lastSeq);
    if out != [] { OneTable(d'.files, d.manifest.next + 1); } else { NoTables(d'.files); }
  }

  /** However far a compaction got, the disk means the same. */
  lemma CompactMeans(d: Disk, writes: nat, truth: map<Key, Bytes>)
    requires DiskOK(d) && Means(d, truth)
    ensures DiskOK(Compacted(d, writes)) && Means(Compacted(d, writes), truth)
  {
    hide MemOf, Tables, Layered, FirstIn, IsMerge, Mergeable;
    var tables, top := Tables(d.files, d.manifest.names), d.manifest.lastSeq;
    CompactOK(d, writes);
    LayersCoherent(tables, top);
    var out := Merged(tables);
    if d.manifest.names == [] || writes == 0 {
    } else if writes == 1 {
      if out != [] { UnpublishedFile(d, d.manifest.next + 1, out); }
    } else {
      CompactLayers(d, writes);
      forall k ensures Live(Lookup(MemOf(d).entries, if out == [] then [] else [out], k)) == At(truth, k) {
        assert Live(Lookup(MemOf(d).entries, tables, k)) == At(truth, k);
        MergedReads(tables, out, top, k);
        OneRun(out, k);
      }
    }
  }

  lemma NoTables(files: map<nat, Run>)
    ensures Tables(files, []) == []
  {
  }

  lemma OneRun(out: Run, key: Key)
    ensures FirstIn([out], key) == Find(out, key) && FirstIn([], key) == None && Find([], key) == None
  {
  }
}
