/** The replica-mode engine and the machine over it, updated in place. */
module ReplicaDb {
  import opened BigEndian
  import opened MemTables
  import opened RaftTypes
  import opened Records
  import opened ReplicaState
  import EngineDisk
  import KvMachine
  import Merging
  import SnapshotImage
  import TableReader

  type Run = EngineDisk.Run

  /** What the manifest publishes: the tables, newest first, and the applied index. */
  datatype Published = Published(tables: seq<Run>, applied: nat)

  class Replica {
    var published: Published
    var mem: MemTable
    var readers: seq<Run>
    var appliedIndex: nat
    var durableIndex: nat
    const flushAt: nat
    const compactAt: nat

    ghost function Value(): State
      reads this, mem
    { State(mem.entries, readers, appliedIndex, durableIndex) }

    /** A crash leaves what is published. */
    ghost predicate Valid()
      reads this, mem
    {
      StateOK(Value()) && mem.Valid() && published == Published(readers, durableIndex) && flushAt > 0
    }

    constructor (p: Published, flushAt: nat, compactAt: nat)
      requires EngineDisk.Layered(p.tables, p.applied) && flushAt > 0
      ensures Valid() && fresh(mem) && published == p && Value() == State(map[], p.tables, p.applied, p.applied)
      ensures this.flushAt == flushAt && this.compactAt == compactAt
    {
      published, readers, appliedIndex, durableIndex := p, p.tables, p.applied, p.applied;
      this.flushAt, this.compactAt := flushAt, compactAt;
      mem := new MemTable(1);
    }

    method Get(key: Key) returns (v: Option<Bytes>)
      requires Valid()
      ensures v == Read(Value(), key)
    {
      if key in mem.entries { return EngineDisk.Live(Some(mem.entries[key])); }
      var i := 0;
      while i < |readers|
        invariant i <= |readers| && EngineDisk.FirstIn(readers, key) == EngineDisk.FirstIn(readers[i..], key)
      {
        assert readers[i..][1..] == readers[i + 1..];
        var r := TableReader.Find(readers[i], key);
        if r.Some? { return EngineDisk.Live(r); }
        i := i + 1;
      }
      return None;
    }

    /** Applies a batch at a committed index. */
    method ApplyBatch(index: nat, ms: seq<Mutation>) returns (ok: bool)
      requires Valid()
      modifies this, mem
      ensures Valid() && (mem == old(mem) || fresh(mem))
      ensures match ReplicaState.ApplyBatch(old(Value()), index, ms, flushAt, compactAt)
              case Refused => !ok && Value() == old(Value())
              case Done(s) => ok && Value() == s
    {
      hide EngineDisk.Layered, Settled;
      if index == 0 { return false; }
      if index <= appliedIndex { return true; }
      if index != appliedIndex + 1 { return false; }
      for i := 0 to |ms|
        invariant forall j :: 0 <= j < i ==> ms[j].key != []
      {
        if ms[i].key == [] { return false; }
      }
      ghost var s := Value();
      MutatedOK(s, ms);
      Mutate(index, ms);
      appliedIndex := index;
      MaybeFlush();
      return true;
    }

    method Mutate(index: nat, ms: seq<Mutation>)
      requires mem.Valid()
      modifies mem
      ensures mem.Valid() && mem.entries == Mutated(old(mem.entries), ms, index)
    {
      for i := 0 to |ms|
        invariant mem.Valid() && mem.entries == Mutated(old(mem.entries), ms[..i], index)
      {
        assert ms[..i + 1][..i] == ms[..i];
        mem.SetRaw(Stamped(ms[i], index));
      }
      assert ms[..|ms|] == ms;
    }

    method MaybeFlush()
      requires mem.Valid() && StateOK(Value()) && published == Published(readers, durableIndex) && flushAt > 0
      modifies this
      ensures Valid() && (mem == old(mem) || fresh(mem)) && Value() == Settled(old(Value()), flushAt, compactAt)
    {
      hide EngineDisk.Layered, FlushedFully;
      if |mem.entries| >= flushAt { Flush(); }
    }

    method Flush()
      requires Valid()
      modifies this
      ensures Valid() && (mem == old(mem) || fresh(mem)) && Value() == FlushedFully(old(Value()), compactAt)
    {
      hide EngineDisk.Layered, Listing, Compacted;
      FlushReads(Value(), []);
      var records := mem.SortedEntries();
      NothingListed(mem.entries);
      if |records| == 0 {
        if appliedIndex > durableIndex {
          published := published.(applied := appliedIndex);
          durableIndex := appliedIndex;
        }
        return;
      }
      published := Published([records] + published.tables, appliedIndex);
      readers := [records] + readers;
      mem := new MemTable(mem.nextSeq);
      durableIndex := appliedIndex;
      if |readers| >= compactAt { CompactAll(); }
    }

    method CompactAll()
      requires Valid()
      modifies this
      ensures Valid() && mem == old(mem) && Value() == Compacted(old(Value()))
    {
      hide EngineDisk.Layered, Records.IsMerge, Merging.Mergeable;
      CompactReads(Value(), []);
      EngineDisk.LayersCoherent(readers, durableIndex);
      if |readers| == 0 {
        NothingMerged();
        return;
      }
      var out := Merging.Merge(readers, true);
      MergeUnique(out, EngineDisk.Merged(readers), Merging.All(readers), true);
      var tables := if |out| > 0 then [out] else [];
      published := published.(tables := tables);
      readers := tables;
    }

    /** The live records of all layers in key order, by the heap merge. */
    method Visit() returns (rs: seq<Record>)
      requires Valid()
      ensures rs == Contents(Value())
    {
      hide EngineDisk.Layered, Records.IsMerge, Merging.Mergeable;
      LayersOK(Value());
      var sorted := mem.SortedEntries();
      rs := Merging.Merge([sorted] + readers, true);
      MergeUnique(rs, Contents(Value()), Merging.All(Layers(Value())), true);
    }

    /** Nothing is written before anything is applied, or when a field is too long. */
    method WriteSnapshot() returns (image: Option<Bytes>)
      requires Valid()
      ensures image == if appliedIndex == 0 then None else ImageOf(Value())
    {
      hide StateOK, Contents, SnapshotImage.Writable, SnapshotImage.EncodePair;
      if appliedIndex == 0 { return None; }
      var rs := Visit();
      var b := SnapshotImage.MAGIC + PutBig(|rs|, 8);
      ghost var head := b;
      ghost var ps := Pairs(rs);
      for i := 0 to |rs|
        invariant b == head + SnapshotImage.EncodePairs(ps[..i])
        invariant forall j :: 0 <= j < i ==> SnapshotImage.Writable(ps[j])
      {
        var p := SnapshotImage.Pair(rs[i].key, rs[i].value);
        assert ps[i] == p;
        if !SnapshotImage.Writable(p) { return None; }
        EncodeNext(ps, i);
        b := b + SnapshotImage.EncodePair(p);
      }
      assert ps[..|rs|] == ps;
      return Some(b);
    }

    /** Checks an image pair by pair and publishes it as the whole state. */
    method ReplaceSnapshot(index: nat, image: Bytes) returns (ok: bool)
      requires Valid()
      modifies this
      ensures Valid() && (mem == old(mem) || fresh(mem))
      ensures match Replaced(old(Value()), index, image)
              case Refused => !ok && Value() == old(Value())
              case Done(s) => ok && Value() == s
    {
      hide EngineDisk.Layered, SnapshotImage.Decode, Restored;
      if index == 0 || index < appliedIndex { return false; }
      var ps := ReadImage(image);
      if ps.None? { return false; }
      var rs := Stamp(ps.value, index);
      RestoredOK(image, ps.value, index);
      var tables := if |rs| > 0 then [rs] else [];
      published := Published(tables, index);
      readers := tables;
      mem := new MemTable(index + 1);
      appliedIndex, durableIndex := index, index;
      return true;
    }

    /** One map of the newest record per key, and its live records in key order. */
    method ExportState() returns (ps: seq<SnapshotImage.Pair>)
      requires Valid()
      ensures ps == Pairs(Contents(Value()))
    {
      hide EngineDisk.Layered, IsMerge, Merging.Mergeable, Latest, Merging.Flat;
      ghost var layers := Layers(Value());
      LayersOK(Value());
      var sorted := mem.SortedEntries();
      var all := Collect([sorted] + readers);
      var byKey: map<Key, Record> := map[];
      assert Latest(all[..0]) == map[] by { LatestNone(all); }
      for i := 0 to |all|
        invariant byKey == Latest(all[..i])
      {
        LatestNext(all, i);
        byKey := Insert(byKey, all[i]);
      }
      assert all[..|all|] == all;
      LatestHolds(all);
      Merging.FlatElements(layers);
      MergeableCoherent(layers);
      var live := map k | k in byKey && byKey[k].kind.Put? :: byKey[k];
      assert live == EngineDisk.Survivors(byKey, true);
      var rs := ListRecords(live);
      EngineDisk.ListedIsMerge(byKey, Merging.All(layers), rs, true);
      MergeUnique(rs, Contents(Value()), Merging.All(layers), true);
      ps := PairUp(rs);
    }
  }

  method PairUp(rs: seq<Record>) returns (ps: seq<SnapshotImage.Pair>)
    ensures ps == Pairs(rs)
  {
    ps := [];
    for i := 0 to |rs|
      invariant |ps| == i && forall j :: 0 <= j < i ==> ps[j] == SnapshotImage.Pair(rs[j].key, rs[j].value)
    {
      ps := ps + [SnapshotImage.Pair(rs[i].key, rs[i].value)];
    }
  }

  method Stamp(ps: seq<SnapshotImage.Pair>, index: nat) returns (rs: seq<Record>)
    ensures rs == Restored(ps, index)
  {
    rs := [];
    for i := 0 to |ps|
      invariant |rs| == i && forall j :: 0 <= j < i ==> rs[j] == Record(ps[j].key, ps[j].value, index, Put)
    {
      rs := rs + [Record(ps[i].key, ps[i].value, index, Put)];
    }
  }

  method Collect(sources: seq<Run>) returns (all: seq<Record>)
    ensures all == Merging.Flat(sources)
  {
    all := [];
    var i := 0;
    assert sources[0..] == sources;
    while i < |sources|
      invariant i <= |sources| && Merging.Flat(sources) == all + Merging.Flat(sources[i..])
    {
      assert sources[i..][1..] == sources[i + 1..];
      all := all + sources[i];
      i := i + 1;
    }
    assert all + [] == all;
  }

  lemma MergeableCoherent(layers: seq<Run>)
    requires Merging.Mergeable(layers)
    ensures Coherent(Merging.All(layers))
  {
  }

  /** The pairs read so far before the rest. */
  function Joined(ps: seq<SnapshotImage.Pair>, rest: Option<seq<SnapshotImage.Pair>>): Option<seq<SnapshotImage.Pair>> {
    if rest.None? then None else Some(ps + rest.value)
  }

  method ReadImage(b: Bytes) returns (r: Option<seq<SnapshotImage.Pair>>)
    ensures r == SnapshotImage.Decode(b)
  {
    hide SnapshotImage.ParsePair, Below;
    if |b| < 16 { return None; }
    if b[..8] != SnapshotImage.MAGIC { return None; }
    var count := GetBig(b[8..16]);
    if count > (|b| - 16) / 8 || count > SnapshotImage.MAX_COUNT { return None; }
    var ps: seq<SnapshotImage.Pair>, pos: nat, previous: Key := [], 16, [];
    ghost var whole := SnapshotImage.ParsePairs(b[16..], count, []);
    if whole.Some? { assert [] + whole.value == whole.value; }
    for i := 0 to count
      invariant pos <= |b|
      invariant SnapshotImage.ParsePairs(b[16..], count, [])
             == Joined(ps, SnapshotImage.ParsePairs(b[pos..], count - i, previous))
    {
      var f := SnapshotImage.ParsePair(b[pos..]);
      if f.None? { return None; }
      if !Below(previous, f.value.pair.key) { return None; }
      assert b[pos..][f.value.size..] == b[pos + f.value.size..];
      ghost var was, rest := ps, SnapshotImage.ParsePairs(b[pos + f.value.size..], count - i - 1, f.value.pair.key);
      ps, pos, previous := ps + [f.value.pair], pos + f.value.size, f.value.pair.key;
      if rest.Some? { assert was + ([f.value.pair] + rest.value) == ps + rest.value; }
    }
    if pos < |b| { return None; }
    assert ps + [] == ps;
    return Some(ps);
  }

  lemma RestoredOK(image: Bytes, ps: seq<SnapshotImage.Pair>, index: nat)
    requires SnapshotImage.Decode(image) == Some(ps)
    ensures EngineDisk.Layered([Restored(ps, index)], index) && EngineDisk.Layered([], index)
  {
    SnapshotImage.EncodedSo(image, ps);
    RestoredSorted(ps, index, []);
    EngineDisk.OneLayer(Restored(ps, index), index);
  }

  lemma {:induction false} RestoredSorted(ps: seq<SnapshotImage.Pair>, index: nat, previous: Key)
    requires SnapshotImage.WellFormed(ps, previous)
    ensures Sorted(Restored(ps, index)) && forall i :: 0 <= i < |ps| ==> Below(previous, ps[i].key)
  {
    if ps != [] {
      RestoredSorted(ps[1..], index, ps[0].key);
      var rs, rest := Restored(ps, index), Restored(ps[1..], index);
      assert forall i :: 0 < i < |ps| ==> rs[i] == rest[i - 1] && ps[i] == ps[1..][i - 1];
      forall i | 0 < i < |ps| ensures Below(previous, ps[i].key) { BelowTrans(previous, ps[0].key, ps[i].key); }
    }
  }

  /** The state machine over a replica-mode engine. */
  class Machine {
    const db: Replica

    constructor (db: Replica)
      ensures this.db == db
    {
      this.db := db;
    }

    /** Applies one committed entry. */
    method Apply(index: nat, e: KvMachine.KvEntry) returns (ok: bool)
      requires db.Valid()
      modifies db, db.mem
      ensures db.Valid() && (db.mem == old(db.mem) || fresh(db.mem))
      ensures match KvMachine.Apply(old(db.Value()), index, e, db.flushAt, db.compactAt)
              case Refused => !ok && db.Value() == old(db.Value())
              case Done(s) => ok && db.Value() == s
    {
      hide StateOK, ReplicaState.ApplyBatch;
      if e.Empty? {
        ok := db.ApplyBatch(index, []);
        return;
      }
      if !KvMachine.Valid(e) { return false; }
      var session := KvMachine.SESSION + e.client;
      var stored := db.Get(session);
      if stored.Some? && |stored.value| == 8 && e.number <= GetBig(stored.value) {
        ok := db.ApplyBatch(index, []);
        return;
      }
      ok := db.ApplyBatch(index,
        [Mutation(KvMachine.USER + e.key, e.value), Mutation(session, Some(PutBig(e.number, 8)))]);
    }

    /** A client's read sees only client data. */
    method Get(key: Bytes, ghost kv: KvMachine.Kv) returns (ok: bool, v: Option<Bytes>)
      requires db.Valid() && KvMachine.Shows(db.Value(), kv)
      ensures ok <==> 0 < |key| <= KvMachine.MAX_KEY_BYTES
      ensures ok ==> v == EngineDisk.At(kv.data, key)
    {
      if |key| == 0 || |key| > KvMachine.MAX_KEY_BYTES { return false, None; }
      KvMachine.UserCell(kv, key);
      v := db.Get(KvMachine.USER + key);
      ok := true;
    }
  }

  lemma NothingMerged()
    ensures Merging.Mergeable([]) && EngineDisk.Merged([]) == []
  {
    assert Merging.All([]) == {};
    MergeUnique(EngineDisk.Merged([]), [], {}, true);
  }

  lemma {:induction false} EncodeNext(ps: seq<SnapshotImage.Pair>, i: nat)
    requires i < |ps|
    ensures SnapshotImage.EncodePairs(ps[..i + 1])
         == SnapshotImage.EncodePairs(ps[..i]) + SnapshotImage.EncodePair(ps[i])
  {
    hide SnapshotImage.EncodePair;
    if i == 0 {
      assert ps[..1][1..] == [];
    } else {
      EncodeNext(ps[1..], i - 1);
      assert ps[1..][..i] == ps[..i + 1][1..] && ps[1..][..i - 1] == ps[..i][1..];
    }
  }
}
