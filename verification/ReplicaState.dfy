/** The engine in replica mode: committed batches, flushes, compactions, crashes and snapshots. */
module ReplicaState {
  import opened EngineDisk
  import opened Merging
  import opened MemTables
  import opened RaftTypes
  import opened Records
  import opened TableReader
  import SnapshotImage

  /** A put, or a delete. */
  datatype Mutation = Mutation(key: Key, value: Option<Bytes>)

  /** Memtable, tables newest first, the highest index applied and the highest published. A crash leaves
      the tables and the published index. */
  datatype State = State(entries: map<Key, Record>, tables: seq<Run>, applied: nat, durable: nat)

  ghost predicate StateOK(s: State) {
    && s.durable <= s.applied && Layered(s.tables, s.durable) && Keyed(s.entries)
    && forall k :: k in s.entries ==> s.durable < s.entries[k].seqNum <= s.applied
  }

  function Read(s: State, key: Key): Option<Bytes> { Live(Lookup(s.entries, s.tables, key)) }

  // ---- batches ------------------------------------------------------------------

  /** Every record of a batch carries the batch's index. */
  function Stamped(m: Mutation, index: nat): Record {
    Record(m.key, if m.value.Some? then m.value.value else [], index, if m.value.Some? then Put else Delete)
  }

  function Mutated(entries: map<Key, Record>, ms: seq<Mutation>, index: nat): map<Key, Record> {
    if ms == [] then entries
    else Insert(Mutated(entries, ms[..|ms| - 1], index), Stamped(ms[|ms| - 1], index))
  }

  datatype Outcome = Refused | Done(state: State)

  predicate NamesKeys(ms: seq<Mutation>) { forall i :: 0 <= i < |ms| ==> ms[i].key != [] }

  /** An index already applied changes nothing, a gap is refused. */
  ghost function ApplyBatch(s: State, index: nat, ms: seq<Mutation>, flushAt: nat, compactAt: nat): Outcome
    requires StateOK(s)
  {
    if index == 0 then Refused
    else if index <= s.applied then Done(s)
    else if index != s.applied + 1 || !NamesKeys(ms) then Refused
    else
      MutatedOK(s, ms);
      Done(Settled(State(Mutated(s.entries, ms, index), s.tables, index, s.durable), flushAt, compactAt))
  }

  lemma {:induction false} MutatedEntries(entries: map<Key, Record>, ms: seq<Mutation>, index: nat, low: nat)
    requires Keyed(entries) && low < index && forall k :: k in entries ==> low < entries[k].seqNum < index
    ensures var m := Mutated(entries, ms, index);
      Keyed(m) && forall k :: k in m ==> low < m[k].seqNum <= index
  {
    if ms != [] { MutatedEntries(entries, ms[..|ms| - 1], index, low); }
  }

  lemma MutatedOK(s: State, ms: seq<Mutation>)
    requires StateOK(s)
    ensures StateOK(State(Mutated(s.entries, ms, s.applied + 1), s.tables, s.applied + 1, s.durable))
  {
    MutatedEntries(s.entries, ms, s.applied + 1, s.durable);
  }

  ghost predicate DistinctKeys(ms: seq<Mutation>) {
    forall i, j :: 0 <= i < j < |ms| ==> ms[i].key != ms[j].key
  }

  /** A batch with distinct keys does exactly what it says. */
  lemma {:induction false} MutatedReads(entries: map<Key, Record>, ms: seq<Mutation>, index: nat, key: Key)
    requires DistinctKeys(ms) && forall k :: k in entries ==> entries[k].seqNum < index
    ensures var m := Mutated(entries, ms, index);
      && (forall i :: 0 <= i < |ms| && ms[i].key == key ==> key in m && m[key] == Stamped(ms[i], index))
      && ((forall i :: 0 <= i < |ms| ==> ms[i].key != key) ==>
            (key in m <==> key in entries) && (key in m ==> m[key] == entries[key]))
  {
    if ms != [] {
      var n := |ms| - 1;
      MutatedReads(entries, ms[..n], index, key);
      MutatedReads(entries, ms[..n], index, ms[n].key);
    }
  }

  // ---- flushes, compactions, crashes ---------------------------------------------------

  /** Without records only the applied index is published. */
  ghost function Flushed(s: State): State
    requires Keyed(s.entries)
  {
    if s.entries == map[] then s.(durable := s.applied)
    else State(map[], [Listing(s.entries)] + s.tables, s.applied, s.applied)
  }

  ghost function Compacted(s: State): State
    requires StateOK(s)
  {
    LayersCoherent(s.tables, s.durable);
    s.(tables := if Merged(s.tables) == [] then [] else [Merged(s.tables)])
  }

  ghost function FlushedFully(s: State, compactAt: nat): State
    requires StateOK(s)
  {
    FlushReads(s, []);
    var f := Flushed(s);
    if s.entries == map[] || |f.tables| < compactAt then f else Compacted(f)
  }

  ghost function Settled(s: State, flushAt: nat, compactAt: nat): State
    requires StateOK(s)
  { if |s.entries| < flushAt then s else FlushedFully(s, compactAt) }

  function Crashed(s: State): State { State(map[], s.tables, s.durable, s.durable) }

  lemma FlushReads(s: State, key: Key)
    requires StateOK(s)
    ensures StateOK(Flushed(s)) && Read(Flushed(s), key) == Read(s, key)
    ensures Flushed(s).applied == Flushed(s).durable == s.applied && Flushed(s).entries == map[]
  {
    hide FirstIn, Find;
    if s.entries == map[] {
      LayeredHigher(s.tables, s.durable, s.applied);
    } else {
      var run := Listing(s.entries);
      forall i | 0 <= i < |run| ensures s.durable < run[i].seqNum <= s.applied {
        assert run[i] in run && s.entries[run[i].key] == run[i];
      }
      LayeredGrows(run, s.tables, s.durable, s.applied);
      FindListing(run, s.entries, key);
      FirstOf(run, s.tables, key);
    }
  }

  lemma LayeredHigher(tables: seq<Run>, top: nat, top': nat)
    requires Layered(tables, top) && top <= top'
    ensures Layered(tables, top')
  {
    forall i | 0 <= i < |tables| ensures UpTo(tables[i], top') { assert UpTo(tables[i], top); }
  }

  lemma CompactReads(s: State, key: Key)
    requires StateOK(s)
    ensures StateOK(Compacted(s)) && Read(Compacted(s), key) == Read(s, key)
    ensures Live(FirstIn(Compacted(s).tables, key)) == Live(FirstIn(s.tables, key))
  {
    hide Layered, FirstIn, IsMerge, Mergeable;
    LayersCoherent(s.tables, s.durable);
    var out := Merged(s.tables);
    MergedReads(s.tables, out, s.durable, key);
    OneLayer(out, s.durable);
    OneRun(out, key);
  }

  lemma SettledReads(s: State, flushAt: nat, compactAt: nat, key: Key)
    requires StateOK(s)
    ensures var t := Settled(s, flushAt, compactAt);
      && StateOK(t) && Read(t, key) == Read(s, key) && t.applied == s.applied
      && (t == s || (t.durable == t.applied && t.entries == map[]))
  {
    hide Layered, Read, Flushed, Compacted;
    FlushReads(s, key);
    CompactReads(Flushed(s), key);
    CompactShape(Flushed(s));
  }

  lemma CompactShape(s: State)
    requires StateOK(s)
    ensures Compacted(s).applied == s.applied && Compacted(s).durable == s.durable && Compacted(s).entries == s.entries
  {
  }

  // ---- snapshots ------------------------------------------------------------------------

  ghost function Layers(s: State): seq<Run>
    requires Keyed(s.entries)
  { [Listing(s.entries)] + s.tables }

  lemma LayersOK(s: State)
    requires StateOK(s)
    ensures Layered(Layers(s), s.applied) && Mergeable(Layers(s))
  {
    hide Layered, Mergeable;
    var run := Listing(s.entries);
    forall i | 0 <= i < |run| ensures s.durable < run[i].seqNum <= s.applied {
      assert run[i] in run && s.entries[run[i].key] == run[i];
    }
    assert UpTo(run, s.applied);
    LayeredGrows(run, s.tables, s.durable, s.applied);
    LayersCoherent(Layers(s), s.applied);
  }

  /** A snapshot holds what the replica reads: the merge of all its layers, live records only. */
  ghost function Contents(s: State): Run
    requires StateOK(s)
  {
    LayersOK(s);
    Merged(Layers(s))
  }

  lemma ContentsRead(s: State, key: Key)
    requires StateOK(s)
    ensures Live(Find(Contents(s), key)) == Read(s, key)
    ensures forall i :: 0 <= i < |Contents(s)| ==> Contents(s)[i].kind.Put?
  {
    hide Layered, FirstIn, Find, Mergeable;
    LayersOK(s);
    MergedReads(Layers(s), Contents(s), s.applied, key);
    FirstOf(Listing(s.entries), s.tables, key);
    FindListing(Listing(s.entries), s.entries, key);
    assert forall i :: 0 <= i < |Contents(s)| ==> Contents(s)[i] in Contents(s);
  }

  function Pairs(rs: seq<Record>): (ps: seq<SnapshotImage.Pair>)
    ensures |ps| == |rs|
  { seq(|rs|, i requires 0 <= i < |rs| => SnapshotImage.Pair(rs[i].key, rs[i].value)) }

  /** The records a restored image becomes. */
  function Restored(ps: seq<SnapshotImage.Pair>, index: nat): (rs: seq<Record>)
    ensures |rs| == |ps|
  { seq(|ps|, i requires 0 <= i < |ps| => Record(ps[i].key, ps[i].value, index, Put)) }

  /** The image written, unless a field is too long for its length to be written. */
  ghost function ImageOf(s: State): Option<Bytes>
    requires StateOK(s)
  {
    if forall i :: 0 <= i < |Contents(s)| ==> SnapshotImage.Writable(Pairs(Contents(s))[i])
    then Some(SnapshotImage.Encode(Pairs(Contents(s)))) else None
  }

  /** Replacing the state by an image: refused at index zero, below the applied index, or when malformed. */
  function Replaced(s: State, index: nat, image: Bytes): Outcome {
    var ps := SnapshotImage.Decode(image);
    if index == 0 || index < s.applied || ps.None? then Refused
    else Done(State(map[], if ps.value == [] then [] else [Restored(ps.value, index)], index, index))
  }

  /** Every live key and value is within the image's limits. */
  ghost predicate Imageable(s: State)
    requires StateOK(s)
  {
    && |Contents(s)| <= SnapshotImage.MAX_COUNT
    && forall p :: p in Pairs(Contents(s)) ==> SnapshotImage.Fits(p)
  }

  lemma {:induction false} PairsWellFormed(rs: seq<Record>, previous: Key)
    requires Sorted(rs) && (rs != [] && rs[0].key != [] ==> Below(previous, rs[0].key))
    ensures SnapshotImage.WellFormed(Pairs(rs), previous) <==> forall p :: p in Pairs(rs) ==> SnapshotImage.Fits(p)
  {
    hide SnapshotImage.Fits;
    if rs != [] {
      var rest := rs[1..];
      assert Pairs(rs)[1..] == Pairs(rest) && Pairs(rs) == [Pairs(rs)[0]] + Pairs(rest);
      PairsWellFormed(rest, rs[0].key);
      assert SnapshotImage.Fits(Pairs(rs)[0]) ==> rs[0].key != [] by { FitsNonEmpty(Pairs(rs)[0]); }
    }
  }

  lemma FitsNonEmpty(p: SnapshotImage.Pair)
    ensures SnapshotImage.Fits(p) ==> p.key != []
  {
  }

  lemma RestoredReads(rs: seq<Record>, index: nat, key: Key)
    requires Sorted(rs) && forall i :: 0 <= i < |rs| ==> rs[i].kind.Put?
    ensures Live(Find(Restored(Pairs(rs), index), key)) == Live(Find(rs, key))
    ensures Sorted(Restored(Pairs(rs), index)) && UpTo(Restored(Pairs(rs), index), index)
  {
    hide Find;
    var out := Restored(Pairs(rs), index);
    FindExact(rs, key);
    FindExact(out, key);
    if Find(rs, key).Some? {
      var i :| 0 <= i < |rs| && rs[i] == Find(rs, key).value;
      assert out[i].key == key;
      var j :| 0 <= j < |out| && out[j] == Find(out, key).value;
      BelowTotal(rs[i].key, rs[j].key);
    }
    if Find(out, key).Some? {
      var j :| 0 <= j < |out| && out[j] == Find(out, key).value;
      assert rs[j].key == key;
    }
  }

  /** Writing a snapshot and replacing from it, on any replica that is not ahead: accepted exactly when
      every live field is within the limits, and then every read is the same. */
  lemma SnapshotRestores(s: State, t: State, key: Key)
    requires StateOK(s) && 0 < s.applied && t.applied <= s.applied && |Contents(s)| <= SnapshotImage.MAX_COUNT
    ensures Imageable(s) <==> ImageOf(s).Some? && Replaced(t, s.applied, ImageOf(s).value).Done?
    ensures Imageable(s) ==>
      var r := Replaced(t, s.applied, ImageOf(s).value);
      StateOK(r.state) && Read(r.state, key) == Read(s, key) && r.state.applied == r.state.durable == s.applied
  {
    hide Contents, Find, FirstIn, Layered, SnapshotImage.Decode, SnapshotImage.Encode, SnapshotImage.WellFormed;
    var rs := Contents(s);
    ContentsSorted(s);
    ContentsRead(s, key);
    PairsWellFormed(rs, []);
    assert forall i :: 0 <= i < |rs| ==> Pairs(rs)[i] in Pairs(rs);
    if ImageOf(s).Some? { SnapshotImage.DecodesBack(Pairs(rs)); }
    RestoredReads(rs, s.applied, key);
    OneLayer(Restored(Pairs(rs), s.applied), s.applied);
    OneRun(Restored(Pairs(rs), s.applied), key);
  }

  lemma ContentsSorted(s: State)
    requires StateOK(s)
    ensures Sorted(Contents(s))
  {
    LayersOK(s);
  }

  // ---- a snapshot no replica takes -----------------------------------------------------

  const EMPTY := State(map[], [], 0, 0)

  lemma OnePut(key: Key, value: Bytes, flushAt: nat, compactAt: nat)
    requires key != []
    ensures StateOK(EMPTY)
    ensures var r := ApplyBatch(EMPTY, 1, [Mutation(key, Some(value))], flushAt, compactAt);
      && r.Done? && StateOK(r.state) && r.state.applied == 1
      && forall k :: Read(r.state, k) == if k == key then Some(value) else None
  {
    var ms := [Mutation(key, Some(value))];
    assert ms[..0] == [];
    MutatedOK(EMPTY, ms);
    hide Settled, Layered;
    var s := State(Mutated(map[], ms, 1), [], 1, 0);
    assert Mutated(map[], ms[..0], 1) == map[];
    assert s.entries == map[key := Record(key, value, 1, Put)];
    forall k ensures Read(Settled(s, flushAt, compactAt), k) == if k == key then Some(value) else None {
      SettledReads(s, flushAt, compactAt, k);
      assert FirstIn([], k) == None;
    }
    SettledReads(s, flushAt, compactAt, key);
  }

  lemma OnlyPair(s: State, key: Key, value: Bytes)
    requires StateOK(s) && forall k :: Read(s, k) == if k == key then Some(value) else None
    ensures Pairs(Contents(s)) == [SnapshotImage.Pair(key, value)]
  {
    hide Contents, Find, Read;
    var rs := Contents(s);
    ContentsSorted(s);
    assert |rs| > 1 ==> Below(rs[0].key, rs[1].key);
    forall i | 0 <= i < |rs| ensures rs[i].key == key && rs[i].value == value {
      ContentsRead(s, rs[i].key);
      FindAt(rs, i);
    }
    ContentsRead(s, key);
    FindExact(rs, key);
    BelowTotal(key, key);
  }

  lemma FindAt(rs: Run, i: nat)
    requires Sorted(rs) && i < |rs|
    ensures Find(rs, rs[i].key) == Some(rs[i])
  {
    hide Find;
    FindExact(rs, rs[i].key);
    var j :| 0 <= j < |rs| && rs[j] == Find(rs, rs[i].key).value;
    BelowTotal(rs[i].key, rs[j].key);
  }

  /** A replica takes a value one byte over the image's limit and reads it back; its snapshot is written, and
      refused by every replica. */
  lemma OversizeValueNeverRestores(key: Key, value: Bytes, flushAt: nat, compactAt: nat, t: State)
    requires 0 < |key| <= SnapshotImage.MAX_FIELD && |value| == SnapshotImage.MAX_FIELD + 1 && t.applied <= 1
    ensures StateOK(EMPTY)
    ensures var r := ApplyBatch(EMPTY, 1, [Mutation(key, Some(value))], flushAt, compactAt);
      && r.Done? && StateOK(r.state) && Read(r.state, key) == Some(value)
      && ImageOf(r.state).Some? && Replaced(t, 1, ImageOf(r.state).value) == Refused
  {
    hide Read, Contents, Settled, SnapshotImage.Encode, SnapshotImage.Decode;
    OnePut(key, value, flushAt, compactAt);
    var s := ApplyBatch(EMPTY, 1, [Mutation(key, Some(value))], flushAt, compactAt).state;
    OnlyPair(s, key, value);
    SnapshotRestores(s, t, key);
    assert Pairs(Contents(s))[0] in Pairs(Contents(s));
  }
}
