/** Every run of the embedded engine, with crashes at every durable write, against a map. */
module EngineRuns {
  import opened EngineDisk
  import opened MemTables
  import opened RaftTypes
  import opened Records
  import Wal

  /** A Set, or a Delete. */
  datatype Change = Change(key: Key, value: Option<Bytes>)

  predicate SmallChange(c: Change) {
    |c.key| <= Wal.MAX_KEY && (c.value.Some? ==> |c.value.value| <= Wal.MAX_VALUE)
  }

  /** What happens to a store. A write cut off by a crash has put some bytes of its record in the log, a flush
      or compaction has made some of its durable writes; the store is then reopened. */
  datatype Event =
    | Write(change: Change)
    | WriteCrash(change: Change, bytes: nat)
    | Flush
    | Compact
    | Crash
    | FlushCrash(writes: nat)
    | CompactCrash(writes: nat)

  /** The length of a change's log record. */
  function RecordBytes(c: Change): nat {
    Wal.HEADER + |c.key| + (if c.value.Some? then |c.value.value| else 0) + 4
  }

  /** The change an event puts in the log. */
  function Logs(e: Event): Option<Change> {
    if e.Write? || (e.WriteCrash? && e.bytes >= RecordBytes(e.change)) then Some(e.change) else None
  }

  // ---- the specification ------------------------------------------------------

  function Applied(base: map<Key, Bytes>, cs: seq<Change>): map<Key, Bytes> {
    if cs == [] then base
    else Updated(Applied(base, cs[..|cs| - 1]), cs[|cs| - 1].key, cs[|cs| - 1].value)
  }

  /** The changes before the first that replay refuses. */
  function Safe(cs: seq<Change>): (r: seq<Change>)
    ensures |r| <= |cs| && r == cs[..|r|]
  {
    if cs == [] || !SmallChange(cs[0]) then [] else [cs[0]] + Safe(cs[1..])
  }

  /** The map at the last flush, and the changes since. */
  datatype Model = Model(base: map<Key, Bytes>, pending: seq<Change>)

  function Contents(m: Model): map<Key, Bytes> { Applied(m.base, m.pending) }

  function Step(m: Model, e: Event): Model {
    match e
    case Write(c) => m.(pending := m.pending + [c])
    case WriteCrash(c, _) => m.(pending := Safe(if Logs(e).Some? then m.pending + [c] else m.pending))
    case Flush => Model(Contents(m), [])
    case Compact => m
    case Crash => m.(pending := Safe(m.pending))
    case FlushCrash(w) => if w < 2 || m.pending == [] then m.(pending := Safe(m.pending)) else Model(Contents(m), [])
    case CompactCrash(w) => m.(pending := Safe(m.pending))
  }

  function ModelAfter(m: Model, events: seq<Event>): Model {
    if events == [] then m else Step(ModelAfter(m, events[..|events| - 1]), events[|events| - 1])
  }

  ghost predicate AllSmall(cs: seq<Change>) { forall i :: 0 <= i < |cs| ==> SmallChange(cs[i]) }

  /** The crash leaves a log that cannot be opened: it ends right after the header of a record that replay
      would accept, after records it accepts. */
  ghost predicate Locks(m: Model, e: Event) {
    e.WriteCrash? && e.bytes == Wal.HEADER && SmallChange(e.change) && AllSmall(m.pending)
  }

  /** No crash of the run does that. */
  ghost predicate Opens(m: Model, events: seq<Event>) {
    forall i :: 0 <= i < |events| ==> !Locks(ModelAfter(m, events[..i]), events[i])
  }

  /** The last write of every key that reached the log, crashes or not. */
  function Truth(base: map<Key, Bytes>, events: seq<Event>): map<Key, Bytes> {
    if events == [] then base
    else
      var truth, last := Truth(base, events[..|events| - 1]), events[|events| - 1];
      if Logs(last).Some? then Updated(truth, last.change.key, last.change.value) else truth
  }

  // ---- the store ------------------------------------------------------------------

  /** What replay leaves of the log. */
  function Reopened(d: Disk): Disk { d.(wal := Wal.Replayable(d.wal)) }

  const EMPTY := Disk(map[], Manifest([], 0, 0), [])

  ghost function StoreStep(d: Disk, e: Event): (d': Disk)
    requires DiskOK(d)
    ensures DiskOK(d')
  {
    hide MemOf, Flushed, Compacted, Tables;
    MemFresh(d);
    match e
    case Write(c) => Written(d, c.key, c.value)
    case WriteCrash(c, _) => Reopened(if Logs(e).Some? then Written(d, c.key, c.value) else d)
    case Flush => FlushOK(d, 3); Flushed(d, 3)
    case Compact => CompactOK(d, 2 + |d.manifest.names|); Compacted(d, 2 + |d.manifest.names|)
    case Crash => Reopened(d)
    case FlushCrash(w) => FlushOK(d, w); Reopened(Flushed(d, w))
    case CompactCrash(w) => CompactOK(d, w); Reopened(Compacted(d, w))
  }

  /** Opening the store again fails. */
  ghost predicate Fails(d: Disk, e: Event) {
    && e.WriteCrash? && e.bytes == Wal.HEADER
    && Wal.AllSmall(d.wal) && Wal.Small(Logged(d, e.change.key, e.change.value))
  }

  /** The store after a run; None when it could not be opened again. */
  ghost function After(d: Disk, events: seq<Event>): (r: Option<Disk>)
    requires DiskOK(d)
    ensures r.Some? ==> DiskOK(r.value)
  {
    if events == [] then Some(d)
    else
      var before := After(d, events[..|events| - 1]);
      if before.None? || Fails(before.value, events[|events| - 1]) then None
      else Some(StoreStep(before.value, events[|events| - 1]))
  }

  /** This is what replay makes of the bytes in the log file. */
  lemma WriteCutExactly(crc: Bytes -> nat, d: Disk, c: Change, bytes: nat)
    requires DiskOK(d) && bytes <= RecordBytes(c) && Wal.Encodable(Logged(d, c.key, c.value))
    requires forall i :: 0 <= i < |d.wal| ==> Wal.Encodable(d.wal[i])
    ensures var e := WriteCrash(c, bytes); var file := Wal.EncodeAll(crc, d.wal);
      Wal.ReadAll(crc, file + Wal.Encode(crc, Logged(d, c.key, c.value))[..bytes])
      == if Fails(d, e) then Wal.Failed
         else Wal.Replayed(StoreStep(d, e).wal, |Wal.EncodeAll(crc, StoreStep(d, e).wal)|)
  {
    hide DiskOK, MemOf, Wal.Encode, Wal.ReadAll, Wal.Encodable, Wal.Small;
    Wal.AppendCut(crc, d.wal, Logged(d, c.key, c.value), bytes);
  }

  // ---- the relation -----------------------------------------------------------------

  ghost predicate Matches(r: Record, c: Change) {
    && r.key == c.key && (r.kind.Put? <==> c.value.Some?)
    && r.value == if c.value.Some? then c.value.value else []
  }

  /** The log is records already published, all replayable, and then the pending changes in order,
      numbered upwards from above the published ones. */
  ghost predicate LogHolds(wal: seq<Record>, lastSeq: nat, pending: seq<Change>) {
    && |pending| <= |wal|
    && var s := |wal| - |pending|;
    && (forall i :: 0 <= i < s ==> wal[i].seqNum <= lastSeq && Wal.Small(wal[i]))
    && (forall i :: s <= i < |wal| ==> Matches(wal[i], pending[i - s]) && wal[i].seqNum > lastSeq)
    && (forall i, j :: s <= i < j < |wal| ==> wal[i].seqNum < wal[j].seqNum)
  }

  ghost predicate TablesHold(d: Disk, base: map<Key, Bytes>)
    requires DiskOK(d)
  {
    forall key :: Live(FirstIn(Tables(d.files, d.manifest.names), key)) == At(base, key)
  }

  ghost predicate Represents(d: Disk, m: Model) {
    DiskOK(d) && TablesHold(d, m.base) && LogHolds(d.wal, d.manifest.lastSeq, m.pending)
  }

  lemma {:induction false} KeptSuffix(wal: seq<Record>, lastSeq: nat, s: nat)
    requires s <= |wal|
    requires forall i :: 0 <= i < |wal| ==> (wal[i].seqNum > lastSeq <==> s <= i)
    ensures Kept(wal, lastSeq) == wal[s..]
  {
    if wal != [] {
      var n := |wal| - 1;
      if s <= n {
        KeptSuffix(wal[..n], lastSeq, s);
        assert wal[s..] == wal[..n][s..] + [wal[n]];
      } else {
        KeptSuffix(wal[..n], lastSeq, n);
      }
    }
  }

  /** Records numbered upwards replay to the changes they log, one after another. */
  lemma {:induction false} ReplayApplies(rs: seq<Record>, cs: seq<Change>, lastSeq: nat, tables: seq<Run>,
                                         base: map<Key, Bytes>, key: Key)
    requires Numbered(rs, cs, lastSeq)
    requires Live(FirstIn(tables, key)) == At(base, key)
    ensures var m := RawAll(Mem(map[], lastSeq + 1), rs);
      && Live(Lookup(m.entries, tables, key)) == At(Applied(base, cs), key)
      && (forall k :: k in m.entries ==> rs != [] && m.entries[k].seqNum <= rs[|rs| - 1].seqNum)
      && (rs != [] ==> rs[|rs| - 1].key in m.entries)
  {
    hide FirstIn;
    if rs != [] {
      var n := |rs| - 1;
      ReplayApplies(rs[..n], cs[..n], lastSeq, tables, base, key);
      assert Matches(rs[n], cs[n]);
    }
  }

  /** The records of the pending changes. */
  ghost predicate Numbered(rs: seq<Record>, cs: seq<Change>, lastSeq: nat) {
    && |rs| == |cs| && (forall i :: 0 <= i < |rs| ==> Matches(rs[i], cs[i]) && rs[i].seqNum > lastSeq)
    && (forall i, j :: 0 <= i < j < |rs| ==> rs[i].seqNum < rs[j].seqNum)
  }

  lemma PendingRecords(wal: seq<Record>, lastSeq: nat, pending: seq<Change>)
    requires LogHolds(wal, lastSeq, pending)
    ensures Numbered(Kept(wal, lastSeq), pending, lastSeq)
  {
    hide Matches, Kept;
    var s := |wal| - |pending|;
    KeptSuffix(wal, lastSeq, s);
    var rs := wal[s..];
    assert forall i :: 0 <= i < |rs| ==> rs[i] == wal[s + i];
  }

  /** A represented store reads as the model's contents; its memtable is empty only when nothing is pending. */
  lemma RepresentsMeans(d: Disk, m: Model)
    requires Represents(d, m)
    ensures Means(d, Contents(m)) && (MemOf(d).entries == map[] <==> m.pending == [])
  {
    hide Tables, FirstIn, Lookup, RawAll, Kept, LogHolds, Applied, Matches;
    var lastSeq, tables := d.manifest.lastSeq, Tables(d.files, d.manifest.names);
    var rs := Kept(d.wal, lastSeq);
    PendingRecords(d.wal, lastSeq, m.pending);
    forall key ensures Live(Lookup(MemOf(d).entries, tables, key)) == At(Contents(m), key) {
      ReplayApplies(rs, m.pending, lastSeq, tables, m.base, key);
    }
    ReplayApplies(rs, m.pending, lastSeq, tables, m.base, []);
  }

  // ---- every event keeps the relation ------------------------------------------------------

  lemma WriteRepresents(d: Disk, m: Model, c: Change)
    requires Represents(d, m)
    ensures Represents(Written(d, c.key, c.value), m.(pending := m.pending + [c]))
  {
    hide MemOf, Tables, FirstIn, Layered;
    var d', r := Written(d, c.key, c.value), Logged(d, c.key, c.value);
    MemFresh(d);
    forall i | 0 <= i < |d.wal| ensures d.wal[i].seqNum < r.seqNum { LogBelow(d, i); }
    var pending, s := m.pending + [c], |d.wal| - |m.pending|;
    assert |d'.wal| - |pending| == s;
    forall i | s <= i < |d'.wal| ensures Matches(d'.wal[i], pending[i - s]) && d'.wal[i].seqNum > d.manifest.lastSeq {
      if i < |d.wal| { assert d'.wal[i] == d.wal[i]; }
    }
  }

  lemma WriteCrashRepresents(d: Disk, m: Model, c: Change, bytes: nat)
    requires Represents(d, m)
    ensures Represents(StoreStep(d, WriteCrash(c, bytes)), Step(m, WriteCrash(c, bytes)))
    ensures Fails(d, WriteCrash(c, bytes)) <==> Locks(m, WriteCrash(c, bytes))
  {
    hide MemOf, Represents, Wal.Small, SmallChange, Reopened, Wal.AllSmall, AllSmall;
    if Logs(WriteCrash(c, bytes)).Some? {
      WriteRepresents(d, m, c);
      CrashRepresents(Written(d, c.key, c.value), m.(pending := m.pending + [c]));
    } else {
      CrashRepresents(d, m);
    }
    SmallAlike(d, m, c);
  }

  lemma SmallAlike(d: Disk, m: Model, c: Change)
    requires Represents(d, m)
    ensures Wal.AllSmall(d.wal) <==> AllSmall(m.pending)
    ensures Wal.Small(Logged(d, c.key, c.value)) <==> SmallChange(c)
  {
    hide MemOf, Tables, FirstIn, DiskOK;
    var s := |d.wal| - |m.pending|;
    if Wal.AllSmall(d.wal) {
      forall i | 0 <= i < |m.pending| ensures SmallChange(m.pending[i]) {
        assert Matches(d.wal[s + i], m.pending[s + i - s]) && Wal.Small(d.wal[s + i]);
      }
    }
    if AllSmall(m.pending) {
      forall i | 0 <= i < |d.wal| ensures Wal.Small(d.wal[i]) {
        if i >= s { assert Matches(d.wal[i], m.pending[i - s]) && SmallChange(m.pending[i - s]); }
      }
    }
  }

  lemma {:induction false} ReplayableMatches(rs: seq<Record>, cs: seq<Change>)
    requires |rs| == |cs| && forall i :: 0 <= i < |rs| ==> Matches(rs[i], cs[i])
    ensures |Wal.Replayable(rs)| == |Safe(cs)|
  {
    if rs != [] {
      assert Matches(rs[0], cs[0]);
      ReplayableMatches(rs[1..], cs[1..]);
    }
  }

  lemma {:induction false} ReplayableConcat(a: seq<Record>, b: seq<Record>)
    requires forall i :: 0 <= i < |a| ==> Wal.Small(a[i])
    ensures Wal.Replayable(a + b) == a + Wal.Replayable(b)
  {
    hide Wal.Small;
    if a == [] {
      assert a + b == b;
    } else {
      ReplayableConcat(a[1..], b);
      assert (a + b)[1..] == a[1..] + b;
    }
  }

  lemma LogPrefix(wal: seq<Record>, lastSeq: nat, pending: seq<Change>, n: nat)
    requires LogHolds(wal, lastSeq, pending) && n <= |pending|
    ensures LogHolds(wal[..|wal| - |pending| + n], lastSeq, pending[..n])
  {
    hide Matches, Wal.Small;
  }

  lemma LogParts(wal: seq<Record>, lastSeq: nat, pending: seq<Change>)
    requires LogHolds(wal, lastSeq, pending)
    ensures |pending| <= |wal|
    ensures var s := |wal| - |pending|;
      && (forall i :: 0 <= i < s ==> Wal.Small(wal[..s][i]))
      && (forall i :: 0 <= i < |pending| ==> Matches(wal[s..][i], pending[i]))
  {
    hide Matches, Wal.Small;
    var s := |wal| - |pending|;
    forall i | 0 <= i < |pending| ensures Matches(wal[s..][i], pending[i]) {
      assert Matches(wal[s + i], pending[s + i - s]);
    }
  }

  lemma ReplayedLog(wal: seq<Record>, lastSeq: nat, pending: seq<Change>)
    requires LogHolds(wal, lastSeq, pending)
    ensures Wal.Replayable(wal) == wal[..|wal| - |pending| + |Safe(pending)|]
  {
    hide LogHolds, Matches, Wal.Small, Wal.Replayable, Safe;
    LogParts(wal, lastSeq, pending);
    var s := |wal| - |pending|;
    var live := wal[s..];
    ReplayableMatches(live, pending);
    ReplayableConcat(wal[..s], live);
    assert wal[..s] + live == wal;
  }

  /** A crash takes back the pending changes from the first that replay refuses. */
  lemma CrashRepresents(d: Disk, m: Model)
    requires Represents(d, m)
    ensures Represents(Reopened(d), m.(pending := Safe(m.pending)))
  {
    hide Tables, FirstIn, Layered, LogHolds, Wal.Replayable, Safe;
    ReplayedLog(d.wal, d.manifest.lastSeq, m.pending);
    LogPrefix(d.wal, d.manifest.lastSeq, m.pending, |Safe(m.pending)|);
  }

  lemma TablesAlone(d: Disk, base: map<Key, Bytes>)
    requires DiskOK(d)
    ensures TablesHold(d, base) <==> Means(d.(wal := []), base)
    ensures MemOf(d.(wal := [])) == Mem(map[], d.manifest.lastSeq + 1)
  {
    hide Tables, FirstIn;
    var d0 := d.(wal := []);
    var tables := Tables(d.files, d.manifest.names);
    assert forall key :: Lookup(map[], tables, key) == FirstIn(tables, key);
  }

  lemma {:induction false} ReplayableSmall(rs: seq<Record>, i: nat)
    requires i < |Wal.Replayable(rs)|
    ensures Wal.Small(rs[i])
  {
    hide Wal.Small;
    if i > 0 { ReplayableSmall(rs[1..], i - 1); }
  }

  /** Once the manifest is published, the pending changes are in the tables whatever the log still holds. */
  lemma PublishRepresents(d: Disk, m: Model, writes: nat)
    requires Represents(d, m) && writes >= 2 && m.pending != [] && Keyed(MemOf(d).entries)
    ensures DiskOK(Flushed(d, writes)) && TablesHold(Flushed(d, writes), Contents(m))
    ensures forall i :: 0 <= i < |Flushed(d, writes).wal| ==>
      Flushed(d, writes).wal[i].seqNum <= Flushed(d, writes).manifest.lastSeq
  {
    hide MemOf, Tables, FirstIn, Layered;
    RepresentsMeans(d, m);
    FlushMeans(d, writes, Contents(m));
    FlushedMem(d, writes);
    var d' := Flushed(d, writes);
    forall i | 0 <= i < |d'.wal| ensures d'.wal[i].seqNum <= d'.manifest.lastSeq { LogBelow(d, i); }
    forall key ensures Live(FirstIn(Tables(d'.files, d'.manifest.names), key)) == At(Contents(m), key) {
      assert Live(Lookup(MemOf(d').entries, Tables(d'.files, d'.manifest.names), key)) == At(Contents(m), key);
    }
  }

  lemma FlushRepresents(d: Disk, m: Model, writes: nat)
    requires Represents(d, m) && Keyed(MemOf(d).entries)
    ensures writes >= 3 ==> Represents(Flushed(d, writes), Model(Contents(m), []))
    ensures Represents(Reopened(Flushed(d, writes)), Step(m, FlushCrash(writes)))
  {
    hide MemOf, Tables, FirstIn, Layered, LogHolds, Listing;
    RepresentsMeans(d, m);
    if writes == 0 || m.pending == [] {
      CrashRepresents(d, m);
      Unchanged(m);
    } else if writes == 1 {
      UnpublishedFile(d, d.manifest.next + 1, Listing(MemOf(d).entries));
      CrashRepresents(Flushed(d, 1), m);
    } else {
      PublishRepresents(d, m, writes);
      OldLogHolds(Flushed(d, writes));
    }
  }

  lemma Unchanged(m: Model)
    ensures m.pending == [] ==> Model(Contents(m), []) == m
  {
  }

  lemma OldLogHolds(d: Disk)
    requires forall i :: 0 <= i < |d.wal| ==> d.wal[i].seqNum <= d.manifest.lastSeq
    ensures LogHolds(Reopened(d).wal, d.manifest.lastSeq, [])
    ensures d.wal == [] ==> LogHolds(d.wal, d.manifest.lastSeq, [])
  {
    hide Wal.Small;
    forall i | 0 <= i < |Reopened(d).wal| ensures Wal.Small(Reopened(d).wal[i]) { ReplayableSmall(d.wal, i); }
  }

  lemma CompactRepresents(d: Disk, m: Model, writes: nat)
    requires Represents(d, m)
    ensures DiskOK(Compacted(d, writes)) && Represents(Compacted(d, writes), m)
    ensures Represents(Reopened(Compacted(d, writes)), m.(pending := Safe(m.pending)))
  {
    hide MemOf, Tables, FirstIn, Layered, LogHolds, Merged, IsMerge;
    var d0 := d.(wal := []);
    TablesAlone(d, m.base);
    CompactMeans(d0, writes, m.base);
    CompactOK(d, writes);
    assert Compacted(d, writes).(wal := []) == Compacted(d0, writes);
    TablesAlone(Compacted(d, writes), m.base);
    CrashRepresents(Compacted(d, writes), m);
  }

  lemma EventRepresents(d: Disk, m: Model, e: Event)
    requires Represents(d, m)
    ensures Represents(StoreStep(d, e), Step(m, e)) && (Fails(d, e) <==> Locks(m, e))
  {
    hide MemOf, Flushed, Compacted, Represents, Keyed;
    assert DiskOK(d) by { Representable(d, m); }
    MemFresh(d);
    assert Keyed(MemOf(d).entries) by { FreshKeyed(MemOf(d), d.manifest.lastSeq); }
    match e
    case Write(c) => WriteRepresents(d, m, c);
    case WriteCrash(c, bytes) => WriteCrashRepresents(d, m, c, bytes);
    case Flush => FlushRepresents(d, m, 3);
    case Compact => CompactRepresents(d, m, 2 + |d.manifest.names|);
    case Crash => CrashRepresents(d, m);
    case FlushCrash(w) => FlushRepresents(d, m, w);
    case CompactCrash(w) => CompactRepresents(d, m, w);
  }

  lemma Representable(d: Disk, m: Model)
    requires Represents(d, m)
    ensures DiskOK(d)
  {
  }

  lemma FreshKeyed(m: Mem, lastSeq: nat)
    requires Fresh(m, lastSeq)
    ensures Keyed(m.entries)
  {
  }

  // ---- every run ------------------------------------------------------------------------------

  lemma EmptyRepresents()
    ensures Represents(EMPTY, Model(map[], []))
  {
  }

  /** A run goes through exactly when no crash locks the log, and then a read gives the model's contents,
      whatever was written. */
  lemma {:induction false} EngineExact(d: Disk, m: Model, events: seq<Event>)
    requires Represents(d, m)
    ensures DiskOK(d) && (After(d, events).Some? <==> Opens(m, events))
    ensures var r := After(d, events);
      r.Some? ==> Represents(r.value, ModelAfter(m, events)) && Means(r.value, Contents(ModelAfter(m, events)))
    decreases |events|
  {
    hide Represents, Means, DiskOK, StoreStep, Step, Locks, Fails;
    Representable(d, m);
    if events != [] {
      var n := |events| - 1;
      EngineExact(d, m, events[..n]);
      OpensLast(m, events);
      if After(d, events[..n]).Some? {
        EventRepresents(After(d, events[..n]).value, ModelAfter(m, events[..n]), events[n]);
      }
    }
    if After(d, events).Some? { RepresentsMeans(After(d, events).value, ModelAfter(m, events)); }
  }

  lemma OpensLast(m: Model, events: seq<Event>)
    requires events != []
    ensures var n := |events| - 1;
      Opens(m, events) <==> Opens(m, events[..n]) && !Locks(ModelAfter(m, events[..n]), events[n])
  {
    hide Locks, ModelAfter;
    var n := |events| - 1;
    assert forall i :: 0 <= i < n ==> events[..n][..i] == events[..i] && events[..n][i] == events[i];
    if Opens(m, events) {
      forall i | 0 <= i < n ensures !Locks(ModelAfter(m, events[..n][..i]), events[..n][i]) {
        assert !Locks(ModelAfter(m, events[..i]), events[i]);
      }
    }
    if Opens(m, events[..n]) && !Locks(ModelAfter(m, events[..n]), events[n]) {
      forall i | 0 <= i < |events| ensures !Locks(ModelAfter(m, events[..i]), events[i]) {
        if i < n { assert !Locks(ModelAfter(m, events[..n][..i]), events[..n][i]); }
      }
    }
  }

  ghost predicate SmallWrites(events: seq<Event>) {
    forall i :: 0 <= i < |events| ==> (Logs(events[i]).Some? ==> SmallChange(events[i].change))
  }

  lemma {:induction false} SafeWhole(cs: seq<Change>)
    ensures Safe(cs) == cs <==> AllSmall(cs)
  {
    hide SmallChange;
    if cs != [] && SmallChange(cs[0]) {
      SafeWhole(cs[1..]);
      assert cs == [cs[0]] + cs[1..];
      assert AllSmall(cs[1..]) <==> AllSmall(cs) by {
        assert forall i :: 0 < i < |cs| ==> cs[1..][i - 1] == cs[i];
        assert forall i :: 0 <= i < |cs[1..]| ==> cs[1..][i] == cs[i + 1];
      }
    }
  }

  lemma SmallStep(m: Model, e: Event)
    requires AllSmall(m.pending) && (Logs(e).Some? ==> SmallChange(e.change))
    ensures AllSmall(Step(m, e).pending)
    ensures Contents(Step(m, e))
         == if Logs(e).Some? then Updated(Contents(m), e.change.key, e.change.value) else Contents(m)
  {
    hide SmallChange, Applied, Safe;
    SafeWhole(m.pending);
    AppliedNone(Contents(m));
    if Logs(e).Some? {
      AppliedOne(m, e.change);
      SafeWhole(m.pending + [e.change]);
    }
  }

  lemma AppliedNone(base: map<Key, Bytes>)
    ensures Applied(base, []) == base
  {
  }

  lemma {:induction false} SmallRuns(m: Model, events: seq<Event>)
    requires AllSmall(m.pending) && SmallWrites(events)
    ensures AllSmall(ModelAfter(m, events).pending)
    ensures Contents(ModelAfter(m, events)) == Truth(Contents(m), events)
    decreases |events|
  {
    hide SmallChange, Step, Contents;
    if events != [] {
      SmallRuns(m, events[..|events| - 1]);
      SmallStep(ModelAfter(m, events[..|events| - 1]), events[|events| - 1]);
    }
  }

  /** No crash cuts a write within the limits right after its header. */
  ghost predicate Unlocked(events: seq<Event>) {
    forall i :: 0 <= i < |events| ==>
      !(events[i].WriteCrash? && events[i].bytes == Wal.HEADER && SmallChange(events[i].change))
  }

  lemma UnlockedOpens(m: Model, events: seq<Event>)
    requires AllSmall(m.pending) && SmallWrites(events)
    ensures Opens(m, events) <==> Unlocked(events)
  {
    hide ModelAfter, SmallChange, Contents, Truth;
    forall i | 0 <= i < |events|
      ensures Locks(ModelAfter(m, events[..i]), events[i])
         <==> events[i].WriteCrash? && events[i].bytes == Wal.HEADER && SmallChange(events[i].change)
    {
      SmallRuns(m, events[..i]);
    }
    hide Locks;
  }

  /** For every run of Set, Delete, flush, compaction and crash, at any byte of a log record and any other durable
      write, whose keys and values are within the replay limits: the store opens again unless a crash locks its
      log, and a read gives the last write of every key. */
  lemma EngineRefinesMap(events: seq<Event>)
    requires SmallWrites(events)
    ensures DiskOK(EMPTY) && (After(EMPTY, events).Some? <==> Unlocked(events))
    ensures After(EMPTY, events).Some? ==> Means(After(EMPTY, events).value, Truth(map[], events))
  {
    hide Means, DiskOK, After, Represents, Contents, Opens, Unlocked;
    EmptyRepresents();
    AppliedNone(map[]);
    EngineExact(EMPTY, Model(map[], []), events);
    SmallRuns(Model(map[], []), events);
    UnlockedOpens(Model(map[], []), events);
    assert Contents(Model(map[], [])) == map[] by { EmptyContents(); }
  }

  lemma EmptyContents()
    ensures Contents(Model(map[], [])) == map[]
  {
  }

  // ---- beyond the limits ---------------------------------------------------------------------------

  /** The limits are needed: a Set with a longer key is acknowledged and lost in a crash. */
  lemma OversizeWriteLost(key: Key, value: Bytes)
    requires |key| == Wal.MAX_KEY + 1
    ensures var run := [Write(Change(key, Some(value))), Crash];
      && DiskOK(EMPTY) && After(EMPTY, run).Some? && Means(After(EMPTY, run).value, map[])
      && At(Truth(map[], run), key) == Some(value)
  {
    hide Means, DiskOK, After, Represents;
    var w := Write(Change(key, Some(value)));
    var run := [w, Crash];
    EmptyRepresents();
    EngineExact(EMPTY, Model(map[], []), run);
    assert run[..1] == [w] && [w][..0] == [];
    assert ModelAfter(Model(map[], []), [w]) == Model(map[], [Change(key, Some(value))]) by {
      assert [] + [w.change] == [w.change];
    }
  }

  /** A crash while the first change is logged, right after its header, locks the store out of its log. */
  lemma CutWriteLocks(c: Change)
    requires SmallChange(c)
    ensures DiskOK(EMPTY) && After(EMPTY, [WriteCrash(c, Wal.HEADER)]).None?
  {
    hide Represents, DiskOK, After, SmallChange;
    var run := [WriteCrash(c, Wal.HEADER)];
    EmptyRepresents();
    EngineExact(EMPTY, Model(map[], []), run);
    assert run[..0] == [] && Locks(ModelAfter(Model(map[], []), run[..0]), run[0]);
  }

  /** A crash right after the change never takes it back. */
  ghost predicate Survives(c: Change) {
    forall d, m :: Represents(d, m) && AllSmall(m.pending) ==> SurvivesIn(d, m, c)
  }

  ghost predicate SurvivesIn(d: Disk, m: Model, c: Change)
    requires Represents(d, m)
  {
    var d' := Reopened(Written(d, c.key, c.value));
    DiskOK(d') && Means(d', Updated(Contents(m), c.key, c.value))
  }

  lemma AppliedOne(m: Model, c: Change)
    ensures Contents(m.(pending := m.pending + [c])) == Updated(Contents(m), c.key, c.value)
  {
    assert (m.pending + [c])[..|m.pending|] == m.pending;
  }

  /** What is left after the change and a crash. */
  lemma ChangeThenCrash(d: Disk, m: Model, c: Change)
    requires Represents(d, m) && AllSmall(m.pending)
    ensures var d' := Reopened(Written(d, c.key, c.value));
      DiskOK(d') && Means(d', if SmallChange(c) then Updated(Contents(m), c.key, c.value) else Contents(m))
  {
    hide Represents, Means, DiskOK, Applied, SmallChange;
    var m' := m.(pending := m.pending + [c]);
    WriteRepresents(d, m, c);
    CrashRepresents(Written(d, c.key, c.value), m');
    Representable(Reopened(Written(d, c.key, c.value)), m'.(pending := Safe(m'.pending)));
    RepresentsMeans(Reopened(Written(d, c.key, c.value)), m'.(pending := Safe(m'.pending)));
    SafeExtended(m.pending, c);
    AppliedOne(m, c);
  }

  lemma {:induction false} SafeExtended(cs: seq<Change>, c: Change)
    requires AllSmall(cs)
    ensures Safe(cs + [c]) == if SmallChange(c) then cs + [c] else cs
  {
    hide SmallChange;
    if cs == [] {
      assert [c][1..] == [];
    } else {
      assert AllSmall(cs[1..]) by { assert forall i :: 0 <= i < |cs[1..]| ==> cs[1..][i] == cs[i + 1]; }
      SafeExtended(cs[1..], c);
      assert (cs + [c])[1..] == cs[1..] + [c] && cs == [cs[0]] + cs[1..];
    }
  }

  /** A change survives a crash, in every state the engine can be in with smaller changes pending,
      exactly when its key and value are within the replay limits. */
  lemma SurvivesExactly(c: Change)
    ensures Survives(c) <==> SmallChange(c)
  {
    hide Represents, Means, DiskOK, SmallChange;
    if SmallChange(c) {
      forall d, m | Represents(d, m) && AllSmall(m.pending) ensures SurvivesIn(d, m, c) { ChangeThenCrash(d, m, c); }
    } else {
      NotSurviving(c);
    }
  }

  lemma NotSurviving(c: Change)
    requires !SmallChange(c)
    ensures !Survives(c)
  {
    hide Represents, Means, DiskOK, SmallChange, After;
    var seed := if c.value.Some? then [] else [Write(Change(c.key, Some([]))), Flush];
    EmptyRepresents();
    EngineExact(EMPTY, Model(map[], []), seed);
    var d, m := After(EMPTY, seed).value, ModelAfter(Model(map[], []), seed);
    SeedModel(c, seed);
    Representable(d, m);
    ChangeThenCrash(d, m, c);
    var d' := Reopened(Written(d, c.key, c.value));
    MeansOnce(d', Contents(m), Updated(Contents(m), c.key, c.value), c.key);
    assert !SurvivesIn(d, m, c);
  }

  lemma SeedModel(c: Change, seed: seq<Event>)
    requires seed == if c.value.Some? then [] else [Write(Change(c.key, Some([]))), Flush]
    ensures var m := ModelAfter(Model(map[], []), seed);
      m.pending == [] && At(Contents(m), c.key) != At(Updated(Contents(m), c.key, c.value), c.key)
  {
    if c.value.None? {
      var w := seed[0];
      assert seed[..1] == [w] && [w][..0] == [];
      assert ModelAfter(Model(map[], []), [w]) == Model(map[], [w.change]) by { assert [] + [w.change] == [w.change]; }
      assert [w.change][..0] == [];
    }
  }

  /** A store reads as one map only. */
  lemma MeansOnce(d: Disk, a: map<Key, Bytes>, b: map<Key, Bytes>, key: Key)
    requires DiskOK(d) && Means(d, a) && At(a, key) != At(b, key)
    ensures !Means(d, b)
  {
    assert Live(Lookup(MemOf(d).entries, Tables(d.files, d.manifest.names), key)) == At(a, key);
  }
}
