/** Opening a store written before the manifest recorded the highest sequence number, with a crash at any of
    the upgrade's durable writes. */
module EngineUpgrade {
  import opened Engine
  import opened EngineDisk
  import opened EngineRuns
  import opened MemTables
  import opened RaftTypes
  import opened Records
  import Wal

  /** Tables listed by an old manifest, or found by scanning the directory when there is none. */
  datatype OldDisk = OldDisk(scanned: bool, files: map<nat, Run>, names: seq<nat>, next: nat, wal: seq<Record>)

  datatype Store = Legacy(held: OldDisk) | Current(disk: Disk)

  /** The highest sequence number in the tables. */
  function Highest(tables: seq<Run>): nat {
    if tables == [] then 0 else Top(tables[|tables| - 1], Highest(tables[..|tables| - 1]))
  }

  method MaxSequence(tables: seq<Run>) returns (highest: nat)
    ensures highest == Highest(tables)
    ensures forall i :: 0 <= i < |tables| ==> UpTo(tables[i], highest)
  {
    highest := 0;
    for i := 0 to |tables|
      invariant highest == Highest(tables[..i])
    {
      ghost var before := highest;
      var records := tables[i];
      for j := 0 to |records|
        invariant highest == Top(records[..j], before)
      {
        assert records[..j + 1][..j] == records[..j];
        if records[j].seqNum > highest { highest := records[j].seqNum; }
      }
      assert records[..|records|] == records;
      assert tables[..i + 1][..i] == tables[..i];
    }
    assert tables[..|tables|] == tables;
    forall i | 0 <= i < |tables| ensures UpTo(tables[i], highest) { HighestBounds(tables, i); }
  }

  lemma {:induction false} TopRises(rs: seq<Record>, low: nat)
    ensures low <= Top(rs, low)
  {
    if rs != [] { TopRises(rs[..|rs| - 1], low); }
  }

  lemma {:induction false} HighestBounds(tables: seq<Run>, i: nat)
    requires i < |tables|
    ensures UpTo(tables[i], Highest(tables))
  {
    hide Top;
    var n := |tables| - 1;
    if i == n {
      forall j | 0 <= j < |tables[n]| ensures tables[n][j].seqNum <= Highest(tables) {
        TopBounds(tables[n], Highest(tables[..n]), j);
      }
    } else {
      HighestBounds(tables[..n], i);
      TopRises(tables[n], Highest(tables[..n]));
    }
  }

  // ---- the upgrade's durable writes ------------------------------------------------

  /** What the code holds once it has sequenced the log: the old tables under the number found in them. */
  ghost function Sequencing(o: OldDisk): Disk
    requires Named(o.files, o.names)
  {
    var lastSeq := Highest(Tables(o.files, o.names));
    Disk(o.files, Manifest(o.names, o.next, lastSeq), Sequenced(Wal.Replayable(o.wal), lastSeq, true))
  }

  ghost predicate Renumbers(o: OldDisk)
    requires Named(o.files, o.names)
  {
    Reused(Wal.Replayable(o.wal), Highest(Tables(o.files, o.names)))
  }

  /** Reused numbers are flushed under new ones: the table, the manifest, the log reset. Otherwise the manifest
      is published with the number found. A scan takes up a table whose manifest was never published. */
  ghost function Upgraded(o: OldDisk, writes: nat): Store
    requires Named(o.files, o.names) && Keyed(MemOf(Sequencing(o)).entries)
  {
    var rs, v := Wal.Replayable(o.wal), Sequencing(o);
    if writes == 0 then Legacy(o.(wal := rs))
    else if !Renumbers(o) then Current(v)
    else
      var f := Flushed(v, writes);
      if writes == 1 then
        Legacy(if o.scanned then OldDisk(true, f.files, o.names + [o.next + 1], o.next + 1, rs)
               else o.(files := f.files, wal := rs))
      else if writes == 2 then Current(f.(wal := rs))
      else Current(f)
  }

  // ---- what an old store means -----------------------------------------------------

  /** Well-formed tables in layers that read as `base`, and a log that can be put in order. */
  ghost predicate OldHolds(o: OldDisk, base: map<Key, Bytes>) {
    && Named(o.files, o.names) && (forall i :: 0 <= i < |o.names| ==> o.names[i] <= o.next)
    && var tables, rs := Tables(o.files, o.names), Wal.Replayable(o.wal);
    && Layered(tables, Highest(tables))
    && (forall key :: Live(FirstIn(tables, key)) == At(base, key))
    && (forall i :: 0 <= i < |rs| ==> (rs[i].kind.Delete? ==> rs[i].value == []))
    && (Reused(rs, Highest(tables)) || Ascending(rs))
  }

  /** The tables' map with the log's changes made in order. */
  ghost function OldContents(o: OldDisk, base: map<Key, Bytes>): map<Key, Bytes> {
    Applied(base, Changes(Wal.Replayable(o.wal)))
  }

  lemma OldNamed(o: OldDisk, base: map<Key, Bytes>)
    requires OldHolds(o, base)
    ensures Named(o.files, o.names)
  {
  }

  lemma SequencingHolds(o: OldDisk, base: map<Key, Bytes>)
    requires OldHolds(o, base)
    ensures var v := Sequencing(o); var cs := Changes(Wal.Replayable(o.wal));
      DiskOK(v) && TablesHold(v, base) && Numbered(v.wal, cs, v.manifest.lastSeq)
  {
    hide Tables, FirstIn, Layered, Top, Highest, Wal.Replayable;
    var v, rs := Sequencing(o), Wal.Replayable(o.wal);
    var top := Top(rs, v.manifest.lastSeq);
    forall i | 0 <= i < |rs| ensures rs[i].seqNum <= top && v.manifest.lastSeq <= top {
      TopBounds(rs, v.manifest.lastSeq, i);
    }
  }

  lemma NumberedLog(rs: seq<Record>, cs: seq<Change>, lastSeq: nat)
    requires Numbered(rs, cs, lastSeq)
    ensures LogHolds(rs, lastSeq, cs)
  {
    hide Matches, Wal.Small;
  }

  lemma SequencingRepresents(o: OldDisk, base: map<Key, Bytes>)
    requires OldHolds(o, base)
    ensures Represents(Sequencing(o), Model(base, Changes(Wal.Replayable(o.wal))))
    ensures Keyed(MemOf(Sequencing(o)).entries)
  {
    hide DiskOK, TablesHold, Numbered, LogHolds, MemOf, OldHolds, Sequencing;
    OldNamed(o, base);
    SequencingHolds(o, base);
    var v := Sequencing(o);
    NumberedLog(v.wal, Changes(Wal.Replayable(o.wal)), v.manifest.lastSeq);
    MemFresh(v);
    FreshKeyed(MemOf(v), v.manifest.lastSeq);
  }

  /** Replaying what was replayed gives it again. */
  lemma {:induction false} ReplayableTwice(rs: seq<Record>)
    ensures Wal.Replayable(Wal.Replayable(rs)) == Wal.Replayable(rs)
  {
    hide Wal.Small;
    if rs != [] && Wal.Small(rs[0]) {
      ReplayableTwice(rs[1..]);
      var r := Wal.Replayable(rs);
      assert r[1..] == Wal.Replayable(rs[1..]) && r[0] == rs[0];
    }
  }

  /** What one list of changes leaves at a key is decided by its last change of that key, or by what was there. */
  lemma {:induction false} AppliedDecides(a: map<Key, Bytes>, b: map<Key, Bytes>, cs: seq<Change>, key: Key)
    ensures
      || At(Applied(a, cs), key) == At(Applied(b, cs), key)
      || (At(Applied(a, cs), key) == At(a, key) && At(Applied(b, cs), key) == At(b, key))
  {
    if cs != [] { AppliedDecides(a, b, cs[..|cs| - 1], key); }
  }

  /** Making the same changes again changes nothing. */
  lemma AppliedTwice(base: map<Key, Bytes>, cs: seq<Change>)
    ensures Applied(Applied(base, cs), cs) == Applied(base, cs)
  {
    hide Applied;
    var once, twice := Applied(base, cs), Applied(Applied(base, cs), cs);
    forall key ensures At(twice, key) == At(once, key) { AppliedDecides(base, once, cs, key); }
    assert forall key :: key in once <==> At(once, key).Some?;
    assert forall key :: key in twice <==> At(twice, key).Some?;
    assert forall key :: key in once && key in twice ==>
      At(once, key).value == once[key] && At(twice, key).value == twice[key];
    assert forall key :: key in once <==> key in twice;
    assert once.Keys == twice.Keys;
  }

  // ---- one attempt -----------------------------------------------------------------

  lemma {:induction false} HighestLayer(tables: seq<Run>, bound: nat)
    requires forall i :: 0 <= i < |tables| ==> UpTo(tables[i], bound)
    ensures Highest(tables) <= bound
  {
    hide Top;
    if tables != [] {
      var n := |tables| - 1;
      HighestLayer(tables[..n], bound);
      TopWithin(tables[n], Highest(tables[..n]), bound);
    }
  }

  lemma {:induction false} TopWithin(rs: seq<Record>, low: nat, bound: nat)
    requires low <= bound && UpTo(rs, bound)
    ensures Top(rs, low) <= bound
  {
    if rs != [] { TopWithin(rs[..|rs| - 1], low, bound); }
  }

  /** Layers stay layers under the highest number they hold. */
  lemma LayeredTightly(tables: seq<Run>, top: nat)
    requires Layered(tables, top)
    ensures Layered(tables, Highest(tables))
  {
    forall i | 0 <= i < |tables| ensures UpTo(tables[i], Highest(tables)) { HighestBounds(tables, i); }
  }

  lemma {:induction false} RawAllAbove(next: nat, rs: seq<Record>, low: nat)
    requires forall i :: 0 <= i < |rs| ==> rs[i].seqNum > low
    ensures var m := RawAll(Mem(map[], next), rs).entries;
      (rs != [] ==> rs[0].key in m) && forall k :: k in m ==> m[k].seqNum > low
  {
    if rs != [] { RawAllAbove(next, rs[..|rs| - 1], low); }
  }

  /** A renumbered log's memtable holds a number above the log's own. */
  lemma RenumberedHigh(o: OldDisk) returns (k: Key)
    requires Named(o.files, o.names) && Renumbers(o)
    ensures var m, rs := MemOf(Sequencing(o)).entries, Wal.Replayable(o.wal);
      k in m && rs != [] && m[k].seqNum > rs[0].seqNum
  {
    hide Tables, Highest, Wal.Replayable, Top, Kept, RawAll;
    var v, rs := Sequencing(o), Wal.Replayable(o.wal);
    var low := Top(rs, v.manifest.lastSeq);
    TopRises(rs, v.manifest.lastSeq);
    KeptAll(v.wal, v.manifest.lastSeq);
    RawAllAbove(v.manifest.lastSeq + 1, v.wal, low);
    TopBounds(rs, v.manifest.lastSeq, 0);
    k := v.wal[0].key;
  }

  /** The table flushed from a renumbered log covers the log's own numbers. */
  lemma NewTableCovers(o: OldDisk)
    requires Named(o.files, o.names) && Renumbers(o) && DiskOK(Sequencing(o)) && Keyed(MemOf(Sequencing(o)).entries)
    ensures var f := Flushed(Sequencing(o), 2);
      DiskOK(f) && Reused(Wal.Replayable(o.wal), Highest(Tables(f.files, f.manifest.names)))
  {
    hide Layered, Highest, Wal.Replayable, MemOf, Tables, Sequencing, Renumbers;
    var v := Sequencing(o);
    var k := RenumberedHigh(o);
    var m := MemOf(v).entries;
    FlushLayers(v, 2);
    var f := Flushed(v, 2);
    hide Flushed, DiskOK;
    Listed(m, k, Tables(f.files, f.manifest.names));
  }

  lemma Listed(m: map<Key, Record>, k: Key, tables: seq<Run>)
    requires Keyed(m) && k in m && tables != [] && tables[0] == Listing(m)
    ensures m[k].seqNum <= Highest(tables)
  {
    hide Highest;
    assert m[k] in Listing(m);
    HighestBounds(tables, 0);
  }

  lemma {:induction false} KeptAll(wal: seq<Record>, lastSeq: nat)
    requires forall i :: 0 <= i < |wal| ==> wal[i].seqNum > lastSeq
    ensures Kept(wal, lastSeq) == wal
  {
    if wal != [] { KeptAll(wal[..|wal| - 1], lastSeq); }
  }

  /** An unpublished table that a scan takes up holds the log's changes; its numbers cover the log's. */
  lemma Adopted(o: OldDisk, base: map<Key, Bytes>, o': OldDisk)
    requires OldHolds(o, base) && Renumbers(o) && o.scanned && Keyed(MemOf(Sequencing(o)).entries)
    requires Upgraded(o, 1) == Legacy(o')
    ensures OldHolds(o', OldContents(o, base))
  {
    hide OldHolds, Sequencing, Represents, MemOf, Flushed, Tables, Highest, Wal.Replayable, Applied, DiskOK, TablesHold;
    OldNamed(o, base);
    var v, rs := Sequencing(o), Wal.Replayable(o.wal);
    var m := Model(base, Changes(rs));
    SequencingRepresents(o, base);
    Representable(v, m);
    SequencedFrom(o);
    PublishRepresents(v, m, 2);
    NewTableCovers(o);
    ReplayableTwice(o.wal);
    WellFormedLog(o, base);
    AdoptedNames(o, o', m);
    AdoptedTables(Flushed(v, 2), o', Contents(m));
  }

  /** The scan finds the new table where the flush would have named it. */
  lemma AdoptedNames(o: OldDisk, o': OldDisk, m: Model)
    requires Named(o.files, o.names) && Renumbers(o) && o.scanned && Keyed(MemOf(Sequencing(o)).entries)
    requires Upgraded(o, 1) == Legacy(o') && Represents(Sequencing(o), m) && m.pending != []
    ensures var f := Flushed(Sequencing(o), 2);
      && o'.files == f.files && o'.wal == Wal.Replayable(o.wal)
      && o'.names == f.manifest.names && o'.next == f.manifest.next
  {
    hide Represents, MemOf, Tables, Highest, Wal.Replayable, Sequencing;
    RepresentsMeans(Sequencing(o), m);
    SequencedFrom(o);
  }

  lemma WellFormedLog(o: OldDisk, base: map<Key, Bytes>)
    requires OldHolds(o, base)
    ensures var rs := Wal.Replayable(o.wal); forall i :: 0 <= i < |rs| ==> (rs[i].kind.Delete? ==> rs[i].value == [])
  {
  }

  lemma SequencedFrom(o: OldDisk)
    requires Named(o.files, o.names)
    ensures var v := Sequencing(o); v.files == o.files && v.manifest.names == o.names && v.manifest.next == o.next
    ensures !Renumbers(o) ==> Sequencing(o).wal == Wal.Replayable(o.wal)
    ensures Renumbers(o) ==> Changes(Wal.Replayable(o.wal)) != []
  {
  }

  lemma AdoptedTables(f: Disk, o': OldDisk, truth: map<Key, Bytes>)
    requires DiskOK(f) && TablesHold(f, truth)
    requires o'.files == f.files && o'.names == f.manifest.names && o'.next == f.manifest.next
    requires var rs := Wal.Replayable(o'.wal);
      && (forall i :: 0 <= i < |rs| ==> (rs[i].kind.Delete? ==> rs[i].value == []))
      && Reused(rs, Highest(Tables(f.files, f.manifest.names)))
    ensures OldHolds(o', truth)
  {
    hide Tables, FirstIn, Layered, Highest, Wal.Replayable, Reused;
    LayeredTightly(Tables(f.files, f.manifest.names), f.manifest.lastSeq);
  }

  /** An upgrade cut off at any durable write leaves a store, old or new, with the same contents. */
  lemma UpgradeKeeps(o: OldDisk, base: map<Key, Bytes>, writes: nat) returns (base': map<Key, Bytes>, m: Model)
    requires OldHolds(o, base)
    ensures Keyed(MemOf(Sequencing(o)).entries)
    ensures var s := Upgraded(o, writes);
      if s.Legacy? then OldHolds(s.held, base') && OldContents(s.held, base') == OldContents(o, base)
      else Represents(s.disk, m) && AllSmall(m.pending) && Contents(m) == OldContents(o, base)
  {
    hide OldHolds, Sequencing, Represents, MemOf, Listing, Layered, Highest, Wal.Replayable, Applied, Flushed, DiskOK;
    OldNamed(o, base);
    var v, rs := Sequencing(o), Wal.Replayable(o.wal);
    base', m := base, Model(base, Changes(rs));
    SequencingRepresents(o, base);
    ReplayableTwice(o.wal);
    if writes == 0 {
      SameLogHolds(o, o.(wal := rs), base);
    } else if !Renumbers(o) {
      SequencedFrom(o);
      ReplayedSmall(o.wal);
    } else if writes == 1 {
      if o.scanned {
        Adopted(o, base, Upgraded(o, 1).held);
        base' := OldContents(o, base);
        AppliedTwice(base, Changes(rs));
      } else {
        Orphaned(o, base);
      }
    } else {
      m := Model(OldContents(o, base), []);
      AppliedNone(OldContents(o, base));
      Published(o, base, writes);
    }
  }

  lemma SameLogHolds(o: OldDisk, o': OldDisk, base: map<Key, Bytes>)
    requires OldHolds(o, base) && o' == o.(wal := o'.wal) && Wal.Replayable(o'.wal) == Wal.Replayable(o.wal)
    ensures OldHolds(o', base) && OldContents(o', base) == OldContents(o, base)
  {
  }

  lemma ReplayedSmall(rs: seq<Record>)
    ensures AllSmall(Changes(Wal.Replayable(rs)))
  {
    forall i | 0 <= i < |Wal.Replayable(rs)| ensures Wal.Small(rs[i]) { ReplayableSmall(rs, i); }
  }

  /** A listed store does not see a table its manifest does not name. */
  lemma Orphaned(o: OldDisk, base: map<Key, Bytes>)
    requires OldHolds(o, base) && Renumbers(o) && !o.scanned && Keyed(MemOf(Sequencing(o)).entries)
    ensures Upgraded(o, 1).Legacy?
    ensures var o' := Upgraded(o, 1).held; OldHolds(o', base) && OldContents(o', base) == OldContents(o, base)
  {
    hide FirstIn, Layered, Highest, Wal.Replayable, MemOf, Listing, Reused, Ascending;
    ReplayableTwice(o.wal);
    var o' := Upgraded(o, 1).held;
    TablesFrame(o.files, o'.files, o.names);
  }

  /** Once the manifest is published the log's old numbers are all below it. */
  lemma Published(o: OldDisk, base: map<Key, Bytes>, writes: nat)
    requires OldHolds(o, base) && Renumbers(o) && writes >= 2 && Keyed(MemOf(Sequencing(o)).entries)
    ensures Upgraded(o, writes).Current?
    ensures Represents(Upgraded(o, writes).disk, Model(OldContents(o, base), []))
  {
    hide OldHolds, Sequencing, MemOf, Listing, Layered, Highest, Wal.Replayable, Applied, Tables, FirstIn;
    OldNamed(o, base);
    var v, rs := Sequencing(o), Wal.Replayable(o.wal);
    var m := Model(base, Changes(rs));
    SequencingRepresents(o, base);
    RepresentsMeans(v, m);
    SequencedFrom(o);
    PublishRepresents(v, m, writes);
    var f := Flushed(v, writes);
    forall i | 0 <= i < |rs| ensures rs[i].seqNum <= f.manifest.lastSeq && Wal.Small(rs[i]) {
      RenumberedAbove(o, i);
      LogBelow(v, i);
      ReplayableSmall(o.wal, i);
    }
    hide Wal.Small, Flushed;
  }

  lemma RenumberedAbove(o: OldDisk, i: nat)
    requires Named(o.files, o.names) && Renumbers(o) && i < |Wal.Replayable(o.wal)|
    ensures i < |Sequencing(o).wal| && Wal.Replayable(o.wal)[i].seqNum <= Sequencing(o).wal[i].seqNum
  {
    hide Tables, Highest, Wal.Replayable, Top;
    TopBounds(Wal.Replayable(o.wal), Highest(Tables(o.files, o.names)), i);
  }

  // ---- every run from an old store ---------------------------------------------------

  /** Opening again and again, each attempt cut off after some of its durable writes. */
  ghost predicate Reaches(s: Store, attempts: seq<nat>, s': Store)
    decreases |attempts|
  {
    if attempts == [] || s.Current? then s' == s
    else
      && Named(s.held.files, s.held.names) && Keyed(MemOf(Sequencing(s.held)).entries)
      && Reaches(Upgraded(s.held, attempts[0]), attempts[1..], s')
  }

  /** An old store keeps its contents through every attempt to open it, and once one has gone through,
      every run of the engine reads the last write of every key over those contents. */
  lemma {:induction false} UpgradeRefinesMap(o: OldDisk, base: map<Key, Bytes>, attempts: seq<nat>, s: Store,
                                             events: seq<Event>)
    requires OldHolds(o, base) && Reaches(Legacy(o), attempts, s) && SmallWrites(events)
    ensures s.Legacy? ==> exists b :: OldHolds(s.held, b) && OldContents(s.held, b) == OldContents(o, base)
    ensures s.Current? ==> DiskOK(s.disk) && (After(s.disk, events).Some? <==> Unlocked(events))
    ensures s.Current? && Unlocked(events) ==>
      Means(After(s.disk, events).value, Truth(OldContents(o, base), events))
    decreases |attempts|
  {
    hide OldHolds, OldContents, Represents, Means, DiskOK, MemOf, Upgraded, Truth, Contents, AllSmall, SmallWrites;
    hide After, Opens, Unlocked;
    if attempts != [] {
      var b, m := UpgradeKeeps(o, base, attempts[0]);
      var next := Upgraded(o, attempts[0]);
      if next.Legacy? {
        UpgradeRefinesMap(next.held, b, attempts[1..], s, events);
      } else {
        assert s == next;
        EngineExact(s.disk, m, events);
        SmallRuns(m, events);
        UnlockedOpens(m, events);
      }
    }
  }
}
