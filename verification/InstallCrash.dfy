/** A crash between publishing a snapshot and rewriting the log: what reopening the store finds, and exactly
    when that is what the install was to leave, then and at every later reopening. */
module InstallCrash {
  import opened RaftTypes
  import opened ConfigText
  import opened RaftCore
  import opened Stable
  import opened LogFile
  import opened NodeInvariant
  import opened Store

  /** The log file of store d holds `covered` and then d's entries, in records that read back. */
  predicate Stored(covered: seq<Entry>, d: Durable) {
    Leading(covered, d.snapshot.index) && Follows(d.entries, d.snapshot.index) && Carried(covered + d.entries)
  }

  /** What reopening finds in that file under a snapshot of the given index: covered entries, and entries beyond. */
  function Recovered(covered: seq<Entry>, d: Durable, snapshot: nat): (seq<Entry>, seq<Entry>) {
    Reread(covered, d.entries, d.snapshot.index, snapshot, |covered| + |d.entries|)
  }

  /** These are the entries read from the file. */
  lemma RecoveredIsRead(crc: Bytes -> nat, covered: seq<Entry>, d: Durable, snapshot: nat)
    requires Stored(covered, d)
    ensures EntriesOf(ReadFrom(crc, FileOf(crc, covered + d.entries), snapshot, 0, NOTHING).records)
         == Recovered(covered, d, snapshot).1
  {
    hide ReadFrom, FileOf, Reread, Placed, Leading, Carried, Follows, Surviving;
    var file := FileOf(crc, covered + d.entries);
    assert file[..|file|] == file;
    AllSurvive(crc, covered + d.entries);
    ReopenTorn(crc, covered, d.entries, d.snapshot.index, snapshot, |file|, file);
  }

  lemma AllSurvive(crc: Bytes -> nat, entries: seq<Entry>)
    ensures Surviving(crc, entries, |FileOf(crc, entries)|) == |entries|
  {
    hide EncodeAll, WholeWithin;
    var records := RecordsOf(entries);
    var n := Surviving(crc, entries, |FileOf(crc, entries)|);
    WholeExact(crc, records, |FileOf(crc, entries)|);
    if n < |entries| {
      assert records[..n + 1] == RecordsOf(entries[..n + 1]);
      FileCut(crc, entries, n + 1);
    }
  }

  // ---- the reopening after the crash ---------------------------------------

  /** The log has the snapshot's boundary entry. */
  predicate Agrees(d: Durable, snap: Snapshot)
    requires d.snapshot.index < snap.index <= LastStored(d)
  {
    d.entries[snap.index - d.snapshot.index - 1].term == snap.term
  }

  /** No entry lies beyond the snapshot, or the log file holds everything from index 1 on and the entries
      beyond are to stay, or it does not and they are to go. */
  predicate Harmless(covered: seq<Entry>, d: Durable, snap: Snapshot)
    requires d.snapshot.index < snap.index
  {
    LastStored(d) <= snap.index || (|covered| == d.snapshot.index <==> Agrees(d, snap))
  }

  /** The entries read back after the crash are those the install was to leave, exactly so. */
  lemma InstallCutExactly(covered: seq<Entry>, d: Durable, snap: Snapshot)
    requires Stored(covered, d) && d.snapshot.index < snap.index && snap.term > 0
    ensures WithSnapshot(d, snap).Some?
    ensures Recovered(covered, d, snap.index).1 == WithSnapshot(d, snap).value.entries <==> Harmless(covered, d, snap)
  {
    hide Carried, Follows;
    var run := Readable(covered, d.entries, d.snapshot.index, snap.index);
    var keep := snap.index - d.snapshot.index;
    if |covered| == d.snapshot.index {
      assert run[..|run|] == run;
      if snap.index <= |run| { assert run[snap.index..] == d.entries[keep..]; }
    } else {
      assert run == covered && run[..|run|] == run;
    }
    if keep < |d.entries| { assert d.entries[keep..] != []; }
  }

  // ---- the reopenings after that -------------------------------------------

  /** The file starts at index 1 and breaks off before the snapshot's boundary. */
  predicate Gap(covered: seq<Entry>, snapshot: nat) { 0 < |covered| < snapshot }

  /** A store reopens to its own entries unless its file has such a gap; then it reopens to none. */
  lemma ReopensExactly(covered: seq<Entry>, d: Durable)
    requires Stored(covered, d)
    ensures Recovered(covered, d, d.snapshot.index).1 == if Gap(covered, d.snapshot.index) then [] else d.entries
  {
    hide Carried, Follows;
    var run := Readable(covered, d.entries, d.snapshot.index, d.snapshot.index);
    assert run[..|run|] == run;
    if !Gap(covered, d.snapshot.index) { assert run[|covered|..] == d.entries; }
  }

  /** The crash makes or keeps a gap. */
  predicate LeavesGap(covered: seq<Entry>, d: Durable, snap: Snapshot) {
    Gap(covered, d.snapshot.index) || (|covered| == d.snapshot.index && 0 < LastStored(d) < snap.index)
  }

  lemma CutLeavesGapExactly(covered: seq<Entry>, d: Durable, snap: Snapshot)
    requires Stored(covered, d) && d.snapshot.index < snap.index
    ensures Gap(Recovered(covered, d, snap.index).0, snap.index) <==> LeavesGap(covered, d, snap)
  {
    hide Carried, Follows;
    var run := Readable(covered, d.entries, d.snapshot.index, snap.index);
    assert run[..|run|] == run;
  }

  lemma RecoveredStored(covered: seq<Entry>, d: Durable, snap: Snapshot, more: seq<Entry>)
    requires Stored(covered, d) && Carried(more)
    requires Follows(more, snap.index + |Recovered(covered, d, snap.index).1|)
    ensures var (c, e) := Recovered(covered, d, snap.index); Stored(c, Durable(d.hard, snap, e + more))
  {
    var (c, e) := Recovered(covered, d, snap.index);
    var crc := (b: Bytes) => 0;
    hide Recovered, ReadFrom, FileOf, Reread, Placed, Surviving, Carried, Follows;
    var file := FileOf(crc, covered + d.entries);
    assert file[..|file|] == file;
    AllSurvive(crc, covered + d.entries);
    ReopenTorn(crc, covered, d.entries, d.snapshot.index, snap.index, |file|, file);
    RecoveredAs(covered, d, snap.index);
    FollowsJoin(e, more, snap.index);
    RecoveredCarried(covered, d, snap.index, more);
  }

  lemma RecoveredAs(covered: seq<Entry>, d: Durable, snapshot: nat)
    ensures Recovered(covered, d, snapshot)
         == Reread(covered, d.entries, d.snapshot.index, snapshot, |covered + d.entries|)
  {
  }

  lemma RecoveredCarried(covered: seq<Entry>, d: Durable, snapshot: nat, more: seq<Entry>)
    requires Carried(covered + d.entries) && Carried(more)
    ensures var (c, e) := Recovered(covered, d, snapshot); Carried(c + (e + more))
  {
    hide Genuine;
    var run := Readable(covered, d.entries, d.snapshot.index, snapshot);
    var (c, e) := Recovered(covered, d, snapshot);
    assert c + e == run;
    assert run <= covered + d.entries;
    var all := c + (e + more);
    assert all == run + more;
  }

  /** For good: what the crash left, and whatever is appended to it, reopens as the finished install would
      have, exactly when the crash is harmless and leaves no gap. */
  lemma CutHarmlessForGoodExactly(covered: seq<Entry>, d: Durable, snap: Snapshot, more: seq<Entry>)
    requires Stored(covered, d) && d.snapshot.index < snap.index && snap.term > 0
    requires more != [] && Carried(more) && Follows(more, snap.index + |Recovered(covered, d, snap.index).1|)
    ensures WithSnapshot(d, snap).Some?
    ensures var (c, e) := Recovered(covered, d, snap.index);
      (e == WithSnapshot(d, snap).value.entries
       && Recovered(c, Durable(d.hard, snap, e + more), snap.index).1 == e + more)
      <==> Harmless(covered, d, snap) && !LeavesGap(covered, d, snap)
  {
    InstallCutExactly(covered, d, snap);
    CutLeavesGapExactly(covered, d, snap);
    RecoveredStored(covered, d, snap, more);
    hide Recovered, Stored, WithSnapshot, Harmless, LeavesGap, Carried, Follows;
    var (c, e) := Recovered(covered, d, snap.index);
    ReopensExactly(c, Durable(d.hard, snap, e + more));
  }

  // ---- failing families ----------------------------------------------------

  /** Any compaction of a valid node, below the end of its log, while its log file does not reach back to index 1
      unbroken. The crash loses every entry beyond the boundary, though the node may have acknowledged them. */
  lemma LaterCompactionLosesSuffix(covered: seq<Entry>, s: NodeState, index: nat, data: Image)
    requires Inv(s) && Stored(covered, DurableOf(s)) && CreateSnapshot(s, index, data).Some?
    requires s.snapshot.index < index < LastIndex(s) && |covered| != s.snapshot.index
    ensures var s' := CreateSnapshot(s, index, data).value.0;
      && |s'.log| == LastIndex(s) - index > 0
      && s'.snapshot.index == index && Recovered(covered, DurableOf(s), index).1 == []
  {
    hide Stored, Inv, Rebuilt, Recovered;
    BrokenReadsNothing(covered, DurableOf(s), index);
  }

  lemma BrokenReadsNothing(covered: seq<Entry>, d: Durable, snapshot: nat)
    requires Stored(covered, d) && d.snapshot.index < snapshot && |covered| != d.snapshot.index
    ensures Recovered(covered, d, snapshot).1 == []
  {
    hide Carried, Follows;
    assert covered[..|covered|] == covered;
  }

  /** A store without a snapshot whose log ends short of the one it installs: the crash costs nothing at the first
      reopening, and everything appended after it at the next. */
  lemma FirstInstallLosesLater(d: Durable, snap: Snapshot, more: seq<Entry>)
    requires Stored([], d) && d.snapshot.index == 0 && 0 < |d.entries| < snap.index && snap.term > 0
    requires more != [] && Carried(more) && Follows(more, snap.index)
    ensures WithSnapshot(d, snap).Some?
    ensures var (c, e) := Recovered([], d, snap.index);
      && e == WithSnapshot(d, snap).value.entries
      && Recovered(c, Durable(d.hard, snap, e + more), snap.index).1 == []
  {
    InstallCutExactly([], d, snap);
    CutLeavesGapExactly([], d, snap);
    var (c, e) := Recovered([], d, snap.index);
    assert e == [];
    RecoveredStored([], d, snap, more);
    hide Recovered, Stored, WithSnapshot, Carried, Follows;
    ReopensExactly(c, Durable(d.hard, snap, e + more));
  }
}
