/** The stable store: a log file with the offset of every entry, a hard state and a snapshot. Its methods are
    proved against Stable.Persisted; reopening a file cut anywhere, under the snapshot it was written for or a
    newer one, recovers exactly what the file still tells. */
module Store {
  import opened BigEndian
  import opened RaftTypes
  import opened ConfigText
  import opened Stable
  import opened LogFile

  function RecordOf(e: Entry): Record { Record(e.index, e.term, PayloadText(e.payload)) }

  function EntryOf(r: Record): Entry { Entry(r.index, r.term, PayloadOf(r.data)) }

  function RecordsOf(entries: seq<Entry>): (r: seq<Record>)
    ensures |r| == |entries| && forall i :: 0 <= i < |r| ==> r[i] == RecordOf(entries[i])
  {
    seq(|entries|, i requires 0 <= i < |entries| => RecordOf(entries[i]))
  }

  function EntriesOf(records: seq<Record>): (r: seq<Entry>)
    ensures |r| == |records| && forall i :: 0 <= i < |r| ==> r[i] == EntryOf(records[i])
  {
    seq(|records|, i requires 0 <= i < |records| => EntryOf(records[i]))
  }

  /** The log file that holds exactly these entries. */
  function FileOf(crc: Bytes -> nat, entries: seq<Entry>): Bytes { EncodeAll(crc, RecordsOf(entries)) }

  /** Each entry's place in the file that holds `covered` before them. */
  ghost predicate Placed(crc: Bytes -> nat, covered: seq<Entry>, entries: seq<Entry>, offsets: seq<nat>) {
    |offsets| == |entries| && forall i :: 0 <= i < |entries| ==> offsets[i] == |FileOf(crc, covered + entries[..i])|
  }

  /** Entries from index 1 on that a snapshot covers. */
  predicate Leading(covered: seq<Entry>, snapshot: nat) { Follows(covered, 0) && |covered| <= snapshot }

  lemma FileNext(crc: Bytes -> nat, entries: seq<Entry>, e: Entry)
    ensures FileOf(crc, entries + [e]) == FileOf(crc, entries) + Encode(crc, RecordOf(e))
  {
    var r := RecordsOf(entries + [e]);
    assert r[..|entries|] == RecordsOf(entries);
  }

  lemma PlacedNext(crc: Bytes -> nat, covered: seq<Entry>, entries: seq<Entry>, offsets: seq<nat>, e: Entry)
    requires Placed(crc, covered, entries, offsets)
    ensures Placed(crc, covered, entries + [e], offsets + [|FileOf(crc, covered + entries)|])
    ensures FileOf(crc, covered + (entries + [e])) == FileOf(crc, covered + entries) + Encode(crc, RecordOf(e))
  {
    hide FileOf, Encode;
    var es, os := entries + [e], offsets + [|FileOf(crc, covered + entries)|];
    forall i | 0 <= i < |es| ensures os[i] == |FileOf(crc, covered + es[..i])| {
      if i < |entries| { assert es[..i] == entries[..i]; } else { assert es[..i] == entries; }
    }
    FileNext(crc, covered + entries, e);
    assert covered + es == (covered + entries) + [e];
  }

  /** Cutting the file at an entry's offset leaves the file of the entries before it. */
  lemma {:induction false} FileCut(crc: Bytes -> nat, entries: seq<Entry>, i: nat)
    requires i <= |entries|
    ensures |FileOf(crc, entries[..i])| <= |FileOf(crc, entries)|
    ensures FileOf(crc, entries)[..|FileOf(crc, entries[..i])|] == FileOf(crc, entries[..i])
    decreases |entries| - i
  {
    if i < |entries| {
      hide Encode, EncodeAll;
      FileCut(crc, entries, i + 1);
      assert entries[..i + 1] == entries[..i] + [entries[i]];
      FileNext(crc, entries[..i], entries[i]);
      var n, m := |FileOf(crc, entries[..i])|, |FileOf(crc, entries[..i + 1])|;
      assert FileOf(crc, entries)[..n] == FileOf(crc, entries)[..m][..n];
    } else {
      assert entries[..i] == entries;
    }
  }

  lemma CutPlaced(crc: Bytes -> nat, covered: seq<Entry>, entries: seq<Entry>, offsets: seq<nat>, i: nat)
    requires Placed(crc, covered, entries, offsets) && i < |entries|
    ensures Placed(crc, covered, entries[..i], offsets[..i])
    ensures var file := FileOf(crc, covered + entries);
      offsets[i] <= |file| && file[..offsets[i]] == FileOf(crc, covered + entries[..i])
  {
    hide FileOf;
    forall j | 0 <= j < i ensures offsets[..i][j] == |FileOf(crc, covered + entries[..i][..j])| {
      assert entries[..i][..j] == entries[..j];
    }
    FileCut(crc, covered + entries, |covered| + i);
    assert (covered + entries)[..|covered| + i] == covered + entries[..i];
  }

  lemma FollowsCut(entries: seq<Entry>, last: nat, i: nat)
    requires Follows(entries, last) && i <= |entries|
    ensures Follows(entries[..i], last) && Follows(entries[i..], last + i)
  {
    forall k | 0 <= k < i ensures Storable(entries[..i][k], last + k + 1) {
      assert Storable(entries[k], last + k + 1);
    }
    forall k | 0 <= k < |entries| - i ensures Storable(entries[i..][k], last + i + k + 1) {
      assert Storable(entries[i + k], last + (i + k) + 1);
    }
  }

  class Store {
    const crc: Bytes -> nat
    var file: Bytes
    var entries: seq<Entry>
    var offsets: seq<nat>
    var hard: HardState
    var snapshot: Snapshot
    /** Entries the snapshot covers that still stand at the front of the file. */
    ghost var covered: seq<Entry>

    /** The file holds the entries, after some that the snapshot covers, and every offset is right. */
    ghost predicate Valid()
      reads this
    {
      && Leading(covered, snapshot.index) && Follows(entries, snapshot.index)
      && file == FileOf(crc, covered + entries) && Placed(crc, covered, entries, offsets)
    }

    function Contents(): Durable
      reads this
    {
      Durable(hard, snapshot, entries)
    }

    constructor (crc: Bytes -> nat, hard: HardState, snapshot: Snapshot, file: Bytes, entries: seq<Entry>,
                 offsets: seq<nat>, ghost covered: seq<Entry>)
      ensures this.crc == crc && this.file == file && this.offsets == offsets && this.covered == covered
      ensures Contents() == Durable(hard, snapshot, entries)
    {
      this.crc, this.hard, this.snapshot := crc, hard, snapshot;
      this.file, this.entries, this.offsets, this.covered := file, entries, offsets, covered;
    }

    /** Drops the entries from `from` on, cutting the file at its offset. */
    method Truncate(from: nat) returns (ok: bool)
      requires Valid()
      modifies this`file, this`entries, this`offsets
      ensures Valid()
      ensures ok <==> Truncated(old(Contents()), from).Some?
      ensures Contents() == if ok then Truncated(old(Contents()), from).value else old(Contents())
    {
      var first, last := snapshot.index + 1, snapshot.index + |entries|;
      if from < first || from > last + 1 { return false; }
      if from == last + 1 {
        assert entries[..from - first] == entries;
        return true;
      }
      var i := from - first;
      CutPlaced(crc, covered, entries, offsets, i);
      FollowsCut(entries, snapshot.index, i);
      hide FileOf;
      file := file[..offsets[i]];
      entries, offsets := entries[..i], offsets[..i];
      ok := true;
    }

    /** Writes entries at the end of the file, stopping at the first that does not continue it. */
    method Append(more: seq<Entry>) returns (ok: bool)
      requires Valid()
      modifies this`file, this`entries, this`offsets
      ensures Valid()
      ensures ok <==> Appended(old(Contents()), more).Some?
      ensures Contents() == Written(old(Contents()), more)
    {
      hide FileOf, Encode;
      for j := 0 to |more|
        invariant Valid() && hard == old(hard) && snapshot == old(snapshot)
        invariant Appended(old(Contents()), more) == Appended(Contents(), more[j..])
        invariant Written(old(Contents()), more) == Written(Contents(), more[j..])
      {
        var e := more[j];
        assert more[j..][0] == e && more[j..][1..] == more[j + 1..];
        if e.index != snapshot.index + |entries| + 1 || e.term == 0 || DataBytes(e.payload) > MAX_ENTRY_BYTES {
          return false;
        }
        PlacedNext(crc, covered, entries, offsets, e);
        offsets := offsets + [|file|];
        file := file + Encode(crc, RecordOf(e));
        entries := entries + [e];
      }
      ok := true;
    }

    /** Writes a fresh file with the given entries. */
    method RewriteLog(kept: seq<Entry>)
      modifies this`file, this`entries, this`offsets, this`covered
      ensures file == FileOf(crc, covered + entries) && Placed(crc, covered, entries, offsets)
      ensures entries == kept && covered == []
    {
      hide Encode;
      file, entries, offsets, covered := [], [], [], [];
      assert RecordsOf([]) == [];
      for j := 0 to |kept|
        invariant file == FileOf(crc, covered + entries) && Placed(crc, covered, entries, offsets)
        invariant entries == kept[..j] && covered == []
      {
        hide FileOf;
        assert kept[..j + 1] == kept[..j] + [kept[j]];
        PlacedNext(crc, covered, entries, offsets, kept[j]);
        offsets := offsets + [|file|];
        file := file + Encode(crc, RecordOf(kept[j]));
        entries := entries + [kept[j]];
      }
      assert kept[..|kept|] == kept;
    }

    /** Publishes a newer snapshot and rewrites the log to the suffix it keeps. */
    method InstallSnapshot(next: Snapshot) returns (ok: bool)
      requires Valid()
      modifies this
      ensures Valid()
      ensures ok <==> WithSnapshot(old(Contents()), next).Some?
      ensures Contents() == if ok then WithSnapshot(old(Contents()), next).value else old(Contents())
      ensures covered == if snapshot == old(snapshot) then old(covered) else []
    {
      hide FileOf;
      if next.index == 0 || next.term == 0 { return false; }
      if next.index <= snapshot.index { return true; }
      var suffix: seq<Entry> := [];
      if next.index <= snapshot.index + |entries| && entries[next.index - snapshot.index - 1].term == next.term {
        FollowsCut(entries, snapshot.index, next.index - snapshot.index);
        suffix := entries[next.index - snapshot.index..];
      }
      RewriteLog(suffix);
      snapshot := next;
      ok := true;
    }

    /** Persists an update: hard state, snapshot, truncation, entries. */
    method Persist(u: Update) returns (ok: bool)
      requires Valid()
      modifies this
      ensures Valid()
      ensures ok <==> Persisted(old(Contents()), u).Some?
      ensures Contents() == TornAt(old(Contents()), u, |u.entries| + 1)
      ensures ok ==> Contents() == Persisted(old(Contents()), u).value
      ensures covered == if snapshot == old(snapshot) then old(covered) else []
    {
      hide FileOf, WithSnapshot, Truncated, Appended, Written, Placed, Leading, Follows;
      if Persisted(Contents(), u).Some? { TornWhole(Contents(), u, |u.entries| + 1); }
      assert u.entries[..|u.entries|] == u.entries;
      if u.hardState.Some? { hard := u.hardState.value; }
      ok := true;
      if u.snapshot.Some? { ok := InstallSnapshot(u.snapshot.value); }
      if ok && u.truncateFrom != 0 { ok := Truncate(u.truncateFrom); }
      if ok { ok := Append(u.entries); }
    }
  }

  // ---- reopening -------------------------------------------------------

  /** Entries whose records read back: 64-bit indices and terms, and data that means what it says. */
  predicate Carried(entries: seq<Entry>) {
    forall i :: 0 <= i < |entries| ==>
      entries[i].index < TWO_64 && entries[i].term < TWO_64 && Genuine(entries[i].payload)
  }

  /** `disk` is the log file of a store with snapshot index `base`, cut at byte k. */
  ghost predicate TornFrom(crc: Bytes -> nat, covered: seq<Entry>, entries: seq<Entry>, base: nat, k: nat,
                           disk: Bytes)
  {
    && Leading(covered, base) && Follows(entries, base) && Carried(covered + entries)
    && k <= |FileOf(crc, covered + entries)| && disk == FileOf(crc, covered + entries)[..k]
  }

  /** How many of a file's entries survive a cut at byte k. */
  function Surviving(crc: Bytes -> nat, entries: seq<Entry>, k: nat): (n: nat)
    ensures n <= |entries|
  {
    WholeWithin(crc, RecordsOf(entries), k)
  }

  /** The file of a store starts at index 1 rather than right after its snapshot. */
  predicate FromOne(covered: seq<Entry>, base: nat) { covered != [] || base == 0 }

  /** The first entries of a file up to a gap; none when they start where reading under `snapshot` does not. */
  function Readable(covered: seq<Entry>, entries: seq<Entry>, base: nat, snapshot: nat): seq<Entry> {
    if |covered| == base || (covered == [] && base == snapshot) then covered + entries else covered
  }

  /** What is read of them when the first n entries of the file survive: the covered ones, and those beyond. */
  function Reread(covered: seq<Entry>, entries: seq<Entry>, base: nat, snapshot: nat, n: nat)
    : (seq<Entry>, seq<Entry>)
  {
    var run := Readable(covered, entries, base, snapshot);
    var kept := if n <= |run| then run[..n] else run;
    var c := if FromOne(covered, base) then Min(snapshot, |kept|) else 0;
    (kept[..c], kept[c..])
  }

  lemma RecordEncodable(e: Entry, index: nat)
    requires Storable(e, index) && index < TWO_64 && e.term < TWO_64
    ensures Encodable(RecordOf(e)) && RecordOf(e).index == index
  {
    TextLengths(e.payload, Membership([], [], 0));
  }

  lemma RecordsChained(entries: seq<Entry>, last: nat)
    requires Follows(entries, last) && Carried(entries)
    ensures Chained(RecordsOf(entries), last + 1)
  {
    hide Genuine, Encodable;
    forall i | 0 <= i < |entries|
      ensures Encodable(RecordsOf(entries)[i]) && RecordsOf(entries)[i].index == last + 1 + i
    {
      assert Storable(entries[i], last + i + 1);
      RecordEncodable(entries[i], last + i + 1);
    }
  }

  lemma FollowsJoin(a: seq<Entry>, b: seq<Entry>, last: nat)
    requires Follows(a, last) && Follows(b, last + |a|)
    ensures Follows(a + b, last)
  {
    forall k | 0 <= k < |a| + |b| ensures Storable((a + b)[k], last + k + 1) {
      if k < |a| {
        assert Storable(a[k], last + k + 1);
      } else {
        assert Storable(b[k - |a|], last + |a| + (k - |a|) + 1);
      }
    }
  }

  /** `run` can be read from the front of a file, and what comes after it there cannot. */
  ghost predicate Runs(run: seq<Entry>, tail: seq<Entry>, first: nat, snapshot: nat) {
    && Follows(run, first) && Carried(run) && (run == [] || first == 0 || first == snapshot)
    && Continues(RecordsOf(run), 0, snapshot) && Stops(RecordsOf(run), RecordsOf(tail), snapshot)
    && forall i :: 0 <= i < |tail| ==> Encodable(RecordsOf(tail)[i])
  }

  lemma RunsToTheEnd(all: seq<Entry>, first: nat, snapshot: nat)
    requires Follows(all, first) && Carried(all) && (first == 0 || first == snapshot)
    ensures Runs(all, [], first, snapshot)
  {
    hide Carried, Encodable;
    RecordsChained(all, first);
  }

  lemma RunsToAGap(covered: seq<Entry>, entries: seq<Entry>, base: nat, snapshot: nat)
    requires Leading(covered, base) && Follows(entries, base) && Carried(covered) && Carried(entries)
    requires |covered| != base && (covered == [] ==> base != snapshot)
    ensures Runs(covered, entries, 0, snapshot)
  {
    hide Carried, Encodable;
    RecordsChained(covered, 0);
    RecordsChained(entries, base);
    assert covered != [] ==> Storable(covered[|covered| - 1], 0 + (|covered| - 1) + 1);
    assert entries != [] ==> Storable(entries[0], base + 0 + 1);
  }

  lemma CarriedParts(a: seq<Entry>, b: seq<Entry>)
    requires Carried(a + b)
    ensures Carried(a) && Carried(b)
  {
    hide Genuine;
    forall i | 0 <= i < |a|
      ensures a[i].index < TWO_64 && a[i].term < TWO_64 && Genuine(a[i].payload)
    {
      assert a[i] == (a + b)[i];
    }
    forall i | 0 <= i < |b|
      ensures b[i].index < TWO_64 && b[i].term < TWO_64 && Genuine(b[i].payload)
    {
      assert b[i] == (a + b)[|a| + i];
    }
  }

  lemma ReadableRuns(covered: seq<Entry>, entries: seq<Entry>, base: nat, snapshot: nat) returns (tail: seq<Entry>)
    requires Leading(covered, base) && Follows(entries, base) && Carried(covered + entries)
    ensures var run := Readable(covered, entries, base, snapshot);
      run + tail == covered + entries && Runs(run, tail, if FromOne(covered, base) then 0 else snapshot, snapshot)
  {
    hide Carried, Runs;
    CarriedParts(covered, entries);
    if |covered| == base {
      tail := [];
      FollowsJoin(covered, entries, 0);
      RunsToTheEnd(covered + entries, 0, snapshot);
    } else if covered == [] && base == snapshot {
      tail := [];
      assert covered + entries == entries;
      RunsToTheEnd(entries, snapshot, snapshot);
    } else {
      tail := entries;
      RunsToAGap(covered, entries, base, snapshot);
      if covered == [] { EmptyRuns(entries, snapshot); }
    }
  }

  lemma EmptyRuns(tail: seq<Entry>, snapshot: nat)
    requires Runs([], tail, 0, snapshot)
    ensures Runs([], tail, snapshot, snapshot)
  {
  }

  /** Reading a torn file back gives the surviving entries, their offsets and their file. */
  lemma ReopenTorn(crc: Bytes -> nat, covered: seq<Entry>, entries: seq<Entry>, base: nat, snapshot: nat, k: nat,
                   disk: Bytes)
    requires TornFrom(crc, covered, entries, base, k, disk)
    ensures var log := ReadFrom(crc, disk, snapshot, 0, NOTHING);
      var (c, e) := Reread(covered, entries, base, snapshot, Surviving(crc, covered + entries, k));
      && EntriesOf(log.records) == e && disk[..log.end] == FileOf(crc, c + e) && Placed(crc, c, e, log.offsets)
      && Leading(c, snapshot) && Follows(e, snapshot)
  {
    hide ReadFrom, Carried, Placed, Leading, Follows, Runs, Readable, FileOf, Surviving;
    var tail := ReadableRuns(covered, entries, base, snapshot);
    var all, n := covered + entries, Surviving(crc, covered + entries, k);
    var run, first := Readable(covered, entries, base, snapshot), if FromOne(covered, base) then 0 else snapshot;
    var log := ReadFrom(crc, disk, snapshot, 0, NOTHING);
    RunRead(crc, run, tail, first, snapshot, k, disk);
    var m := Min(n, |run|);
    var kept := run[..m];
    assert kept == if n <= |run| then run[..n] else run;
    var c := if first == 0 then Min(snapshot, m) else 0;
    assert kept[..c] + kept[c..] == kept;
    if first == snapshot == 0 { assert kept[..c] == [] && kept[c..] == kept; }
  }

  /** What is read of a cut file that starts with a run. */
  lemma RunRead(crc: Bytes -> nat, run: seq<Entry>, tail: seq<Entry>, first: nat, snapshot: nat, k: nat, disk: Bytes)
    requires Runs(run, tail, first, snapshot) && (first == 0 || first == snapshot)
    requires k <= |FileOf(crc, run + tail)| && disk == FileOf(crc, run + tail)[..k]
    ensures var log := ReadFrom(crc, disk, snapshot, 0, NOTHING);
      var kept := run[..Min(Surviving(crc, run + tail, k), |run|)];
      var c := if first == 0 then Min(snapshot, |kept|) else 0;
      && EntriesOf(log.records) == kept[c..] && disk[..log.end] == FileOf(crc, kept)
      && Placed(crc, kept[..c], kept[c..], log.offsets) && Leading(kept[..c], snapshot) && Follows(kept[c..], snapshot)
  {
    hide ReadFrom, EncodeAll, WholeWithin, Recovers, Carried, Stops, Encodable, Continues, Placed, Leading, Follows;
    var all, n := run + tail, Surviving(crc, run + tail, k);
    assert RecordsOf(run) + RecordsOf(tail) == RecordsOf(all);
    TornTail(crc, RecordsOf(run), RecordsOf(tail), k, snapshot);
    var m := Min(n, |run|);
    var kept := run[..m];
    assert RecordsOf(kept) == if n <= |run| then RecordsOf(run)[..n] else RecordsOf(run);
    assert kept == all[..m];
    FollowsCut(run, first, m);
    CarriedCut(run, m);
    Beyond(crc, kept, first, snapshot, ReadFrom(crc, disk, snapshot, 0, NOTHING));
    FileCut(crc, all, m);
    EndsWithin(crc, all, n, m, k);
  }

  lemma CarriedCut(entries: seq<Entry>, m: nat)
    requires Carried(entries) && m <= |entries|
    ensures Carried(entries[..m])
  {
    hide Genuine;
  }

  lemma EndsWithin(crc: Bytes -> nat, all: seq<Entry>, n: nat, m: nat, k: nat)
    requires m <= n <= |all| && |EncodeAll(crc, RecordsOf(all)[..n])| <= k
    ensures |FileOf(crc, all[..m])| <= k
  {
    hide EncodeAll;
    assert RecordsOf(all)[..n] == RecordsOf(all[..n]);
    FileCut(crc, all[..n], m);
    assert all[..n][..m] == all[..m];
  }

  /** Entries that start at index 1 or right after the snapshot, read back: those beyond it are kept. */
  lemma Beyond(crc: Bytes -> nat, kept: seq<Entry>, first: nat, snapshot: nat, log: Log)
    requires Follows(kept, first) && Carried(kept) && (first == 0 || first == snapshot)
    requires Recovers(crc, log, RecordsOf(kept), snapshot)
    ensures var c := if first == 0 then Min(snapshot, |kept|) else 0;
      && EntriesOf(log.records) == kept[c..] && Placed(crc, kept[..c], kept[c..], log.offsets)
      && log.end == |FileOf(crc, kept)| && Leading(kept[..c], snapshot) && Follows(kept[c..], snapshot)
  {
    var c := if first == 0 then Min(snapshot, |kept|) else 0;
    CoveredCount(crc, kept, first, snapshot, log);
    PlacedBeyond(crc, kept, c, snapshot, log);
    FollowsCut(kept, first, c);
    hide EncodeAll, Encode, Carried, Placed, Follows;
    ReadsBack(kept);
    forall i | 0 <= i < |log.records| ensures EntryOf(log.records[i]) == kept[c + i] {
      assert log.records[i] == RecordsOf(kept)[c + i];
      assert EntriesOf(RecordsOf(kept))[c + i] == kept[c + i];
    }
  }

  lemma PlacedBeyond(crc: Bytes -> nat, kept: seq<Entry>, c: nat, snapshot: nat, log: Log)
    requires Recovers(crc, log, RecordsOf(kept), snapshot) && c <= |kept| && |log.records| == |kept| - c
    ensures Placed(crc, kept[..c], kept[c..], log.offsets)
  {
    hide EncodeAll, Encode;
    forall i | 0 <= i < |kept| - c ensures log.offsets[i] == |FileOf(crc, kept[..c] + kept[c..][..i])| {
      assert RecordsOf(kept)[..c + i] == RecordsOf(kept[..c + i]);
      assert kept[..c] + kept[c..][..i] == kept[..c + i];
    }
  }

  lemma CoveredCount(crc: Bytes -> nat, kept: seq<Entry>, first: nat, snapshot: nat, log: Log)
    requires Follows(kept, first) && (first == 0 || first == snapshot)
    requires Recovers(crc, log, RecordsOf(kept), snapshot)
    ensures |log.records| == |kept| - (if first == 0 then Min(snapshot, |kept|) else 0)
  {
    hide EncodeAll, Encode;
    var n := |kept| - |log.records|;
    if n > 0 {
      assert Storable(kept[n - 1], first + (n - 1) + 1);
      assert RecordsOf(kept)[n - 1].index <= snapshot;
    }
    if n < |kept| {
      assert Storable(kept[n], first + n + 1);
      assert log.records[0] == RecordsOf(kept)[n];
    }
  }

  lemma ReadsBack(kept: seq<Entry>)
    requires Carried(kept)
    ensures EntriesOf(RecordsOf(kept)) == kept
  {
    hide Genuine, PayloadText, PayloadOf;
    forall i | 0 <= i < |kept| ensures EntryOf(RecordOf(kept[i])) == kept[i] { PayloadBack(kept[i].payload); }
  }

  /** The entries up to the snapshot in a file that starts at index 1. */
  ghost function CoveredIn(crc: Bytes -> nat, disk: Bytes, snapshot: nat): seq<Entry> {
    var all := EntriesOf(ReadFrom(crc, disk, 0, 0, NOTHING).records);
    all[..Min(snapshot, |all|)]
  }

  lemma CoveredFound(crc: Bytes -> nat, covered: seq<Entry>, entries: seq<Entry>, base: nat, snapshot: nat, k: nat,
                     disk: Bytes)
    requires TornFrom(crc, covered, entries, base, k, disk)
    ensures CoveredIn(crc, disk, snapshot)
         == Reread(covered, entries, base, snapshot, Surviving(crc, covered + entries, k)).0
  {
    ReopenTorn(crc, covered, entries, base, 0, k, disk);
    hide ReadFrom, TornFrom, Placed, FileOf, Surviving;
    var n := Surviving(crc, covered + entries, k);
    var run := Readable(covered, entries, base, 0);
    var kept := if n <= |run| then run[..n] else run;
    assert kept[0..] == kept;
    if !FromOne(covered, base) { assert run == []; }
  }

  /** Opens a store on what a crash left, unless its snapshot's membership is too long to read. Any file is read as
      far as it is acceptable; the file of a valid store, cut at any byte, perhaps under a newer snapshot, gives a
      valid store again, with exactly the entries that `Reread` names. */
  method Open(crc: Bytes -> nat, hard: HardState, snapshot: Snapshot, disk: Bytes) returns (r: Option<Store>)
    ensures r.Some? <==> Reopens(Durable(hard, snapshot, []))
    ensures r.Some? ==>
      var s := r.value;
      && fresh(s) && s.crc == crc
      && s.Contents()
         == Durable(hard, snapshot, EntriesOf(ReadFrom(crc, disk, snapshot.index, 0, NOTHING).records))
    ensures r.Some? ==>
      var s := r.value;
      forall covered, entries, base: nat, k: nat {:trigger TornFrom(crc, covered, entries, base, k, disk)} ::
        TornFrom(crc, covered, entries, base, k, disk) ==>
          && s.Valid()
          && (s.covered, s.entries)
             == Reread(covered, entries, base, snapshot.index, Surviving(crc, covered + entries, k))
  {
    if snapshot.index > 0 && MembershipBytes(snapshot.membership) > MAX_MEMBERSHIP_BYTES { return None; }
    var log := ReadLog(crc, disk, snapshot.index);
    var s := new Store(crc, hard, snapshot, disk[..log.end], EntriesOf(log.records), log.offsets,
                       CoveredIn(crc, disk, snapshot.index));
    hide ReadFrom, TornFrom, FileOf, Placed, Surviving, Reread, CoveredIn, Leading, Follows;
    forall covered, entries, base: nat, k: nat | TornFrom(crc, covered, entries, base, k, disk)
      ensures s.Valid()
      ensures (s.covered, s.entries)
           == Reread(covered, entries, base, snapshot.index, Surviving(crc, covered + entries, k))
    {
      ReopenTorn(crc, covered, entries, base, snapshot.index, k, disk);
      CoveredFound(crc, covered, entries, base, snapshot.index, k, disk);
    }
    r := Some(s);
  }
}
