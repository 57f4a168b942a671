/** What the stable store keeps, as values: the specification of Store.persist. */
module Stable {
  import opened RaftTypes

  /** The last published hard state and snapshot, and the log entries after the snapshot. */
  datatype Durable = Durable(hard: HardState, snapshot: Snapshot, entries: seq<Entry>)

  const NO_SNAPSHOT := Snapshot(0, 0, [], Membership([], [], 0))
  const EMPTY_STORE := Durable(HardState(0, 0), NO_SNAPSHOT, [])

  function LastStored(d: Durable): nat { d.snapshot.index + |d.entries| }

  predicate Storable(e: Entry, index: nat) {
    e.index == index && e.term != 0 && DataBytes(e.payload) <= MAX_ENTRY_BYTES
  }

  /** The entries carry on a log that ends at `last`, whatever their sizes. */
  predicate InSequence(entries: seq<Entry>, last: nat) {
    forall k :: 0 <= k < |entries| ==> entries[k].index == last + k + 1 && entries[k].term != 0
  }

  predicate AllFit(entries: seq<Entry>) {
    forall k :: 0 <= k < |entries| ==> DataBytes(entries[k].payload) <= MAX_ENTRY_BYTES
  }

  /** What the store takes: entries in sequence, none too large. */
  lemma FollowsExactly(entries: seq<Entry>, last: nat)
    ensures Follows(entries, last) <==> InSequence(entries, last) && AllFit(entries)
  {
    if Follows(entries, last) {
      forall k | 0 <= k < |entries| ensures entries[k].index == last + k + 1 && entries[k].term != 0 {
        assert Storable(entries[k], last + k + 1);
      }
      forall k | 0 <= k < |entries| ensures DataBytes(entries[k].payload) <= MAX_ENTRY_BYTES {
        assert Storable(entries[k], last + k + 1);
      }
    }
  }

  /** The entries continue a log that ends at `last`. */
  predicate Follows(entries: seq<Entry>, last: nat) {
    forall k :: 0 <= k < |entries| ==> Storable(entries[k], last + k + 1)
  }

  /** Appends entry by entry; None at the first that does not continue the log. */
  function Appended(d: Durable, entries: seq<Entry>): Option<Durable>
    decreases |entries|
  {
    if entries == [] then Some(d)
    else if !Storable(entries[0], LastStored(d) + 1) then None
    else Appended(d.(entries := d.entries + [entries[0]]), entries[1..])
  }

  /** Drops the entries from index `from` on; None when `from` is outside the log. */
  function Truncated(d: Durable, from: nat): Option<Durable> {
    if from <= d.snapshot.index || from > LastStored(d) + 1 then None
    else Some(d.(entries := d.entries[..from - d.snapshot.index - 1]))
  }

  /** Publishes a newer snapshot, keeping the entries after it when the log has its boundary. */
  function WithSnapshot(d: Durable, snapshot: Snapshot): Option<Durable> {
    if snapshot.index == 0 || snapshot.term == 0 then None
    else if snapshot.index <= d.snapshot.index then Some(d)
    else
      var keep := snapshot.index - d.snapshot.index;
      if keep <= |d.entries| && d.entries[keep - 1].term == snapshot.term
      then Some(d.(snapshot := snapshot, entries := d.entries[keep..]))
      else Some(d.(snapshot := snapshot, entries := []))
  }

  function WithHard(d: Durable, hard: Option<HardState>): Durable {
    if hard.Some? then d.(hard := hard.value) else d
  }

  /** The store after an update's hard state, snapshot and truncation, in that order. */
  function Cut(d: Durable, u: Update): Option<Durable> {
    var d1 := WithHard(d, u.hardState);
    var d2 := if u.snapshot.Some? then WithSnapshot(d1, u.snapshot.value) else Some(d1);
    if d2.Some? && u.truncateFrom != 0 then Truncated(d2.value, u.truncateFrom) else d2
  }

  /** The store after an update: its entries come last. */
  function Persisted(d: Durable, u: Update): Option<Durable> {
    var cut := Cut(d, u);
    if cut.None? then None else Appended(cut.value, u.entries)
  }

  /** Appends up to the first entry that does not continue the log. */
  function Written(d: Durable, entries: seq<Entry>): Durable
    decreases |entries|
  {
    if entries == [] || !Storable(entries[0], LastStored(d) + 1) then d
    else Written(d.(entries := d.entries + [entries[0]]), entries[1..])
  }

  /** The store when an update is cut off: after its hard state, or after its snapshot and truncation
      and the first `writes - 1` of its entries. A refused write leaves what was written before it. */
  function TornAt(d: Durable, u: Update, writes: nat): Durable {
    var d1 := WithHard(d, u.hardState);
    if writes == 0 || (u.snapshot.Some? && WithSnapshot(d1, u.snapshot.value).None?) then d1
    else
      var d2 := if u.snapshot.Some? then WithSnapshot(d1, u.snapshot.value).value else d1;
      if u.truncateFrom != 0 && Truncated(d2, u.truncateFrom).None? then d2
      else
        var d3 := if u.truncateFrom != 0 then Truncated(d2, u.truncateFrom).value else d2;
        Written(d3, u.entries[..Min(writes - 1, |u.entries|)])
  }

  /** The largest membership text a snapshot file is opened with. */
  const MAX_MEMBERSHIP_BYTES: nat := 0x10_0000

  /** A store opens unless its snapshot's membership is written longer than that. */
  predicate Reopens(d: Durable) {
    d.snapshot.index == 0 || MembershipBytes(d.snapshot.membership) <= MAX_MEMBERSHIP_BYTES
  }

  /** An append succeeds exactly on entries that continue the log, and then adds them all. */
  lemma {:induction false} AppendedExact(d: Durable, entries: seq<Entry>)
    ensures Appended(d, entries).Some? <==> Follows(entries, LastStored(d))
    ensures Follows(entries, LastStored(d)) ==> Appended(d, entries) == Some(d.(entries := d.entries + entries))
    decreases |entries|
  {
    if entries == [] {
      assert d.entries + entries == d.entries;
    } else {
      var d', rest, last := d.(entries := d.entries + [entries[0]]), entries[1..], LastStored(d) + 1;
      AppendedExact(d', rest);
      assert d'.entries + rest == d.entries + entries;
      if Storable(entries[0], last) && Follows(rest, last) {
        forall k | 0 <= k < |entries| ensures Storable(entries[k], LastStored(d) + k + 1) {
          if k > 0 { assert entries[k] == rest[k - 1]; }
        }
      }
      if Follows(entries, LastStored(d)) {
        forall k | 0 <= k < |rest| ensures Storable(rest[k], last + k + 1) { assert rest[k] == entries[k + 1]; }
      }
    }
  }

  /** However an update is cut off, the entries on disk stay contiguous. */
  lemma TornFollows(d: Durable, u: Update, writes: nat)
    requires Follows(d.entries, d.snapshot.index)
    ensures var t := TornAt(d, u, writes); Follows(t.entries, t.snapshot.index)
  {
    hide WithSnapshot, Truncated, Written;
    var d1 := WithHard(d, u.hardState);
    if writes > 0 && (u.snapshot.Some? ==> WithSnapshot(d1, u.snapshot.value).Some?) {
      if u.snapshot.Some? { SnapshotFollows(d1, u.snapshot.value); }
      var d2 := if u.snapshot.Some? then WithSnapshot(d1, u.snapshot.value).value else d1;
      TruncatedFollows(d2, u.truncateFrom);
      if u.truncateFrom == 0 || Truncated(d2, u.truncateFrom).Some? {
        var d3 := if u.truncateFrom != 0 then Truncated(d2, u.truncateFrom).value else d2;
        WrittenFollows(d3, u.entries[..Min(writes - 1, |u.entries|)]);
      }
    }
  }

  lemma SnapshotFollows(d: Durable, snapshot: Snapshot)
    requires Follows(d.entries, d.snapshot.index)
    ensures var t := WithSnapshot(d, snapshot); t.Some? ==> Follows(t.value.entries, t.value.snapshot.index)
  {
    if d.snapshot.index < snapshot.index <= LastStored(d) {
      var keep := snapshot.index - d.snapshot.index;
      forall k | 0 <= k < |d.entries[keep..]| ensures Storable(d.entries[keep..][k], snapshot.index + k + 1) {
        assert Storable(d.entries[keep + k], d.snapshot.index + keep + k + 1);
      }
    }
  }

  lemma TruncatedFollows(d: Durable, from: nat)
    requires Follows(d.entries, d.snapshot.index)
    ensures var t := Truncated(d, from); t.Some? ==> Follows(t.value.entries, t.value.snapshot.index)
  {
  }

  lemma {:induction false} WrittenFollows(d: Durable, entries: seq<Entry>)
    requires Follows(d.entries, d.snapshot.index)
    ensures var t := Written(d, entries); Follows(t.entries, t.snapshot.index)
    decreases |entries|
  {
    if entries != [] && Storable(entries[0], LastStored(d) + 1) {
      WrittenFollows(d.(entries := d.entries + [entries[0]]), entries[1..]);
    }
  }

  /** Entries that continue the log are all written. */
  lemma {:induction false} WrittenExact(d: Durable, entries: seq<Entry>)
    ensures Follows(entries, LastStored(d)) ==> Written(d, entries) == d.(entries := d.entries + entries)
    ensures Appended(d, entries).Some? ==> Appended(d, entries) == Some(Written(d, entries))
    decreases |entries|
  {
    AppendedExact(d, entries);
    if entries == [] {
      assert d.entries + entries == d.entries;
    } else {
      var d', rest := d.(entries := d.entries + [entries[0]]), entries[1..];
      WrittenExact(d', rest);
      if Follows(entries, LastStored(d)) {
        assert Storable(entries[0], LastStored(d) + 0 + 1);
        forall k | 0 <= k < |rest| ensures Storable(rest[k], LastStored(d') + k + 1) {
          assert Storable(entries[k + 1], LastStored(d) + (k + 1) + 1);
        }
        assert d'.entries + rest == d.entries + entries;
      }
    }
  }

  /** Cut off after its last entry, an update that the store takes is the whole update. */
  lemma TornWhole(d: Durable, u: Update, writes: nat)
    requires Persisted(d, u).Some? && writes > |u.entries|
    ensures TornAt(d, u, writes) == Persisted(d, u).value
  {
    hide WithSnapshot, Truncated, Written, Appended;
    assert u.entries[..|u.entries|] == u.entries;
    WrittenExact(Cut(d, u).value, u.entries);
  }

  /** Appending two batches in turn is appending them together. */
  lemma AppendedTwice(d: Durable, a: seq<Entry>, b: seq<Entry>)
    requires Appended(d, a).Some?
    ensures Appended(d, a + b) == Appended(Appended(d, a).value, b)
  {
    AppendedExact(d, a);
    AppendedExact(d, a + b);
    var d1 := d.(entries := d.entries + a);
    AppendedExact(d1, b);
    assert d1.entries + b == d.entries + (a + b);
    if Follows(b, LastStored(d1)) {
      forall k | 0 <= k < |a + b| ensures Storable((a + b)[k], LastStored(d) + k + 1) {
        if k >= |a| { assert (a + b)[k] == b[k - |a|]; }
      }
    }
    if Follows(a + b, LastStored(d)) {
      forall k | 0 <= k < |b| ensures Storable(b[k], LastStored(d1) + k + 1) { assert b[k] == (a + b)[|a| + k]; }
    }
  }

  /** The first update writes no log and no snapshot, or the second only appends. */
  predicate Mergeable(u: Update, o: Update) {
    u.snapshot.None? && ((u.entries == [] && u.truncateFrom == 0) || (o.snapshot.None? && o.truncateFrom == 0))
  }

  /** Persisting a merged update is persisting its two parts in turn. */
  lemma PersistedMerged(d: Durable, u: Update, o: Update)
    requires Mergeable(u, o) && Persisted(d, u).Some?
    ensures Persisted(d, Merge(u, o)) == Persisted(Persisted(d, u).value, o)
  {
    hide Appended, WithSnapshot, Truncated;
    if u.entries == [] && u.truncateFrom == 0 {
      AppendedExact(Cut(d, u).value, u.entries);
      assert d.entries + u.entries == d.entries;
      assert u.entries + o.entries == o.entries;
    } else {
      AppendsMerged(d, u, o);
    }
  }

  lemma AppendsMerged(d: Durable, u: Update, o: Update)
    requires u.snapshot.None? && o.snapshot.None? && o.truncateFrom == 0 && Persisted(d, u).Some?
    ensures Persisted(d, Merge(u, o)) == Persisted(Persisted(d, u).value, o)
  {
    hide Appended, WithSnapshot;
    var cut := Cut(d, u).value;
    AppendedTwice(cut, u.entries, o.entries);
    if o.hardState.Some? {
      HardCommutes(cut, u.entries + o.entries, o.hardState.value);
      HardCommutes(Appended(cut, u.entries).value, o.entries, o.hardState.value);
    }
  }

  /** Appending does not depend on the hard state. */
  lemma HardCommutes(d: Durable, entries: seq<Entry>, hard: HardState)
    ensures Appended(d.(hard := hard), entries) ==
      (if Appended(d, entries).Some? then Some(Appended(d, entries).value.(hard := hard)) else None)
  {
    AppendedExact(d, entries);
    AppendedExact(d.(hard := hard), entries);
  }
}
