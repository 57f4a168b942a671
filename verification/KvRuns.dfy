/** Every run of replicas of the key-value machine over one committed log. */
module KvRuns {
  import EngineDisk
  import opened KvMachine
  import opened RaftTypes
  import opened Records
  import opened ReplicaState
  import SnapshotImage

  ghost predicate ValidLog(log: seq<KvEntry>) { forall i :: 0 <= i < |log| ==> Valid(log[i]) }

  /** A replica shows the log up to its applied index, and after a crash the log up to its durable one. */
  ghost predicate Tracks(s: State, log: seq<KvEntry>) {
    && StateOK(s) && s.applied <= |log|
    && Shows(s, Fold(log[..s.applied])) && Shows(Crashed(s), Fold(log[..s.durable]))
  }

  /** A written snapshot. */
  datatype Snap = Snap(index: nat, image: Bytes)

  /** The replicas, and every snapshot written so far. */
  datatype World = World(replicas: seq<State>, snaps: seq<Snap>)

  datatype Options = Options(flushAt: nat, compactAt: nat)

  /** What happens to replica i: an entry is applied, one already applied is offered again or one too early;
      it flushes, compacts, crashes and reopens, writes an image, or is given the k-th image. */
  datatype Event =
    | Offer(i: nat, index: nat)
    | Flush(i: nat)
    | Compact(i: nat)
    | Crash(i: nat)
    | Snapshot(i: nat)
    | Restore(i: nat, k: nat)

  ghost predicate Good(w: World, log: seq<KvEntry>) {
    && (forall i :: 0 <= i < |w.replicas| ==> Tracks(w.replicas[i], log))
    && (forall k :: 0 <= k < |w.snaps| ==> Written(w.snaps[k], log))
  }

  /** The replica that wrote the snapshot was at its index. */
  ghost predicate Written(snap: Snap, log: seq<KvEntry>) {
    exists s :: Tracks(s, log) && Writes(s, snap)
  }

  ghost predicate Writes(s: State, snap: Snap) {
    && StateOK(s) && 0 < s.applied == snap.index && |Contents(s)| <= SnapshotImage.MAX_COUNT
    && ImageOf(s) == Some(snap.image)
  }

  function Taken(r: Outcome, s: State): State { if r.Done? then r.state else s }

  ghost function Acted(s: State, log: seq<KvEntry>, e: Event, snaps: seq<Snap>, o: Options): State
    requires StateOK(s)
  {
    match e
    case Offer(_, index) =>
      if 0 < index <= |log| then Taken(Apply(s, index, log[index - 1], o.flushAt, o.compactAt), s) else s
    case Flush(_) => FlushedFully(s, o.compactAt)
    case Compact(_) => Compacted(s)
    case Crash(_) => Crashed(s)
    case Snapshot(_) => s
    case Restore(_, k) =>
      if k < |snaps| then Taken(Replaced(s, snaps[k].index, snaps[k].image), s) else s
  }

  ghost function Next(w: World, log: seq<KvEntry>, e: Event, o: Options): (w': World)
    requires ValidLog(log) && Good(w, log)
    ensures Good(w', log) && |w'.replicas| == |w.replicas|
  {
    hide Tracks, Acted, Writes, ImageOf;
    if e.i >= |w.replicas| then w
    else
      var s := w.replicas[e.i];
      TracksOK(s, log);
      ActedTracks(s, log, e, w.snaps, o);
      SnapWritten(s, log);
      World(w.replicas[e.i := Acted(s, log, e, w.snaps, o)], if e.Snapshot? then w.snaps + NewSnap(s) else w.snaps)
  }

  const FRESH := State(map[], [], 0, 0)

  ghost function After(count: nat, log: seq<KvEntry>, events: seq<Event>, o: Options): (w: World)
    requires ValidLog(log)
    ensures Good(w, log) && |w.replicas| == count
  {
    if events == [] then
      FreshTracks(log);
      World(seq(count, _ => FRESH), [])
    else Next(After(count, log, events[..|events| - 1], o), log, events[|events| - 1], o)
  }

  lemma FreshTracks(log: seq<KvEntry>)
    ensures Tracks(FRESH, log)
  {
    assert log[..0] == [];
  }

  /** The snapshot a replica writes; none before anything is applied. */
  ghost function NewSnap(s: State): seq<Snap>
    requires StateOK(s)
  {
    if s.applied > 0 && |Contents(s)| <= SnapshotImage.MAX_COUNT && ImageOf(s).Some?
    then [Snap(s.applied, ImageOf(s).value)] else []
  }

  lemma SnapWritten(s: State, log: seq<KvEntry>)
    requires Tracks(s, log)
    ensures forall k :: 0 <= k < |NewSnap(s)| ==> Written(NewSnap(s)[k], log)
  {
    hide ImageOf, Contents;
    if NewSnap(s) != [] { assert Writes(s, NewSnap(s)[0]); }
  }

  lemma {:induction false} FoldNumbered(log: seq<KvEntry>)
    requires ValidLog(log)
    ensures Numbered(Fold(log))
  {
    if log != [] {
      assert ValidLog(log[..|log| - 1]);
      assert Valid(log[|log| - 1]);
      FoldNumbered(log[..|log| - 1]);
    }
  }

  /** Offering an entry: the next one advances the replica, any other changes nothing. */
  lemma OfferTracks(s: State, log: seq<KvEntry>, index: nat, o: Options)
    requires ValidLog(log) && Tracks(s, log) && 0 < index <= |log|
    ensures Tracks(Taken(Apply(s, index, log[index - 1], o.flushAt, o.compactAt), s), log)
  {
    hide Read, Cell, StateOK, Settled, Covered, Do;
    if index == s.applied + 1 {
      var before, p := log[..s.applied], log[s.applied];
      FoldNumbered(before);
      ApplyShows(s, Fold(before), p, o.flushAt, o.compactAt);
      var t := Apply(s, index, p, o.flushAt, o.compactAt).state;
      assert log[..index][..s.applied] == before && log[..index][s.applied] == p;
      assert t.entries == map[] && t.durable == t.applied ==> Crashed(t) == t;
    }
  }

  lemma FlushTracks(s: State, log: seq<KvEntry>, compactAt: nat)
    requires Tracks(s, log)
    ensures Tracks(FlushedFully(s, compactAt), log)
  {
    hide Read, Cell, Flushed, Compacted, Fold;
    var f := Flushed(s);
    FlushReads(s, []);
    CompactShape(f);
    forall key
      ensures Read(f, key) == Read(s, key) && StateOK(Compacted(f)) && Read(Compacted(f), key) == Read(s, key)
    {
      FlushReads(s, key);
      CompactReads(f, key);
    }
    assert Crashed(f) == f && Crashed(Compacted(f)) == Compacted(f);
  }

  lemma CompactTracks(s: State, log: seq<KvEntry>)
    requires Tracks(s, log)
    ensures Tracks(Compacted(s), log)
  {
    hide EngineDisk.FirstIn, Cell, Compacted, Fold;
    CompactShape(s);
    forall key
      ensures StateOK(Compacted(s)) && Read(Compacted(s), key) == Read(s, key)
      ensures Read(Crashed(Compacted(s)), key) == Read(Crashed(s), key)
    {
      CompactReads(s, key);
    }
    CompactReads(s, []);
  }

  lemma RestoreTracks(s: State, log: seq<KvEntry>, from: State, snap: Snap)
    requires Tracks(s, log) && Tracks(from, log) && Writes(from, snap)
    ensures Tracks(Taken(Replaced(s, snap.index, snap.image), s), log)
  {
    hide Read, Cell, Fold, ImageOf, Imageable, Contents;
    var r := Replaced(s, snap.index, snap.image);
    if r.Done? {
      forall key ensures StateOK(r.state) && Read(r.state, key) == Read(from, key) { SnapshotRestores(from, s, key); }
      SnapshotRestores(from, s, []);
      assert Crashed(r.state) == r.state;
    }
  }

  lemma ActedTracks(s: State, log: seq<KvEntry>, e: Event, snaps: seq<Snap>, o: Options)
    requires ValidLog(log) && StateOK(s) && Tracks(s, log) && forall k :: 0 <= k < |snaps| ==> Written(snaps[k], log)
    ensures Tracks(Acted(s, log, e, snaps, o), log)
  {
    hide Tracks, Writes, FlushedFully, Compacted, Replaced, Apply;
    match e
    case Offer(_, index) => if 0 < index <= |log| { OfferTracks(s, log, index, o); }
    case Flush(_) => FlushTracks(s, log, o.compactAt);
    case Compact(_) => CompactTracks(s, log);
    case Crash(_) => CrashTracks(s, log);
    case Snapshot(_) =>
    case Restore(_, k) =>
      if k < |snaps| {
        assert Written(snaps[k], log);
        var from :| Tracks(from, log) && Writes(from, snaps[k]);
        RestoreTracks(s, log, from, snaps[k]);
      }
  }

  lemma TracksOK(s: State, log: seq<KvEntry>)
    requires Tracks(s, log)
    ensures StateOK(s)
  {
  }

  lemma CrashTracks(s: State, log: seq<KvEntry>)
    requires Tracks(s, log)
    ensures Tracks(Crashed(s), log)
  {
    hide Read, Cell, Fold;
  }

  /** In every run, every replica's reads are the fold of a prefix of the log in which each request acts once:
      up to its applied index now, and up to its durable index if it crashes. */
  lemma ExactlyOnce(count: nat, log: seq<KvEntry>, events: seq<Event>, o: Options, i: nat, key: Bytes)
    requires ValidLog(log) && i < count
    ensures var s := After(count, log, events, o).replicas[i];
      && s.durable <= s.applied <= |log|
      && Read(s, USER + key) == EngineDisk.At(Fold(log[..s.applied]).data, key)
      && Read(Crashed(s), USER + key) == EngineDisk.At(Fold(log[..s.durable]).data, key)
  {
    hide Read, Cell, Fold;
    var s := After(count, log, events, o).replicas[i];
    assert Tracks(s, log);
    UserCell(Fold(log[..s.applied]), key);
    UserCell(Fold(log[..s.durable]), key);
  }

  /** Replicas that have applied the same index read the same. */
  lemma ReplicasAgree(count: nat, log: seq<KvEntry>, events: seq<Event>, o: Options, i: nat, j: nat, key: Key)
    requires ValidLog(log) && i < count && j < count
    ensures var w := After(count, log, events, o);
      w.replicas[i].applied == w.replicas[j].applied ==> Read(w.replicas[i], key) == Read(w.replicas[j], key)
  {
    hide Read, Cell, Fold;
    var w := After(count, log, events, o);
    assert Tracks(w.replicas[i], log) && Tracks(w.replicas[j], log);
  }
}
