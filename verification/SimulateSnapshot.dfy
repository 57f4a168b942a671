/** Installing a leader's snapshot is accepting its log; compacting is nothing at all. */
module SimulateSnapshot {
  import opened RaftTypes
  import opened Voters
  import opened Protocol
  import opened ProtocolLogs
  import opened ProtocolFrame
  import opened ProtocolSteps
  import opened ProtocolReplication
  import opened RaftCore
  import opened Simulation
  import opened SimulateFollower

  /** Cutting the retained log at an entry it has keeps the full log. */
  lemma CompactSuffix(g: Proto, s: NodeState, snap: Snapshot)
    requires CoreRel(g, s) && s.snapshot.index < snap.index <= LastIndex(s)
    requires TermAt(s, snap.index) == snap.term
    ensures CompactLog(s, snap).log == g.peers[s.cfg.id].log[snap.index..]
  {
    hide EntriesBetween, TermAt, Fold;
    if snap.index < LastIndex(s) {
      EntriesRel(g, s, snap.index + 1, LastIndex(s) + 1);
      assert g.peers[s.cfg.id].log[snap.index..LastIndex(s)] == g.peers[s.cfg.id].log[snap.index..];
    }
  }

  /** A snapshot whose membership is the fold of its prefix rebuilds to the fold of the full log. */
  lemma CompactRebuild(g: Proto, s: NodeState, snap: Snapshot, x: Log)
    requires Safe(g) && snap.index > 0 && snap.index <= |x|
    requires Fold(g.start, x[..snap.index]) == Some(snap.membership)
    requires CompactLog(s, snap).log == x[snap.index..]
    ensures Rebuilt(CompactLog(s, snap)) == Fold(g.start, x)
  {
    FoldWellFormed(g.start, x[..snap.index]);
    FoldConcat(g.start, x[..snap.index], x[snap.index..]);
    assert x[..snap.index] + x[snap.index..] == x;
  }

  // ---- local compaction ------------------------------------------------

  lemma CompactCore(g: Proto, s: NodeState, snap: Snapshot)
    requires Safe(g) && CoreRel(g, s) && s.snapshot.index < snap.index <= s.commit
    requires TermAt(s, snap.index) == snap.term && snap.data == g.peers[s.cfg.id].log[..snap.index]
    requires Fold(g.start, g.peers[s.cfg.id].log[..snap.index]) == Some(snap.membership)
    ensures Rebuilt(CompactLog(s, snap)) == Some(s.membership)
    ensures CoreRel(g, CompactLog(s, snap).(membership := s.membership))
  {
    CompactSuffix(g, s, snap);
    CompactRebuild(g, s, snap, g.peers[s.cfg.id].log);
    TermAtRel(g, s, snap.index);
  }

  /** Compaction leaves the protocol's state, and with it every leader's and candidate's standing, alone. */
  lemma CompactOK(g: Proto, s: NodeState, snap: Snapshot)
    requires Safe(g) && Rel(g, s)
    requires snap.index <= |g.peers[s.cfg.id].log| ==> snap.data == g.peers[s.cfg.id].log[..snap.index]
    ensures var r := Compact(s, snap);
      r.Some? ==> Rel(g, r.value.0) && EffectsOK(g, r.value.1) && r.value.0.cfg == s.cfg
    ensures var r := Compact(s, snap);
      r.Some? && r.value.1.snapshot.Some? ==>
        var chosen := r.value.1.snapshot.value;
        && chosen.index == snap.index && chosen.term == snap.term && chosen.data == snap.data
        && Fold(g.start, g.peers[s.cfg.id].log[..snap.index]) == Some(chosen.membership)
  {
    if s.snapshot.index < snap.index <= s.commit && TermAt(s, snap.index) == snap.term {
      MembershipAtRel(g, s, snap.index);
      var expected := MembershipAt(s, snap.index);
      if expected.Some? {
        CompactCore(g, s, snap.(membership := expected.value));
      }
    }
  }

  /** A snapshot at any applied index above the boundary is always accepted. */
  lemma CreateSnapshotOK(g: Proto, s: NodeState, index: nat, data: Image)
    requires Safe(g) && Rel(g, s) && s.snapshot.index < index <= s.commit && data == g.peers[s.cfg.id].log[..index]
    ensures var r := CreateSnapshot(s, index, data);
      && r.Some? && Rel(g, r.value.0) && EffectsOK(g, r.value.1) && r.value.0.cfg == s.cfg
      && r.value.1.snapshot.Some? && r.value.0.snapshot == r.value.1.snapshot.value
      && r.value.0.snapshot.index == index && r.value.0.snapshot.data == data
      && r.value.0.commit == s.commit && LastIndex(r.value.0) == LastIndex(s)
  {
    var x := g.peers[s.cfg.id].log;
    assert PeerOK(g, s.cfg.id);
    MembershipAtRel(g, s, index);
    ValidPrefix(g.start, x, index);
    var m := MembershipAt(s, index).value;
    var snap := Snapshot(index, TermAt(s, index), data, m);
    TermAtRel(g, s, index);
    GroundedNumbered(g, x);
    ConfigAt(g.start, x[..index]);
    FoldWellFormed(g.start, x[..index]);
    CompactCore(g, s, snap);
    CompactSuffix(g, s, snap);
    CompactOK(g, s, snap);
  }

  // ---- installing a leader's snapshot ----------------------------------

  lemma OfferedSame(g: Proto, s: NodeState, from: nat, t: nat, snap: Snapshot)
    requires Safe(g) && SnapshotOK(g, from, t, snap)
    ensures Offered(s, snap) == snap && WellFormed(snap.membership)
  {
    FoldWellFormed(g.start, g.reigns[t].log[..snap.index]);
  }

  /** After an install the node's log is what accepting the snapshot's prefix gives. */
  lemma InstalledLog(g: Proto, s: NodeState, snap: Snapshot)
    requires Safe(g) && CoreRel(g, s) && s.snapshot.index < snap.index
    requires exists from :: SnapshotOK(g, from, s.term, snap)
    ensures MayAccept(g, s.cfg.id, snap.index)
    ensures var z := Accept(g, s.cfg.id, snap.index).peers[s.cfg.id].log;
      && snap.index <= |z| && z[..snap.index] == g.reigns[s.term].log[..snap.index]
      && CompactLog(s, snap).log == z[snap.index..]
  {
    hide Safe, Grounded, Known, EntriesBetween, Fold;
    var x, y, k := g.reigns[s.term].log, g.peers[s.cfg.id].log, snap.index;
    var z := x[..k];
    BothGrounded(g, s);
    TermAtRel(g, s, k);
    if k <= LastIndex(s) && TermAt(s, k) == snap.term {
      LogMatching(g, x, y, k - 1);
      CompactSuffix(g, s, snap);
    } else {
      NotHeld(z, y, k);
      assert z[k..] == [];
    }
  }

  lemma BothGrounded(g: Proto, s: NodeState)
    requires Safe(g) && CoreRel(g, s) && s.term in g.reigns
    ensures Grounded(g, g.reigns[s.term].log) && Grounded(g, g.peers[s.cfg.id].log)
  {
    assert ReignOK(g, s.term) && PeerOK(g, s.cfg.id);
  }

  lemma NotHeld(z: Log, y: Log, k: nat)
    requires 0 < k == |z| && (k > |y| || z[k - 1].term != y[k - 1].term)
    ensures !(z <= y)
  {
    NotPrefix(z, y, k - 1);
  }

  lemma InstalledOK(g: Proto, s: NodeState, from: nat, snap: Snapshot) returns (g': Proto)
    requires Safe(g) && CoreRel(g, s) && s.role == Follower && s.snapshot.index < snap.index
    requires SnapshotOK(g, from, s.term, snap)
    ensures Stepped(g, g', s.cfg.id)
    ensures Rebuilt(CompactLog(s, snap)).Some? && Rel(g', Installed(s, snap)) && Installed(s, snap).cfg == s.cfg
    ensures snap.index <= AckOf(g', s.term, s.cfg.id)
  {
    var n, k := s.cfg.id, snap.index;
    InstalledLog(g, s, snap);
    var g1 := Accept(g, n, k);
    AcceptSafe(g, n, k);
    var z := g1.peers[n].log;
    assert PeerOK(g1, n);
    CompactRebuild(g, s, snap, z);
    AcceptKeepsCommit(g, n, k);
    var c := Max(s.commit, k);
    InstalledKnown(g, g1, s, from, snap);
    g' := SetCommit(g1, n, c);
    SetCommitSafe(g1, n, c);
    SteppedTrans(g, g1, g', n);
    InstalledRel(g', s, snap, z, c);
  }

  lemma InstalledKnown(g: Proto, g1: Proto, s: NodeState, from: nat, snap: Snapshot)
    requires Safe(g) && CoreRel(g, s) && SnapshotOK(g, from, s.term, snap) && Stepped(g, g1, s.cfg.id)
    requires MayAccept(g, s.cfg.id, snap.index) && g1 == Accept(g, s.cfg.id, snap.index)
    requires var z := g1.peers[s.cfg.id].log; snap.index <= |z| && z[..snap.index] == g.reigns[s.term].log[..snap.index]
    ensures Known(g1, g1.peers[s.cfg.id].log, Max(s.commit, snap.index), s.term)
  {
    var x, z := g.reigns[s.term].log, g1.peers[s.cfg.id].log;
    assert PeerOK(g1, s.cfg.id);
    KnownKept(g, g1, x, snap.index, s.term, s.term);
    KnownSame(g1, x, z, snap.index, s.term);
  }

  lemma InstalledRel(g: Proto, s: NodeState, snap: Snapshot, z: Log, c: nat)
    requires s.cfg.id in g.peers && g.peers[s.cfg.id] == Peer(s.term, s.votedFor, z, c)
    requires c == Max(s.commit, snap.index)
    requires s.initial == g.start && s.role == Follower && 1 <= snap.index <= |z| && c <= |z|
    requires z[snap.index - 1].term == snap.term && snap.data == z[..snap.index]
    requires Fold(g.start, z[..snap.index]) == Some(snap.membership)
    requires CompactLog(s, snap).log == z[snap.index..] && Rebuilt(CompactLog(s, snap)) == Fold(g.start, z)
    requires Fold(g.start, z).Some?
    ensures Rel(g, Installed(s, snap))
  {
  }

  /** A snapshot the node already passed is acknowledged at its own boundary. */
  lemma PassedOK(g: Proto, s: NodeState) returns (g': Proto)
    requires Safe(g) && CoreRel(g, s) && s.role == Follower && s.term in g.reigns
    ensures Stepped(g, g', s.cfg.id) && Rel(g', s) && s.snapshot.index <= AckOf(g', s.term, s.cfg.id)
  {
    var n, k, x, y := s.cfg.id, s.snapshot.index, g.reigns[s.term].log, g.peers[s.cfg.id].log;
    assert PeerOK(g, n);
    KnownShorter(g, y, s.commit, k, s.term);
    KnownHeld(g, y, k, s.term);
    assert x[..k] == y[..k];
    g' := Accept(g, n, k);
    AcceptSafe(g, n, k);
    assert g'.peers[n] == g.peers[n];
  }

  lemma SnapshotAnswered(g: Proto, s: NodeState, from: nat, index: nat)
    requires index <= AckOf(g, s.term, s.cfg.id)
    ensures MessagesOK(g, [SnapshotResponse(s.cfg.id, from, s.term, index, false, 0)])
  {
  }

  lemma SnapshotRejected(g: Proto, s: NodeState, from: nat)
    ensures MessagesOK(g, [RejectSnapshot(s, from)])
  {
  }

  lemma AnswerSnapshotOK(g: Proto, s: NodeState, from: nat, snap: Snapshot) returns (g': Proto)
    requires Safe(g) && CoreRel(g, s) && s.role == Follower && SnapshotOK(g, from, s.term, snap)
    ensures Stepped(g, g', s.cfg.id)
    ensures var (s', u) := AnswerSnapshot(s, from, snap); Rel(g', s') && EffectsOK(g', u) && s'.cfg == s.cfg
  {
    hide Safe, CoreRel, LeaderRel, CandidateRel, MessagesOK, AckOf;
    hide RefusesSnapshot, Rebuilt, CompactLog, Installed, RejectSnapshot;
    if RefusesSnapshot(s, snap) {
      g' := g;
      SnapshotRejected(g, s, from);
    } else if snap.index <= s.snapshot.index {
      g' := PassedOK(g, s);
      SnapshotAnswered(g', s, from, s.snapshot.index);
    } else {
      g' := InstalledOK(g, s, from, snap);
      SnapshotAnswered(g', s, from, snap.index);
    }
  }

  lemma HandleSnapshotOK(g: Proto, s0: NodeState, m: Message) returns (g': Proto)
    requires Safe(g) && Rel(g, s0) && m.InstallSnapshot? && MessageOK(g, m) && m.term == s0.term
    ensures Stepped(g, g', s0.cfg.id)
    ensures var (s', u) := HandleSnapshot(s0, m); Rel(g', s') && EffectsOK(g', u) && s'.cfg == s0.cfg
  {
    hide Safe, SnapshotOK, AnswerSnapshot, Offered, LeaderRel, CandidateRel, Fold;
    var snap := m.snapshot.value;
    if snap.index == 0 || snap.term == 0 {
      g' := g;
    } else {
      FollowOK(g, s0, m.from);
      var (s, u) := Follow(s0, m.from);
      OfferedSame(g, s, m.from, s.term, snap);
      g' := AnswerSnapshotOK(g, s, m.from, snap);
      EffectsKept(g, g', u);
      EffectsMerge(g', u, AnswerSnapshot(s, m.from, snap).1);
    }
  }
}
