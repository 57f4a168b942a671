/** Messages, ticks, proposals, snapshots and restarts as transitions of one node. */
module NodeInputs {
  import opened RaftTypes
  import opened Voters
  import opened RaftCore
  import opened Stable
  import opened EntrySizes
  import opened NodeInvariant
  import opened NodeTransitions

  // ---- snapshots -------------------------------------------------------

  /** The store keeps exactly the suffix the node keeps. */
  lemma SameSuffix(s: NodeState, snap: Snapshot)
    requires Inv(s) && s.snapshot.index < snap.index && snap.term > 0
    ensures WithSnapshot(DurableOf(s), snap) == Some(DurableOf(CompactLog(s, snap)))
    ensures InSequence(CompactLog(s, snap).log, snap.index)
    ensures var s' := CompactLog(s, snap);
      && LastIndex(s') >= snap.index
      && (snap.index <= LastIndex(s) && TermAt(s, snap.index) == snap.term ==>
            LastIndex(s') == LastIndex(s) && s'.log == s.log[snap.index - s.snapshot.index..])
  {
    hide Fold, SnapshotValid;
    var s', keep := CompactLog(s, snap), snap.index - s.snapshot.index;
    if keep <= |s.log| {
      assert s.log[keep - 1].term == TermAt(s, snap.index);
      assert s.log[keep - 1].term == snap.term ==> s'.log == s.log[keep..];
      assert forall k :: 0 <= k < |s.log| - keep ==> s.log[keep..][k] == s.log[keep + k];
    }
  }

  lemma CompactedKept(s: NodeState, snap: Snapshot, s': NodeState)
    requires Inv(s) && s.snapshot.index < snap.index && s'.snapshot == snap
    requires snap.index <= s.commit ==>
      TermAt(s, snap.index) == snap.term && s'.log == s.log[snap.index - s.snapshot.index..]
    ensures KeepsCommitted(s, s')
  {
  }

  lemma CompactKeeps(s: NodeState, snap: Snapshot, s': NodeState, u: Update)
    requires Inv(s) && s.snapshot.index < snap.index && SnapshotValid(snap)
    requires snap.index <= s.commit ==> TermAt(s, snap.index) == snap.term
    requires Rebuilt(CompactLog(s, snap)).Some?
    requires s' ==
      CompactLog(s, snap).(membership := Rebuilt(CompactLog(s, snap)).value, commit := Max(s.commit, snap.index))
    requires u.snapshot == Some(snap) && u.hardState.None?
    requires u.entries == [] && u.truncateFrom == 0 && u.committed == []
    requires AllMessagesFit(u.messages)
    ensures Transition(s, s', u)
  {
    SameSuffix(s, snap);
    SameRebuilt(s, snap, s');
    CompactedKept(s, snap, s');
    CompactedStored(DurableOf(s), snap, u);
    hide Rebuilt, CompactLog, Persisted, WithSnapshot, KeepsCommitted, WellFormed;
  }

  lemma CompactedStored(d: Durable, snap: Snapshot, u: Update)
    requires u.snapshot == Some(snap) && u.hardState.None? && u.entries == [] && u.truncateFrom == 0
    ensures Persisted(d, u) == WithSnapshot(d, snap)
  {
  }

  lemma SameRebuilt(s: NodeState, snap: Snapshot, s': NodeState)
    requires s'.initial == s.initial && s'.snapshot == snap && s'.log == CompactLog(s, snap).log
    ensures Rebuilt(s') == Rebuilt(CompactLog(s, snap))
  {
  }

  /** Compaction keeps the fold: over the boundary's membership the retained log folds to the cached one. */
  lemma CompactionFolds(s: NodeState, snap: Snapshot)
    requires Inv(s) && s.snapshot.index < snap.index <= s.commit && snap.term > 0 && TermAt(s, snap.index) == snap.term
    requires MembershipAt(s, snap.index) == Some(snap.membership)
    ensures Rebuilt(CompactLog(s, snap)) == Some(s.membership)
  {
    hide Fold, SnapshotValid, TermAt;
    var n := snap.index - s.snapshot.index;
    LeadingCount(s.log, s.snapshot.index, snap.index);
    SameSuffix(s, snap);
    FoldedValid(s, n);
    FoldConcat(Base(s), s.log[..n], s.log[n..]);
    assert s.log[..n] + s.log[n..] == s.log;
  }

  lemma AnswerSnapshotKeeps(s: NodeState, from: nat, snap: Snapshot)
    requires Inv(s) && s.role == Follower && snap.index > 0 && snap.term > 0
    ensures var (s', u) := AnswerSnapshot(s, from, snap); Transition(s, s', u) && s'.role == Follower
  {
    Unchanged(s, AnswerSnapshot(s, from, snap).1.messages);
    if !RefusesSnapshot(s, snap) && snap.index > s.snapshot.index {
      hide Transition, Inv, Rebuilt, CompactLog;
      var (s', u) := AnswerSnapshot(s, from, snap);
      CompactKeeps(s, snap, s', u);
    }
  }

  lemma HandleSnapshotKeeps(s0: NodeState, m: Message)
    requires Inv(s0) && m.InstallSnapshot?
    ensures Handled(s0, HandleSnapshot(s0, m))
  {
    if m.snapshot.None? || m.snapshot.value.index == 0 || m.snapshot.value.term == 0 {
      Unchanged(s0, [RejectSnapshot(s0, m.from)]);
    } else {
      hide Transition, Follow, AnswerSnapshot;
      FollowKeeps(s0, m.from);
      var (s, u) := Follow(s0, m.from);
      TransitionInv(s0, s, u);
      var snap := Offered(s, m.snapshot.value);
      AnswerSnapshotKeeps(s, m.from, snap);
      var (s', o) := AnswerSnapshot(s, m.from, snap);
      FollowThen(s0, m.from, s', o);
    }
  }

  // ---- responses to a leader -------------------------------------------

  lemma FollowUpKeeps(s0: NodeState, s: NodeState, u: Update, id: nat, context: nat)
    requires Inv(s0) && Transition(s0, s, u) && u.snapshot.None?
    ensures var (s', u') := FollowUp(s, u, id, context);
      Transition(s0, s', u') && s'.role == s.role && s'.term == s.term && u'.roleChanged == u.roleChanged
  {
    hide Transition, Inv, AppendMessage;
    TransitionInv(s0, s, u);
    AppendMessageSame(s, id, context);
    var (s', message) := AppendMessage(s, id, context);
    RoleHasTerm(s);
    if FinalFits(s.snapshot.membership) { AppendMessageFits(s, id, context); }
    HardTransition(s, s', WithMessages([message]));
    ChainMessages(s0, s, u, s', message);
  }

  lemma ChainMessages(s0: NodeState, s: NodeState, u: Update, s': NodeState, message: Message)
    requires Inv(s0) && Transition(s0, s, u) && Transition(s, s', WithMessages([message])) && u.snapshot.None?
    requires DurableOf(s') == DurableOf(s) && s'.commit == s.commit && s'.membership == s.membership
    ensures Transition(s0, s', u.(messages := u.messages + [message]))
  {
    hide Rebuilt, SnapshotValid, Persisted;
    var o := u.(messages := u.messages + [message]);
    assert Persisted(DurableOf(s0), o) == Persisted(DurableOf(s0), u) by {
      SamePersisted(DurableOf(s0), u, o.messages);
    }
    assert KeepsCommitted(s0, s') by { SameKept(s0, s, s'); }
    assert forall i: nat, e :: InLog(s, i, e) <==> InLog(s', i, e);
  }

  lemma SameKept(s0: NodeState, s: NodeState, s': NodeState)
    requires KeepsCommitted(s0, s) && s'.snapshot == s.snapshot && s'.log == s.log
    ensures KeepsCommitted(s0, s')
  {
    forall i: nat, e | i <= s0.commit && InLog(s0, i, e) && i > s'.snapshot.index ensures InLog(s', i, e) {
      assert InLog(s, i, e);
    }
  }

  lemma SamePersisted(d: Durable, u: Update, messages: seq<Message>)
    ensures Persisted(d, u.(messages := messages)) == Persisted(d, u)
  {
  }

  /** Counting an acknowledgement and committing what it allows. */
  lemma CountAckKeeps(s: NodeState, id: nat, index: nat)
    requires Inv(s) && s.role == Leader
    ensures var (s', u) := CountAck(s, id, index);
      Transition(s, s', u) && KeepsRole(s, s', u) && u.snapshot.None?
  {
    var s1 := Acknowledged(MarkActive(s, id), id, index);
    StaysInv(s, s1);
    RoleHasTerm(s);
    hide Transition, Inv, MaybeCommit;
    MaybeCommitKeeps(s1);
    var (s', u) := MaybeCommit(s1);
    Through(s, s1, s', u);
  }

  lemma SendMoreKeeps(s0: NodeState, s: NodeState, u: Update, id: nat, context: nat, wanted: bool)
    requires Inv(s0) && Transition(s0, s, u) && KeepsRole(s0, s, u) && u.snapshot.None?
    ensures var (s', u') := SendMore(s, u, id, context, wanted);
      Transition(s0, s', u') && KeepsRole(s0, s', u') && s'.role == s.role
  {
    hide Transition, Inv, FollowUp;
    FollowUpKeeps(s0, s, u, id, context);
  }

  lemma ResentKeeps(s0: NodeState, s: NodeState, id: nat, context: nat)
    requires Inv(s0) && SameButProgress(s0, s)
    ensures Handled(s0, FollowUp(s, NO_EFFECT, id, context))
  {
    RoleHasTerm(s0);
    hide Transition, Inv, FollowUp;
    HardTransition(s0, s, NO_EFFECT);
    FollowUpKeeps(s0, s, NO_EFFECT, id, context);
  }

  lemma HandleAppendResponseKeeps(s: NodeState, m: Message)
    requires Inv(s) && m.AppendResponse?
    ensures Handled(s, HandleAppendResponse(s, m))
  {
    hide Transition, Inv, CountAck, SendMore, FollowUp;
    Unchanged(s, []);
    if s.role == Leader && m.term == s.term {
      if m.reject {
        ResentKeeps(s, Rejected(MarkActive(s, m.from), m), m.from, m.context);
      } else {
        CountAckKeeps(s, m.from, m.logIndex);
        var advanced := Min(m.logIndex, LastIndex(s)) > Get(s.progress.matchIndex, m.from);
        var (s1, u) := CountAck(s, m.from, m.logIndex);
        SendMoreKeeps(s, s1, u, m.from, m.context, advanced && Get(s1.progress.outstanding, m.from) == 0);
      }
    }
  }

  lemma HandleSnapshotResponseKeeps(s: NodeState, m: Message)
    requires Inv(s) && m.SnapshotResponse?
    ensures Handled(s, HandleSnapshotResponse(s, m))
  {
    hide Transition, Inv, CountAck, SendMore, FollowUp;
    Unchanged(s, []);
    if s.role == Leader && m.term == s.term {
      if m.reject {
        ResentKeeps(s, Idled(MarkActive(s, m.from), m.from), m.from, 0);
      } else {
        CountAckKeeps(s, m.from, Min(m.logIndex, LastIndex(s)));
        var (s1, u) := CountAck(s, m.from, Min(m.logIndex, LastIndex(s)));
        SendMoreKeeps(s, s1, u, m.from, 0, true);
      }
    }
  }

  // ---- messages and ticks ----------------------------------------------

  lemma DispatchKeeps(s: NodeState, m: Message)
    requires Inv(s) && (m.Append? ==> MalformedFrom(m, 0).None?)
    ensures Handled(s, Dispatch(s, m))
  {
    hide Transition;
    match m
    case PreVote(_, _, _, _, _) => Unchanged(s, [HandlePreVote(s, m)]);
    case PreVoteResponse(_, _, _, _) => HandlePreVoteResponseKeeps(s, m);
    case Vote(_, _, _, _, _) => HandleVoteKeeps(s, m);
    case VoteResponse(_, _, _, _) => HandleVoteResponseKeeps(s, m);
    case Append(_, _, _, _, _, _, _, _) => HandleAppendKeeps(s, m);
    case AppendResponse(_, _, _, _, _, _, _) => HandleAppendResponseKeeps(s, m);
    case InstallSnapshot(_, _, _, _) => HandleSnapshotKeeps(s, m);
    case SnapshotResponse(_, _, _, _, _, _) => HandleSnapshotResponseKeeps(s, m);
  }

  lemma DispatchNewerKeeps(s: NodeState, m: Message)
    requires Inv(s) && (m.Append? ==> MalformedFrom(m, 0).None?) && m.term > s.term
    ensures Handled(s, DispatchNewer(s, m))
  {
    hide Transition, Dispatch;
    BecomeFollowerKeeps(s, m.term, 0);
    var (s1, u1) := BecomeFollower(s, m.term, 0);
    TransitionInv(s, s1, u1);
    DispatchKeeps(s1, m);
    var (s2, u2) := Dispatch(s1, m);
    Chain(s, s1, u1, s2, u2);
  }

  lemma DropKeeps(s: NodeState, m: Message)
    requires Inv(s)
    ensures Handled(s, Drop(s, m))
  {
    hide Transition, Inv, ReplicationPeers, MalformedFrom;
    var (s', u) := Drop(s, m);
    RoleHasTerm(s);
    HardTransition(s, s', u);
  }

  /** Any message at all: the state stays valid and its update keeps every promise. */
  lemma StepKeeps(s: NodeState, m: Message)
    requires Inv(s)
    ensures Transition(s, Step(s, m).0, Step(s, m).1) && KeepsRole(s, Step(s, m).0, Step(s, m).1)
  {
    hide Transition, Dispatch, DispatchNewer, Drop;
    if Dropped(s, m) {
      DropKeeps(s, m);
    } else if m.PreVote? || m.PreVoteResponse? || m.term == s.term {
      DispatchKeeps(s, m);
    } else if m.term < s.term {
      Unchanged(s, [RejectStale(s, m)]);
    } else {
      DispatchNewerKeeps(s, m);
    }
  }

  lemma CheckQuorumKeeps(s0: NodeState, s: NodeState, messages: seq<Message>)
    requires Inv(s0) && s0.role == Leader
    requires s == s0.(progress := s.progress, timers := s.timers)
    requires FinalFits(s.snapshot.membership) ==> AllMessagesFit(messages)
    ensures var (s', u) := CheckQuorum(s, messages); Transition(s0, s', u) && KeepsRole(s0, s', u)
  {
    RoleHasTerm(s0);
    StaysInv(s0, Checked(s));
    hide Transition, Inv, BecomeFollower, HasQuorum;
    HardTransition(s0, s, WithMessages(messages));
    HardTransition(s0, Checked(s), WithMessages(messages));
    BecomeFollowerKeeps(Checked(s), s.term, 0);
    var (s', u) := BecomeFollower(Checked(s), s.term, 0);
    Chain(s0, Checked(s), WithMessages(messages), s', u);
  }

  lemma TickKeeps(s: NodeState)
    requires Inv(s)
    ensures var (s', u) := Tick(s); Transition(s, s', u) && KeepsRole(s, s', u)
  {
    hide Transition, CheckQuorum, StartPreVote, Rebuilt;
    if s.role == Leader {
      SendAppendsSame(Ticked(s), TickTargets(s), 0, false);
      SendAppendsFit(Ticked(s), TickTargets(s), 0, false);
      var (s1, messages) := SendAppends(Ticked(s), TickTargets(s), 0, false);
      CheckQuorumKeeps(s, s1, messages);
    } else {
      Unchanged(s, []);
      var s1 := Waited(s);
      StaysInv(s, s1);
      HardTransition(s, s1, NO_EFFECT);
      StartPreVoteKeeps(s1);
      var (s2, u) := StartPreVote(s1);
      Through(s, s1, s2, u);
    }
  }

  // ---- proposals and reads ---------------------------------------------

  lemma BatchAppended(s: NodeState, commands: seq<Bytes>)
    requires Inv(s) && s.role == Leader
    ensures var entries := BatchEntries(LastIndex(s), s.term, commands).0;
      var s1 := s.(log := s.log + entries);
      Inv(s1.(progress := Matched(s1.progress, s.cfg.id, LastIndex(s1))))
  {
    var entries := BatchEntries(LastIndex(s), s.term, commands).0;
    RebuiltBatch(s, entries);
    var s1 := s.(log := s.log + entries);
    var s2 := s1.(progress := Matched(s1.progress, s.cfg.id, LastIndex(s1)));
    assert Rebuilt(s2) == Rebuilt(s1);
    hide Rebuilt, BatchEntries;
    AppendTransition(s, s2, NO_EFFECT.(entries := entries));
  }

  lemma ProposeBatchKeeps(s: NodeState, commands: seq<Bytes>)
    requires Inv(s)
    ensures var r := ProposeBatch(s, commands);
      r.Proposed? ==> Transition(s, r.state, r.update) && KeepsRole(s, r.state, r.update)
  {
    Unchanged(s, []);
    var entries := BatchEntries(LastIndex(s), s.term, commands).0;
    if s.role == Leader && entries != [] {
      var s1 := s.(log := s.log + entries);
      RebuiltBatch(s, entries);
      var s2 := s1.(progress := Matched(s1.progress, s.cfg.id, LastIndex(s1)));
      assert Rebuilt(s2) == Rebuilt(s1);
      hide Transition, Rebuilt, BatchEntries, Publish;
      AppendTransition(s, s2, NO_EFFECT.(entries := entries));
      PublishKeeps(s, s2, NO_EFFECT.(entries := entries), true);
    }
  }

  lemma ProposeMembershipKeeps(s: NodeState, voters: seq<nat>)
    requires Inv(s)
    ensures var r := ProposeMembership(s, voters);
      r.Proposed? ==> Transition(s, r.state, r.update) && KeepsRole(s, r.state, r.update)
  {
    Unchanged(s, []);
    RoleHasTerm(s);
    hide Transition, Inv, Rebuilt, Publish, Tracked, Normalize;
    var r := ProposeMembership(s, voters);
    if r.Proposed? && Normalize(voters).value != s.membership.voters {
      var joint := JointEntry(s, Normalize(voters).value);
      assert joint.index == LastIndex(s) + 1 && joint.term == s.term;
      hide JointEntry;
      var s1 := s.(log := s.log + [joint]);
      JointAppended(s, joint);
      var s2 := Tracked(s1.(membership := Rebuilt(s1).value), joint.index);
      PublishKeeps(s, s2, NO_EFFECT.(entries := [joint]), false);
    }
  }

  /** The joint entry folds onto the stable configuration of every valid node. */
  lemma JointAlwaysFolds(s: NodeState, newVoters: seq<nat>)
    requires Inv(s) && s.membership.joint == [] && Normalize(newVoters) == Some(newVoters)
    ensures var e := JointEntry(s, newVoters);
      Rebuilt(s.(log := s.log + [e])) == Some(Membership(s.membership.voters, newVoters, e.index))
  {
    hide Fold, Normalize, Follows;
    MembershipValid(s);
    NormalizeFixed(s.membership.voters);
    JointApplies(s, newVoters);
    RebuiltAppend(s, JointEntry(s, newVoters));
  }

  lemma JointAppended(s: NodeState, e: Entry)
    requires Inv(s) && s.role == Leader && e.index == LastIndex(s) + 1 && e.term == s.term
    requires Rebuilt(s.(log := s.log + [e])).Some?
    ensures var s1 := s.(log := s.log + [e]); var s2 := Tracked(s1.(membership := Rebuilt(s1).value), e.index);
      Transition(s, s2, NO_EFFECT.(entries := [e])) && s2.role == Leader && s2.term == s.term
  {
    RoleHasTerm(s);
    hide Transition, Inv, Rebuilt, Tracked;
    var s1 := s.(log := s.log + [e]);
    var s2 := Tracked(s1.(membership := Rebuilt(s1).value), e.index);
    TrackedSame(s1.(membership := Rebuilt(s1).value), e.index);
    SameFold(s1, s2);
    AppendTransition(s, s2, NO_EFFECT.(entries := [e]));
  }

  lemma TrackedSame(s: NodeState, index: nat)
    ensures SameButProgress(s, Tracked(s, index))
  {
  }

  lemma SameFold(s: NodeState, s': NodeState)
    requires s'.initial == s.initial && s'.snapshot == s.snapshot && s'.log == s.log
    ensures Rebuilt(s') == Rebuilt(s)
  {
  }

  lemma ReadProbeKeeps(s: NodeState, context: nat)
    requires Inv(s)
    ensures var r := ReadProbe(s, context);
      r.Probed? ==> Transition(s, r.state, r.update) && KeepsRole(s, r.state, r.update)
  {
    hide Transition, Rebuilt;
    SendAppendsSame(s, Peers(s), context, false);
    SendAppendsFit(s, Peers(s), context, false);
    var (s', messages) := SendAppends(s, Peers(s), context, false);
    HardTransition(s, s', WithMessages(messages));
  }

  // ---- compaction and restart ------------------------------------------

  /** Local compaction at any boundary it accepts. */
  lemma CreateSnapshotKeeps(s: NodeState, index: nat, data: Image)
    requires Inv(s)
    ensures var r := CreateSnapshot(s, index, data);
      r.Some? ==> Transition(s, r.value.0, r.value.1) && KeepsRole(s, r.value.0, r.value.1)
  {
    Unchanged(s, []);
    var r := CreateSnapshot(s, index, data);
    if r.Some? && s.snapshot.index < index {
      var expected := MembershipAt(s, index).value;
      FoldedValid(s, LeadingThrough(s.log, index));
      var snap := r.value.1.snapshot.value;
      hide Transition, Inv, Rebuilt, CompactLog, MembershipAt;
      assert snap == Snapshot(index, TermAt(s, index), data, expected);
      CompactKeeps(s, snap, r.value.0, r.value.1);
    }
  }

  lemma FoldedValid(s: NodeState, n: nat)
    requires Inv(s) && n <= |s.log| && Fold(Base(s), s.log[..n]).Some?
    ensures var m := Fold(Base(s), s.log[..n]).value; WellFormed(m) && (Fits(s) ==> FinalFits(m))
  {
    BaseValid(s);
    FoldWellFormed(Base(s), s.log[..n]);
    if Fits(s) { FoldFits(Base(s), s.log[..n]); }
  }

  /** What a node can be started from: distinct positive peers, a snapshot boundary with a term and a membership
      made at or before it, entries in sequence after it that replay, and an applied index within them. */
  ghost predicate Restorable(cfg: Config, entries: seq<Entry>, snapshot: Snapshot) {
    && cfg.peers != [] && 0 !in cfg.peers && Distinct(cfg.peers)
    && (snapshot.index == 0 <==> snapshot.term == 0) && (snapshot.index == 0 ==> snapshot.data == [])
    && snapshot.membership.index <= snapshot.index && InSequence(entries, snapshot.index)
    && var recorded := snapshot.index > 0 && snapshot.membership.voters != [];
    && (recorded ==> WellFormed(snapshot.membership))
    && Fold(if recorded then snapshot.membership else Membership(SortIds(cfg.peers), [], 0), entries).Some?
    && snapshot.index <= cfg.appliedIndex <= snapshot.index + |entries|
  }

  /** A node starts exactly from such a state. */
  lemma RestoreExact(cfg: Config, hard: HardState, entries: seq<Entry>, snapshot: Snapshot)
    ensures Restore(cfg, hard, entries, snapshot).Some? <==> Restorable(cfg, entries, snapshot)
  {
    NormalizeExact(cfg.peers);
    SortedPeers(cfg.peers);
    ValidatedExact(snapshot.membership);
    hide Normalize, Validated, WellFormed, Fold, Distinct, ResetElectionTimer, SortIds;
  }

  /** No snapshot, or one with its membership. */
  predicate CarriesVoters(snapshot: Snapshot) {
    snapshot == NO_SNAPSHOT || (snapshot.index > 0 && snapshot.membership.voters != [])
  }

  /** It is then valid, if the snapshot records its membership. */
  lemma RestoredValid(cfg: Config, hard: HardState, entries: seq<Entry>, snapshot: Snapshot)
    requires Restorable(cfg, entries, snapshot) && CarriesVoters(snapshot)
    ensures Restore(cfg, hard, entries, snapshot).Some? && Inv(Restore(cfg, hard, entries, snapshot).value)
  {
    RestoreExact(cfg, hard, entries, snapshot);
    RestoredFields(cfg, hard, entries, snapshot);
    hide Restore;
    NormalizedForm(cfg.peers);
    hide Normalize, WellFormed, Fold, Distinct, SortIds;
  }

  lemma RestoredFields(cfg: Config, hard: HardState, entries: seq<Entry>, snapshot: Snapshot)
    requires Restore(cfg, hard, entries, snapshot).Some?
    ensures Normalize(cfg.peers).Some?
    ensures var r, peers := Restore(cfg, hard, entries, snapshot).value, Normalize(cfg.peers).value;
      && r.cfg.peers == peers && r.initial == Membership(peers, [], 0)
      && DurableOf(r) == Durable(hard, snapshot, entries)
      && r.commit == cfg.appliedIndex && r.role == Follower && Rebuilt(r) == Some(r.membership)
  {
    hide Normalize, Fold, Validated, ResetElectionTimer;
  }

  lemma SortedPeers(peers: seq<nat>)
    ensures Normalize(peers).Some? ==> Normalize(peers).value == SortIds(peers)
  {
  }

  /** Restarting from what the store holds: the same term, vote, snapshot, log and membership. */
  lemma RestoreKeeps(s: NodeState, cfg: Config)
    requires Inv(s) && cfg.id == s.cfg.id && Normalize(cfg.peers) == Some(s.cfg.peers)
    requires s.snapshot.index <= cfg.appliedIndex <= LastIndex(s)
    ensures var d := DurableOf(s); var r := Restore(cfg, d.hard, d.entries, d.snapshot);
      && r.Some? && Inv(r.value) && DurableOf(r.value) == DurableOf(s)
      && r.value.role == Follower && r.value.commit == cfg.appliedIndex && r.value.cfg == cfg.(peers := s.cfg.peers)
      && r.value.membership == s.membership && r.value.initial == s.initial
  {
    ValidatedExact(s.snapshot.membership);
    hide Fold, Normalize, Validated, WellFormed;
  }

  lemma NormalizedForm(peers: seq<nat>)
    requires Normalize(peers).Some?
    ensures WellFormed(Membership(Normalize(peers).value, [], 0))
  {
    NormalizeExact(peers);
    NormalizeExact(Normalize(peers).value);
    hide Normalize;
  }

  /** A store that holds nothing yet starts a follower of term 0. */
  lemma StartValid(cfg: Config)
    requires cfg.appliedIndex == 0 && Normalize(cfg.peers).Some?
    ensures var r := Restore(cfg, EMPTY_STORE.hard, EMPTY_STORE.entries, EMPTY_STORE.snapshot);
      && r.Some? && Inv(r.value) && DurableOf(r.value) == EMPTY_STORE && r.value.role == Follower
      && r.value.commit == 0 && r.value.cfg == cfg.(peers := Normalize(cfg.peers).value)
      && r.value.membership == r.value.initial
  {
    NormalizedForm(cfg.peers);
    hide Normalize, Validated, WellFormed, FinalFits;
  }

  // ---- who installs a snapshot -------------------------------------------

  lemma AppendNoSnapshot(s: NodeState, m: Message)
    requires Bounded(s) && m.Append?
    ensures Step(s, m).1.snapshot.None?
  {
    hide ReplicationPeers, MalformedFrom, InLease, ResetElectionTimer, SpliceOf, Rebuilt, EntriesBetween, TermAt;
    hide RejectHint;
  }

  lemma PublishNoSnapshot(s: NodeState, first: Update, proposal: bool)
    requires first.snapshot.None?
    ensures MaybeCommit(s).1.snapshot.None? && Publish(s, first, proposal).1.snapshot.None?
  {
    hide BroadcastAppend, CommitCandidate, AfterCommit, AppendedByCommit, EntriesBetween, IsVoter;
  }

  lemma ElectionNoSnapshot(s: NodeState)
    ensures BecomeLeader(s).1.snapshot.None? && StartElection(s).1.snapshot.None?
  {
    hide Publish, VoteRequests, Crowned, HasQuorum, Campaigning;
    PublishNoSnapshot(Crowned(s), NO_EFFECT.(entries := [NoopEntry(s)], roleChanged := true), false);
    var c := Campaigning(s);
    PublishNoSnapshot(Crowned(c), NO_EFFECT.(entries := [NoopEntry(c)], roleChanged := true), false);
  }

  lemma PreVoteNoSnapshot(s: NodeState)
    ensures StartPreVote(s).1.snapshot.None?
  {
    hide StartElection, VoteRequests, HasQuorum, ResetElectionTimer;
    var s' := s.(role := PreCandidate, leaderID := 0, votes := map[s.cfg.id := true],
                 timers := ResetElectionTimer(s.cfg, s.timers));
    ElectionNoSnapshot(s');
  }

  lemma VotesNoSnapshot(s: NodeState, m: Message)
    requires m.PreVote? || m.PreVoteResponse? || m.Vote? || m.VoteResponse?
    requires Bounded(s)
    ensures Dispatch(s, m).1.snapshot.None?
  {
    hide StartElection, BecomeLeader, HasQuorum, VoteLost, ResetElectionTimer, GrantsVote, HandlePreVote;
    if m.PreVoteResponse? { ElectionNoSnapshot(s.(votes := s.votes[m.from := !m.reject && m.term == s.term + 1])); }
    if m.VoteResponse? { ElectionNoSnapshot(s.(votes := s.votes[m.from := !m.reject])); }
  }

  lemma ResponsesNoSnapshot(s: NodeState, m: Message)
    requires (m.AppendResponse? || m.SnapshotResponse?) && Bounded(s)
    ensures Dispatch(s, m).1.snapshot.None?
  {
    hide MaybeCommit, AppendMessage, Acknowledged, MarkActive, Rejected, Idled;
    var index := if m.AppendResponse? then m.logIndex else Min(m.logIndex, LastIndex(s));
    PublishNoSnapshot(Acknowledged(MarkActive(s, m.from), m.from, index), NO_EFFECT, false);
  }

  lemma DispatchNoSnapshot(s: NodeState, m: Message)
    requires Bounded(s) && !m.InstallSnapshot? && !m.Append?
    ensures Dispatch(s, m).1.snapshot.None?
  {
    hide Dispatch;
    if m.AppendResponse? || m.SnapshotResponse? { ResponsesNoSnapshot(s, m); } else { VotesNoSnapshot(s, m); }
  }

  /** Of all messages only an offered snapshot makes a node install one. */
  lemma OnlyInstalls(s: NodeState, m: Message)
    requires Bounded(s) && !m.InstallSnapshot?
    ensures Step(s, m).1.snapshot.None?
  {
    if m.Append? {
      AppendNoSnapshot(s, m);
    } else {
      hide Dispatch, ResetElectionTimer, RejectStale, ReplicationPeers, InLease;
      DispatchNoSnapshot(s, m);
      DispatchNoSnapshot(BecomeFollower(s, m.term, 0).0, m);
    }
  }

  lemma TickNoSnapshot(s: NodeState)
    ensures Tick(s).1.snapshot.None?
  {
    hide StartPreVote, SendAppends, Ticked, TickTargets, Checked, HasQuorum, IsVoter, ResetElectionTimer;
    PreVoteNoSnapshot(Waited(s));
  }

  lemma ProposalNoSnapshot(s: NodeState, commands: seq<Bytes>, voters: seq<nat>)
    ensures var r := ProposeBatch(s, commands); r.Proposed? ==> r.update.snapshot.None?
    ensures var r := ProposeMembership(s, voters); r.Proposed? ==> r.update.snapshot.None?
  {
    hide Publish, BatchEntries, Tracked, Normalize, Rebuilt;
    forall x: NodeState, first: Update, p: bool | first.snapshot.None? ensures Publish(x, first, p).1.snapshot.None? {
      PublishNoSnapshot(x, first, p);
    }
  }

  /** A local compaction never passes the commit index. */
  lemma CompactionStaysBehind(s: NodeState, index: nat, data: Image)
    ensures var r := CreateSnapshot(s, index, data);
      r.Some? && r.value.1.snapshot.Some? ==> r.value.1.snapshot.value.index == index <= s.commit
  {
    hide MembershipAt, Rebuilt, TermAt, CompactLog;
  }
}
