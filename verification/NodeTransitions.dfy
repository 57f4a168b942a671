/** Every input of a node, whatever it says, is a transition in the sense of NodeInvariant. */
module NodeTransitions {
  import opened RaftTypes
  import opened Voters
  import opened RaftCore
  import opened Stable
  import opened NodeInvariant

  /** A transition, the leadership rule, and that handling a message never promotes a follower. */
  ghost predicate Handled(s: NodeState, r: (NodeState, Update)) {
    Transition(s, r.0, r.1) && KeepsRole(s, r.0, r.1) && (s.role == Follower ==> r.0.role == Follower)
  }

  lemma StaysInv(s: NodeState, s1: NodeState)
    requires Inv(s) && SameLog(s, s1) && (s1.role == Leader || s1.role == Candidate ==> s1.term > 0)
    ensures Inv(s1)
  {
  }

  // ---- elections -------------------------------------------------------

  lemma CrownedKeeps(s: NodeState)
    requires Inv(s) && s.role == Candidate
    ensures Transition(s, Crowned(s), NO_EFFECT.(entries := [NoopEntry(s)], roleChanged := true))
  {
    hide Inv, Transition, Rebuilt, FreshProgress;
    CrownedFolds(s);
    RoleHasTerm(s);
    AppendTransition(s, Crowned(s), NO_EFFECT.(entries := [NoopEntry(s)], roleChanged := true));
  }

  lemma CrownedFolds(s: NodeState)
    requires Inv(s)
    ensures Rebuilt(Crowned(s)) == Some(s.membership)
  {
    hide FreshProgress, Fold;
    RebuiltAppend(s, NoopEntry(s));
  }

  lemma BecomeLeaderKeeps(s: NodeState)
    requires Inv(s) && s.role == Candidate
    ensures var (s', u) := BecomeLeader(s); Transition(s, s', u) && KeepsRole(s, s', u)
  {
    hide Transition, Inv;
    CrownedKeeps(s);
    PublishKeeps(s, Crowned(s), NO_EFFECT.(entries := [NoopEntry(s)], roleChanged := true), false);
  }

  lemma {:induction false} RequestsFit(s: NodeState, peers: seq<nat>, pre: bool)
    ensures AllMessagesFit(VoteRequests(s, peers, pre))
  {
    if peers != [] { RequestsFit(s, peers[..|peers| - 1], pre); }
  }

  lemma StartElectionKeeps(s: NodeState)
    requires Inv(s) && s.role != Leader
    ensures var (s', u) := StartElection(s); Transition(s, s', u) && KeepsRole(s, s', u)
  {
    hide Inv, Transition, BecomeLeader, VoteRequests, HasQuorum;
    var s1 := Campaigning(s);
    var update := NO_EFFECT.(hardState := Some(HardStateOf(s1)), roleChanged := true);
    HardTransition(s, s1, update);
    TransitionInv(s, s1, update);
    if HasQuorum(s1.membership, {s.cfg.id}) {
      BecomeLeaderKeeps(s1);
      var (s2, u) := BecomeLeader(s1);
      Chain(s, s1, update, s2, u);
    } else {
      RequestsFit(s1, Peers(s1), false);
      MoreMessages(s, s1, update, VoteRequests(s1, Peers(s1), false));
    }
  }

  lemma StartPreVoteKeeps(s: NodeState)
    requires Inv(s) && s.role != Leader
    ensures var (s', u) := StartPreVote(s); Transition(s, s', u) && KeepsRole(s, s', u)
  {
    hide Inv, Transition, StartElection, VoteRequests, HasQuorum;
    var s1 := s.(role := PreCandidate, leaderID := 0, votes := map[s.cfg.id := true],
                 timers := ResetElectionTimer(s.cfg, s.timers));
    StaysInv(s, s1);
    if HasQuorum(s1.membership, {s.cfg.id}) {
      StartElectionKeeps(s1);
      var (s2, u) := StartElection(s1);
      Through(s, s1, s2, u);
    } else {
      RequestsFit(s1, Peers(s1), true);
      var requests := VoteRequests(s1, Peers(s1), true);
      HardTransition(s, s1, NO_EFFECT.(roleChanged := s.role != PreCandidate, messages := requests));
    }
  }

  lemma HandlePreVoteResponseKeeps(s: NodeState, m: Message)
    requires Inv(s) && m.PreVoteResponse?
    ensures Handled(s, HandlePreVoteResponse(s, m))
  {
    hide Inv, Transition, StartElection, BecomeFollower, HasQuorum, VoteLost, Granted, Refused;
    Unchanged(s, []);
    if m.reject && m.term > s.term {
      BecomeFollowerKeeps(s, m.term, 0);
    } else if s.role == PreCandidate && (m.reject || m.term == s.term + 1) {
      var s1 := s.(votes := s.votes[m.from := !m.reject && m.term == s.term + 1]);
      StaysInv(s, s1);
      if HasQuorum(s1.membership, Granted(s1.votes)) {
        StartElectionKeeps(s1);
        var (s2, u) := StartElection(s1);
        Through(s, s1, s2, u);
      } else if VoteLost(s1.membership, Refused(s1.votes)) {
        BecomeFollowerKeeps(s1, s1.term, 0);
        var (s2, u) := BecomeFollower(s1, s1.term, 0);
        Through(s, s1, s2, u);
      } else {
        HardTransition(s, s1, NO_EFFECT);
      }
    }
  }

  lemma Unchanged(s: NodeState, messages: seq<Message>)
    requires Inv(s) && AllMessagesFit(messages)
    ensures Transition(s, s, WithMessages(messages)) && WithMessages([]) == NO_EFFECT
  {
    HardTransition(s, s, WithMessages(messages));
  }

  lemma HandleVoteKeeps(s: NodeState, m: Message)
    requires Inv(s) && m.Vote?
    ensures Handled(s, HandleVote(s, m))
  {
    Unchanged(s, [VoteResponse(s.cfg.id, m.from, s.term, true)]);
    if GrantsVote(s, m) {
      hide Transition, Rebuilt;
      var s' := VotedFor(s, m.from);
      HardTransition(s, s', NO_EFFECT.(hardState := Some(HardStateOf(s')),
                                       messages := [VoteResponse(s.cfg.id, m.from, s.term, false)]));
    }
  }

  lemma HandleVoteResponseKeeps(s: NodeState, m: Message)
    requires Inv(s) && m.VoteResponse?
    ensures Handled(s, HandleVoteResponse(s, m))
  {
    Unchanged(s, []);
    if s.role == Candidate && m.term == s.term {
      var s1 := s.(votes := s.votes[m.from := !m.reject]);
      StaysInv(s, s1);
      hide Transition, Rebuilt, BecomeLeader, BecomeFollower, HasQuorum, VoteLost, Granted, Refused;
      if HasQuorum(s1.membership, Granted(s1.votes)) {
        BecomeLeaderKeeps(s1);
        var (s2, u) := BecomeLeader(s1);
        Through(s, s1, s2, u);
      } else if VoteLost(s1.membership, Refused(s1.votes)) {
        BecomeFollowerKeeps(s1, s1.term, 0);
        var (s2, u) := BecomeFollower(s1, s1.term, 0);
        Through(s, s1, s2, u);
      } else {
        HardTransition(s, s1, NO_EFFECT);
      }
    }
  }

  // ---- appends ---------------------------------------------------------

  lemma FollowKeeps(s: NodeState, leader: nat)
    requires Inv(s)
    ensures var (s', u) := Follow(s, leader);
      && Transition(s, s', u) && SameLog(s, s') && HardStateOf(s') == HardStateOf(s) && s'.role == Follower
      && (s.role != Follower ==> u.roleChanged)
      && u.entries == [] && u.truncateFrom == 0 && u.committed == [] && u.snapshot.None?
  {
    hide Inv, Transition;
    var (s', u) := Follow(s, leader);
    HardTransition(s, s', u);
  }

  /** Following the sender, then a transition of the follower, is handling the message. */
  lemma FollowThen(s0: NodeState, leader: nat, s': NodeState, o: Update)
    requires Inv(s0)
    requires var (s, u) := Follow(s0, leader); Transition(s, s', o) && s'.role == Follower
    ensures var (s, u) := Follow(s0, leader); Handled(s0, (s', Merge(u, o)))
  {
    hide Transition, Inv, Follow;
    FollowKeeps(s0, leader);
    var (s, u) := Follow(s0, leader);
    Chain(s0, s, u, s', o);
  }

  lemma WellFormedEntries(m: Message)
    requires m.Append? && MalformedFrom(m, 0).None?
    ensures Follows(m.entries, m.logIndex)
  {
    forall k | 0 <= k < |m.entries| ensures Storable(m.entries[k], m.logIndex + k + 1) {
      assert MalformedEntry(m, k).None?;
    }
  }

  /** Where a splice cuts and what it adds, for any well-formed entries. */
  lemma SpliceShape(s: NodeState, entries: seq<Entry>, prev: nat)
    requires s.snapshot.index <= s.commit <= LastIndex(s) && prev <= LastIndex(s) && Follows(entries, prev)
    requires SpliceOf(s, entries).Splice?
    ensures var sp := SpliceOf(s, entries);
      && s.commit <= s.snapshot.index + sp.keep && sp.keep <= |s.log|
      && Follows(sp.added, s.snapshot.index + sp.keep)
      && (if sp.truncateFrom == 0 then sp.keep == |s.log| else sp.truncateFrom == s.snapshot.index + sp.keep + 1)
  {
    var n, sp := AlreadyPresent(s, entries), SpliceOf(s, entries);
    assert Storable(entries[n], prev + n + 1);
    if n > 0 { assert Storable(entries[n - 1], prev + n); }
    forall k | 0 <= k < |sp.added| ensures Storable(sp.added[k], prev + n + k + 1) {
      assert sp.added[k] == entries[n + k];
    }
  }

  lemma SplicedRebuilt(s: NodeState, sp: Splice)
    requires Rebuilt(s) == Some(s.membership) && sp.Splice? && sp.keep <= |s.log|
    requires sp.truncateFrom == 0 ==> sp.keep == |s.log|
    requires ApplySplice(s, sp).Some?
    ensures var s' := ApplySplice(s, sp).value;
      && Rebuilt(s') == Some(s'.membership)
      && s' == s.(log := SplicedLog(s, sp), membership := s'.membership)
  {
    if !Rebuilds(sp) {
      assert s.log[..sp.keep] == s.log;
      RebuiltBatch(s, sp.added);
    }
  }

  /** A splice persists as a truncation and an append, and keeps what is committed. */
  lemma SpliceKeeps(s: NodeState, sp: Splice)
    requires Inv(s) && sp.Splice? && sp.keep <= |s.log| && s.commit <= s.snapshot.index + sp.keep
    requires Follows(sp.added, s.snapshot.index + sp.keep)
    requires if sp.truncateFrom == 0 then sp.keep == |s.log| else sp.truncateFrom == s.snapshot.index + sp.keep + 1
    requires ApplySplice(s, sp).Some? && s.role == Follower
    ensures Transition(s, ApplySplice(s, sp).value, SpliceEffects(sp))
  {
    SplicedRebuilt(s, sp);
    SpliceStored(DurableOf(s), sp);
    SpliceLog(s, sp);
    FollowsExactly(sp.added, s.snapshot.index + sp.keep);
    hide Rebuilt, ApplySplice, SnapshotValid, Persisted, Follows, AllFit, InSequence;
  }

  lemma SpliceStored(d: Durable, sp: Splice)
    requires sp.Splice? && sp.keep <= |d.entries| && Follows(sp.added, d.snapshot.index + sp.keep)
    requires if sp.truncateFrom == 0 then sp.keep == |d.entries| else sp.truncateFrom == d.snapshot.index + sp.keep + 1
    ensures Persisted(d, SpliceEffects(sp)) == Some(d.(entries := d.entries[..sp.keep] + sp.added))
  {
    hide Follows;
    var kept := d.(entries := d.entries[..sp.keep]);
    assert sp.truncateFrom == 0 ==> kept == d;
    AppendedExact(kept, sp.added);
  }

  lemma SpliceLog(s: NodeState, sp: Splice)
    requires InSequence(s.log, s.snapshot.index) && s.snapshot.index <= s.commit <= LastIndex(s)
    requires sp.Splice? && sp.keep <= |s.log| && s.commit <= s.snapshot.index + sp.keep
    requires Follows(sp.added, s.snapshot.index + sp.keep)
    ensures InSequence(SplicedLog(s, sp), s.snapshot.index)
    ensures forall m: Membership :: KeepsCommitted(s, s.(log := SplicedLog(s, sp), membership := m))
  {
    FollowsExactly(sp.added, s.snapshot.index + sp.keep);
    hide Follows;
    var log := SplicedLog(s, sp);
    forall k | 0 <= k < |log| ensures log[k].index == s.snapshot.index + k + 1 && log[k].term != 0 {
      if k >= sp.keep { assert log[k] == sp.added[k - sp.keep]; } else { assert log[k] == s.log[k]; }
    }
  }

  lemma AcknowledgeKeeps(s0: NodeState, s: NodeState, m: Message, u: Update)
    requires Inv(s0) && m.Append? && s.role == Follower && Transition(s0, s, u) && u.snapshot.None?
    ensures var (s', u') := AcknowledgeAppend(s, m, u); Transition(s0, s', u') && s'.role == Follower
  {
    hide Transition, Inv, EntriesBetween;
    TransitionInv(s0, s, u);
    var c := Max(s.commit, Min(m.leaderCommit, LastNew(s, m)));
    InvBounds(s);
    var o := NO_EFFECT.(committed := EntriesBetween(s, s.commit + 1, c + 1),
                        messages := [AppendResponse(s.cfg.id, m.from, s.term, LastNew(s, m), false, 0, m.context)]);
    CommitTransition(s, c, o);
    Chain(s0, s, u, s.(commit := c), o);
  }

  lemma InvBounds(s: NodeState)
    requires Inv(s)
    ensures s.snapshot.index <= s.commit <= LastIndex(s)
  {
  }

  lemma SpliceThenAcknowledge(s0: NodeState, s: NodeState, u: Update, m: Message)
    requires Inv(s0) && Transition(s0, s, u) && s.role == Follower && m.Append?
    requires u.entries == [] && u.truncateFrom == 0 && u.committed == [] && u.snapshot.None?
    requires m.logIndex <= LastIndex(s) && Follows(m.entries, m.logIndex) && s.snapshot.index <= s.commit
    requires SpliceOf(s, m.entries).Splice? && ApplySplice(s, SpliceOf(s, m.entries)).Some?
    ensures var sp := SpliceOf(s, m.entries);
      var (s', u') := AcknowledgeAppend(ApplySplice(s, sp).value, m, Merge(u, SpliceEffects(sp)));
      Transition(s0, s', u') && s'.role == Follower
  {
    hide Transition, Inv, SpliceOf, Rebuilt, AcknowledgeAppend;
    TransitionInv(s0, s, u);
    InvBounds(s);
    var sp := SpliceOf(s, m.entries);
    SpliceShape(s, m.entries, m.logIndex);
    SpliceKeeps(s, sp);
    Chain(s0, s, u, ApplySplice(s, sp).value, SpliceEffects(sp));
    AcknowledgeKeeps(s0, ApplySplice(s, sp).value, m, Merge(u, SpliceEffects(sp)));
  }

  lemma AcknowledgedRole(s: NodeState, m: Message, u: Update)
    requires m.Append?
    ensures AcknowledgeAppend(s, m, u).1.roleChanged == u.roleChanged
  {
  }

  lemma TakeEntriesKeeps(s0: NodeState, s: NodeState, m: Message, u: Update)
    requires Inv(s0) && Transition(s0, s, u) && s.role == Follower && m.Append?
    requires u.entries == [] && u.truncateFrom == 0 && u.committed == [] && u.snapshot.None?
    requires m.logIndex <= LastIndex(s) && Follows(m.entries, m.logIndex) && s.snapshot.index <= s.commit
    ensures var (s', u') := TakeEntries(s, m, u);
      Transition(s0, s', u') && s'.role == Follower && u'.roleChanged == u.roleChanged
  {
    hide Inv, Transition, SpliceOf, ApplySplice, SpliceEffects, AcknowledgeAppend, Follows;
    var sp := SpliceOf(s, m.entries);
    if sp.Nothing? {
      AcknowledgeKeeps(s0, s, m, u);
      AcknowledgedRole(s, m, u);
    } else if sp.CommittedConflict? {
      AnswerKeeps(s0, s, u, RejectAppend(s, m.from, s.commit + 1));
    } else if ApplySplice(s, sp).None? {
      AnswerKeeps(s0, s, u, RejectAppend(s, m.from, LastIndex(s) + 1));
    } else {
      SpliceThenAcknowledge(s0, s, u, m);
      AcknowledgedRole(ApplySplice(s, sp).value, m, Merge(u, SpliceEffects(sp)));
      assert Merge(u, SpliceEffects(sp)).roleChanged == u.roleChanged by { SpliceEffectsQuiet(sp); }
    }
  }

  lemma SpliceEffectsQuiet(sp: Splice)
    requires sp.Splice?
    ensures !SpliceEffects(sp).roleChanged
  {
  }

  /** One more message after a transition. */
  lemma AnswerKeeps(s0: NodeState, s: NodeState, u: Update, answer: Message)
    requires Inv(s0) && Transition(s0, s, u) && MessageFits(answer) && u.snapshot.None?
    ensures Transition(s0, s, Merge(u, WithMessages([answer])))
  {
    hide Inv, Transition;
    TransitionInv(s0, s, u);
    Unchanged(s, [answer]);
    Chain(s0, s, u, s, WithMessages([answer]));
  }

  lemma HandleAppendKeeps(s0: NodeState, m: Message)
    requires Inv(s0) && m.Append? && MalformedFrom(m, 0).None?
    ensures Handled(s0, HandleAppend(s0, m))
  {
    InvBounds(s0);
    WellFormedEntries(m);
    hide Inv, Transition, Follow, RejectHint, TakeEntries, MalformedFrom, TermAt, Follows;
    FollowKeeps(s0, m.from);
    var (s, u) := Follow(s0, m.from);
    if m.logIndex > LastIndex(s) || TermAt(s, m.logIndex) != m.logTerm {
      AnswerKeeps(s0, s, u, RejectAppend(s, m.from, RejectHint(s, m.logIndex)));
    } else {
      TakeEntriesKeeps(s0, s, m, u);
    }
  }
}
