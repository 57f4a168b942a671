/** A leader's progress table under any messages. */
module Replication {
  import opened RaftTypes
  import opened Voters
  import opened RaftCore
  import opened Stable
  import opened NodeInvariant
  import opened NodeTransitions
  import opened NodeInputs

  /** Every set next index lies above the match index and at most one past the log. */
  ghost predicate TableOK(s: NodeState) {
    var p := s.progress;
    && (forall id :: id in p.nextIndex ==> Get(p.matchIndex, id) < p.nextIndex[id] <= LastIndex(s) + 1)
    && (forall id :: id in p.matchIndex ==> id in p.nextIndex)
  }

  /** No match index falls. */
  ghost predicate Rises(s: NodeState, s': NodeState) {
    forall id :: Get(s.progress.matchIndex, id) <= Get(s'.progress.matchIndex, id)
  }

  /** A leader's table is in order, and within one leadership its match indexes only grow. */
  ghost predicate Advances(s: NodeState, s': NodeState) {
    s'.role == Leader ==> TableOK(s') && (s.role == Leader && s.term == s'.term ==> Rises(s, s'))
  }

  /** The table and the end of the log are the same. */
  predicate SameTable(s: NodeState, s': NodeState) {
    && s'.progress.nextIndex == s.progress.nextIndex && s'.progress.matchIndex == s.progress.matchIndex
    && LastIndex(s') == LastIndex(s)
  }

  // ---- leader's steps --------------------------------------------------

  lemma {:induction false} SendAppendsTable(s: NodeState, peers: seq<nat>, context: nat, proposal: bool)
    ensures SameTable(s, SendAppends(s, peers, context, proposal).0)
  {
    if peers != [] {
      var n := |peers| - 1;
      SendAppendsTable(s, peers[..n], context, proposal);
      SendAppendsSame(s, peers[..n], context, proposal);
    }
  }

  lemma AfterCommitTable(s: NodeState, c: nat)
    requires TableOK(s)
    ensures TableOK(AfterCommit(s, c)) && Rises(s, AfterCommit(s, c))
  {
    hide Rebuilt;
    var s1 := s.(commit := c);
    if FinalDue(s1) && AppendFinal(s1).Some? {
      var s2 := AppendFinal(s1).value.0;
      assert s2.progress == Matched(s.progress, s.cfg.id, LastIndex(s) + 1) && LastIndex(s2) == LastIndex(s) + 1;
    }
  }

  lemma MaybeCommitTable(s: NodeState)
    requires TableOK(s)
    ensures TableOK(MaybeCommit(s).0) && Rises(s, MaybeCommit(s).0)
  {
    hide CommitCandidate, AfterCommit, ReplicationPeers;
    var c := CommitCandidate(s, LastIndex(s));
    if c > s.commit {
      AfterCommitTable(s, c);
      var s2 := AfterCommit(s, c);
      SendAppendsTable(s2, ReplicationPeers(s2), 0, false);
    }
  }

  lemma PublishTable(s: NodeState, first: Update, proposal: bool)
    requires TableOK(s)
    ensures TableOK(Publish(s, first, proposal).0) && Rises(s, Publish(s, first, proposal).0)
  {
    hide MaybeCommit, ReplicationPeers;
    SendAppendsTable(s, ReplicationPeers(s), 0, proposal);
    MaybeCommitTable(BroadcastAppend(s, proposal).0);
  }

  lemma BecomeLeaderTable(s: NodeState)
    ensures TableOK(BecomeLeader(s).0)
  {
    assert TableOK(Crowned(s)) by { hide UnionVoters; }
    hide Publish;
    PublishTable(Crowned(s), NO_EFFECT.(entries := [NoopEntry(s)], roleChanged := true), false);
  }

  /** A rejection, however stale, never lowers the next index to or below the match index. */
  lemma RejectedTable(s: NodeState, m: Message)
    requires TableOK(s) && m.AppendResponse?
    ensures TableOK(Rejected(s, m)) && Rises(s, Rejected(s, m))
  {
  }

  /** An acknowledgement, however stale or inflated, never lowers a match index or passes the log. */
  lemma AcknowledgedTable(s: NodeState, id: nat, index: nat)
    requires TableOK(s)
    ensures TableOK(Acknowledged(s, id, index)) && Rises(s, Acknowledged(s, id, index))
  {
  }

  lemma CountAckTable(s: NodeState, id: nat, index: nat)
    requires TableOK(s)
    ensures TableOK(CountAck(s, id, index).0) && Rises(s, CountAck(s, id, index).0)
  {
    AcknowledgedTable(MarkActive(s, id), id, index);
    hide MaybeCommit, Acknowledged;
    MaybeCommitTable(Acknowledged(MarkActive(s, id), id, index));
  }

  lemma AppendMessageTable(s: NodeState, id: nat, context: nat)
    ensures SameTable(s, AppendMessage(s, id, context).0)
  {
  }

  lemma SendMoreTable(s: NodeState, u: Update, id: nat, context: nat, wanted: bool)
    ensures SameTable(s, SendMore(s, u, id, context, wanted).0)
  {
    hide AppendMessage;
    AppendMessageTable(s, id, context);
  }

  lemma AppendResponseTable(s: NodeState, m: Message)
    requires TableOK(s) && m.AppendResponse?
    ensures TableOK(HandleAppendResponse(s, m).0) && Rises(s, HandleAppendResponse(s, m).0)
  {
    hide CountAck, SendMore, AppendMessage, Rejected, Get;
    var s1 := Rejected(MarkActive(s, m.from), m);
    RejectedTable(MarkActive(s, m.from), m);
    AppendMessageTable(s1, m.from, m.context);
    CountAckTable(s, m.from, m.logIndex);
    var (s2, u) := CountAck(s, m.from, m.logIndex);
    var advanced := Min(m.logIndex, LastIndex(s)) > Get(s.progress.matchIndex, m.from);
    SendMoreTable(s2, u, m.from, m.context, advanced && Get(s2.progress.outstanding, m.from) == 0);
  }

  lemma SnapshotResponseTable(s: NodeState, m: Message)
    requires TableOK(s) && m.SnapshotResponse?
    ensures TableOK(HandleSnapshotResponse(s, m).0) && Rises(s, HandleSnapshotResponse(s, m).0)
  {
    hide CountAck, SendMore, AppendMessage;
    AppendMessageTable(Idled(MarkActive(s, m.from), m.from), m.from, 0);
    CountAckTable(s, m.from, Min(m.logIndex, LastIndex(s)));
    var (s2, u) := CountAck(s, m.from, Min(m.logIndex, LastIndex(s)));
    SendMoreTable(s2, u, m.from, 0, true);
  }

  // ---- any input -------------------------------------------------------

  lemma StartElectionTable(s: NodeState)
    ensures StartElection(s).0.role == Leader ==> TableOK(StartElection(s).0)
  {
    hide BecomeLeader, HasQuorum;
    BecomeLeaderTable(Campaigning(s));
  }

  lemma StartPreVoteTable(s: NodeState)
    ensures StartPreVote(s).0.role == Leader ==> TableOK(StartPreVote(s).0)
  {
    hide StartElection, HasQuorum, ResetElectionTimer;
    StartElectionTable(s.(role := PreCandidate, leaderID := 0, votes := map[s.cfg.id := true],
                          timers := ResetElectionTimer(s.cfg, s.timers)));
  }

  lemma VoteResponseTable(s: NodeState, m: Message)
    requires (m.VoteResponse? || m.PreVoteResponse?) && s.role != Leader
    ensures m.VoteResponse? && HandleVoteResponse(s, m).0.role == Leader ==> TableOK(HandleVoteResponse(s, m).0)
    ensures m.PreVoteResponse? && HandlePreVoteResponse(s, m).0.role == Leader ==>
      TableOK(HandlePreVoteResponse(s, m).0)
  {
    hide StartElection, BecomeLeader, HasQuorum, VoteLost, ResetElectionTimer;
    if m.VoteResponse? {
      BecomeLeaderTable(s.(votes := s.votes[m.from := !m.reject]));
    } else {
      StartElectionTable(s.(votes := s.votes[m.from := !m.reject && m.term == s.term + 1]));
    }
  }

  lemma FollowerStays(s: NodeState, m: Message)
    requires Inv(s) && (m.Append? ==> MalformedFrom(m, 0).None?) && (m.Append? || m.InstallSnapshot?)
    ensures Dispatch(s, m).0.role == Follower || Dispatch(s, m).0 == s
  {
    hide Inv, Transition, TakeEntries, AnswerSnapshot, MalformedFrom;
    var s1 := Follow(s, m.from).0;
    FollowKeeps(s, m.from);
    TransitionInv(s, s1, Follow(s, m.from).1);
    InvBounds(s1);
    if m.Append? {
      WellFormedEntries(m);
      hide Follow, TermAt, Follows, RejectHint;
      if m.logIndex <= LastIndex(s1) && TermAt(s1, m.logIndex) == m.logTerm {
        TakeEntriesKeeps(s, s1, m, Follow(s, m.from).1);
      }
    } else if m.snapshot.Some? && m.snapshot.value.index > 0 && m.snapshot.value.term > 0 {
      hide Follow;
      AnswerSnapshotKeeps(s1, m.from, Offered(s1, m.snapshot.value));
    }
  }

  lemma DispatchTable(s: NodeState, m: Message)
    requires Inv(s) && (m.Append? ==> MalformedFrom(m, 0).None?) && (s.role == Leader ==> TableOK(s))
    ensures Advances(s, Dispatch(s, m).0)
  {
    InvBounds(s);
    hide Inv, TableOK, HandlePreVoteResponse, HandleVote, HandleVoteResponse, HandleAppend, HandleAppendResponse,
      HandleSnapshot, HandleSnapshotResponse, MalformedFrom;
    match m
    case PreVote(_, _, _, _, _) =>
    case PreVoteResponse(_, _, _, _) =>
      if s.role == Leader { LeaderIgnoresVotes(s, m); } else { VoteResponseTable(s, m); }
    case Vote(_, _, _, _, _) => VoteTable(s, m);
    case VoteResponse(_, _, _, _) => if s.role == Leader { LeaderIgnoresVotes(s, m); } else { VoteResponseTable(s, m); }
    case Append(_, _, _, _, _, _, _, _) => FollowerStays(s, m);
    case AppendResponse(_, _, _, _, _, _, _) => if s.role == Leader { AppendResponseTable(s, m); }
    case InstallSnapshot(_, _, _, _) => FollowerStays(s, m);
    case SnapshotResponse(_, _, _, _, _, _) => if s.role == Leader { SnapshotResponseTable(s, m); }
  }

  lemma LeaderIgnoresVotes(s: NodeState, m: Message)
    requires s.role == Leader && (m.PreVoteResponse? || m.VoteResponse?)
    ensures m.VoteResponse? ==> HandleVoteResponse(s, m).0 == s
    ensures m.PreVoteResponse? ==> HandlePreVoteResponse(s, m).0.role != Leader || HandlePreVoteResponse(s, m).0 == s
  {
  }

  lemma VoteTable(s: NodeState, m: Message)
    requires m.Vote?
    ensures HandleVote(s, m).0.role == s.role && SameTable(s, HandleVote(s, m).0)
  {
  }

  /** Any message keeps a leader's table in order. */
  lemma StepTable(s: NodeState, m: Message)
    requires Inv(s) && (s.role == Leader ==> TableOK(s))
    ensures Advances(s, Step(s, m).0)
  {
    InvBounds(s);
    DropTable(s, m);
    hide Inv, TableOK, Rises, Drop, Dispatch, DispatchNewer, ReplicationPeers, MalformedFrom, InLease;
    SameAdvances(s);
    if Dropped(s, m) {
    } else if m.PreVote? || m.PreVoteResponse? || m.term == s.term {
      DispatchTable(s, m);
    } else if m.term > s.term {
      NewerTable(s, m);
    }
  }

  lemma SameAdvances(s: NodeState)
    requires s.role == Leader ==> TableOK(s)
    ensures Advances(s, s)
  {
  }

  lemma DropTable(s: NodeState, m: Message)
    requires s.role == Leader ==> TableOK(s)
    ensures Advances(s, Drop(s, m).0)
  {
    hide ReplicationPeers, MalformedFrom;
  }

  lemma NewerTable(s: NodeState, m: Message)
    requires Inv(s) && (m.Append? ==> MalformedFrom(m, 0).None?) && m.term > s.term && Bounded(s)
    ensures Advances(s, DispatchNewer(s, m).0)
  {
    hide Inv, Transition, Dispatch, MalformedFrom, BecomeFollower;
    BecomeFollowerKeeps(s, m.term, 0);
    var (s1, u1) := BecomeFollower(s, m.term, 0);
    TransitionInv(s, s1, u1);
    DispatchKeeps(s1, m);
  }

  lemma TickTable(s: NodeState)
    requires s.role == Leader ==> TableOK(s)
    ensures Advances(s, Tick(s).0)
  {
    if s.role == Leader {
      LeaderTickTable(s);
      hide LeaderTick;
    } else {
      hide StartPreVote;
      StartPreVoteTable(Waited(s));
    }
  }

  lemma LeaderTickTable(s: NodeState)
    requires TableOK(s)
    ensures TableOK(LeaderTick(s).0) && Rises(s, LeaderTick(s).0)
  {
    ExpireTable(s.progress, ReplicationPeers(s), ResendLimit(s.cfg));
    hide SendAppends, ReplicationPeers, ExpireOutstanding, CheckQuorum;
    SendAppendsTable(Ticked(s), TickTargets(s), 0, false);
    var (s1, messages) := SendAppends(Ticked(s), TickTargets(s), 0, false);
    CheckQuorumTable(s1, messages);
  }

  lemma CheckQuorumTable(s: NodeState, messages: seq<Message>)
    ensures SameTable(s, CheckQuorum(s, messages).0)
  {
    hide HasQuorum, ActiveVoters, Peers, ResetElectionTimer;
  }

  lemma {:induction false} ExpireTable(p: Progress, peers: seq<nat>, limit: nat)
    ensures var p' := ExpireOutstanding(p, peers, limit).0; p'.nextIndex == p.nextIndex && p'.matchIndex == p.matchIndex
  {
    if peers != [] { ExpireTable(p, peers[..|peers| - 1], limit); }
  }

  lemma ProposeTable(s: NodeState, commands: seq<Bytes>)
    requires s.role == Leader ==> TableOK(s)
    ensures var r := ProposeBatch(s, commands); r.Proposed? ==> Advances(s, r.state)
  {
    var entries := BatchEntries(LastIndex(s), s.term, commands).0;
    if s.role == Leader && entries != [] {
      var s1 := s.(log := s.log + entries);
      var s2 := s1.(progress := Matched(s1.progress, s.cfg.id, LastIndex(s1)));
      assert TableOK(s2) && Rises(s, s2);
      hide Publish, BatchEntries;
      PublishTable(s2, NO_EFFECT.(entries := entries), true);
    }
  }

  lemma ReconfigureTable(s: NodeState, voters: seq<nat>)
    requires s.role == Leader ==> TableOK(s)
    ensures var r := ProposeMembership(s, voters); r.Proposed? ==> Advances(s, r.state)
  {
    hide Publish, Rebuilt, Normalize;
    var r := ProposeMembership(s, voters);
    if r.Proposed? && Normalize(voters).value != s.membership.voters {
      var joint := JointEntry(s, Normalize(voters).value);
      var s1 := s.(log := s.log + [joint]);
      var s2 := s1.(membership := Rebuilt(s1).value);
      TrackedTable(s, s2, joint.index);
      PublishTable(Tracked(s2, joint.index), NO_EFFECT.(entries := [joint]), false);
    }
  }

  lemma TrackedTable(s: NodeState, s2: NodeState, index: nat)
    requires TableOK(s) && s2.progress == s.progress && LastIndex(s2) == index == LastIndex(s) + 1
    ensures TableOK(Tracked(s2, index)) && Rises(s, Tracked(s2, index))
  {
    hide UnionVoters;
  }

  /** Compaction moves neither the table nor the end of a leader's log. */
  lemma CompactTable(s: NodeState, index: nat, data: Image)
    requires Inv(s) && (s.role == Leader ==> TableOK(s))
    ensures var r := CreateSnapshot(s, index, data); r.Some? ==> Advances(s, r.value.0)
  {
    var r := CreateSnapshot(s, index, data);
    if r.Some? && s.snapshot.index < index {
      SameSuffix(s, r.value.1.snapshot.value);
    }
  }
}
