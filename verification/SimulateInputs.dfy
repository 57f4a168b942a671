/** Every input of a node keeps it in step with a safe protocol. */
module SimulateInputs {
  import opened RaftTypes
  import opened Voters
  import opened Protocol
  import opened ProtocolSteps
  import opened ProtocolReplication
  import opened RaftCore
  import opened Simulation
  import opened SimulateLeader
  import opened SimulateVotes
  import opened SimulateFollower
  import opened SimulateSnapshot

  // ---- responses to a leader -------------------------------------------

  lemma MarkActiveRel(g: Proto, s: NodeState, id: nat)
    requires Rel(g, s)
    ensures Rel(g, MarkActive(s, id))
  {
  }

  lemma FollowUpOK(g: Proto, s: NodeState, u: Update, id: nat, context: nat)
    requires Safe(g) && Rel(g, s) && LeaderRel(g, s) && EffectsOK(g, u)
    requires context != 0 ==> (s.cfg.id, s.term, context) in g.probes
    ensures var (s', u') := FollowUp(s, u, id, context); Rel(g, s') && EffectsOK(g, u') && s'.cfg == s.cfg
  {
    AppendMessageOK(g, s, id, context);
    SameRel(g, s, AppendMessage(s, id, context).0);
  }

  lemma MatchBounded(g: Proto, s: NodeState, id: nat)
    requires Safe(g) && CoreRel(g, s) && LeaderRel(g, s)
    ensures Get(s.progress.matchIndex, id) <= LastIndex(s)
  {
    if id in s.progress.matchIndex {
      assert (s.term, id) in g.acks ==> AckOK(g, s.term, id);
    }
  }

  lemma RejectedRel(g: Proto, s: NodeState, m: Message)
    requires Safe(g) && Rel(g, s) && s.role == Leader && m.AppendResponse?
    ensures Rel(g, Rejected(s, m))
  {
    MatchBounded(g, s, m.from);
    assert LowerNext(s.progress, m) <= LastIndex(s) + 1;
  }

  lemma AcknowledgedRel(g: Proto, s: NodeState, id: nat, index: nat)
    requires Rel(g, s) && s.role == Leader && index <= AckOf(g, s.term, id)
    ensures Rel(g, Acknowledged(s, id, index))
  {
  }

  lemma CountAckOK(g: Proto, s: NodeState, id: nat, index: nat) returns (g': Proto)
    requires Safe(g) && Rel(g, s) && s.role == Leader && index <= AckOf(g, s.term, id)
    ensures Stepped(g, g', s.cfg.id)
    ensures var (s', u) := CountAck(s, id, index);
      Rel(g', s') && LeaderRel(g', s') && EffectsOK(g', u) && s'.cfg == s.cfg && s'.term == s.term
  {
    hide Safe, MaybeCommit;
    MarkActiveRel(g, s, id);
    AcknowledgedRel(g, MarkActive(s, id), id, index);
    g' := MaybeCommitOK(g, Acknowledged(MarkActive(s, id), id, index));
  }

  lemma SendMoreOK(g: Proto, s: NodeState, u: Update, id: nat, context: nat, wanted: bool)
    requires Safe(g) && Rel(g, s) && LeaderRel(g, s) && EffectsOK(g, u)
    requires context != 0 ==> (s.cfg.id, s.term, context) in g.probes
    ensures var (s', u') := SendMore(s, u, id, context, wanted); Rel(g, s') && EffectsOK(g, u') && s'.cfg == s.cfg
  {
    hide Safe, FollowUp, Rel, LeaderRel, EffectsOK;
    FollowUpOK(g, s, u, id, context);
  }

  lemma ResentOK(g: Proto, s: NodeState, id: nat, context: nat)
    requires Safe(g) && Rel(g, s) && s.role == Leader
    requires context != 0 ==> (s.cfg.id, s.term, context) in g.probes
    ensures var (s', u) := FollowUp(s, NO_EFFECT, id, context); Rel(g, s') && EffectsOK(g, u) && s'.cfg == s.cfg
  {
    hide Safe, FollowUp;
    FollowUpOK(g, s, NO_EFFECT, id, context);
  }

  /** A rejected append's context is always 0; an acknowledged one names a probe. */
  lemma ContextProbed(g: Proto, m: Message)
    requires m.AppendResponse? && MessageOK(g, m)
    ensures m.context != 0 ==> !m.reject && (m.to, m.term, m.context) in g.probes
    ensures !m.reject ==> m.logIndex <= AckOf(g, m.term, m.from)
  {
  }

  lemma HandleAppendResponseOK(g: Proto, s: NodeState, m: Message) returns (g': Proto)
    requires Safe(g) && Rel(g, s) && m.AppendResponse? && MessageOK(g, m) && m.to == s.cfg.id
    ensures Stepped(g, g', s.cfg.id)
    ensures var (s', u) := HandleAppendResponse(s, m); Rel(g', s') && EffectsOK(g', u) && s'.cfg == s.cfg
  {
    ContextProbed(g, m);
    hide Safe, MessageOK, CountAck, SendMore, FollowUp, CoreRel, LeaderRel;
    g' := g;
    if s.role == Leader && m.term == s.term {
      if m.reject {
        MarkActiveRel(g, s, m.from);
        RejectedRel(g, MarkActive(s, m.from), m);
        ResentOK(g, Rejected(MarkActive(s, m.from), m), m.from, m.context);
      } else {
        g' := CountAckOK(g, s, m.from, m.logIndex);
        var advanced := Min(m.logIndex, LastIndex(s)) > Get(s.progress.matchIndex, m.from);
        var (s1, u) := CountAck(s, m.from, m.logIndex);
        SendMoreOK(g', s1, u, m.from, m.context, advanced && Get(s1.progress.outstanding, m.from) == 0);
      }
    }
  }

  lemma HandleSnapshotResponseOK(g: Proto, s: NodeState, m: Message) returns (g': Proto)
    requires Safe(g) && Rel(g, s) && m.SnapshotResponse? && MessageOK(g, m)
    ensures Stepped(g, g', s.cfg.id)
    ensures var (s', u) := HandleSnapshotResponse(s, m); Rel(g', s') && EffectsOK(g', u) && s'.cfg == s.cfg
  {
    hide Safe, CountAck, SendMore, FollowUp;
    g' := g;
    if s.role == Leader && m.term == s.term {
      if m.reject {
        MarkActiveRel(g, s, m.from);
        SameRel(g, MarkActive(s, m.from), Idled(MarkActive(s, m.from), m.from));
        ResentOK(g, Idled(MarkActive(s, m.from), m.from), m.from, 0);
      } else {
        var matched := Min(m.logIndex, LastIndex(s));
        g' := CountAckOK(g, s, m.from, matched);
        var (s1, u) := CountAck(s, m.from, matched);
        SendMoreOK(g', s1, u, m.from, 0, true);
      }
    }
  }

  // ---- messages --------------------------------------------------------

  lemma DispatchOK(g: Proto, s: NodeState, m: Message) returns (g': Proto)
    requires Safe(g) && Rel(g, s) && MessageOK(g, m) && m.to == s.cfg.id
    requires m.PreVote? || m.PreVoteResponse? || m.term == s.term
    ensures Stepped(g, g', s.cfg.id)
    ensures var (s', u) := Dispatch(s, m); Rel(g', s') && EffectsOK(g', u) && s'.cfg == s.cfg
  {
    hide Safe, CoreRel, LeaderRel, CandidateRel;
    match m
    case PreVote(_, _, _, _, _) => g' := g;
    case PreVoteResponse(_, _, _, _) => g' := HandlePreVoteResponseOK(g, s, m);
    case Vote(_, _, _, _, _) => g' := HandleVoteOK(g, s, m);
    case VoteResponse(_, _, _, _) => g' := HandleVoteResponseOK(g, s, m);
    case Append(_, _, _, _, _, _, _, _) => g' := HandleAppendOK(g, s, m);
    case AppendResponse(_, _, _, _, _, _, _) => g' := HandleAppendResponseOK(g, s, m);
    case InstallSnapshot(_, _, _, _) => g' := HandleSnapshotOK(g, s, m);
    case SnapshotResponse(_, _, _, _, _, _) => g' := HandleSnapshotResponseOK(g, s, m);
  }

  lemma DropOK(g: Proto, s: NodeState, m: Message)
    requires Rel(g, s)
    ensures var (s', u) := Drop(s, m); Rel(g, s') && EffectsOK(g, u) && s'.cfg == s.cfg
  {
    hide ReplicationPeers, MalformedFrom, Fold, Leads, AckOf;
  }

  lemma StepOK(g: Proto, s: NodeState, m: Message) returns (g': Proto)
    requires Safe(g) && Rel(g, s) && MessageOK(g, m) && m.to == s.cfg.id
    ensures Stepped(g, g', s.cfg.id)
    ensures var (s', u) := Step(s, m); Rel(g', s') && EffectsOK(g', u) && s'.cfg == s.cfg
  {
    hide Dispatch, DispatchNewer, Drop, Dropped;
    g' := g;
    if Dropped(s, m) {
      DropOK(g, s, m);
    } else if m.PreVote? || m.PreVoteResponse? || m.term == s.term {
      g' := DispatchOK(g, s, m);
    } else if m.term > s.term {
      g' := DispatchNewerOK(g, s, m);
    }
  }

  lemma DispatchNewerOK(g: Proto, s: NodeState, m: Message) returns (g': Proto)
    requires Safe(g) && Rel(g, s) && MessageOK(g, m) && m.to == s.cfg.id && m.term > s.term
    ensures Stepped(g, g', s.cfg.id)
    ensures var (s', u) := DispatchNewer(s, m); Rel(g', s') && EffectsOK(g', u) && s'.cfg == s.cfg
  {
    var g1 := BecomeFollowerOK(g, s, m.term, 0);
    var (s1, u1) := BecomeFollower(s, m.term, 0);
    MessageKept(g, g1, m);
    g' := DispatchOK(g1, s1, m);
    SteppedTrans(g, g1, g', s.cfg.id);
    EffectsKept(g1, g', u1);
    EffectsMerge(g', u1, Dispatch(s1, m).1);
  }

  // ---- ticks -----------------------------------------------------------

  lemma {:induction false} ExpireKeeps(p: Progress, peers: seq<nat>, limit: nat)
    ensures var p' := ExpireOutstanding(p, peers, limit).0;
      p' == p.(outstanding := p'.outstanding, outstandingAge := p'.outstandingAge)
  {
    if peers != [] { ExpireKeeps(p, peers[..|peers| - 1], limit); }
  }

  lemma TickSends(g: Proto, s: NodeState, peers: seq<nat>)
    requires Safe(g) && Rel(g, s) && s.role == Leader
    ensures var (s', messages) := SendAppends(s, peers, 0, false);
      Rel(g, s') && LeaderRel(g, s') && MessagesOK(g, messages) && SameButOutstanding(s, s')
  {
    SendAppendsOK(g, s, peers, 0, false);
    SameRel(g, s, SendAppends(s, peers, 0, false).0);
  }

  lemma CheckQuorumOK(g: Proto, s: NodeState, messages: seq<Message>)
    requires Safe(g) && Rel(g, s) && s.role == Leader && MessagesOK(g, messages)
    ensures var (s', u) := CheckQuorum(s, messages); Rel(g, s') && EffectsOK(g, u) && s'.cfg == s.cfg
  {
    hide Safe, HasQuorum, BecomeFollower, MessageOK;
    var s2 := Checked(s);
    var _ := BecomeFollowerOK(g, s2, s2.term, 0);
    EffectsMerge(g, WithMessages(messages), BecomeFollower(s2, s2.term, 0).1);
  }

  lemma LeaderTickOK(g: Proto, s: NodeState)
    requires Safe(g) && Rel(g, s) && s.role == Leader
    ensures var (s', u) := LeaderTick(s); Rel(g, s') && EffectsOK(g, u) && s'.cfg == s.cfg
  {
    ExpireKeeps(s.progress, ReplicationPeers(s), ResendLimit(s.cfg));
    var s1 := Ticked(s);
    assert Rel(g, s1);
    var peers := TickTargets(s);
    TickSends(g, s1, peers);
    var (s2, messages) := SendAppends(s1, peers, 0, false);
    CheckQuorumOK(g, s2, messages);
  }

  lemma VoterTickOK(g: Proto, s: NodeState) returns (g': Proto)
    requires Safe(g) && Rel(g, s) && s.role != Leader
    ensures Stepped(g, g', s.cfg.id)
    ensures var (s', u) := VoterTick(s); Rel(g', s') && EffectsOK(g', u) && s'.cfg == s.cfg
  {
    g' := g;
    if Waited(s).timers.electionElapsed >= s.timers.electionTimeout {
      g' := StartPreVoteOK(g, Waited(s));
    }
  }

  lemma TickOK(g: Proto, s: NodeState) returns (g': Proto)
    requires Safe(g) && Rel(g, s)
    ensures Stepped(g, g', s.cfg.id)
    ensures var (s', u) := Tick(s); Rel(g', s') && EffectsOK(g', u) && s'.cfg == s.cfg
  {
    g' := g;
    if s.role == Leader {
      LeaderTickOK(g, s);
    } else if IsVoter(s, s.cfg.id) {
      g' := VoterTickOK(g, s);
    }
  }

  // ---- proposals -------------------------------------------------------

  /** Appending a batch of commands one by one. */
  lemma {:induction false} ExtendMany(g: Proto, s: NodeState, entries: seq<Entry>) returns (g': Proto)
    requires Safe(g) && CoreRel(g, s) && LeaderRel(g, s) && IsBatch(entries, LastIndex(s), s.term)
    ensures Stepped(g, g', s.cfg.id)
    ensures var s' := s.(log := s.log + entries); CoreRel(g', s') && LeaderRel(g', s')
    ensures entries != [] ==> AckOf(g', s.term, s.cfg.id) == LastIndex(s) + |entries|
    decreases |entries|
  {
    if entries == [] {
      assert s.log + entries == s.log;
      g' := g;
    } else {
      var n := |entries| - 1;
      var g1 := ExtendMany(g, s, entries[..n]);
      g' := ExtendLast(g1, s, entries);
      SteppedTrans(g, g1, g', s.cfg.id);
    }
  }

  lemma ExtendLast(g: Proto, s: NodeState, entries: seq<Entry>) returns (g': Proto)
    requires IsBatch(entries, LastIndex(s), s.term) && entries != []
    requires var s1 := s.(log := s.log + entries[..|entries| - 1]); Safe(g) && CoreRel(g, s1) && LeaderRel(g, s1)
    ensures Stepped(g, g', s.cfg.id)
    ensures var s' := s.(log := s.log + entries); CoreRel(g', s') && LeaderRel(g', s')
    ensures AckOf(g', s.term, s.cfg.id) == LastIndex(s) + |entries|
  {
    var n := |entries| - 1;
    var s1 := s.(log := s.log + entries[..n]);
    g' := ExtendOne(g, s1, entries[n], s.membership);
    assert s1.log + [entries[n]] == s.log + entries;
  }

  lemma ProposeBatchOK(g: Proto, s: NodeState, commands: seq<Bytes>) returns (g': Proto)
    requires Safe(g) && Rel(g, s)
    ensures Stepped(g, g', s.cfg.id)
    ensures var r := ProposeBatch(s, commands);
      r.Proposed? ==> Rel(g', r.state) && EffectsOK(g', r.update) && r.state.cfg == s.cfg
  {
    hide Safe, BatchEntries, IsBatch, Publish;
    g' := g;
    var entries := BatchEntries(LastIndex(s), s.term, commands).0;
    if s.role == Leader && entries != [] {
      var g1 := ExtendMany(g, s, entries);
      var s1 := s.(log := s.log + entries);
      OwnProgress(g1, s1, LastIndex(s1));
      var s2 := s1.(progress := Matched(s1.progress, s.cfg.id, LastIndex(s1)));
      g' := PublishOK(g1, s2, NO_EFFECT.(entries := entries), true);
      SteppedTrans(g, g1, g', s.cfg.id);
    }
  }

  /** The joint configuration always folds onto the stable one it starts from. */
  lemma JointFolds(g: Proto, s: NodeState, voters: seq<nat>)
    requires Safe(g) && CoreRel(g, s) && s.membership.joint == [] && Normalize(voters) == Some(voters)
    ensures var e := JointEntry(s, voters); var m := Membership(s.membership.voters, voters, e.index);
      FoldEntry(s.membership, e) == Some(m) && Rebuilt(s.(log := s.log + [e])) == Some(m)
  {
    MembershipWellFormed(g, s);
    NormalizeFixed(s.membership.voters);
    JointApplies(s, voters);
    var e := JointEntry(s, voters);
    AppendFolds(g, s, e, Membership(s.membership.voters, voters, e.index));
  }

  lemma TrackingBound(next: map<nat, nat>, peers: seq<nat>, index: nat, bound: nat)
    requires index <= bound && forall id :: id in next ==> next[id] <= bound
    ensures forall id :: id in StartTracking(next, peers, index) ==> StartTracking(next, peers, index)[id] <= bound
  {
  }

  lemma TrackedRel(g: Proto, s: NodeState, index: nat)
    requires CoreRel(g, s) && LeaderRel(g, s) && s.role == Leader
    requires index == LastIndex(s) && index <= AckOf(g, s.term, s.cfg.id)
    ensures Rel(g, Tracked(s, index)) && Tracked(s, index).role == Leader && Tracked(s, index).cfg == s.cfg
  {
    TrackingBound(s.progress.nextIndex, Peers(s), index, LastIndex(s) + 1);
    var p := s.progress.(nextIndex := StartTracking(s.progress.nextIndex, Peers(s), index));
    OwnProgress(g, s.(progress := p), index);
  }

  lemma JointAppended(g: Proto, s: NodeState, newVoters: seq<nat>) returns (g': Proto)
    requires Safe(g) && Rel(g, s) && s.role == Leader && s.membership.joint == [] && s.membership.index <= s.commit
    requires Normalize(newVoters) == Some(newVoters)
    ensures Stepped(g, g', s.cfg.id)
    ensures var e := JointEntry(s, newVoters); var s1 := s.(log := s.log + [e]);
      && Rebuilt(s1).Some?
      && var s2 := Tracked(s1.(membership := Rebuilt(s1).value), e.index);
      Rel(g', s2) && s2.role == Leader && s2.cfg == s.cfg
  {
    JointFolds(g, s, newVoters);
    var e := JointEntry(s, newVoters);
    var m := Membership(s.membership.voters, newVoters, e.index);
    g' := ExtendOne(g, s, e, m);
    TrackedRel(g', s.(log := s.log + [e], membership := m), e.index);
  }

  lemma ProposeMembershipOK(g: Proto, s: NodeState, voters: seq<nat>) returns (g': Proto)
    requires Safe(g) && Rel(g, s)
    ensures Stepped(g, g', s.cfg.id)
    ensures var r := ProposeMembership(s, voters);
      r.Proposed? ==> Rel(g', r.state) && EffectsOK(g', r.update) && r.state.cfg == s.cfg
  {
    hide Safe, Publish, Tracked, Normalize, Rebuilt;
    g' := g;
    if s.role == Leader && s.membership.joint == [] && s.membership.index <= s.commit && Normalize(voters).Some? {
      NormalizeExact(voters);
      var newVoters := Normalize(voters).value;
      if newVoters != s.membership.voters {
        var e := JointEntry(s, newVoters);
        var g1 := JointAppended(g, s, newVoters);
        var s1 := s.(log := s.log + [e]);
        var s2 := Tracked(s1.(membership := Rebuilt(s1).value), e.index);
        g' := PublishOK(g1, s2, NO_EFFECT.(entries := [e]), false);
        SteppedTrans(g, g1, g', s.cfg.id);
      }
    }
  }

  /** A read probe's appends carry its context. */
  lemma ReadProbeOK(g: Proto, s: NodeState, context: nat) returns (g': Proto)
    requires Safe(g) && Rel(g, s)
    ensures Progressed(g, g', s.cfg.id)
    ensures var r := ReadProbe(s, context);
      r.Probed? ==>
        Rel(g', r.state) && EffectsOK(g', r.update) && r.state.cfg == s.cfg && (s.cfg.id, s.term, context) in g'.probes
    ensures s.role == Leader ==> g' == BeginRead(g, s.cfg.id, context)
  {
    hide Safe, SendAppends, Peers, MessageOK;
    g' := g;
    if s.role == Leader {
      g' := BeginRead(g, s.cfg.id, context);
      BeginReadSafe(g, s.cfg.id, context);
      SendAppendsOK(g', s, Peers(s), context, false);
      SameRel(g', s, SendAppends(s, Peers(s), context, false).0);
    }
  }
}
