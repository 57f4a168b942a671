/** Sizes: which updates of a node the store takes, and the ones it refuses. */
module NodeSizes {
  import opened RaftTypes
  import opened Voters
  import opened RaftCore
  import opened Stable
  import opened EntrySizes
  import opened NodeInvariant
  import opened NodeTransitions
  import opened NodeInputs

  /** A store whose entries fit stays one. */
  lemma FitsKept(s: NodeState, s': NodeState, u: Update)
    requires Transition(s, s', u) && Fits(s) && Fitting(u)
    ensures Fits(s')
  {
    hide Inv, KeepsCommitted, Reports, KeepsVote, AllMessagesFit;
    StoredFits(DurableOf(s), u);
  }

  lemma StoredFits(d: Durable, u: Update)
    requires AllFit(d.entries) && FinalFits(d.snapshot.membership) && Fitting(u) && Persisted(d, u).Some?
    ensures var t := Persisted(d, u).value; AllFit(t.entries) && FinalFits(t.snapshot.membership)
  {
    hide FinalFits;
    var cut := Cut(d, u).value;
    AppendedExact(cut, u.entries);
    assert AllFit(cut.entries) && FinalFits(cut.snapshot.membership);
    FitTogether(cut.entries, u.entries);
  }

  // ---- what commits and elections append ---------------------------------------

  lemma CommittedFits(s: NodeState)
    requires Inv(s) && Fits(s) && s.role == Leader
    ensures AllFit(MaybeCommit(s).1.entries)
  {
    hide BroadcastAppend, Rebuilt, EntriesBetween, CommitCandidate, Normalize, InSequence, SnapshotValid, WellFormed;
    MembershipValid(s);
  }

  lemma PublishedFits(s: NodeState, first: Update, proposal: bool)
    requires Inv(s) && s.role == Leader && Fits(s) && AllFit(first.entries)
    ensures AllFit(Publish(s, first, proposal).1.entries)
  {
    hide Inv, MaybeCommit, BroadcastAppend, AllFit;
    BroadcastKeeps(s, proposal);
    var (s1, messages) := BroadcastAppend(s, proposal);
    CommittedFits(s1);
    FitTogether(first.entries, MaybeCommit(s1).1.entries);
  }

  lemma LeaderFits(s: NodeState)
    requires Inv(s) && s.role == Candidate && Fits(s)
    ensures AllFit(BecomeLeader(s).1.entries)
  {
    var first := NO_EFFECT.(entries := [NoopEntry(s)], roleChanged := true);
    CrownedKeeps(s);
    FitsKept(s, Crowned(s), first);
    hide Publish, Inv, FreshProgress;
    TransitionInv(s, Crowned(s), first);
    PublishedFits(Crowned(s), first, false);
  }

  lemma ElectionFits(s: NodeState)
    requires Inv(s) && Fits(s)
    ensures AllFit(StartElection(s).1.entries)
  {
    var c := Campaigning(s);
    StaysInv(s, c);
    hide BecomeLeader, VoteRequests, HasQuorum, Inv;
    LeaderFits(c);
  }

  lemma PreVoteFits(s: NodeState)
    requires Inv(s) && Fits(s)
    ensures AllFit(StartPreVote(s).1.entries)
  {
    var c := s.(role := PreCandidate, leaderID := 0, votes := map[s.cfg.id := true],
                timers := ResetElectionTimer(s.cfg, s.timers));
    StaysInv(s, c);
    hide StartElection, VoteRequests, HasQuorum, Inv;
    ElectionFits(c);
  }

  lemma VotesFit(s: NodeState, m: Message)
    requires Inv(s) && Fits(s) && (m.PreVote? || m.PreVoteResponse? || m.Vote? || m.VoteResponse?)
    ensures AllFit(Dispatch(s, m).1.entries)
  {
    hide StartElection, BecomeLeader, HasQuorum, VoteLost, GrantsVote, HandlePreVote, Inv;
    if m.PreVoteResponse? {
      var c := s.(votes := s.votes[m.from := !m.reject && m.term == s.term + 1]);
      RoleHasTerm(s);
      StaysInv(s, c);
      ElectionFits(c);
    } else if m.VoteResponse? && s.role == Candidate {
      var c := s.(votes := s.votes[m.from := !m.reject]);
      RoleHasTerm(s);
      StaysInv(s, c);
      LeaderFits(c);
    }
  }

  lemma AckFits(s: NodeState, id: nat, index: nat)
    requires Inv(s) && Fits(s) && s.role == Leader
    ensures AllFit(CountAck(s, id, index).1.entries)
  {
    var s1 := Acknowledged(MarkActive(s, id), id, index);
    StaysInv(s, s1);
    hide MaybeCommit, Inv;
    CommittedFits(s1);
  }

  lemma ResponsesFit(s: NodeState, m: Message)
    requires Inv(s) && Fits(s) && (m.AppendResponse? || m.SnapshotResponse?)
    ensures AllFit(Dispatch(s, m).1.entries)
  {
    hide CountAck, AppendMessage, MarkActive, Rejected, Idled, Inv;
    if s.role == Leader { AckFits(s, m.from, if m.AppendResponse? then m.logIndex else Min(m.logIndex, LastIndex(s))); }
  }

  /** Whatever a well-formed append adds fits. */
  lemma AppendFits(s: NodeState, m: Message)
    requires Bounded(s) && m.Append? && MalformedFrom(m, 0).None?
    ensures AllFit(HandleAppend(s, m).1.entries)
  {
    WellFormedEntries(m);
    FollowsExactly(m.entries, m.logIndex);
    hide SpliceOf, ApplySplice, TermAt, RejectHint, EntriesBetween, ResetElectionTimer, MalformedFrom, Follows;
    SpliceAdds(Follow(s, m.from).0, m.entries);
  }

  lemma SpliceAdds(s: NodeState, entries: seq<Entry>)
    requires Bounded(s) && AllFit(entries)
    ensures var sp := SpliceOf(s, entries); sp.Splice? ==> AllFit(sp.added)
  {
    var n := AlreadyPresent(s, entries);
    assert forall k :: 0 <= k < |entries[n..]| ==> entries[n..][k] == entries[n + k];
  }

  /** An append is stored whatever the node already holds. */
  lemma AppendStepFits(s: NodeState, m: Message)
    requires Bounded(s) && m.Append?
    ensures AllFit(Step(s, m).1.entries)
  {
    hide HandleAppend, RejectStale, ReplicationPeers, InLease, MalformedFrom;
    if !Dropped(s, m) && m.term >= s.term {
      var s1 := if m.term == s.term then s else BecomeFollower(s, m.term, 0).0;
      AppendFits(s1, m);
      assert [] + HandleAppend(s1, m).1.entries == HandleAppend(s1, m).1.entries;
    }
  }

  // ---- every input ------------------------------------------------------------------

  lemma SnapshotMessageFits(s: NodeState, m: Message)
    requires Inv(s) && m.InstallSnapshot? && MessageFits(m)
    ensures Fitting(HandleSnapshot(s, m).1)
  {
    hide RefusesSnapshot, Installed, ResetElectionTimer, Rebuilt, InSequence, WellFormed;
  }

  lemma DispatchFits(s: NodeState, m: Message)
    requires Inv(s) && Fits(s) && (m.Append? ==> MalformedFrom(m, 0).None?)
    ensures AllFit(Dispatch(s, m).1.entries) && (MessageFits(m) ==> Fitting(Dispatch(s, m).1))
  {
    InvBounds(s);
    hide HandleAppend, HandleSnapshot, HandlePreVoteResponse, HandleVote, HandleVoteResponse, HandleAppendResponse;
    hide HandleSnapshotResponse, HandlePreVote, Inv, MalformedFrom;
    if m.Append? {
      AppendFits(s, m);
      AppendQuiet(s, m);
    } else if m.InstallSnapshot? {
      InstallQuiet(s, m);
      if MessageFits(m) { SnapshotMessageFits(s, m); }
    } else {
      DispatchNoSnapshot(s, m);
      if m.AppendResponse? || m.SnapshotResponse? { ResponsesFit(s, m); } else { VotesFit(s, m); }
    }
  }

  lemma AppendQuiet(s: NodeState, m: Message)
    requires Bounded(s) && m.Append?
    ensures HandleAppend(s, m).1.snapshot.None?
  {
    hide SpliceOf, ApplySplice, TermAt, RejectHint, EntriesBetween, ResetElectionTimer;
  }

  lemma InstallQuiet(s: NodeState, m: Message)
    requires m.InstallSnapshot?
    ensures HandleSnapshot(s, m).1.entries == []
  {
    hide RefusesSnapshot, Installed, ResetElectionTimer, Offered;
  }

  /** Whatever a message makes a node append fits; what it installs fits when it was offered so. */
  lemma StepFits(s: NodeState, m: Message)
    requires Inv(s) && Fits(s)
    ensures AllFit(Step(s, m).1.entries) && (MessageFits(m) ==> Fitting(Step(s, m).1))
  {
    InvBounds(s);
    hide Dispatch, Inv, RejectStale, ReplicationPeers, InLease, MalformedFrom, MessageFits;
    if Dropped(s, m) || (!m.PreVote? && !m.PreVoteResponse? && m.term < s.term) {
    } else if m.PreVote? || m.PreVoteResponse? || m.term == s.term {
      DispatchFits(s, m);
    } else {
      BecomeFollowerKeeps(s, m.term, 0);
      var (s1, u1) := BecomeFollower(s, m.term, 0);
      StaysInv(s, s1);
      DispatchFits(s1, m);
      assert [] + Dispatch(s1, m).1.entries == Dispatch(s1, m).1.entries;
    }
  }

  lemma TickFits(s: NodeState)
    requires Inv(s) && Fits(s)
    ensures Fitting(Tick(s).1)
  {
    TickNoSnapshot(s);
    hide StartPreVote, SendAppends, Ticked, TickTargets, Checked, HasQuorum, IsVoter, ResetElectionTimer;
    if s.role != Leader {
      StaysInv(s, Waited(s));
      PreVoteFits(Waited(s));
    }
  }

  lemma BatchFits(last: nat, term: nat, commands: seq<Bytes>)
    ensures forall k :: 0 <= k < |BatchEntries(last, term, commands).0| ==>
      DataBytes(BatchEntries(last, term, commands).0[k].payload) <= MAX_ENTRY_BYTES
  {
    if commands != [] { BatchFits(last, term, commands[..|commands| - 1]); }
  }

  lemma BatchProposalFits(s: NodeState, commands: seq<Bytes>)
    requires Inv(s) && Fits(s)
    ensures var r := ProposeBatch(s, commands); r.Proposed? ==> Fitting(r.update)
  {
    ProposalNoSnapshot(s, commands, []);
    var entries := BatchEntries(LastIndex(s), s.term, commands).0;
    BatchFits(LastIndex(s), s.term, commands);
    FitTogether(s.log, entries);
    if s.role == Leader && entries != [] {
      BatchAppended(s, commands);
      hide Publish, BatchEntries, Inv, AllFit, FinalFits;
      var s1 := s.(log := s.log + entries);
      var s2 := s1.(progress := Matched(s1.progress, s.cfg.id, LastIndex(s1)));
      PublishedFits(s2, NO_EFFECT.(entries := entries), true);
    }
  }

  lemma CompactionFits(s: NodeState, index: nat, data: Image)
    requires Inv(s) && Fits(s)
    ensures var r := CreateSnapshot(s, index, data); r.Some? ==> Fitting(r.value.1)
  {
    var r := CreateSnapshot(s, index, data);
    if r.Some? && s.snapshot.index < index { FoldedValid(s, LeadingThrough(s.log, index)); }
    hide Rebuilt, CompactLog, Inv, FinalFits;
  }

  // ---- voter changes ------------------------------------------------------------------

  /** A change the code accepts and whose joint entry is longer than the store takes. */
  predicate OversizeChange(s: NodeState, voters: seq<nat>) {
    && s.role == Leader && s.membership.joint == [] && s.membership.index <= s.commit && Normalize(voters).Some?
    && Normalize(voters).value != s.membership.voters
    && DataBytes(JointEntry(s, Normalize(voters).value).payload) > MAX_ENTRY_BYTES
  }

  /** The first entries of a published update are the ones it was given. */
  lemma PublishedFirst(s: NodeState, first: Update, proposal: bool)
    ensures first.entries <= Publish(s, first, proposal).1.entries
  {
    hide BroadcastAppend, AfterCommit, CommitCandidate, EntriesBetween;
  }

  lemma NotAllFit(first: seq<Entry>, entries: seq<Entry>)
    requires first <= entries && !AllFit(first)
    ensures !AllFit(entries)
  {
    FitTogether(first, entries[|first|..]);
    assert first + entries[|first|..] == entries;
  }

  /** Of the changes a leader accepts, exactly the oversize ones append an entry that does not fit. */
  lemma ChangeFits(s: NodeState, voters: seq<nat>)
    requires Inv(s) && Fits(s)
    ensures var r := ProposeMembership(s, voters);
      r.Proposed? ==> r.update.snapshot.None? && (AllFit(r.update.entries) <==> !OversizeChange(s, voters))
  {
    ProposalNoSnapshot(s, [], voters);
    RoleHasTerm(s);
    hide Inv, Rebuilt, Publish, Tracked, Normalize, AllFit, FinalFits;
    var r := ProposeMembership(s, voters);
    if r.Proposed? && Normalize(voters).value != s.membership.voters {
      var joint := JointEntry(s, Normalize(voters).value);
      JointPublished(s, joint);
      OneFits(joint);
    }
    NothingFits();
  }

  lemma NothingFits()
    ensures AllFit([])
  {
  }

  lemma OneFits(e: Entry)
    ensures AllFit([e]) <==> DataBytes(e.payload) <= MAX_ENTRY_BYTES
  {
    if AllFit([e]) { assert [e][0] == e; }
  }

  lemma JointPublished(s: NodeState, joint: Entry)
    requires Inv(s) && Fits(s) && s.role == Leader && joint.index == LastIndex(s) + 1 && joint.term == s.term
    requires Rebuilt(s.(log := s.log + [joint])).Some?
    ensures var s1 := s.(log := s.log + [joint]); var s2 := Tracked(s1.(membership := Rebuilt(s1).value), joint.index);
      AllFit(Publish(s2, NO_EFFECT.(entries := [joint]), false).1.entries) <==> AllFit([joint])
  {
    hide Inv, Rebuilt, Publish, Tracked, AllFit, FinalFits, Transition;
    var s1 := s.(log := s.log + [joint]);
    var s2 := Tracked(s1.(membership := Rebuilt(s1).value), joint.index);
    var first := NO_EFFECT.(entries := [joint]);
    JointAppended(s, joint);
    if AllFit([joint]) {
      TransitionInv(s, s2, first);
      FitsKept(s, s2, first);
      PublishedFits(s2, first, false);
    } else {
      PublishedFirst(s2, first, false);
      NotAllFit([joint], Publish(s2, first, false).1.entries);
    }
  }

  /** A leader accepts a voter change whatever the size of its joint entry, and the store then persists the
      update exactly when that entry is within the limit. */
  lemma ProposeMembershipExactly(s: NodeState, voters: seq<nat>)
    requires Inv(s) && Fits(s)
    ensures var r := ProposeMembership(s, voters);
      && (OversizeChange(s, voters) ==> r.Proposed?)
      && (r.Proposed? ==> (Persisted(DurableOf(s), r.update).Some? <==> !OversizeChange(s, voters)))
  {
    ProposeMembershipKeeps(s, voters);
    ChangeFits(s, voters);
    if OversizeChange(s, voters) {
      NormalizeExact(voters);
      JointAlwaysFolds(s, Normalize(voters).value);
    }
    hide Inv, KeepsCommitted, Reports, KeepsVote, AllMessagesFit, Persisted, Publish, Tracked, Normalize;
  }

  function Upto(n: nat): (r: seq<nat>)
    ensures |r| == n
  { seq(n, i => i + 1) }

  lemma {:induction false} DigitsPositive(ids: seq<nat>)
    ensures IdListBytes(ids) >= |ids|
  {
    if ids != [] { DigitsPositive(ids[1..]); }
  }

  /** Every leader with no change in progress can be asked for such a change: the voters 1, 2, ... up to
      a number of them that no longer fits. */
  lemma SomeChangeIsOversize(s: NodeState)
    requires s.role == Leader && s.membership.joint == [] && s.membership.index <= s.commit
    ensures OversizeChange(s, Upto(MAX_ENTRY_BYTES + 1)) || OversizeChange(s, Upto(MAX_ENTRY_BYTES + 2))
  {
    forall n | n == MAX_ENTRY_BYTES + 1 || n == MAX_ENTRY_BYTES + 2
      ensures Normalize(Upto(n)) == Some(Upto(n)) && IdListBytes(Upto(n)) > MAX_ENTRY_BYTES
    {
      NormalizeFixed(Upto(n));
      DigitsPositive(Upto(n));
    }
    hide Normalize;
    assert |Upto(MAX_ENTRY_BYTES + 1)| != |Upto(MAX_ENTRY_BYTES + 2)|;
  }

  // ---- a snapshot whose joint configuration cannot be completed -----------

  /** The entry that completes s's joint configuration. */
  function Completion(s: NodeState): Entry {
    Entry(LastIndex(s) + 1, s.term, RaftTypes.Config(Final(s.membership.joint)))
  }

  /** Committing a joint configuration appends its completion, and the store takes the update exactly when
      that entry is within the limit. */
  lemma CompletionExactly(s: NodeState, c: nat)
    requires s.role == Leader && s.term > 0 && Cached(s)
    requires s.commit < c <= LastIndex(s) && FinalDue(s.(commit := c))
    ensures var u := CommitTo(s, c).1;
      && u.entries == [Completion(s)]
      && (Persisted(DurableOf(s), u).Some? <==> FinalFits(s.membership))
  {
    hide BroadcastAppend, Rebuilt, EntriesBetween, StepDownIfRemoved, Follows, Normalize;
    var s1 := s.(commit := c);
    assert AppendFinal(s1).Some? by { SameFold(s, s1); CachedFinal(s1); }
    FinalValue(s1, Completion(s));
    var u := CommitTo(s, c).1;
    QuietStepDown(BroadcastAppend(AfterCommit(s, c), false).0);
    assert u.snapshot.None? && u.truncateFrom == 0;
    var d := WithHard(DurableOf(s), u.hardState);
    AppendedExact(d, u.entries);
    assert Storable(Completion(s), LastStored(d) + 1) <==> FinalFits(s.membership);
    OneFollows(Completion(s), LastStored(d));
  }

  lemma QuietStepDown(s: NodeState)
    ensures var u := StepDownIfRemoved(s).1; u.snapshot.None? && u.truncateFrom == 0 && u.entries == []
  {
  }

  lemma OneFollows(e: Entry, last: nat)
    ensures Follows([e], last) <==> Storable(e, last + 1)
  {
    if Follows([e], last) { assert Storable([e][0], last + 0 + 1); }
  }

  /** A follower installs and persists a newer snapshot whatever the size of its joint set. The limit is met
      only later: by a leader that completes the change, and by the store, which never opens again. */
  lemma UnfitSnapshotInstalls(s: NodeState, from: nat, snap: Snapshot)
    requires Inv(s) && s.commit < snap.index && snap.term > 0 && Validated(snap.membership)
    requires snap.membership.index <= snap.index && !FinalFits(snap.membership)
    requires snap.index < LastIndex(s) ==> TermAt(s, snap.index) != snap.term
    ensures var (s', u) := AnswerSnapshot(s, from, snap);
      && Persisted(DurableOf(s), u) == Some(DurableOf(s'))
      && s'.membership == snap.membership && !FinalFits(s'.membership) && !Reopens(DurableOf(s'))
  {
    ValidatedExact(snap.membership);
    SameSuffix(s, snap);
    assert CompactLog(s, snap).log == [];
    var (s', u) := AnswerSnapshot(s, from, snap);
    hide Inv, TermAt, WellFormed, FinalFits;
    assert snap.membership.voters != [] by { WellFormedVoters(snap.membership); }
    CompactedStored(DurableOf(s), snap, u);
  }

  lemma WellFormedVoters(m: Membership)
    requires WellFormed(m)
    ensures m.voters != []
  {
  }

  // ---- a snapshot that is written and never opened again -------------------

  /** A node writes a snapshot whatever its membership, and the store it leaves opens again exactly when the
      membership at its index is within the limit for opening. */
  lemma CompactionReopensExactly(s: NodeState, index: nat, data: Image)
    requires Inv(s) && s.snapshot.index < index && CreateSnapshot(s, index, data).Some?
    ensures MembershipAt(s, index).Some?
    ensures var (s', u) := CreateSnapshot(s, index, data).value;
      && Persisted(DurableOf(s), u) == Some(DurableOf(s'))
      && (Reopens(DurableOf(s')) <==> MembershipBytes(MembershipAt(s, index).value) <= MAX_MEMBERSHIP_BYTES)
  {
    CreateSnapshotKeeps(s, index, data);
    hide Inv, MembershipAt, Rebuilt, KeepsCommitted, Reports, KeepsVote, AllMessagesFit, Persisted, KeepsRole;
    NothingFits();
  }

  lemma {:induction false} DigitsMonotone(x: nat, y: nat)
    requires x <= y
    ensures DecimalDigits(x) <= DecimalDigits(y)
    decreases y
  {
    if x >= 10 { DigitsMonotone(x / 10, y / 10); }
  }

  lemma SixDigits(x: nat)
    requires x < 1_000_000
    ensures DecimalDigits(x) <= 6
  {
    DigitsMonotone(x, 999_999);
    assert DecimalDigits(999_999) == 6;
  }

  lemma {:induction false} ListBounds(ids: seq<nat>)
    requires forall i :: 0 <= i < |ids| ==> ids[i] < 1_000_000
    ensures 2 * |ids| - 1 <= IdListBytes(ids) <= 7 * |ids|
  {
    if ids != [] {
      SixDigits(ids[0]);
      ListBounds(ids[1..]);
    }
  }

  lemma WideVoters()
    ensures var voters := Upto(530_000);
      Normalize(voters) == Some(voters) && MAX_MEMBERSHIP_BYTES < IdListBytes(voters) <= 3_710_000
  {
    ListBounds(Upto(530_000));
    NormalizeFixed(Upto(530_000));
  }

  /** A leader whose voters are written in half a million bytes accepts and stores a change to the voters 1 to
      530,000, and no store with a snapshot taken under those voters opens again. */
  lemma SomeChangeNeverReopens(s: NodeState)
    requires Inv(s) && Fits(s) && s.role == Leader && s.membership.joint == [] && s.membership.index <= s.commit
    requires IdListBytes(s.membership.voters) <= 500_000
    ensures var r := ProposeMembership(s, Upto(530_000)); r.Proposed? && Persisted(DurableOf(s), r.update).Some?
    ensures var e := JointEntry(s, Upto(530_000));
      Rebuilt(s.(log := s.log + [e])) == Some(Membership(s.membership.voters, Upto(530_000), e.index))
    ensures forall d: Durable ::
      d.snapshot.index > 0 && Upto(530_000) in [d.snapshot.membership.voters, d.snapshot.membership.joint]
      ==> !Reopens(d)
  {
    hide Inv, Fits, Normalize, Rebuilt, IdListBytes, Upto, Persisted, Publish, Tracked;
    var voters := Upto(530_000);
    WideVoters();
    JointAlwaysFolds(s, voters);
    assert !OversizeChange(s, voters);
    ProposeMembershipExactly(s, voters);
  }
}
