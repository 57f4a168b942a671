/** Updates cut off by a crash: whatever part of one reached the store is a state the protocol allows. */
module TornUpdates {
  import opened RaftTypes
  import opened Voters
  import opened Protocol
  import opened ProtocolLogs
  import opened ProtocolReplication
  import opened RaftCore
  import opened Stable
  import opened EntrySizes
  import opened NodeInvariant
  import opened NodeTransitions
  import opened NodeInputs
  import opened NodeSizes
  import opened Simulation
  import opened SimulateLeader
  import opened SimulateVotes
  import opened SimulateFollower
  import opened SimulateInputs

  /** A node state x of a protocol one step on that the store d could have come from. */
  ghost predicate Witness(g: Proto, g2: Proto, s: NodeState, x: NodeState, d: Durable) {
    && Stepped(g, g2, s.cfg.id) && CoreRel(g2, x) && DurableOf(x) == d
    && x.cfg == s.cfg && x.initial == s.initial && x.snapshot == s.snapshot && x.commit == s.commit
  }

  /** What reached the store is nothing, everything, or has a witness. */
  ghost predicate Torn(g: Proto, g2: Proto, s: NodeState, x: NodeState, s': NodeState, u: Update, writes: nat) {
    var d := TornAt(DurableOf(s), u, writes);
    d == DurableOf(s) || d == DurableOf(s') || Witness(g, g2, s, x, d)
  }

  /** An update that writes at most one thing is all or nothing. */
  predicate OneWrite(u: Update) {
    || (u.entries == [] && u.truncateFrom == 0 && (u.snapshot.None? || u.hardState.None?))
    || (|u.entries| <= 1 && u.truncateFrom == 0 && u.snapshot.None? && u.hardState.None?)
  }

  lemma OneWriteTorn(g: Proto, s: NodeState, s': NodeState, u: Update, writes: nat)
    requires OneWrite(u) && Persisted(DurableOf(s), u) == Some(DurableOf(s'))
    ensures Torn(g, g, s, s, s', u, writes)
  {
    if writes > |u.entries| {
      TornWhole(DurableOf(s), u, writes);
    } else {
      hide WithSnapshot, Truncated;
      assert writes == 1 ==> u.entries[..0] == [];
    }
  }

  /** An update that first writes a new hard state and then goes on from there. */
  lemma HardFirst(g: Proto, g1: Proto, g2: Proto, s: NodeState, s1: NodeState, x: NodeState, s': NodeState,
                  first: Update, u: Update, writes: nat) returns (g': Proto, x': NodeState)
    requires first.hardState == Some(HardStateOf(s1)) && first.snapshot.None?
    requires first.truncateFrom == 0 && first.entries == []
    requires s1.snapshot == s.snapshot && s1.log == s.log && s1.commit == s.commit
    requires s1.cfg == s.cfg && s1.initial == s.initial
    requires Stepped(g, g1, s.cfg.id) && CoreRel(g1, s1) && u.hardState.None?
    requires Torn(g1, g2, s1, x, s', u, writes)
    ensures Torn(g, g', s, x', s', Merge(first, u), writes)
  {
    hide WithSnapshot, Appended, Truncated, Stepped, CoreRel;
    var d, d1 := DurableOf(s), DurableOf(s1);
    assert [] + u.entries == u.entries;
    assert WithHard(d, Merge(first, u).hardState) == d1 == WithHard(d1, u.hardState);
    assert TornAt(d, Merge(first, u), writes) == TornAt(d1, u, writes);
    if TornAt(d1, u, writes) == d1 {
      g', x' := g1, s1;
    } else {
      g', x' := g2, x;
      if Witness(g1, g2, s1, x, TornAt(d1, u, writes)) { SteppedTrans(g, g1, g2, s.cfg.id); }
    }
  }

  // ---- appended by a leader ---------------------------------------------------

  /** Appended entries reach the store one by one. */
  lemma AppendTorn(d: Durable, u: Update, writes: nat)
    requires u.hardState.None? && u.snapshot.None? && u.truncateFrom == 0 && Follows(u.entries, LastStored(d))
    ensures TornAt(d, u, writes)
         == if writes == 0 then d else d.(entries := d.entries + u.entries[..Min(writes - 1, |u.entries|)])
  {
    if writes > 0 {
      var a := Min(writes - 1, |u.entries|);
      forall k | 0 <= k < a ensures Storable(u.entries[..a][k], LastStored(d) + k + 1) {
        assert Storable(u.entries[k], LastStored(d) + k + 1);
      }
      WrittenExact(d, u.entries[..a]);
    }
  }

  /** `first` and at most one more entry: torn inside `first`, the node x has appended that part of it. */
  lemma LeaderTorn(g: Proto, g2: Proto, s: NodeState, x: NodeState, s': NodeState, u: Update, first: seq<Entry>,
                   writes: nat)
    requires u.hardState.None? && u.snapshot.None? && u.truncateFrom == 0
    requires first <= u.entries && |u.entries| <= |first| + 1
    requires Persisted(DurableOf(s), u) == Some(DurableOf(s'))
    requires 0 < writes - 1 <= |first| ==> Witness(g, g2, s, x, DurableOf(s).(entries := s.log + first[..writes - 1]))
    ensures Torn(g, g2, s, x, s', u, writes)
  {
    hide Witness;
    var d := DurableOf(s);
    AppendedExact(d, u.entries);
    AppendTorn(d, u, writes);
    if writes == 1 {
      assert s.log + u.entries[..0] == s.log;
    } else if writes > 1 {
      var a := Min(writes - 1, |u.entries|);
      if a == |u.entries| { assert u.entries[..a] == u.entries; } else { assert u.entries[..a] == first[..a]; }
    }
  }

  /** Publishing adds at most the completion of a joint configuration to what it is given. */
  lemma PublishedShape(s: NodeState, first: Update, proposal: bool)
    requires first.hardState.None? && first.snapshot.None? && first.truncateFrom == 0
    ensures var u := Publish(s, first, proposal).1;
      && u.hardState.None? && u.snapshot.None? && u.truncateFrom == 0
      && first.entries <= u.entries && |u.entries| <= |first.entries| + 1
  {
    hide BroadcastAppend, AfterCommit, CommitCandidate, EntriesBetween, AppendFinal;
  }

  /** Roles, votes, timers and progress are not in the store. */
  lemma SameTorn(g: Proto, g2: Proto, s: NodeState, s1: NodeState, x: NodeState, s': NodeState, u: Update, writes: nat)
    requires SameLog(s, s1) && HardStateOf(s1) == HardStateOf(s) && Torn(g, g2, s1, x, s', u, writes)
    ensures Torn(g, g2, s, x, s', u, writes)
  {
    hide TornAt, Stepped, CoreRel;
  }

  lemma TransitionPersists(s: NodeState, s': NodeState, u: Update)
    requires Transition(s, s', u) && AllFit(u.entries)
    ensures Persisted(DurableOf(s), u) == Some(DurableOf(s'))
  {
  }

  /** A new leader's no-op, and the completion it may commit at once. */
  lemma TornLeader(g: Proto, s: NodeState, writes: nat) returns (g2: Proto, x: NodeState)
    requires Safe(g) && CoreRel(g, s) && CandidateRel(g, s) && HasQuorum(s.membership, Granted(s.votes))
    requires Inv(s) && Fits(s) && s.role == Candidate
    ensures Torn(g, g2, s, x, BecomeLeader(s).0, BecomeLeader(s).1, writes)
    ensures BecomeLeader(s).1.hardState.None?
  {
    hide Transition, Publish, Inv, Safe, CoreRel, LeaderRel, CandidateRel, Stepped, Persisted, HasQuorum, FreshProgress;
    hide Torn;
    var first := NO_EFFECT.(entries := [NoopEntry(s)], roleChanged := true);
    g2 := CrownedOK(g, s);
    x := Crowned(s);
    BecomeLeaderKeeps(s);
    LeaderFits(s);
    var (s', u) := BecomeLeader(s);
    TransitionPersists(s, s', u);
    PublishedShape(Crowned(s), first, false);
    assert writes == 2 ==> first.entries[..1] == first.entries;
    LeaderTorn(g, g2, s, x, s', u, first.entries, writes);
  }

  /** A candidacy is on disk before the no-op of the leadership it may win at once. */
  lemma TornElection(g: Proto, s: NodeState, writes: nat) returns (g2: Proto, x: NodeState)
    requires Safe(g) && CoreRel(g, s) && Inv(s) && Fits(s) && s.role != Leader
    ensures Torn(g, g2, s, x, StartElection(s).0, StartElection(s).1, writes)
  {
    var s1 := Campaigning(s);
    StaysInv(s, s1);
    assert Granted(s1.votes) == {s.cfg.id};
    hide Transition, Inv, Safe, CoreRel, LeaderRel, CandidateRel, BecomeLeader, Torn, HasQuorum, Persisted, Stepped;
    hide VoteRequests;
    StartElectionKeeps(s);
    ElectionFits(s);
    var (s', u) := StartElection(s);
    TransitionPersists(s, s', u);
    if HasQuorum(s1.membership, {s.cfg.id}) {
      var g1 := CampaignOK(g, s);
      SteppedSafe(g, g1, s.cfg.id);
      g2, x := TornLeader(g1, s1, writes);
      var first := NO_EFFECT.(hardState := Some(HardStateOf(s1)), roleChanged := true);
      g2, x := HardFirst(g, g1, g2, s, s1, x, s', first, BecomeLeader(s1).1, writes);
    } else {
      g2, x := g, s;
      OneWriteTorn(g, s, s', u, writes);
    }
  }

  lemma SteppedSafe(g: Proto, g': Proto, n: nat)
    requires Stepped(g, g', n)
    ensures Safe(g')
  {
  }

  lemma TornPreVote(g: Proto, s: NodeState, writes: nat) returns (g2: Proto, x: NodeState)
    requires Safe(g) && CoreRel(g, s) && Inv(s) && Fits(s) && s.role != Leader
    ensures Torn(g, g2, s, x, StartPreVote(s).0, StartPreVote(s).1, writes)
  {
    hide Transition, Inv, StartElection, Torn, HasQuorum, Persisted, Safe, CoreRel, VoteRequests, AllFit, FinalFits;
    StartPreVoteKeeps(s);
    PreVoteFits(s);
    var (s', u) := StartPreVote(s);
    TransitionPersists(s, s', u);
    var s1 := s.(role := PreCandidate, leaderID := 0, votes := map[s.cfg.id := true],
                 timers := ResetElectionTimer(s.cfg, s.timers));
    if HasQuorum(s1.membership, {s.cfg.id}) {
      StaysInv(s, s1);
      SameCore(g, s, s1);
      g2, x := TornElection(g, s1, writes);
      SameTorn(g, g2, s, s1, x, s', u, writes);
    } else {
      g2, x := g, s;
      OneWriteTorn(g, s, s', u, writes);
    }
  }

  lemma TornTick(g: Proto, s: NodeState, writes: nat) returns (g2: Proto, x: NodeState)
    requires Safe(g) && Rel(g, s) && Inv(s) && Fits(s)
    ensures Torn(g, g2, s, x, Tick(s).0, Tick(s).1, writes)
  {
    hide Transition, Inv, StartPreVote, Torn, Persisted, Safe, Rel, CoreRel, LeaderTick, IsVoter;
    TickKeeps(s);
    TickFits(s);
    var (s', u) := Tick(s);
    TransitionPersists(s, s', u);
    g2, x := g, s;
    if s.role == Leader {
      LeaderTickShape(s);
      OneWriteTorn(g, s, s', u, writes);
    } else if (s', u) == StartPreVote(Waited(s)) {
      KnownNode(g, s);
      RoleHasTerm(s);
      StaysInv(s, Waited(s));
      SameCore(g, s, Waited(s));
      g2, x := TornPreVote(g, Waited(s), writes);
      SameTorn(g, g2, s, Waited(s), x, s', u, writes);
    } else {
      OneWriteTorn(g, s, s', u, writes);
    }
  }

  lemma LeaderTickShape(s: NodeState)
    ensures OneWrite(LeaderTick(s).1)
  {
    hide SendAppends, Ticked, TickTargets, HasQuorum, ActiveVoters, Checked;
  }

  lemma SameCore(g: Proto, s: NodeState, s1: NodeState)
    requires CoreRel(g, s) && SameLog(s, s1) && HardStateOf(s1) == HardStateOf(s)
    ensures CoreRel(g, s1)
  {
  }

  // ---- appended by a follower ---------------------------------------------------

  /** The part of a splice that reached the store: the kept entries and the first `a` new ones. */
  lemma SplicedPart(g: Proto, s: NodeState, m: Message, a: nat) returns (g2: Proto, x: NodeState)
    requires Safe(g) && CoreRel(g, s) && m.Append? && AppendOK(g, m) && m.term == s.term
    requires m.logIndex <= LastIndex(s) && TermAt(s, m.logIndex) == m.logTerm
    requires SpliceOf(s, m.entries).Splice? && a <= |SpliceOf(s, m.entries).added|
    ensures var sp := SpliceOf(s, m.entries);
      Witness(g, g2, s, x, DurableOf(s).(entries := s.log[..sp.keep] + sp.added[..a]))
  {
    hide Safe, TermAt, TermOf, Known, Fold, SpliceOf, Stepped;
    var sp, n := SpliceOf(s, m.entries), s.cfg.id;
    var log, y := g.reigns[m.term].log, g.peers[n].log;
    var k := SplicePoint(g, s, m);
    SpliceWindows(log, y, s.snapshot.index, k, k + a);
    assert sp.added[..a] == log[k..k + a];
    var z := log[..k + a];
    g2 := PartTaken(g, n, k + a);
    x := s.(log := s.log[..sp.keep] + sp.added[..a], membership := Fold(g.start, z).value);
    ReplacedLog(g, g2, s, x, z);
  }

  /** A follower may stop anywhere past where its log parts from its leader's. */
  lemma PartTaken(g: Proto, n: nat, i: nat) returns (g2: Proto)
    requires Safe(g) && n in g.peers && g.peers[n].term in g.reigns
    requires Common(g.reigns[g.peers[n].term].log, g.peers[n].log) <= i <= |g.reigns[g.peers[n].term].log|
    ensures var z := g.reigns[g.peers[n].term].log[..i];
      && Stepped(g, g2, n) && g2.start == g.start && n in g2.peers && g2.peers[n] == g.peers[n].(log := z)
      && g.peers[n].commit <= |z| && Fold(g.start, z).Some?
  {
    hide Safe, Stepped, Known, Fold, Grounded, Common;
    var z := g.reigns[g.peers[n].term].log[..i];
    TakenLog(g, n, i, z);
    TakeKeepsCommit(g, n, i, z);
    TakeSafe(g, n, i, z);
    g2 := Take(g, n, i, z);
  }

  lemma ReplacedLog(g: Proto, g2: Proto, s: NodeState, x: NodeState, z: Log)
    requires CoreRel(g, s) && g2.start == g.start && s.cfg.id in g2.peers
    requires g2.peers[s.cfg.id] == g.peers[s.cfg.id].(log := z)
    requires s.commit <= |z| && z[..s.snapshot.index] == g.peers[s.cfg.id].log[..s.snapshot.index]
    requires x == s.(log := z[s.snapshot.index..], membership := x.membership) && Fold(g.start, z) == Some(x.membership)
    ensures CoreRel(g2, x)
  {
    var b, y := s.snapshot.index, g.peers[s.cfg.id].log;
    if b > 0 { assert z[b - 1] == z[..b][b - 1] == y[..b][b - 1] == y[b - 1]; }
  }

  /** The durable part of a handled append. */
  lemma AppendShape(s: NodeState, m: Message)
    requires m.Append? && Bounded(s)
    ensures var f, u := Follow(s, m.from).0, HandleAppend(s, m).1;
      && u.hardState.None? && u.snapshot.None?
      && ((u.entries == [] && u.truncateFrom == 0)
          || (&& m.logIndex <= LastIndex(f) && TermAt(f, m.logIndex) == m.logTerm && SpliceOf(f, m.entries).Splice?
              && u.truncateFrom == SpliceOf(f, m.entries).truncateFrom && u.entries == SpliceOf(f, m.entries).added))
  {
    hide SpliceOf, ApplySplice, TermAt, RejectHint, EntriesBetween, ResetElectionTimer;
  }

  lemma SpliceTornAt(s: NodeState, sp: Splice, u: Update, writes: nat)
    requires sp.Splice? && sp.keep <= |s.log| && Follows(sp.added, s.snapshot.index + sp.keep)
    requires if sp.truncateFrom == 0 then sp.keep == |s.log| else sp.truncateFrom == s.snapshot.index + sp.keep + 1
    requires u.hardState.None? && u.snapshot.None? && u.truncateFrom == sp.truncateFrom && u.entries == sp.added
    requires writes > 0
    ensures TornAt(DurableOf(s), u, writes)
         == DurableOf(s).(entries := s.log[..sp.keep] + sp.added[..Min(writes - 1, |sp.added|)])
  {
    var d, a := DurableOf(s), Min(writes - 1, |sp.added|);
    var c := d.(entries := s.log[..sp.keep]);
    assert s.log[..|s.log|] == s.log;
    assert Cut(d, u) == Some(c);
    forall i | 0 <= i < a ensures Storable(sp.added[..a][i], LastStored(c) + i + 1) {
      assert Storable(sp.added[i], LastStored(c) + i + 1);
    }
    WrittenExact(c, u.entries[..a]);
  }

  lemma TornAppend(g: Proto, s: NodeState, m: Message, writes: nat) returns (g2: Proto, x: NodeState)
    requires Safe(g) && CoreRel(g, s) && m.Append? && AppendOK(g, m) && m.term == s.term
    requires Inv(s) && Bounded(s) && MalformedFrom(m, 0).None?
    ensures Torn(g, g2, s, x, HandleAppend(s, m).0, HandleAppend(s, m).1, writes)
    ensures HandleAppend(s, m).1.hardState.None?
  {
    hide Transition, Inv, Safe, CoreRel, Stepped, Persisted, HandleAppend, Torn, TermAt, SpliceOf, Follow;
    hide MalformedFrom, AppendOK;
    g2, x := g, s;
    AppendShape(s, m);
    HandleAppendKeeps(s, m);
    AppendFits(s, m);
    var (s', u) := HandleAppend(s, m);
    TransitionPersists(s, s', u);
    if u.entries == [] && u.truncateFrom == 0 {
      OneWriteTorn(g, s, s', u, writes);
    } else {
      FollowOK(g, s, m.from);
      FollowKeeps(s, m.from);
      var f, uf := Follow(s, m.from).0, Follow(s, m.from).1;
      TransitionInv(s, f, uf);
      g2, x := TornSplice(g, f, m, s', u, writes);
      SameTorn(g, g2, s, f, x, s', u, writes);
    }
  }

  lemma TornSplice(g: Proto, s: NodeState, m: Message, s': NodeState, u: Update, writes: nat)
    returns (g2: Proto, x: NodeState)
    requires Safe(g) && CoreRel(g, s) && m.Append? && AppendOK(g, m) && m.term == s.term && Inv(s)
    requires m.logIndex <= LastIndex(s) && TermAt(s, m.logIndex) == m.logTerm && MalformedFrom(m, 0).None?
    requires Bounded(s) && SpliceOf(s, m.entries).Splice? && u.hardState.None? && u.snapshot.None?
    requires u.truncateFrom == SpliceOf(s, m.entries).truncateFrom && u.entries == SpliceOf(s, m.entries).added
    ensures Torn(g, g2, s, x, s', u, writes)
  {
    g2, x := g, s;
    if writes > 0 {
      var sp := SpliceOf(s, m.entries);
      WellFormedEntries(m);
      SpliceShape(s, m.entries, m.logIndex);
      SpliceTornAt(s, sp, u, writes);
      hide Inv, Safe, CoreRel, Stepped, TermAt, SpliceOf, MalformedFrom, AppendOK, TornAt;
      g2, x := SplicedPart(g, s, m, Min(writes - 1, |sp.added|));
    }
  }

  // ---- messages ------------------------------------------------------------------

  /** Counting an acknowledgement writes at most the completion of a joint configuration. */
  lemma CountAckShape(s: NodeState, id: nat, index: nat)
    ensures OneWrite(CountAck(s, id, index).1) && CountAck(s, id, index).1.hardState.None?
  {
    hide BroadcastAppend, AfterCommit, CommitCandidate, EntriesBetween, AppendFinal, Acknowledged;
  }

  lemma ResponseShape(s: NodeState, m: Message)
    requires m.AppendResponse? || m.SnapshotResponse?
    ensures var u := if m.AppendResponse? then HandleAppendResponse(s, m).1 else HandleSnapshotResponse(s, m).1;
      OneWrite(u) && u.hardState.None?
  {
    hide CountAck, AppendMessage, Rejected;
    CountAckShape(s, m.from, m.logIndex);
    CountAckShape(s, m.from, Min(m.logIndex, LastIndex(s)));
  }

  lemma SnapshotShape(s: NodeState, m: Message)
    requires m.InstallSnapshot?
    ensures OneWrite(HandleSnapshot(s, m).1) && HandleSnapshot(s, m).1.hardState.None?
  {
    hide RefusesSnapshot, Installed, Offered, ResetElectionTimer;
  }

  lemma TornVoteResponse(g: Proto, s: NodeState, m: Message, writes: nat) returns (g2: Proto, x: NodeState)
    requires Safe(g) && Rel(g, s) && Inv(s) && Fits(s) && m.VoteResponse? && MessageOK(g, m) && m.to == s.cfg.id
    ensures Torn(g, g2, s, x, HandleVoteResponse(s, m).0, HandleVoteResponse(s, m).1, writes)
    ensures HandleVoteResponse(s, m).1.hardState.None?
  {
    hide Safe, Inv, CoreRel, BecomeLeader, Torn, HasQuorum, VoteLost, Persisted, Granted, Refused, Transition;
    HandleVoteResponseKeeps(s, m);
    KnownNode(g, s);
    VotesFit(s, m);
    var (s', u) := HandleVoteResponse(s, m);
    TransitionPersists(s, s', u);
    var s1 := s.(votes := s.votes[m.from := !m.reject]);
    g2, x := g, s;
    if s.role == Candidate && m.term == s.term && HasQuorum(s1.membership, Granted(s1.votes)) {
      CandidateCounts(g, s, m);
      RoleHasTerm(s);
      StaysInv(s, s1);
      SameCore(g, s, s1);
      hide CandidateRel, MessageOK;
      g2, x := TornLeader(g, s1, writes);
      SameTorn(g, g2, s, s1, x, s', u, writes);
    } else {
      OneWriteTorn(g, s, s', u, writes);
    }
  }

  lemma CandidateCounts(g: Proto, s: NodeState, m: Message)
    requires CandidateRel(g, s) && m.VoteResponse? && MessageOK(g, m) && m.to == s.cfg.id && m.term == s.term
    ensures CandidateRel(g, s.(votes := s.votes[m.from := !m.reject]))
  {
  }

  lemma TornPreVoteResponse(g: Proto, s: NodeState, m: Message, writes: nat) returns (g2: Proto, x: NodeState)
    requires Safe(g) && Rel(g, s) && Inv(s) && Fits(s) && m.PreVoteResponse?
    ensures Torn(g, g2, s, x, HandlePreVoteResponse(s, m).0, HandlePreVoteResponse(s, m).1, writes)
  {
    hide Safe, Inv, StartElection, Torn, HasQuorum, VoteLost, Persisted, CandidateRel, LeaderRel, Granted, Refused;
    hide Transition;
    HandlePreVoteResponseKeeps(s, m);
    KnownNode(g, s);
    VotesFit(s, m);
    var (s', u) := HandlePreVoteResponse(s, m);
    TransitionPersists(s, s', u);
    var granted := !m.reject && m.term == s.term + 1;
    var s1 := s.(votes := s.votes[m.from := granted]);
    g2, x := g, s;
    if (s', u) == StartElection(s1) && s.role == PreCandidate {
      StaysInv(s, s1);
      g2, x := TornElection(g, s1, writes);
      SameTorn(g, g2, s, s1, x, s', u, writes);
    } else {
      OneWriteTorn(g, s, s', u, writes);
    }
  }

  lemma TornDispatch(g: Proto, s: NodeState, m: Message, writes: nat) returns (g2: Proto, x: NodeState)
    requires Safe(g) && Rel(g, s) && Inv(s) && Fits(s) && MessageOK(g, m) && m.to == s.cfg.id
    requires m.PreVote? || m.PreVoteResponse? || m.term == s.term
    requires m.Append? ==> MalformedFrom(m, 0).None?
    ensures Torn(g, g2, s, x, Dispatch(s, m).0, Dispatch(s, m).1, writes)
    ensures !m.PreVoteResponse? && !m.Vote? ==> Dispatch(s, m).1.hardState.None?
    ensures m.Vote? ==> OneWrite(Dispatch(s, m).1) && Dispatch(s, m).1.entries == [] && Dispatch(s, m).1.snapshot.None?
  {
    hide Safe, Inv, Rel, CoreRel, Torn, Transition, Persisted, MessageOK, MalformedFrom;
    hide HandlePreVoteResponse, HandleVoteResponse, HandleAppend, HandleAppendResponse, HandleSnapshot;
    hide HandleSnapshotResponse;
    KnownNode(g, s);
    DispatchKeeps(s, m);
    DispatchFits(s, m);
    var (s', u) := Dispatch(s, m);
    TransitionPersists(s, s', u);
    g2, x := g, s;
    match m
    case PreVote(_, _, _, _, _) => OneWriteTorn(g, s, s', u, writes);
    case PreVoteResponse(_, _, _, _) => g2, x := TornPreVoteResponse(g, s, m, writes);
    case Vote(_, _, _, _, _) => OneWriteTorn(g, s, s', u, writes);
    case VoteResponse(_, _, _, _) => g2, x := TornVoteResponse(g, s, m, writes);
    case Append(_, _, _, _, _, _, _, _) =>
      AppendedMessage(g, m);
      g2, x := TornAppend(g, s, m, writes);
    case AppendResponse(_, _, _, _, _, _, _) =>
      ResponseShape(s, m);
      OneWriteTorn(g, s, s', u, writes);
    case InstallSnapshot(_, _, _, _) =>
      SnapshotShape(s, m);
      OneWriteTorn(g, s, s', u, writes);
    case SnapshotResponse(_, _, _, _, _, _) =>
      ResponseShape(s, m);
      OneWriteTorn(g, s, s', u, writes);
  }

  lemma KnownNode(g: Proto, s: NodeState)
    requires Inv(s) && Rel(g, s)
    ensures Bounded(s) && CoreRel(g, s)
  {
  }

  lemma AppendedMessage(g: Proto, m: Message)
    requires m.Append? && MessageOK(g, m)
    ensures AppendOK(g, m)
  {
  }

  lemma TornNewer(g: Proto, s: NodeState, m: Message, writes: nat) returns (g2: Proto, x: NodeState)
    requires Safe(g) && Rel(g, s) && Inv(s) && Fits(s) && MessageOK(g, m) && m.to == s.cfg.id
    requires m.term > s.term && !m.PreVoteResponse?
    requires m.Append? ==> MalformedFrom(m, 0).None?
    ensures Torn(g, g2, s, x, DispatchNewer(s, m).0, DispatchNewer(s, m).1, writes)
  {
    hide Safe, Inv, Rel, CoreRel, Torn, Transition, Persisted, MessageOK, MalformedFrom, Dispatch, Stepped;
    KnownNode(g, s);
    DispatchNewerKeeps(s, m);
    var (s', u) := DispatchNewer(s, m);
    var g1 := BecomeFollowerOK(g, s, m.term, 0);
    BecomeFollowerKeeps(s, m.term, 0);
    var (s1, u1) := BecomeFollower(s, m.term, 0);
    TransitionInv(s, s1, u1);
    DispatchFits(s1, m);
    assert u.entries == Dispatch(s1, m).1.entries;
    TransitionPersists(s, s', u);
    SteppedExtends(g, g1, s.cfg.id);
    MessageKept(g, g1, m);
    g2, x := TornDispatch(g1, s1, m, writes);
    if m.Vote? {
      g2, x := g, s;
      OneWriteTorn(g, s, s', u, writes);
    } else {
      assert CoreRel(g1, s1) by { RelCore(g1, s1); }
      g2, x := HardFirst(g, g1, g2, s, s1, x, s', u1, Dispatch(s1, m).1, writes);
    }
  }

  lemma SteppedExtends(g: Proto, g': Proto, n: nat)
    requires Stepped(g, g', n)
    ensures Extends(g, g') && Safe(g')
  {
  }

  lemma RelCore(g: Proto, s: NodeState)
    requires Rel(g, s)
    ensures CoreRel(g, s)
  {
  }

  /** Whatever part of handling a message reached the store. */
  lemma TornStep(g: Proto, s: NodeState, m: Message, writes: nat) returns (g2: Proto, x: NodeState)
    requires Safe(g) && Rel(g, s) && Inv(s) && Fits(s) && MessageOK(g, m) && m.to == s.cfg.id
    ensures Torn(g, g2, s, x, Step(s, m).0, Step(s, m).1, writes)
  {
    hide Safe, Inv, Rel, CoreRel, Torn, Transition, Persisted, MessageOK, MalformedFrom, Dispatch;
    hide DispatchNewer, Stepped;
    KnownNode(g, s);
    StepKeeps(s, m);
    StepFits(s, m);
    var (s', u) := Step(s, m);
    TransitionPersists(s, s', u);
    g2, x := g, s;
    if Dropped(s, m) || (!m.PreVote? && !m.PreVoteResponse? && m.term < s.term) {
      OneWriteTorn(g, s, s', u, writes);
    } else if m.PreVote? || m.PreVoteResponse? || m.term == s.term {
      g2, x := TornDispatch(g, s, m, writes);
    } else {
      g2, x := TornNewer(g, s, m, writes);
    }
  }

  // ---- proposals -----------------------------------------------------------------

  lemma BatchPart(g: Proto, s: NodeState, entries: seq<Entry>, a: nat) returns (g2: Proto, x: NodeState)
    requires Safe(g) && Rel(g, s) && s.role == Leader && IsBatch(entries, LastIndex(s), s.term) && a <= |entries|
    ensures Witness(g, g2, s, x, DurableOf(s).(entries := s.log + entries[..a]))
  {
    hide Safe, Stepped;
    x := s.(log := s.log + entries[..a]);
    g2 := ExtendMany(g, s, entries[..a]);
  }

  lemma TornPropose(g: Proto, s: NodeState, commands: seq<Bytes>, writes: nat) returns (g2: Proto, x: NodeState)
    requires Safe(g) && Rel(g, s) && Inv(s) && Fits(s)
    ensures var r := ProposeBatch(s, commands); r.Proposed? ==> Torn(g, g2, s, x, r.state, r.update, writes)
  {
    hide Safe, Inv, Rel, Torn, Transition, Persisted, Publish, BatchEntries, Witness, IsBatch;
    ProposeBatchKeeps(s, commands);
    BatchProposalFits(s, commands);
    var r := ProposeBatch(s, commands);
    g2, x := g, s;
    if r.Proposed? {
      var s', u := r.state, r.update;
      TransitionPersists(s, s', u);
      var entries := BatchEntries(LastIndex(s), s.term, commands).0;
      if entries == [] {
        OneWriteTorn(g, s, s', u, writes);
      } else {
        var s1 := s.(log := s.log + entries);
        var s2 := s1.(progress := Matched(s1.progress, s.cfg.id, LastIndex(s1)));
        PublishedShape(s2, NO_EFFECT.(entries := entries), true);
        if 0 < writes - 1 <= |entries| { g2, x := BatchPart(g, s, entries, writes - 1); }
        LeaderTorn(g, g2, s, x, s', u, entries, writes);
      }
    }
  }

  /** A joint entry the store takes, and the completion that may follow at once. */
  lemma TornJoint(g: Proto, s: NodeState, newVoters: seq<nat>, s': NodeState, u: Update, writes: nat)
    returns (g2: Proto, x: NodeState)
    requires Safe(g) && Rel(g, s) && s.role == Leader && s.membership.joint == [] && s.membership.index <= s.commit
    requires Normalize(newVoters) == Some(newVoters) && BeginChange(s, newVoters) == Some((s', u))
    requires Persisted(DurableOf(s), u) == Some(DurableOf(s'))
    ensures Torn(g, g2, s, x, s', u, writes)
  {
    hide Safe, Rel, Torn, Persisted, Publish, Tracked, Normalize, Rebuilt, Stepped;
    g2 := SimulateInputs.JointAppended(g, s, newVoters);
    var e := JointEntry(s, newVoters);
    var s1 := s.(log := s.log + [e]);
    x := Tracked(s1.(membership := Rebuilt(s1).value), e.index);
    PublishedShape(x, NO_EFFECT.(entries := [e]), false);
    RelCore(g2, x);
    TrackedSame(s1.(membership := Rebuilt(s1).value), e.index);
    assert writes == 2 ==> [e][..1] == [e];
    LeaderTorn(g, g2, s, x, s', u, [e], writes);
  }

  lemma TrackedSame(s: NodeState, index: nat)
    ensures Tracked(s, index) == s.(progress := Tracked(s, index).progress)
  {
  }

  /** A joint entry the store refuses leaves no trace. */
  lemma RefusedTorn(d: Durable, u: Update, writes: nat)
    requires u.hardState.None? && u.snapshot.None? && u.truncateFrom == 0 && u.entries != []
    requires DataBytes(u.entries[0].payload) > MAX_ENTRY_BYTES
    ensures TornAt(d, u, writes) == d
  {
    if writes > 0 { assert writes == 1 ==> u.entries[..0] == []; }
  }

  lemma TornReconfigure(g: Proto, s: NodeState, voters: seq<nat>, writes: nat) returns (g2: Proto, x: NodeState)
    requires Safe(g) && Rel(g, s) && Inv(s) && Fits(s)
    ensures var r := ProposeMembership(s, voters); r.Proposed? ==>
      && Torn(g, g2, s, x, r.state, r.update, writes)
      && (OversizeChange(s, voters) ==> TornAt(DurableOf(s), r.update, writes) == DurableOf(s))
  {
    hide Safe, Inv, Rel, Transition, Persisted, Publish, Normalize, Rebuilt, Tracked, Witness, TornAt;
    var r := ProposeMembership(s, voters);
    g2, x := g, s;
    if r.Proposed? {
      var s', u := r.state, r.update;
      var newVoters := Normalize(voters).value;
      if OversizeChange(s, voters) {
        var e := JointEntry(s, newVoters);
        var s1 := s.(log := s.log + [e]);
        PublishedShape(Tracked(s1.(membership := Rebuilt(s1).value), e.index), NO_EFFECT.(entries := [e]), false);
        assert u.entries[0] == e;
        RefusedTorn(DurableOf(s), u, writes);
      } else {
        ProposeMembershipKeeps(s, voters);
        ChangeFits(s, voters);
        TransitionPersists(s, s', u);
        if newVoters == s.membership.voters {
          OneWriteTorn(g, s, s', u, writes);
        } else {
          NormalizeExact(voters);
          g2, x := TornJoint(g, s, newVoters, s', u, writes);
        }
      }
    }
  }
}
