/** How much a leader keeps in flight to a silent peer, and how large each append is. */
module InFlight {
  import opened RaftTypes
  import opened Voters
  import opened RaftCore
  import opened Stable
  import opened NodeInvariant
  import opened NodeTransitions
  import opened NodeInputs
  import opened Replication
  import opened NodeRuns

  // ---- chunks ----------------------------------------------------------

  function TotalBytes(entries: seq<Entry>): nat {
    if entries == [] then 0 else TotalBytes(entries[..|entries| - 1]) + AccountedBytes(entries[|entries| - 1])
  }

  lemma {:induction false} TotalFront(entries: seq<Entry>)
    requires entries != []
    ensures TotalBytes(entries) == AccountedBytes(entries[0]) + TotalBytes(entries[1..])
  {
    var n := |entries| - 1;
    if n > 0 {
      TotalFront(entries[..n]);
      assert entries[..n][1..] == entries[1..][..n - 1];
    }
  }

  lemma {:induction false} FittingExact(entries: seq<Entry>, size: nat, limit: nat, first: bool)
    ensures var n := FittingCount(entries, size, limit, first);
      && (n == 0 || size + TotalBytes(entries[..n]) <= limit || (first && n == 1))
      && (n < |entries| ==> size + TotalBytes(entries[..n + 1]) > limit)
  {
    var n := FittingCount(entries, size, limit, first);
    if entries != [] && (first || size + AccountedBytes(entries[0]) <= limit) {
      FittingExact(entries[1..], size + AccountedBytes(entries[0]), limit, false);
      assert entries[..n][1..] == entries[1..][..n - 1];
      TotalFront(entries[..n]);
      if n < |entries| {
        assert entries[..n + 1][1..] == entries[1..][..n];
        TotalFront(entries[..n + 1]);
      }
    } else if entries != [] {
      assert entries[..1] == [entries[0]];
      TotalFront(entries[..1]);
    }
  }

  /** Each chunk is the run of entries from `from`, at least one, within the cap unless it is a
      single entry, and no longer run would have been. */
  lemma ChunkIsLongest(s: NodeState, from: nat)
    requires s.snapshot.index < from <= LastIndex(s)
    ensures
      var c := CappedEntries(s, from);
      var rest := s.log[from - s.snapshot.index - 1..];
      var limit := AppendLimit(s.cfg);
      && 0 < |c| <= |rest| && c == rest[..|c|]
      && (TotalBytes(c) <= limit || |c| == 1)
      && (|c| < |rest| ==> TotalBytes(rest[..|c| + 1]) > limit)
  {
    var rest := s.log[from - s.snapshot.index - 1..];
    FittingExact(rest, 0, AppendLimit(s.cfg), true);
  }

  // ---- one peer's appends ----------------------------------------------

  predicate Carries(m: RaftTypes.Message, p: nat) { m.Append? && m.to == p && m.entries != [] }

  /** How many messages carry entries to p. */
  function Carried(messages: seq<RaftTypes.Message>, p: nat): nat {
    if messages == [] then 0
    else Carried(messages[..|messages| - 1], p) + (if Carries(messages[|messages| - 1], p) then 1 else 0)
  }

  lemma {:induction false} CarriedConcat(a: seq<RaftTypes.Message>, b: seq<RaftTypes.Message>, p: nat)
    ensures Carried(a + b, p) == Carried(a, p) + Carried(b, p)
  {
    if b == [] {
      assert a + b == a;
    } else {
      var n := |b| - 1;
      CarriedConcat(a, b[..n], p);
      assert (a + b)[..|a + b| - 1] == a + b[..n];
    }
  }

  /** What is in flight to p and for how long. */
  datatype Flight = Flight(last: nat, age: nat)

  function FlightTo(s: NodeState, p: nat): Flight {
    Flight(Get(s.progress.outstanding, p), Get(s.progress.outstandingAge, p))
  }

  /** Nothing was sent and nothing changed, or one append left and became the one in flight. */
  predicate Sends(a: Flight, b: Flight, sent: nat) {
    (sent == 0 && b == a) || (sent == 1 && a.last == 0 && b.last != 0 && b.age == 0)
  }

  lemma AppendMessageSends(s: NodeState, peer: nat, context: nat, p: nat)
    requires InSequence(s.log, s.snapshot.index)
    ensures var (s', m) := AppendMessage(s, peer, context); Sends(FlightTo(s, p), FlightTo(s', p), Carried([m], p))
  {
    var (s', m) := AppendMessage(s, peer, context);
    assert [m][..0] == [];
    assert Carried([m], p) == if Carries(m, p) then 1 else 0;
    if m.Append? && m.entries != [] {
      var next := if Get(s.progress.nextIndex, peer) == 0 then LastIndex(s) + 1 else Get(s.progress.nextIndex, peer);
      ChunkIsLongest(s, next);
      assert m.entries[|m.entries| - 1] in s.log;
    }
  }

  lemma {:induction false} SendAppendsSends(s: NodeState, peers: seq<nat>, context: nat, proposal: bool, p: nat)
    requires InSequence(s.log, s.snapshot.index)
    ensures var (s', messages) := SendAppends(s, peers, context, proposal);
      Sends(FlightTo(s, p), FlightTo(s', p), Carried(messages, p))
  {
    if peers != [] {
      var n := |peers| - 1;
      SendAppendsSends(s, peers[..n], context, proposal, p);
      SendAppendsSame(s, peers[..n], context, proposal);
      hide AppendMessage, Follows;
      var (s1, sent) := SendAppends(s, peers[..n], context, proposal);
      AppendMessageSends(s1, peers[n], context, p);
      CarriedConcat(sent, [AppendMessage(s1, peers[n], context).1], p);
    }
  }

  lemma AfterCommitFlight(s: NodeState, c: nat, p: nat)
    ensures FlightTo(AfterCommit(s, c), p) == FlightTo(s, p)
  {
    hide Rebuilt;
  }

  lemma MaybeCommitSends(s: NodeState, p: nat)
    requires Inv(s) && s.role == Leader
    ensures var (s', u) := MaybeCommit(s); Sends(FlightTo(s, p), FlightTo(s', p), Carried(u.messages, p))
  {
    InvBounds(s);
    hide Inv, CommitCandidate, AfterCommit, AppendedByCommit, ReplicationPeers, EntriesBetween, IsVoter, Transition;
    var c := CommitCandidate(s, LastIndex(s));
    if c > s.commit {
      AfterCommitKeeps(s, c);
      var u := NO_EFFECT.(committed := EntriesBetween(s, s.commit + 1, c + 1), entries := AppendedByCommit(s, c));
      TransitionInv(s, AfterCommit(s, c), u);
      InvInSequence(AfterCommit(s, c));
      AfterCommitFlight(s, c, p);
      SendAppendsSends(AfterCommit(s, c), ReplicationPeers(AfterCommit(s, c)), 0, false, p);
      var messages := BroadcastAppend(AfterCommit(s, c), false).1;
      assert messages + [] == messages;
    }
  }

  lemma InvInSequence(s: NodeState)
    requires Inv(s)
    ensures InSequence(s.log, s.snapshot.index)
  {
  }

  lemma SendsTwice(a: Flight, b: Flight, c: Flight, m: seq<RaftTypes.Message>, o: seq<RaftTypes.Message>, p: nat)
    requires Sends(a, b, Carried(m, p)) && Sends(b, c, Carried(o, p))
    ensures Sends(a, c, Carried(m + o, p))
  {
    CarriedConcat(m, o, p);
  }

  lemma PublishSends(s: NodeState, first: Update, proposal: bool, p: nat)
    requires Inv(s) && s.role == Leader
    ensures var (s', u) := Publish(s, first, proposal); Sends(FlightTo(s, p), FlightTo(s', p), Carried(u.messages, p))
  {
    InvInSequence(s);
    BroadcastKeeps(s, proposal);
    hide Inv, MaybeCommit, ReplicationPeers, SendAppends;
    SendAppendsSends(s, ReplicationPeers(s), 0, proposal, p);
    var (s1, messages) := BroadcastAppend(s, proposal);
    MaybeCommitSends(s1, p);
    var (s2, o) := MaybeCommit(s1);
    SendsTwice(FlightTo(s, p), FlightTo(s1, p), FlightTo(s2, p), messages, o.messages, p);
  }

  // ---- one input -------------------------------------------------------

  ghost predicate Sent(s: NodeState, r: (NodeState, Update), p: nat) {
    Sends(FlightTo(s, p), FlightTo(r.0, p), Carried(r.1.messages, p))
  }

  lemma OneQuiet(m: RaftTypes.Message, p: nat)
    requires !m.Append?
    ensures Carried([m], p) == 0
  {
    assert [m][..0] == [];
  }

  lemma FollowUpSends(s0: NodeState, s: NodeState, u: Update, id: nat, context: nat, p: nat)
    requires Sent(s0, (s, u), p) && InSequence(s.log, s.snapshot.index)
    ensures Sent(s0, FollowUp(s, u, id, context), p)
  {
    hide AppendMessage, Follows;
    AppendMessageSends(s, id, context, p);
    var (s', m) := AppendMessage(s, id, context);
    SendsTwice(FlightTo(s0, p), FlightTo(s, p), FlightTo(s', p), u.messages, [m], p);
  }

  /** A response from another peer does not touch what is in flight to p. */
  lemma OthersFlight(s: NodeState, q: nat, m: RaftTypes.Message, index: nat, p: nat)
    requires p != q
    ensures FlightTo(MarkActive(s, q), p) == FlightTo(s, p)
    ensures m.AppendResponse? && m.from == q ==> FlightTo(Rejected(s, m), p) == FlightTo(s, p)
    ensures FlightTo(Acknowledged(s, q, index), p) == FlightTo(s, p) && FlightTo(Idled(s, q), p) == FlightTo(s, p)
  {
  }

  lemma CountAckSends(s: NodeState, q: nat, index: nat, p: nat)
    requires Inv(s) && s.role == Leader && p != q
    ensures Sent(s, CountAck(s, q, index), p) && Inv(CountAck(s, q, index).0)
  {
    var s1 := Acknowledged(MarkActive(s, q), q, index);
    RoleHasTerm(s);
    StaysInv(s, s1);
    OthersFlight(s, q, PreVote(0, 0, 0, 0, 0), 0, p);
    OthersFlight(MarkActive(s, q), q, PreVote(0, 0, 0, 0, 0), index, p);
    CountAckKeeps(s, q, index);
    hide Inv, Transition, MaybeCommit, Acknowledged;
    TransitionInv(s, CountAck(s, q, index).0, CountAck(s, q, index).1);
    MaybeCommitSends(s1, p);
  }

  lemma ResponseSends(s: NodeState, m: RaftTypes.Message, p: nat)
    requires Inv(s) && s.role == Leader && m.term == s.term && m.from != p
    ensures m.AppendResponse? ==> Sent(s, HandleAppendResponse(s, m), p)
    ensures m.SnapshotResponse? ==> Sent(s, HandleSnapshotResponse(s, m), p)
  {
    var q := m.from;
    InvInSequence(s);
    OthersFlight(s, q, m, 0, p);
    OthersFlight(MarkActive(s, q), q, m, 0, p);
    hide Inv, FollowUp, CountAck, Follows;
    if m.AppendResponse? {
      if m.reject {
        FollowUpSends(s, Rejected(MarkActive(s, q), m), NO_EFFECT, q, m.context, p);
      } else {
        CountAckSends(s, q, m.logIndex, p);
        var (s1, u) := CountAck(s, q, m.logIndex);
        InvInSequence(s1);
        FollowUpSends(s, s1, u, q, m.context, p);
      }
    } else if m.SnapshotResponse? {
      if m.reject {
        FollowUpSends(s, Idled(MarkActive(s, q), q), NO_EFFECT, q, 0, p);
      } else {
        CountAckSends(s, q, Min(m.logIndex, LastIndex(s)), p);
        var (s1, u) := CountAck(s, q, Min(m.logIndex, LastIndex(s)));
        InvInSequence(s1);
        FollowUpSends(s, s1, u, q, 0, p);
      }
    }
  }

  lemma VoteSends(s: NodeState, m: RaftTypes.Message, p: nat)
    requires s.role == Leader && (m.PreVote? || m.PreVoteResponse? || m.Vote? || m.VoteResponse?) && Bounded(s)
    requires Dispatch(s, m).0.role == Leader
    ensures Sent(s, Dispatch(s, m), p)
  {
    hide HasQuorum, StartElection, ResetElectionTimer, IsUpToDate, IsVoter;
    if m.PreVote? { OneQuiet(HandlePreVote(s, m), p); }
    if m.Vote? { OneQuiet(VoteResponse(s.cfg.id, m.from, s.term, !GrantsVote(s, m)), p); }
  }

  lemma DispatchSends(s: NodeState, m: RaftTypes.Message, p: nat)
    requires Inv(s) && Bounded(s) && s.role == Leader && (m.Append? ==> MalformedFrom(m, 0).None?)
    requires m.from != p && (m.PreVote? || m.PreVoteResponse? || m.term == s.term)
    requires Dispatch(s, m).0.role == Leader
    ensures Sent(s, Dispatch(s, m), p)
  {
    if m.AppendResponse? || m.SnapshotResponse? {
      ResponseSends(s, m, p);
      hide HandleAppendResponse, HandleSnapshotResponse;
    } else if m.Append? || m.InstallSnapshot? {
      FollowerStays(s, m);
      LeaderRefuses(s, m, p);
    } else {
      VoteSends(s, m, p);
    }
  }

  /** A leader that stays one after an append or snapshot of its own term did nothing. */
  lemma LeaderRefuses(s: NodeState, m: RaftTypes.Message, p: nat)
    requires s.role == Leader && Bounded(s) && (m.Append? || m.InstallSnapshot?)
    requires Dispatch(s, m).0.role == Follower || Dispatch(s, m).0 == s
    ensures Dispatch(s, m).0.role == Leader ==> Sent(s, Dispatch(s, m), p)
  {
    hide TakeEntries, AnswerSnapshot, ResetElectionTimer, RejectHint, TermAt;
    if m.InstallSnapshot? && (m.snapshot.None? || m.snapshot.value.index == 0 || m.snapshot.value.term == 0) {
      OneQuiet(RejectSnapshot(s, m.from), p);
    } else if m.InstallSnapshot? {
      FollowedRole(s, m.from);
      AnswerRole(Follow(s, m.from).0, m.from, Offered(Follow(s, m.from).0, m.snapshot.value));
    } else {
      FollowedRole(s, m.from);
      TakeEntriesRole(Follow(s, m.from).0, m, Follow(s, m.from).1);
    }
  }

  lemma FollowedRole(s: NodeState, leader: nat)
    ensures Follow(s, leader).0.role == Follower && Bounded(s) ==> Bounded(Follow(s, leader).0)
    ensures Follow(s, leader).0.role == Follower
  {
  }

  lemma AnswerRole(s: NodeState, from: nat, snap: Snapshot)
    ensures AnswerSnapshot(s, from, snap).0.role == s.role
  {
    hide Rebuilt, Validated, TermAt;
  }

  lemma TakeEntriesRole(s: NodeState, m: RaftTypes.Message, u: Update)
    requires m.Append? && s.snapshot.index <= s.commit
    ensures TakeEntries(s, m, u).0.role == s.role
  {
    hide SpliceOf, Rebuilt, EntriesBetween;
  }

  lemma StepSends(s: NodeState, m: RaftTypes.Message, p: nat)
    requires Inv(s) && Bounded(s) && s.role == Leader && m.from != p && Step(s, m).0.role == Leader
    ensures Sent(s, Step(s, m), p)
  {
    hide Inv, Dispatch, ReplicationPeers, MalformedFrom, InLease, BecomeFollower;
    if Dropped(s, m) {
    } else if m.PreVote? || m.PreVoteResponse? || m.term == s.term {
      DispatchSends(s, m, p);
    } else if m.term < s.term {
      OneQuiet(RejectStale(s, m), p);
    } else {
      BecomeFollowerKeeps(s, m.term, 0);
      var (s1, u1) := BecomeFollower(s, m.term, 0);
      hide Transition;
      TransitionInv(s, s1, u1);
      DispatchKeeps(s1, m);
    }
  }

  /** Any input but a tick or a message from p. */
  lemma SilentSends(s: NodeState, i: Input, p: nat)
    requires Inv(s) && Bounded(s) && s.role == Leader && React(s, i).0.role == Leader
    requires !i.Elapsed? && (i.Message? ==> i.message.from != p)
    ensures Sent(s, React(s, i), p)
  {
    InvInSequence(s);
    hide Inv, Step, ProposeBatch, ProposeMembership, ReadProbe, CreateSnapshot, Follows;
    match i
    case Message(m) => StepSends(s, m, p);
    case Commands(commands) => ProposeSends(s, commands, p);
    case NewVoters(voters) => ReconfigureSends(s, voters, p);
    case ReadContext(context) => ReadSends(s, context, p);
    case Snapshotted(index, data) => SnapshotSends(s, index, data, p);
  }

  lemma ProposeSends(s: NodeState, commands: seq<Bytes>, p: nat)
    requires Inv(s) && s.role == Leader
    ensures var r := ProposeBatch(s, commands); r.Proposed? ==> Sent(s, (r.state, r.update), p)
  {
    var entries := BatchEntries(LastIndex(s), s.term, commands).0;
    if entries != [] {
      BatchAppended(s, commands);
      hide Inv, Publish, BatchEntries;
      var s1 := s.(log := s.log + entries);
      var s2 := s1.(progress := Matched(s1.progress, s.cfg.id, LastIndex(s1)));
      PublishSends(s2, NO_EFFECT.(entries := entries), true, p);
    }
  }

  lemma ReconfigureSends(s: NodeState, voters: seq<nat>, p: nat)
    requires Inv(s) && s.role == Leader
    ensures var r := ProposeMembership(s, voters); r.Proposed? ==> Sent(s, (r.state, r.update), p)
  {
    RoleHasTerm(s);
    hide Publish, Rebuilt, Normalize, Inv, Transition, StartTracking;
    var r := ProposeMembership(s, voters);
    if r.Proposed? && Normalize(voters).value != s.membership.voters {
      var joint := JointEntry(s, Normalize(voters).value);
      assert joint.index == LastIndex(s) + 1 && joint.term == s.term;
      var s1 := s.(log := s.log + [joint]);
      JointAppended(s, joint);
      var s2 := Tracked(s1.(membership := Rebuilt(s1).value), joint.index);
      TransitionInv(s, s2, NO_EFFECT.(entries := [joint]));
      PublishSends(s2, NO_EFFECT.(entries := [joint]), false, p);
    }
  }

  lemma ReadSends(s: NodeState, context: nat, p: nat)
    requires InSequence(s.log, s.snapshot.index)
    ensures var r := ReadProbe(s, context); r.Probed? ==> Sent(s, (r.state, r.update), p)
  {
    hide SendAppends, Peers, Follows;
    SendAppendsSends(s, Peers(s), context, false, p);
  }

  lemma SnapshotSends(s: NodeState, index: nat, data: Image, p: nat)
    ensures var r := CreateSnapshot(s, index, data); r.Some? ==> Sent(s, r.value, p)
  {
    hide MembershipAt, Rebuilt, TermAt, EntriesBetween;
  }

  // ---- a tick ----------------------------------------------------------

  /** What aging one tick does to the append in flight to p. */
  function Aged(f: Flight, limit: nat): Flight {
    if f.last == 0 then f else if f.age + 1 >= limit then Flight(0, f.age + 1) else Flight(f.last, f.age + 1)
  }

  lemma {:induction false} ExpireFlight(s: NodeState, peers: seq<nat>, limit: nat, p: nat)
    requires StrictlySorted(peers)
    ensures FlightTo(s.(progress := ExpireOutstanding(s.progress, peers, limit).0), p)
         == if p in peers then Aged(FlightTo(s, p), limit) else FlightTo(s, p)
  {
    if peers != [] {
      var n := |peers| - 1;
      ExpireFlight(s, peers[..n], limit, p);
      assert forall x :: x in peers[..n] ==> x < peers[n];
      assert p in peers <==> p in peers[..n] || p == peers[n];
    }
  }

  lemma ReplicationSorted(s: NodeState)
    ensures StrictlySorted(ReplicationPeers(s))
  {
    hide MembershipAt;
  }

  /** A leader's tick: the append in flight ages, and only a free slot is filled. */
  lemma TickSends(s: NodeState, p: nat)
    requires Inv(s) && s.role == Leader
    ensures var (s', u) := Tick(s); var f := FlightTo(s, p);
      exists f1 :: (f1 == f || f1 == Aged(f, ResendLimit(s.cfg))) && Sends(f1, FlightTo(s', p), Carried(u.messages, p))
  {
    ReplicationSorted(s);
    ExpireFlight(s, ReplicationPeers(s), ResendLimit(s.cfg), p);
    InvInSequence(s);
    hide Inv, ReplicationPeers, ExpireOutstanding, SendAppends, Follows, CheckQuorum, ResendLimit;
    assert FlightTo(Ticked(s), p) ==
      FlightTo(s.(progress := ExpireOutstanding(s.progress, ReplicationPeers(s), ResendLimit(s.cfg)).0), p);
    SendAppendsSends(Ticked(s), TickTargets(s), 0, false, p);
    var (s1, messages) := SendAppends(Ticked(s), TickTargets(s), 0, false);
    CheckQuorumFlight(s1, messages, p);
    var f1 := FlightTo(Ticked(s), p);
    assert Sends(f1, FlightTo(Tick(s).0, p), Carried(Tick(s).1.messages, p));
  }

  lemma CheckQuorumFlight(s: NodeState, messages: seq<RaftTypes.Message>, p: nat)
    ensures var (s', u) := CheckQuorum(s, messages); FlightTo(s', p) == FlightTo(s, p) && u.messages == messages
  {
    hide HasQuorum, ActiveVoters, Peers, ResetElectionTimer;
    assert messages + [] == messages;
  }

  // ---- a silent stretch of one leadership ------------------------------

  function Ticks(inputs: seq<Input>): nat {
    if inputs == [] then 0 else Ticks(inputs[..|inputs| - 1]) + (if inputs[|inputs| - 1].Elapsed? then 1 else 0)
  }

  function Copies(updates: seq<Update>, p: nat): nat {
    if updates == [] then 0 else Copies(updates[..|updates| - 1], p) + Carried(updates[|updates| - 1].messages, p)
  }

  /** copies appends, the last still in flight or already given up, took this many ticks. */
  predicate Paced(copies: nat, f: Flight, ticks: nat, limit: nat) {
    || copies == 0
    || (f.last != 0 && (copies - 1) * limit + f.age <= ticks)
    || (f.last == 0 && copies * limit <= ticks)
  }

  lemma PacedSend(copies: nat, a: Flight, b: Flight, sent: nat, ticks: nat, limit: nat)
    requires Paced(copies, a, ticks, limit) && Sends(a, b, sent)
    ensures Paced(copies + sent, b, ticks, limit)
  {
  }

  lemma PacedTick(copies: nat, a: Flight, ticks: nat, limit: nat)
    requires Paced(copies, a, ticks, limit)
    ensures Paced(copies, a, ticks + 1, limit) && Paced(copies, Aged(a, limit), ticks + 1, limit)
  {
    if copies > 0 { assert copies * limit == (copies - 1) * limit + limit; }
  }

  lemma PacedReact(s: NodeState, i: Input, p: nat, copies: nat, ticks: nat)
    requires Inv(s) && Bounded(s) && s.role == Leader && React(s, i).0.role == Leader
    requires i.Message? ==> i.message.from != p
    requires Paced(copies, FlightTo(s, p), ticks, ResendLimit(s.cfg))
    ensures var (s', u) := React(s, i);
      Paced(copies + Carried(u.messages, p), FlightTo(s', p), ticks + (if i.Elapsed? then 1 else 0), ResendLimit(s.cfg))
  {
    hide Inv, Tick, Step, ProposeBatch, ProposeMembership, ReadProbe, CreateSnapshot, ResendLimit, Paced, Sends, Aged;
    hide Carried;
    var f, limit := FlightTo(s, p), ResendLimit(s.cfg);
    var (s', u) := React(s, i);
    if i.Elapsed? {
      TickSends(s, p);
      var f1 :| (f1 == f || f1 == Aged(f, limit)) && Sends(f1, FlightTo(s', p), Carried(u.messages, p));
      PacedTick(copies, f, ticks, limit);
      PacedSend(copies, f1, FlightTo(s', p), Carried(u.messages, p), ticks + 1, limit);
    } else {
      SilentSends(s, i, p);
      PacedSend(copies, f, FlightTo(s', p), Carried(u.messages, p), ticks, limit);
    }
  }

  lemma PacedStep(states: seq<NodeState>, inputs: seq<Input>, updates: seq<Update>, k: nat, p: nat, copies: nat,
                  ticks: nat)
    requires Trace(states, inputs, updates) && k + 1 < |states| && Inv(states[k]) && OneReign(states)
    requires inputs[k].Message? ==> inputs[k].message.from != p
    requires Paced(copies, FlightTo(states[k], p), ticks, ResendLimit(states[k].cfg))
    ensures Paced(copies + Carried(updates[k].messages, p), FlightTo(states[k + 1], p),
                  ticks + (if inputs[k].Elapsed? then 1 else 0), ResendLimit(states[k].cfg))
  {
    hide Inv, React, ResendLimit, Paced, Carried;
    assert StepAt(states, inputs, updates, k);
    assert states[k + 1].role == Leader && states[k].role == Leader;
    PacedReact(states[k], inputs[k], p, copies, ticks);
  }

  lemma {:induction false} PacedRun(states: seq<NodeState>, inputs: seq<Input>, updates: seq<Update>, p: nat, k: nat)
    requires Trace(states, inputs, updates) && InOrder(states[0]) && OneReign(states) && k < |states|
    requires forall j :: 0 <= j < |inputs| && inputs[j].Message? ==> inputs[j].message.from != p
    ensures Paced(Copies(updates[..k], p), FlightTo(states[k], p), Ticks(inputs[..k]), ResendLimit(states[0].cfg))
    decreases k
  {
    hide Trace, Paced, InOrder, Inv, OneReign, ResendLimit, Copies, Ticks, Carried, FlightTo;
    if k == 0 {
      PacedStart(inputs, updates, p, FlightTo(states[0], p), ResendLimit(states[0].cfg));
    } else {
      PacedRun(states, inputs, updates, p, k - 1);
      AlwaysInOrder(states, inputs, updates, k - 1);
      InOrderInv(states[k - 1]);
      TraceLengths(states, inputs, updates);
      PacedStep(states, inputs, updates, k - 1, p, Copies(updates[..k - 1], p), Ticks(inputs[..k - 1]));
      CountsNext(inputs, updates, k - 1, p);
    }
  }

  lemma PacedStart(inputs: seq<Input>, updates: seq<Update>, p: nat, f: Flight, limit: nat)
    ensures Paced(Copies(updates[..0], p), f, Ticks(inputs[..0]), limit)
  {
  }

  lemma CountsNext(inputs: seq<Input>, updates: seq<Update>, k: nat, p: nat)
    requires k < |inputs| && k < |updates|
    ensures Copies(updates[..k + 1], p) == Copies(updates[..k], p) + Carried(updates[k].messages, p)
    ensures Ticks(inputs[..k + 1]) == Ticks(inputs[..k]) + (if inputs[k].Elapsed? then 1 else 0)
  {
    assert updates[..k + 1][..k] == updates[..k] && inputs[..k + 1][..k] == inputs[..k];
  }

  /** In any stretch of one leadership without a message from p, each entry-carrying append to p
      after the first waits a full resend timeout. */
  lemma SilentPeerBound(states: seq<NodeState>, inputs: seq<Input>, updates: seq<Update>, p: nat)
    requires Trace(states, inputs, updates) && InOrder(states[0]) && OneReign(states)
    requires forall j :: 0 <= j < |inputs| && inputs[j].Message? ==> inputs[j].message.from != p
    ensures var copies, limit := Copies(updates, p), ResendLimit(states[0].cfg);
      limit > 0 && (copies > 0 ==> (copies - 1) * limit <= Ticks(inputs))
  {
    hide Trace, InOrder, Paced, Copies, Ticks, Carried;
    TraceLengths(states, inputs, updates);
    PacedRun(states, inputs, updates, p, |inputs|);
    assert updates[..|inputs|] == updates && inputs[..|inputs|] == inputs;
    PacedEnd(Copies(updates, p), FlightTo(states[|inputs|], p), Ticks(inputs), ResendLimit(states[0].cfg));
  }

  lemma PacedEnd(copies: nat, f: Flight, ticks: nat, limit: nat)
    requires Paced(copies, f, ticks, limit)
    ensures copies > 0 ==> (copies - 1) * limit <= ticks
  {
    if copies > 0 { assert copies * limit == (copies - 1) * limit + limit; }
  }
}
