/** The consensus node as the object it is: fields updated in place, loops over peers and entries.
    Each method is proved to compute the RaftCore function of the same name. */
module RaftNode {
  import opened RaftTypes
  import opened Voters
  import opened RaftCore
  import opened Stable
  import opened NodeInvariant
  import opened NodeTransitions
  import opened NodeInputs
  import opened NodeSizes

  /** Extending a run of equal arguments by one step of a fold from the left. */
  lemma TakeOne<T>(s: seq<T>, i: nat)
    requires i < |s|
    ensures s[..i + 1][..i] == s[..i] && s[..i + 1][i] == s[i] && s[..i + 1] == s[..i] + [s[i]]
  {
  }

  lemma {:induction false} FoldStops(base: Membership, entries: seq<Entry>, n: nat)
    requires n <= |entries| && Fold(base, entries[..n]).None?
    ensures Fold(base, entries).None?
    decreases |entries| - n
  {
    if n < |entries| {
      TakeOne(entries, n);
      FoldStops(base, entries, n + 1);
    } else {
      assert entries[..n] == entries;
    }
  }

  lemma JointCached(s: NodeState, newVoters: seq<nat>)
    requires Inv(s) && s.membership.joint == [] && Normalize(newVoters) == Some(newVoters)
    ensures var s1 := s.(log := s.log + [JointEntry(s, newVoters)]);
      Rebuilt(s1).Some? && Cached(Tracked(s1.(membership := Rebuilt(s1).value), LastIndex(s) + 1))
  {
    var s1 := s.(log := s.log + [JointEntry(s, newVoters)]);
    JointAlwaysFolds(s, newVoters);
    MembershipValid(s);
    NormalizeExact(newVoters);
    hide Fold, Normalize;
    TrackedSame(s1.(membership := Rebuilt(s1).value), LastIndex(s) + 1);
  }

  lemma CommittedFolds(s: NodeState, c: nat)
    requires Cached(s)
    ensures var s1 := s.(commit := c); FinalDue(s1) ==> AppendFinal(s1).Some?
  {
    var s1 := s.(commit := c);
    if s1.membership.joint != [] { CachedFinal(s1); }
  }

  lemma SameCache(s: NodeState, s': NodeState)
    requires Cached(s) && SameButProgress(s, s')
    ensures Cached(s')
  {
  }

  lemma CrownedRole(s: NodeState)
    ensures Crowned(s).role == Leader
  {
  }

  lemma AnyConfigNext(entries: seq<Entry>, j: nat)
    requires j < |entries|
    ensures AnyConfig(entries[..j + 1]) <==> AnyConfig(entries[..j]) || IsConfig(entries[j].payload)
  {
    assert entries[..j + 1] == entries[..j] + [entries[j]];
  }

  lemma FollowedLog(s: NodeState, leader: nat)
    ensures SameLog(s, RaftCore.Follow(s, leader).0)
  {
  }

  lemma CompactedCommit(s: NodeState, next: Snapshot)
    ensures CompactLog(s, next).commit == s.commit
    ensures CompactLog(s, next).term == s.term && CompactLog(s, next).cfg == s.cfg
  {
  }

  lemma AcknowledgedSame(s: NodeState, id: nat, index: nat)
    ensures SameButProgress(s, Acknowledged(s, id, index))
  {
  }

  lemma Counted(s: NodeState, s': NodeState)
    requires Inv(s) && s.role == Leader && SameButProgress(s, s')
    ensures Inv(s')
  {
    RoleHasTerm(s);
    StaysInv(s, s');
  }

  /** Replays entries over a base membership, stopping at the first that does not fold. */
  method ReplayMembership(base: Membership, entries: seq<Entry>) returns (r: Option<Membership>)
    ensures r == Fold(base, entries)
  {
    var current := base;
    for i := 0 to |entries|
      invariant Fold(base, entries[..i]) == Some(current)
    {
      TakeOne(entries, i);
      var next := FoldEntry(current, entries[i]);
      if next.None? {
        FoldStops(base, entries, i + 1);
        return None;
      }
      current := next.value;
    }
    assert entries[..|entries|] == entries;
    r := Some(current);
  }

  /** The first malformed entry of an append. */
  method CheckAppend(m: Message) returns (r: Option<Malformed>)
    requires m.Append?
    ensures r == MalformedFrom(m, 0)
  {
    var previous := m.logTerm;
    for i := 0 to |m.entries|
      invariant previous == if i == 0 then m.logTerm else m.entries[i - 1].term
      invariant MalformedFrom(m, 0) == MalformedFrom(m, i)
    {
      var e := m.entries[i];
      if e.index != m.logIndex + i + 1 { return Some(WrongIndex(i)); }
      if e.term == 0 { return Some(ZeroTerm(i)); }
      if DataBytes(e.payload) > MAX_ENTRY_BYTES { return Some(TooLarge(i)); }
      if e.term > m.term { return Some(TermAboveMessage(i)); }
      if e.term < previous { return Some(TermBelowPrevious(i)); }
      previous := e.term;
    }
    r := None;
  }

  /** How many leading entries one append may carry: as many as fit, and always the first. */
  method CountFitting(entries: seq<Entry>, limit: nat) returns (count: nat)
    ensures count == FittingCount(entries, 0, limit, true)
  {
    var size: nat := 0;
    count := 0;
    while count < |entries|
      invariant count <= |entries|
      invariant FittingCount(entries, 0, limit, true) == count + FittingCount(entries[count..], size, limit, count == 0)
    {
      assert entries[count..][1..] == entries[count + 1..];
      var entrySize := AccountedBytes(entries[count]);
      if count > 0 && size + entrySize > limit { break; }
      size := size + entrySize;
      count := count + 1;
    }
  }

  /** The entries of a batch: commands that fit, each at the next index; the others get index 0. */
  method BuildBatch(last: nat, term: nat, commands: seq<Bytes>) returns (entries: seq<Entry>, indexes: seq<nat>)
    ensures (entries, indexes) == BatchEntries(last, term, commands)
  {
    entries, indexes := [], [];
    for i := 0 to |commands|
      invariant (entries, indexes) == BatchEntries(last, term, commands[..i])
    {
      TakeOne(commands, i);
      if |commands[i]| > MAX_ENTRY_BYTES {
        indexes := indexes + [0];
      } else {
        var e := Entry(last + |entries| + 1, term, Command(commands[i]));
        entries, indexes := entries + [e], indexes + [e.index];
      }
    }
    assert commands[..|commands|] == commands;
  }

  class Node {
    const cfg: Config
    const initial: Membership

    var role: Role
    var term: nat
    var votedFor: nat
    var leaderID: nat
    var snapshot: Snapshot
    var log: seq<Entry>
    var commit: nat
    var membership: Membership
    var votes: map<nat, bool>
    var timers: Timers
    var progress: Progress
    var malformedAppendsDropped: nat
    var votesIgnoredInLease: nat

    function State(): NodeState
      reads this
    {
      NodeState(cfg, initial, role, term, votedFor, leaderID, snapshot, log, commit, membership, votes, timers,
                progress, malformedAppendsDropped, votesIgnoredInLease)
    }

    constructor (s: NodeState)
      ensures State() == s
    {
      cfg, initial := s.cfg, s.initial;
      role, term, votedFor, leaderID := s.role, s.term, s.votedFor, s.leaderID;
      snapshot, log, commit, membership := s.snapshot, s.log, s.commit, s.membership;
      votes, timers, progress := s.votes, s.timers, s.progress;
      malformedAppendsDropped, votesIgnoredInLease := s.malformedAppendsDropped, s.votesIgnoredInLease;
    }

    // ---- timers and membership -----------------------------------------

    /** Recomputes the membership cache, or leaves it alone and reports failure. */
    method RebuildMembership() returns (ok: bool)
      modifies this`membership
      ensures ok <==> Rebuilt(old(State())).Some?
      ensures membership == if ok then Rebuilt(old(State())).value else old(membership)
    {
      var r := ReplayMembership(Base(State()), log);
      ok := r.Some?;
      if ok { membership := r.value; }
    }

    // ---- sending appends -----------------------------------------------

    /** The longest affordable chunk from `from`, or one entry. */
    method TakeCapped(from: nat) returns (entries: seq<Entry>)
      ensures entries == CappedEntries(State(), from)
    {
      if from <= snapshot.index || from > snapshot.index + |log| { return []; }
      var rest := log[from - snapshot.index - 1..];
      var count := CountFitting(rest, AppendLimit(cfg));
      entries := rest[..count];
    }

    method BuildAppend(peer: nat, context: nat) returns (message: Message)
      modifies this`progress
      ensures State() == AppendMessage(old(State()), peer, context).0
      ensures message == AppendMessage(old(State()), peer, context).1
    {
      hide TermAt, CappedEntries;
      var next := Get(progress.nextIndex, peer);
      if next == 0 { next := snapshot.index + |log| + 1; }
      if next <= snapshot.index {
        return InstallSnapshot(cfg.id, peer, term, Some(snapshot));
      }
      var previous := TermAt(State(), next - 1);
      var entries: seq<Entry> := [];
      if Get(progress.outstanding, peer) == 0 { entries := TakeCapped(next); }
      message := Append(cfg.id, peer, term, next - 1, previous, entries, commit, context);
      if entries != [] {
        progress := progress.(outstanding := progress.outstanding[peer := entries[|entries| - 1].index],
                              outstandingAge := progress.outstandingAge[peer := 0]);
      }
    }

    /** Appends to each listed peer but this node; a proposal skips peers with one in flight. */
    method SendTo(peers: seq<nat>, context: nat, proposal: bool) returns (messages: seq<Message>)
      modifies this`progress
      ensures State() == SendAppends(old(State()), peers, context, proposal).0
      ensures messages == SendAppends(old(State()), peers, context, proposal).1
    {
      messages := [];
      for i := 0 to |peers|
        invariant (State(), messages) == SendAppends(old(State()), peers[..i], context, proposal)
      {
        TakeOne(peers, i);
        var peer := peers[i];
        if peer != cfg.id && !(proposal && Get(progress.outstanding, peer) != 0) {
          var message := BuildAppend(peer, context);
          messages := messages + [message];
        }
      }
      assert peers[..|peers|] == peers;
    }

    /** Ages what is in flight to each peer and gives up on what is too old. */
    method AgeOutstanding() returns (expired: seq<nat>)
      modifies this`progress
      ensures (progress, expired) ==
        ExpireOutstanding(old(progress), ReplicationPeers(old(State())), ResendLimit(cfg))
    {
      hide ReplicationPeers, ResendLimit;
      var peers, limit := ReplicationPeers(State()), ResendLimit(cfg);
      expired := [];
      for i := 0 to |peers|
        invariant (progress, expired) == ExpireOutstanding(old(progress), peers[..i], limit)
      {
        TakeOne(peers, i);
        var peer := peers[i];
        if Get(progress.outstanding, peer) != 0 {
          progress := progress.(outstandingAge :=
            progress.outstandingAge[peer := Get(progress.outstandingAge, peer) + 1]);
          if Get(progress.outstandingAge, peer) >= limit {
            progress := progress.(outstanding := progress.outstanding[peer := 0]);
            expired := expired + [peer];
          }
        }
      }
      assert peers[..|peers|] == peers;
    }

    // ---- roles ---------------------------------------------------------

    method BecomeFollower(newTerm: nat, leader: nat) returns (update: Update)
      modifies this
      ensures State() == RaftCore.BecomeFollower(old(State()), newTerm, leader).0
      ensures update == RaftCore.BecomeFollower(old(State()), newTerm, leader).1
    {
      hide ResetElectionTimer;
      var changed := role != Follower || term != newTerm;
      var hardChanged := newTerm != term;
      term, votedFor := Max(newTerm, term), if newTerm > term then 0 else votedFor;
      role, leaderID, votes := Follower, leader, map[];
      timers := ResetElectionTimer(cfg, timers);
      update := NO_EFFECT.(roleChanged := changed,
                           hardState := if hardChanged then Some(HardState(term, votedFor)) else None);
    }

    /** Vote or pre-vote requests to the other voters. */
    method Solicit(peers: seq<nat>, pre: bool) returns (messages: seq<Message>)
      ensures messages == VoteRequests(State(), peers, pre)
    {
      var last := snapshot.index + |log|;
      var lastTerm := TermAt(State(), last);
      messages := [];
      for i := 0 to |peers|
        invariant messages == VoteRequests(State(), peers[..i], pre)
      {
        TakeOne(peers, i);
        if peers[i] != cfg.id {
          messages := messages + [if pre then PreVote(cfg.id, peers[i], term + 1, last, lastTerm)
                                  else Vote(cfg.id, peers[i], term, last, lastTerm)];
        }
      }
      assert peers[..|peers|] == peers;
    }

    /** The highest index of this term that a quorum holds, or the commit index. */
    method FindCandidate() returns (candidate: nat)
      requires commit <= snapshot.index + |log|
      ensures candidate == CommitCandidate(State(), LastIndex(State()))
    {
      hide TermAt, HasQuorum;
      candidate := snapshot.index + |log|;
      while candidate > commit
        invariant commit <= candidate <= LastIndex(State())
        invariant CommitCandidate(State(), LastIndex(State())) == CommitCandidate(State(), candidate)
      {
        if TermAt(State(), candidate) == term && HasQuorum(membership, Matching(progress, candidate)) { break; }
        candidate := candidate - 1;
      }
    }

    /** Advances the commit index to the highest entry of this term a quorum holds, completes a
        committed joint configuration, and steps down once voted out. The rebuild cannot fail. */
    method MaybeCommit() returns (update: Update)
      requires Cached(State()) && role == Leader
      modifies this
      ensures State() == RaftCore.MaybeCommit(old(State())).0
      ensures update == RaftCore.MaybeCommit(old(State())).1
    {
      hide CommitCandidate, EntriesBetween, AfterCommit, AppendedByCommit, SendAppends, StepDownIfRemoved;
      hide ReplicationPeers, FinalDue, AppendFinal, Rebuilt;
      var candidate := FindCandidate();
      if candidate <= commit { return NO_EFFECT; }
      var committed, entries := CommitThrough(candidate);
      var messages := SendTo(ReplicationPeers(State()), 0, false);
      var down := StepDown();
      update := Merge(NO_EFFECT.(committed := committed, messages := messages, entries := entries), down);
    }

    /** Raises the commit index and completes a joint configuration that it reaches. */
    method CommitThrough(candidate: nat) returns (committed: seq<Entry>, entries: seq<Entry>)
      requires Cached(State()) && commit < candidate <= snapshot.index + |log|
      modifies this`commit, this`log, this`membership, this`progress
      ensures State() == AfterCommit(old(State()), candidate) && entries == AppendedByCommit(old(State()), candidate)
      ensures committed == EntriesBetween(old(State()), old(commit) + 1, candidate + 1)
    {
      CommittedFolds(State(), candidate);
      hide EntriesBetween, AppendFinal, Rebuilt;
      committed := EntriesBetween(State(), commit + 1, candidate + 1);
      commit := candidate;
      entries := CompleteJoint();
    }

    /** A leader voted out by a committed configuration becomes a follower. */
    method StepDown() returns (update: Update)
      modifies this
      ensures State() == StepDownIfRemoved(old(State())).0
      ensures update == StepDownIfRemoved(old(State())).1
    {
      hide RaftCore.BecomeFollower, IsVoter;
      update := NO_EFFECT;
      if membership.index <= commit && !IsVoter(State(), cfg.id) { update := BecomeFollower(term, 0); }
    }

    /** Appends C_new when C_old,new is committed. */
    method CompleteJoint() returns (entries: seq<Entry>)
      requires FinalDue(State()) ==> AppendFinal(State()).Some?
      modifies this`log, this`membership, this`progress
      ensures if FinalDue(old(State())) then
        entries == [AppendFinal(old(State())).value.1] && State() == AppendFinal(old(State())).value.0
        else entries == [] && State() == old(State())
    {
      entries := [];
      if membership.joint != [] && membership.index <= commit {
        var final := Entry(snapshot.index + |log| + 1, term, RaftTypes.Config(Final(membership.joint)));
        log := log + [final];
        var ok := RebuildMembership();
        assert ok;
        progress := Matched(progress, cfg.id, final.index);
        entries := [final];
      }
    }

    /** Sends what was just appended and commits what that allows. */
    method Publish(first: Update, proposal: bool) returns (update: Update)
      requires Cached(State()) && role == Leader
      modifies this
      ensures State() == RaftCore.Publish(old(State()), first, proposal).0
      ensures update == RaftCore.Publish(old(State()), first, proposal).1
    {
      hide Rebuilt, RaftCore.MaybeCommit, ReplicationPeers;
      ghost var s0 := State();
      SendAppendsSame(s0, ReplicationPeers(s0), 0, proposal);
      SameCache(s0, SendAppends(s0, ReplicationPeers(s0), 0, proposal).0);
      var messages := SendTo(ReplicationPeers(State()), 0, proposal);
      var more := MaybeCommit();
      update := Merge(first.(messages := messages), more);
    }

    /** Takes office: a fresh progress table and a no-op of this term. */
    method Crown() returns (noop: Entry)
      modifies this`role, this`leaderID, this`timers, this`progress, this`log
      ensures State() == Crowned(old(State())) && noop == NoopEntry(old(State()))
    {
      hide FreshProgress;
      var last := snapshot.index + |log|;
      progress := FreshProgress(State(), last);
      role, leaderID := Leader, cfg.id;
      timers := timers.(heartbeatElapsed := 0, quorumElapsed := 0);
      noop := Entry(last + 1, term, NOOP);
      log := log + [noop];
    }

    method BecomeLeader() returns (update: Update)
      requires Inv(State()) && role == Candidate
      modifies this
      ensures State() == RaftCore.BecomeLeader(old(State())).0
      ensures update == RaftCore.BecomeLeader(old(State())).1
    {
      hide Inv, Transition, RaftCore.Publish, Crowned;
      ghost var s0 := State();
      CrownedKeeps(s0);
      TransitionInv(s0, Crowned(s0), NO_EFFECT.(entries := [NoopEntry(s0)], roleChanged := true));
      var noop := Crown();
      CrownedRole(s0);
      InvCached(State());
      update := Publish(NO_EFFECT.(entries := [noop], roleChanged := true), false);
    }

    method StartElection() returns (update: Update)
      requires Inv(State()) && role != Leader
      modifies this
      ensures State() == RaftCore.StartElection(old(State())).0
      ensures update == RaftCore.StartElection(old(State())).1
    {
      hide ResetElectionTimer, Inv, HasQuorum, RaftCore.BecomeLeader, VoteRequests;
      ghost var s0 := State();
      role := Candidate;
      term := term + 1;
      votedFor := cfg.id;
      leaderID := 0;
      votes := map[cfg.id := true];
      timers := ResetElectionTimer(cfg, timers);
      assert State() == Campaigning(s0);
      StaysInv(s0, State());
      update := NO_EFFECT.(hardState := Some(HardState(term, votedFor)), roleChanged := true);
      if HasQuorum(membership, {cfg.id}) {
        var won := BecomeLeader();
        update := Merge(update, won);
      } else {
        var messages := Solicit(Peers(State()), false);
        update := update.(messages := messages);
      }
    }

    method StartPreVote() returns (update: Update)
      requires Inv(State()) && role != Leader
      modifies this
      ensures State() == RaftCore.StartPreVote(old(State())).0
      ensures update == RaftCore.StartPreVote(old(State())).1
    {
      hide ResetElectionTimer, Inv, HasQuorum, RaftCore.StartElection, VoteRequests;
      ghost var s0 := State();
      var changed := role != PreCandidate;
      role := PreCandidate;
      leaderID := 0;
      votes := map[cfg.id := true];
      timers := ResetElectionTimer(cfg, timers);
      StaysInv(s0, State());
      if HasQuorum(membership, {cfg.id}) {
        update := StartElection();
      } else {
        var messages := Solicit(Peers(State()), true);
        update := NO_EFFECT.(roleChanged := changed, messages := messages);
      }
    }

    // ---- votes ---------------------------------------------------------

    method HandlePreVoteResponse(m: Message) returns (update: Update)
      requires Inv(State()) && m.PreVoteResponse?
      modifies this
      ensures State() == RaftCore.HandlePreVoteResponse(old(State()), m).0
      ensures update == RaftCore.HandlePreVoteResponse(old(State()), m).1
    {
      hide Inv, RaftCore.BecomeFollower, RaftCore.StartElection, HasQuorum, VoteLost, Granted, Refused;
      if m.reject && m.term > term {
        update := BecomeFollower(m.term, 0);
        return;
      }
      var granted := !m.reject && m.term == term + 1;
      var rejected := m.reject && m.term <= term;
      if role != PreCandidate || (!granted && !rejected) { return NO_EFFECT; }
      ghost var s0 := State();
      votes := votes[m.from := granted];
      StaysInv(s0, State());
      if HasQuorum(membership, Granted(votes)) {
        update := StartElection();
      } else if VoteLost(membership, Refused(votes)) {
        update := BecomeFollower(term, 0);
      } else {
        update := NO_EFFECT;
      }
    }

    method HandleVote(m: Message) returns (update: Update)
      requires m.Vote?
      modifies this`votedFor, this`leaderID, this`timers
      ensures State() == RaftCore.HandleVote(old(State()), m).0
      ensures update == RaftCore.HandleVote(old(State()), m).1
    {
      hide ResetElectionTimer, IsUpToDate, IsVoter;
      var canVote := votedFor == 0 || votedFor == m.from;
      var grant := IsVoter(State(), cfg.id) && canVote && IsUpToDate(State(), m.logIndex, m.logTerm);
      update := WithMessages([VoteResponse(cfg.id, m.from, term, !grant)]);
      if grant {
        votedFor, leaderID := m.from, 0;
        timers := ResetElectionTimer(cfg, timers);
        update := update.(hardState := Some(HardState(term, votedFor)));
      }
    }

    method HandleVoteResponse(m: Message) returns (update: Update)
      requires Inv(State()) && m.VoteResponse?
      modifies this
      ensures State() == RaftCore.HandleVoteResponse(old(State()), m).0
      ensures update == RaftCore.HandleVoteResponse(old(State()), m).1
    {
      if role != Candidate || m.term != term { return NO_EFFECT; }
      ghost var s0 := State();
      RoleHasTerm(s0);
      hide Inv, RaftCore.BecomeFollower, RaftCore.BecomeLeader, HasQuorum, VoteLost, Granted, Refused;
      votes := votes[m.from := !m.reject];
      StaysInv(s0, State());
      if HasQuorum(membership, Granted(votes)) {
        update := BecomeLeader();
      } else if VoteLost(membership, Refused(votes)) {
        update := BecomeFollower(term, 0);
      } else {
        update := NO_EFFECT;
      }
    }

    // ---- appends -------------------------------------------------------

    method Follow(leader: nat) returns (update: Update)
      modifies this
      ensures State() == RaftCore.Follow(old(State()), leader).0
      ensures update == RaftCore.Follow(old(State()), leader).1
    {
      hide ResetElectionTimer;
      update := NO_EFFECT;
      if role != Follower || leaderID != leader { update := BecomeFollower(term, leader); }
      leaderID := leader;
      timers := ResetElectionTimer(cfg, timers);
    }

    /** Where the leader should back up to: past the log's end, or over the conflicting term. */
    method FindConflict(prev: nat) returns (hint: nat)
      ensures hint == RejectHint(State(), prev)
    {
      hide TermAt;
      if prev > snapshot.index + |log| { return snapshot.index + |log| + 1; }
      var conflict := TermAt(State(), prev);
      hint := prev;
      while hint > snapshot.index + 1 && TermAt(State(), hint - 1) == conflict
        invariant hint <= prev
        invariant ConflictStart(State(), prev, conflict) == ConflictStart(State(), hint, conflict)
      {
        hint := hint - 1;
      }
    }

    method CountPresent(entries: seq<Entry>) returns (n: nat)
      ensures n == AlreadyPresent(State(), entries)
    {
      hide TermAt;
      n := 0;
      while n < |entries| && entries[n].index <= snapshot.index + |log| &&
        TermAt(State(), entries[n].index) == entries[n].term
        invariant n <= |entries|
        invariant AlreadyPresent(State(), entries) == n + AlreadyPresent(State(), entries[n..])
      {
        assert entries[n..][1..] == entries[n + 1..];
        n := n + 1;
      }
      assert n < |entries| ==> entries[n..][0] == entries[n];
    }

    /** Cuts the log to `keep` entries and appends `added`; when the membership then does not fold,
        puts the log back as it was. */
    method Splice(keep: nat, truncateFrom: nat, added: seq<Entry>) returns (ok: bool)
      requires keep <= |log| && (truncateFrom == 0 ==> keep == |log|)
      modifies this`log, this`membership
      ensures ok <==> ApplySplice(old(State()), RaftCore.Splice(keep, truncateFrom, added)).Some?
      ensures State() ==
        if ok then ApplySplice(old(State()), RaftCore.Splice(keep, truncateFrom, added)).value else old(State())
    {
      hide Fold;
      ghost var s0 := State();
      var oldLen := |log|;
      var tail := log[keep..];
      var rebuild := truncateFrom != 0;
      log := log[..keep];
      for j := 0 to |added|
        invariant log == s0.log[..keep] + added[..j] && State() == s0.(log := log)
        invariant rebuild <==> truncateFrom != 0 || AnyConfig(added[..j])
      {
        TakeOne(added, j);
        AnyConfigNext(added, j);
        rebuild := rebuild || IsConfig(added[j].payload);
        log := log + [added[j]];
      }
      assert added[..|added|] == added;
      ok := true;
      if rebuild { ok := RebuildMembership(); }
      if !ok {
        log := log[..oldLen - |tail|] + tail;
        assert log == s0.log;
      }
    }

    method LearnCommit(m: Message, sofar: Update) returns (update: Update)
      requires m.Append?
      modifies this`commit
      ensures State() == AcknowledgeAppend(old(State()), m, sofar).0
      ensures update == AcknowledgeAppend(old(State()), m, sofar).1
    {
      hide EntriesBetween;
      var lastNew := Min(m.logIndex + |m.entries|, snapshot.index + |log|);
      var learned := Max(commit, Min(m.leaderCommit, lastNew));
      var committed := EntriesBetween(State(), commit + 1, learned + 1);
      commit := learned;
      update := Merge(sofar, NO_EFFECT.(
        committed := committed,
        messages := [AppendResponse(cfg.id, m.from, term, lastNew, false, 0, m.context)]));
    }

    method TakeEntries(m: Message, sofar: Update) returns (update: Update)
      requires m.Append? && snapshot.index <= commit <= snapshot.index + |log|
      modifies this`log, this`membership, this`commit
      ensures State() == RaftCore.TakeEntries(old(State()), m, sofar).0
      ensures update == RaftCore.TakeEntries(old(State()), m, sofar).1
    {
      hide AcknowledgeAppend, ApplySplice, TermAt;
      var n := CountPresent(m.entries);
      update := sofar;
      if n < |m.entries| {
        var e := m.entries[n];
        var keep, truncateFrom := |log|, 0;
        if e.index <= snapshot.index + |log| {
          if e.index <= commit {
            return Merge(update, WithMessages([AppendResponse(cfg.id, m.from, term, 0, true, commit + 1, 0)]));
          }
          keep, truncateFrom := e.index - snapshot.index - 1, e.index;
        }
        var ok := Splice(keep, truncateFrom, m.entries[n..]);
        if !ok {
          return Merge(update,
            WithMessages([AppendResponse(cfg.id, m.from, term, 0, true, snapshot.index + |log| + 1, 0)]));
        }
        update := Merge(update, NO_EFFECT.(truncateFrom := truncateFrom, entries := m.entries[n..]));
      }
      update := LearnCommit(m, update);
    }

    method HandleAppend(m: Message) returns (update: Update)
      requires Inv(State()) && m.Append?
      modifies this
      ensures State() == RaftCore.HandleAppend(old(State()), m).0
      ensures update == RaftCore.HandleAppend(old(State()), m).1
    {
      InvBounds(State());
      hide Inv, RaftCore.TakeEntries, RaftCore.Follow, TermAt, RejectHint;
      ghost var s0 := State();
      FollowedLog(s0, m.from);
      var sofar := Follow(m.from);
      if m.logIndex > snapshot.index + |log| || TermAt(State(), m.logIndex) != m.logTerm {
        var hint := FindConflict(m.logIndex);
        update := Merge(sofar, WithMessages([AppendResponse(cfg.id, m.from, term, 0, true, hint, 0)]));
      } else {
        update := TakeEntries(m, sofar);
      }
    }

    // ---- snapshots -----------------------------------------------------

    /** Moves the boundary to the snapshot and rebuilds; a failed rebuild leaves the log cut. */
    method Rebase(next: Snapshot) returns (ok: bool)
      modifies this`snapshot, this`log, this`membership
      ensures ok <==> Rebuilt(CompactLog(old(State()), next)).Some?
      ensures var s1 := CompactLog(old(State()), next);
        State() == if ok then s1.(membership := Rebuilt(s1).value) else s1
    {
      hide Fold, TermAt, EntriesBetween;
      ghost var s0 := State();
      var suffix: seq<Entry> := [];
      if next.index < snapshot.index + |log| && TermAt(State(), next.index) == next.term {
        suffix := EntriesBetween(State(), next.index + 1, snapshot.index + |log| + 1);
      }
      snapshot, log := next, suffix;
      assert State() == CompactLog(s0, next);
      ok := RebuildMembership();
    }

    /** Installs a newer snapshot from the followed leader, or refuses it and changes nothing: what the
        failed rebuild cut off is put back. */
    method AnswerSnapshot(from: nat, offered: Snapshot) returns (update: Update)
      modifies this`snapshot, this`log, this`membership, this`commit
      ensures State() == RaftCore.AnswerSnapshot(old(State()), from, offered).0
      ensures update == RaftCore.AnswerSnapshot(old(State()), from, offered).1
    {
      hide Rebuilt, CompactLog, TermAt, Validated;
      var refusal := WithMessages([SnapshotResponse(cfg.id, from, term, 0, true, snapshot.index + |log| + 1)]);
      if !Validated(offered.membership) || offered.membership.index > offered.index { return refusal; }
      if offered.index <= snapshot.index {
        return WithMessages([SnapshotResponse(cfg.id, from, term, snapshot.index, false, 0)]);
      }
      if offered.index <= commit && TermAt(State(), offered.index) != offered.term { return refusal; }
      var oldSnapshot, oldLog, oldMembership := snapshot, log, membership;
      CompactedCommit(State(), offered);
      var ok := Rebase(offered);
      if !ok {
        snapshot, log, membership := oldSnapshot, oldLog, oldMembership;
        return refusal;
      }
      if commit < offered.index { commit := offered.index; }
      update := NO_EFFECT.(snapshot := Some(offered),
                           messages := [SnapshotResponse(cfg.id, from, term, offered.index, false, 0)]);
    }

    method HandleSnapshot(m: Message) returns (update: Update)
      requires m.InstallSnapshot?
      modifies this
      ensures State() == RaftCore.HandleSnapshot(old(State()), m).0
      ensures update == RaftCore.HandleSnapshot(old(State()), m).1
    {
      hide RaftCore.Follow, RaftCore.AnswerSnapshot;
      if m.snapshot.None? || m.snapshot.value.index == 0 || m.snapshot.value.term == 0 {
        return WithMessages([SnapshotResponse(cfg.id, m.from, term, 0, true, snapshot.index + |log| + 1)]);
      }
      var sofar := Follow(m.from);
      var given := m.snapshot.value;
      if given.membership.voters == [] { given := given.(membership := initial); }
      var answer := AnswerSnapshot(m.from, given);
      update := Merge(sofar, answer);
    }

    /** Compact: a local boundary, or None when it is refused. */
    method Compact(given: Snapshot) returns (r: Option<Update>)
      requires Inv(State())
      modifies this`snapshot, this`log, this`membership
      ensures r.Some? <==> RaftCore.Compact(old(State()), given).Some?
      ensures r.Some? ==> State() == RaftCore.Compact(old(State()), given).value.0
      ensures r.Some? ==> r.value == RaftCore.Compact(old(State()), given).value.1
      ensures r.None? ==> State() == old(State())
    {
      hide Rebuilt, CompactLog, TermAt, MembershipAt;
      if given.index <= snapshot.index { return Some(NO_EFFECT); }
      if given.index > commit || given.term == 0 || TermAt(State(), given.index) != given.term { return None; }
      var expected := MembershipBefore(given.index);
      if expected.None? { return None; }
      var chosen := given;
      if chosen.membership.voters == [] { chosen := chosen.(membership := expected.value); }
      if chosen.membership.index > chosen.index || chosen.membership != expected.value { return None; }
      CompactionFolds(State(), chosen);
      var ok := Rebase(chosen);
      r := Some(NO_EFFECT.(snapshot := Some(chosen)));
    }

    /** The membership the log gives at an index. */
    method MembershipBefore(index: nat) returns (r: Option<Membership>)
      ensures r == MembershipAt(State(), index)
    {
      hide Fold;
      var n := 0;
      while n < |log| && log[n].index <= index
        invariant n <= |log|
        invariant LeadingThrough(log, index) == n + LeadingThrough(log[n..], index)
      {
        assert log[n..][1..] == log[n + 1..];
        n := n + 1;
      }
      assert n < |log| ==> log[n..][0] == log[n];
      r := ReplayMembership(Base(State()), log[..n]);
    }

    method CreateSnapshot(index: nat, data: Image) returns (r: Option<Update>)
      requires Inv(State())
      modifies this`snapshot, this`log, this`membership
      ensures r.Some? <==> RaftCore.CreateSnapshot(old(State()), index, data).Some?
      ensures r.Some? ==> Transition(old(State()), State(), r.value)
      ensures r.Some? ==> State() == RaftCore.CreateSnapshot(old(State()), index, data).value.0
      ensures r.Some? ==> r.value == RaftCore.CreateSnapshot(old(State()), index, data).value.1
      ensures r.None? ==> State() == old(State())
    {
      CreateSnapshotKeeps(State(), index, data);
      hide Inv, RaftCore.Compact, MembershipAt, TermAt, Transition;
      var m := MembershipBefore(index);
      if m.None? { return None; }
      r := Compact(Snapshot(index, TermAt(State(), index), data, m.value));
    }

    // ---- leader's responses --------------------------------------------

    method NoteRejected(m: Message)
      requires m.AppendResponse?
      modifies this`progress
      ensures State() == Rejected(MarkActive(old(State()), m.from), m)
    {
      progress := progress.(recentActive := progress.recentActive[m.from := true]);
      var next := Get(progress.nextIndex, m.from);
      if 0 < m.rejectHint < next {
        next := m.rejectHint;
      } else if next > 1 {
        next := next - 1;
      }
      next := Max(1, Max(next, Get(progress.matchIndex, m.from) + 1));
      progress := progress.(nextIndex := progress.nextIndex[m.from := next],
                            outstanding := progress.outstanding[m.from := 0]);
    }

    method NoteIdle(id: nat)
      modifies this`progress
      ensures State() == Idled(MarkActive(old(State()), id), id)
    {
      progress := progress.(recentActive := progress.recentActive[id := true],
        outstanding := progress.outstanding[id := 0]);
    }

    method NoteMatched(id: nat, index: nat)
      modifies this`progress
      ensures State() == Acknowledged(MarkActive(old(State()), id), id, index)
    {
      hide SettleOutstanding;
      progress := progress.(recentActive := progress.recentActive[id := true]);
      if index > Get(progress.matchIndex, id) {
        progress := Matched(progress, id, Min(index, snapshot.index + |log|));
      }
      progress := SettleOutstanding(progress, id);
    }

    /** Counts an acknowledgement and commits what it allows. */
    method CountMatched(id: nat, index: nat) returns (update: Update)
      requires Inv(State()) && role == Leader
      modifies this
      ensures State() == CountAck(old(State()), id, index).0
      ensures update == CountAck(old(State()), id, index).1
    {
      ghost var s0 := State();
      hide Inv, RaftCore.MaybeCommit, Acknowledged;
      NoteMatched(id, index);
      AcknowledgedSame(MarkActive(s0, id), id, index);
      Counted(s0, State());
      InvCached(State());
      update := MaybeCommit();
    }

    method FollowUp(sofar: Update, id: nat, context: nat) returns (update: Update)
      modifies this`progress
      ensures State() == RaftCore.FollowUp(old(State()), sofar, id, context).0
      ensures update == RaftCore.FollowUp(old(State()), sofar, id, context).1
    {
      hide AppendMessage;
      var message := BuildAppend(id, context);
      update := sofar.(messages := sofar.messages + [message]);
    }

    method SendMore(sofar: Update, id: nat, context: nat, wanted: bool) returns (update: Update)
      modifies this`progress
      ensures State() == RaftCore.SendMore(old(State()), sofar, id, context, wanted).0
      ensures update == RaftCore.SendMore(old(State()), sofar, id, context, wanted).1
    {
      hide RaftCore.FollowUp;
      update := sofar;
      if wanted && Get(progress.nextIndex, id) <= snapshot.index + |log| { update := FollowUp(sofar, id, context); }
    }

    method HandleAppendResponse(m: Message) returns (update: Update)
      requires Inv(State()) && m.AppendResponse?
      modifies this
      ensures State() == RaftCore.HandleAppendResponse(old(State()), m).0
      ensures update == RaftCore.HandleAppendResponse(old(State()), m).1
    {
      hide Inv, CountAck, RaftCore.SendMore, RaftCore.FollowUp, Rejected, MarkActive, Get;
      if role != Leader || m.term != term { return NO_EFFECT; }
      if m.reject {
        NoteRejected(m);
        update := FollowUp(NO_EFFECT, m.from, m.context);
      } else {
        var advanced := Min(m.logIndex, snapshot.index + |log|) > Get(progress.matchIndex, m.from);
        update := CountMatched(m.from, m.logIndex);
        update := SendMore(update, m.from, m.context, advanced && Get(progress.outstanding, m.from) == 0);
      }
    }

    method HandleSnapshotResponse(m: Message) returns (update: Update)
      requires Inv(State()) && m.SnapshotResponse?
      modifies this
      ensures State() == RaftCore.HandleSnapshotResponse(old(State()), m).0
      ensures update == RaftCore.HandleSnapshotResponse(old(State()), m).1
    {
      hide Inv, CountAck, RaftCore.SendMore, RaftCore.FollowUp, Idled, MarkActive;
      if role != Leader || m.term != term { return NO_EFFECT; }
      if m.reject {
        NoteIdle(m.from);
        update := FollowUp(NO_EFFECT, m.from, 0);
      } else {
        update := CountMatched(m.from, Min(m.logIndex, snapshot.index + |log|));
        update := SendMore(update, m.from, 0, true);
      }
    }

    // ---- inputs --------------------------------------------------------

    method Dispatch(m: Message) returns (update: Update)
      requires Inv(State())
      modifies this
      ensures State() == RaftCore.Dispatch(old(State()), m).0
      ensures update == RaftCore.Dispatch(old(State()), m).1
    {
      InvBounds(State());
      hide Inv, RaftCore.HandlePreVote, RaftCore.HandlePreVoteResponse,
           RaftCore.HandleVote, RaftCore.HandleVoteResponse,
        RaftCore.HandleAppend, RaftCore.HandleAppendResponse, RaftCore.HandleSnapshot, RaftCore.HandleSnapshotResponse;
      match m
      case PreVote(_, _, _, _, _) => update := WithMessages([HandlePreVote(State(), m)]);
      case PreVoteResponse(_, _, _, _) => update := HandlePreVoteResponse(m);
      case Vote(_, _, _, _, _) => update := HandleVote(m);
      case VoteResponse(_, _, _, _) => update := HandleVoteResponse(m);
      case Append(_, _, _, _, _, _, _, _) => update := HandleAppend(m);
      case AppendResponse(_, _, _, _, _, _, _) => update := HandleAppendResponse(m);
      case InstallSnapshot(_, _, _, _) => update := HandleSnapshot(m);
      case SnapshotResponse(_, _, _, _, _, _) => update := HandleSnapshotResponse(m);
    }

    /** Adopts a newer term, then handles the message that announced it. */
    method DispatchNewer(m: Message) returns (update: Update)
      requires Inv(State()) && m.term > term
      modifies this
      ensures State() == RaftCore.DispatchNewer(old(State()), m).0
      ensures update == RaftCore.DispatchNewer(old(State()), m).1
    {
      ghost var s0 := State();
      InvBounds(s0);
      hide Inv, Transition, RaftCore.Dispatch, RaftCore.BecomeFollower;
      BecomeFollowerKeeps(s0, m.term, 0);
      var adopted := BecomeFollower(m.term, 0);
      TransitionInv(s0, State(), adopted);
      var handled := Dispatch(m);
      update := Merge(adopted, handled);
    }

    /** Drops a message that must not even move the term, counting why. */
    method Screen(m: Message) returns (dropped: bool, update: Update)
      modifies this`malformedAppendsDropped, this`votesIgnoredInLease
      ensures dropped <==> Dropped(old(State()), m)
      ensures State() == if dropped then Drop(old(State()), m).0 else old(State())
      ensures dropped ==> update == Drop(old(State()), m).1
    {
      hide ReplicationPeers, InLease, MalformedFrom;
      if (m.to != 0 && m.to != cfg.id) || m.from !in ReplicationPeers(State()) || m.from == cfg.id {
        return true, NO_EFFECT;
      }
      if m.Append? {
        var malformed := CheckAppend(m);
        if malformed.Some? {
          malformedAppendsDropped := malformedAppendsDropped + 1;
          return true, NO_EFFECT.(droppedAppend := malformed);
        }
      }
      if m.Vote? && m.term > term && InLease(State()) {
        votesIgnoredInLease := votesIgnoredInLease + 1;
        return true, NO_EFFECT;
      }
      return false, NO_EFFECT;
    }

    /** Handles one protocol message, whatever it says. */
    method Step(m: Message) returns (update: Update)
      requires Inv(State())
      modifies this
      ensures Transition(old(State()), State(), update)
      ensures State() == RaftCore.Step(old(State()), m).0
      ensures update == RaftCore.Step(old(State()), m).1
    {
      InvBounds(State());
      hide Inv, Transition, Dropped, Drop, RejectStale, RaftCore.Dispatch, RaftCore.DispatchNewer;
      StepKeeps(State(), m);
      var dropped;
      dropped, update := Screen(m);
      if dropped { return; }
      if m.PreVote? || m.PreVoteResponse? || m.term == term {
        update := Dispatch(m);
      } else if m.term < term {
        update := WithMessages([RejectStale(State(), m)]);
      } else {
        update := DispatchNewer(m);
      }
    }

    // ---- ticks ---------------------------------------------------------

    /** A leader that has not heard from a quorum steps down. */
    method CheckQuorum(messages: seq<Message>) returns (update: Update)
      modifies this
      ensures State() == RaftCore.CheckQuorum(old(State()), messages).0
      ensures update == RaftCore.CheckQuorum(old(State()), messages).1
    {
      hide HasQuorum, ActiveVoters, Peers, RaftCore.BecomeFollower;
      update := WithMessages(messages);
      if timers.quorumElapsed >= cfg.checkQuorumTicks {
        var enough := HasQuorum(membership, ActiveVoters(State()));
        timers, progress := timers.(quorumElapsed := 0),
          progress.(recentActive := progress.recentActive + map p | p in Peers(State()) :: false);
        if !enough {
          var down := BecomeFollower(term, 0);
          update := Merge(update, down);
        }
      }
    }

    method LeaderTick() returns (update: Update)
      modifies this
      ensures State() == RaftCore.LeaderTick(old(State())).0
      ensures update == RaftCore.LeaderTick(old(State())).1
    {
      hide SendAppends, ReplicationPeers, ExpireOutstanding, RaftCore.CheckQuorum;
      ghost var s0 := State();
      var peers := ReplicationPeers(State());
      var beat := HeartbeatDue(State());
      var expired := AgeOutstanding();
      timers := timers.(heartbeatElapsed := if beat then 0 else timers.heartbeatElapsed + 1,
                        quorumElapsed := timers.quorumElapsed + 1);
      assert State() == Ticked(s0);
      var messages := SendTo(if beat then peers else expired, 0, false);
      update := CheckQuorum(messages);
    }

    /** Advances logical time by one tick. */
    method Tick() returns (update: Update)
      requires Inv(State())
      modifies this
      ensures Transition(old(State()), State(), update)
      ensures State() == RaftCore.Tick(old(State())).0
      ensures update == RaftCore.Tick(old(State())).1
    {
      ghost var s0 := State();
      hide Inv, Transition, RaftCore.LeaderTick, RaftCore.StartPreVote, IsVoter;
      TickKeeps(s0);
      update := NO_EFFECT;
      if role == Leader {
        update := LeaderTick();
      } else if IsVoter(State(), cfg.id) {
        RoleHasTerm(s0);
        timers := timers.(electionElapsed := timers.electionElapsed + 1);
        StaysInv(s0, State());
        if timers.electionElapsed >= timers.electionTimeout { update := StartPreVote(); }
      }
    }

    // ---- proposals and reads -------------------------------------------

    /** ProposeBatch: None when this node does not lead. */
    method ProposeBatch(commands: seq<Bytes>) returns (r: Option<(seq<nat>, Update)>)
      requires Inv(State())
      modifies this
      ensures var p := RaftCore.ProposeBatch(old(State()), commands);
        if p.Proposed? then
          r == Some((p.indexes, p.update)) && State() == p.state && Transition(old(State()), State(), p.update)
        else r.None? && State() == old(State())
    {
      ghost var s0 := State();
      hide Inv, Transition, RaftCore.Publish, BatchEntries;
      ProposeBatchKeeps(s0, commands);
      if role != Leader { return None; }
      BatchAppended(s0, commands);
      var entries, indexes := BuildBatch(snapshot.index + |log|, term, commands);
      if entries == [] { return Some((indexes, NO_EFFECT)); }
      log := log + entries;
      progress := Matched(progress, cfg.id, snapshot.index + |log|);
      InvCached(State());
      var update := Publish(NO_EFFECT.(entries := entries), true);
      r := Some((indexes, update));
    }

    /** ReadProbe: None when this node does not lead or has no commit in its term. */
    method ReadProbe(context: nat) returns (r: Option<Update>)
      requires Inv(State())
      modifies this`progress
      ensures var p := RaftCore.ReadProbe(old(State()), context);
        if p.Probed? then r == Some(p.update) && State() == p.state && Transition(old(State()), State(), p.update)
        else r.None? && State() == old(State())
    {
      ReadProbeKeeps(State(), context);
      hide Inv, Transition, TermAt, SendAppends, Peers;
      if role != Leader || commit == 0 || TermAt(State(), commit) != term { return None; }
      var messages := SendTo(Peers(State()), context, false);
      r := Some(WithMessages(messages));
    }

    /** Appends the joint entry, which always folds, and starts tracking its new peers. */
    method AppendJoint(joint: Entry)
      requires Rebuilt(State().(log := log + [joint])).Some?
      modifies this`log, this`membership, this`progress
      ensures var s1 := old(State()).(log := old(log) + [joint]);
        State() == Tracked(s1.(membership := Rebuilt(s1).value), joint.index)
    {
      hide Rebuilt, StartTracking, Peers;
      log := log + [joint];
      var ok := RebuildMembership();
      progress := progress.(nextIndex := StartTracking(progress.nextIndex, Peers(State()), joint.index));
      progress := Matched(progress, cfg.id, joint.index);
    }

    /** Appends and publishes the joint entry, whatever its size. */
    method BeginChange(newVoters: seq<nat>) returns (update: Update)
      requires Inv(State()) && role == Leader && membership.joint == [] && Normalize(newVoters) == Some(newVoters)
      modifies this
      ensures RaftCore.BeginChange(old(State()), newVoters) == Some((State(), update))
    {
      ghost var s0 := State();
      JointCached(s0, newVoters);
      hide Inv, Rebuilt, RaftCore.Publish, Tracked, JointEntry, Normalize, Cached;
      var joint := JointEntry(State(), newVoters);
      AppendJoint(joint);
      update := Publish(NO_EFFECT.(entries := [joint]), false);
    }

    /** ProposeMembership: the index that completes the change, or why it was refused. */
    method ProposeMembership(voters: seq<nat>) returns (r: Proposed)
      requires Inv(State())
      modifies this
      ensures r == RaftCore.ProposeMembership(old(State()), voters)
      ensures State() == if r.Proposed? then r.state else old(State())
      ensures r.Proposed? ==> Transition(old(State()), State(), r.update)
      ensures r.Proposed? && Fits(old(State())) ==>
        (AllFit(r.update.entries) <==> !OversizeChange(old(State()), voters))
    {
      hide Inv, Transition, OversizeChange, RaftCore.BeginChange, Normalize, AllFit, Fits, JointEntry;
      ghost var s0 := State();
      ProposeMembershipKeeps(s0, voters);
      if Fits(s0) { ChangeFits(s0, voters); }
      NormalizeExact(voters);
      if role != Leader { return NotLeader; }
      if membership.joint != [] || membership.index > commit { return ChangeInProgress; }
      var newVoters := Normalize(voters);
      if newVoters.None? { return InvalidVoters; }
      if newVoters.value == membership.voters { return Proposed([membership.index], State(), NO_EFFECT); }
      var index := snapshot.index + |log| + 2;
      var update := BeginChange(newVoters.value);
      r := Proposed([index], State(), update);
    }
  }

  /** New: a node from its durable state, if that is contiguous, folds and holds the applied index. */
  method New(cfg: Config, hard: HardState, entries: seq<Entry>, snapshot: Snapshot) returns (r: Option<Node>)
    ensures r.Some? <==> Restorable(cfg, entries, snapshot)
    ensures r.Some? ==> fresh(r.value) && Restore(cfg, hard, entries, snapshot) == Some(r.value.State())
    ensures r.Some? && CarriesVoters(snapshot) ==> Inv(r.value.State())
  {
    RestoreExact(cfg, hard, entries, snapshot);
    if Restorable(cfg, entries, snapshot) && CarriesVoters(snapshot) { RestoredValid(cfg, hard, entries, snapshot); }
    hide Inv, Normalize, Validated, ResetElectionTimer;
    if (snapshot.index == 0) != (snapshot.term == 0) || (snapshot.index == 0 && snapshot.data != []) { return None; }
    if snapshot.membership.index > snapshot.index { return None; }
    for i := 0 to |entries|
      invariant InSequence(entries[..i], snapshot.index)
    {
      if entries[i].index != snapshot.index + i + 1 || entries[i].term == 0 {
        assert entries[i].index != snapshot.index + i + 1 || entries[i].term == 0;
        return None;
      }
    }
    assert entries[..|entries|] == entries;
    var peers := NormalizeVoters(cfg.peers);
    if peers.None? { return None; }
    if snapshot.index > 0 && snapshot.membership.voters != [] && !Validated(snapshot.membership) { return None; }
    var initial := Membership(peers.value, [], 0);
    var node := new Node(Unstarted(cfg, hard, entries, snapshot, initial));
    var folds := node.RebuildMembership();
    if !folds || cfg.appliedIndex < snapshot.index || cfg.appliedIndex > snapshot.index + |entries| { return None; }
    r := Some(node);
  }
}
