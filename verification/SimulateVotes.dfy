/** Elections in the code are elections of the protocol. */
module SimulateVotes {
  import opened RaftTypes
  import opened Voters
  import opened Protocol
  import opened ProtocolSteps
  import opened ProtocolElection
  import opened ProtocolReplication
  import opened RaftCore
  import opened Simulation
  import opened SimulateLeader

  lemma {:induction false} RequestsOK(g: Proto, s: NodeState, peers: seq<nat>, pre: bool)
    requires Safe(g) && CoreRel(g, s)
    requires pre || ((s.term, s.cfg.id) in g.candidacies && g.candidacies[(s.term, s.cfg.id)] == g.peers[s.cfg.id].log)
    ensures MessagesOK(g, VoteRequests(s, peers, pre))
  {
    if peers != [] {
      RequestsOK(g, s, peers[..|peers| - 1], pre);
      LastTermRel(g, s);
    }
  }

  lemma StandFirst(g: Proto, n: nat) returns (g': Proto)
    requires Safe(g) && n in g.peers
    ensures Stepped(g, g', n) && g'.reigns == g.reigns
    ensures var p := g.peers[n]; g'.peers[n] == p.(term := p.term + 1, vote := n)
    ensures var t := g.peers[n].term + 1; (t, n) in g'.candidacies && g'.candidacies[(t, n)] == g.peers[n].log
  {
    NotYetLeader(g, n);
    hide Safe;
    var g1 := AdvanceTerm(g, n, g.peers[n].term + 1);
    AdvanceTermSafe(g, n, g.peers[n].term + 1);
    g' := Stand(g1, n);
    StandSafe(g1, n);
    SteppedTrans(g, g1, g', n);
  }

  /** The protocol's side of standing: a new term, a candidacy and a vote for itself. */
  lemma StandOK(g: Proto, n: nat) returns (g': Proto)
    requires Safe(g) && n in g.peers
    ensures Stepped(g, g', n)
    ensures var p := g.peers[n]; g'.peers[n] == p.(term := p.term + 1, vote := n)
    ensures var t := g.peers[n].term + 1;
      && (t, n) in g'.candidacies && g'.candidacies[(t, n)] == g.peers[n].log
      && (t, n) in g'.ballots && g'.ballots[(t, n)].candidate == n
      && (t in g'.reigns ==> g'.reigns[t].leader != n)
  {
    hide Safe;
    NotYetLeader(g, n);
    var g2 := StandFirst(g, n);
    g' := Grant(g2, n, n);
    GrantSafe(g2, n, n);
    SteppedTrans(g, g2, g', n);
  }

  lemma NotYetLeader(g: Proto, n: nat)
    requires Safe(g) && n in g.peers
    ensures var t := g.peers[n].term + 1; t in g.reigns ==> g.reigns[t].leader != n
    ensures LastTerm(g.peers[n].log) <= g.peers[n].term
  {
    var t := g.peers[n].term + 1;
    assert PeerOK(g, n);
    if t in g.reigns { assert ReignOK(g, t); }
  }

  lemma CampaignOK(g: Proto, s: NodeState) returns (g': Proto)
    requires Safe(g) && CoreRel(g, s)
    ensures Stepped(g, g', s.cfg.id) && Rel(g', Campaigning(s))
  {
    g' := StandOK(g, s.cfg.id);
  }

  lemma StartElectionOK(g: Proto, s: NodeState) returns (g': Proto)
    requires Safe(g) && CoreRel(g, s)
    ensures Stepped(g, g', s.cfg.id)
    ensures var (s', u) := StartElection(s); Rel(g', s') && EffectsOK(g', u) && s'.cfg == s.cfg
  {
    var s1 := Campaigning(s);
    var g1 := CampaignOK(g, s);
    if HasQuorum(s1.membership, {s.cfg.id}) {
      assert Granted(s1.votes) == {s.cfg.id};
      g' := BecomeLeaderOK(g1, s1);
      SteppedTrans(g, g1, g', s.cfg.id);
    } else {
      g' := g1;
      RequestsOK(g', s1, Peers(s1), false);
    }
  }

  lemma StartPreVoteOK(g: Proto, s: NodeState) returns (g': Proto)
    requires Safe(g) && CoreRel(g, s)
    ensures Stepped(g, g', s.cfg.id)
    ensures var (s', u) := StartPreVote(s); Rel(g', s') && EffectsOK(g', u) && s'.cfg == s.cfg
  {
    var s1 := s.(role := PreCandidate, leaderID := 0, votes := map[s.cfg.id := true],
                 timers := ResetElectionTimer(s.cfg, s.timers));
    if HasQuorum(s1.membership, {s.cfg.id}) {
      g' := StartElectionOK(g, s1);
    } else {
      g' := g;
      RequestsOK(g, s1, Peers(s1), true);
    }
  }

  // ---- winning ---------------------------------------------------------

  lemma WonOK(g: Proto, s: NodeState) returns (g': Proto)
    requires Safe(g) && CoreRel(g, s) && CandidateRel(g, s) && HasQuorum(s.membership, Granted(s.votes))
    ensures Stepped(g, g', s.cfg.id)
    ensures CoreRel(g', s) && Leads(g', s.cfg.id) && g'.peers == g.peers
    ensures forall j :: 0 <= j < |g'.commits| ==> g'.commits[j].term != s.term
  {
    var n := s.cfg.id;
    ElectSafe(g, n, Granted(s.votes));
    g' := Elect(g, n, Granted(s.votes));
    forall j | 0 <= j < |g.commits| ensures g.commits[j].term != s.term { assert CommitOK(g, j); }
  }

  lemma CrownedOK(g: Proto, s: NodeState) returns (g': Proto)
    requires Safe(g) && CoreRel(g, s) && CandidateRel(g, s) && HasQuorum(s.membership, Granted(s.votes))
    ensures Stepped(g, g', s.cfg.id) && Rel(g', Crowned(s))
  {
    var g1 := WonOK(g, s);
    var s1 := s.(progress := NO_PROGRESS, role := Leader);
    g' := ExtendOne(g1, s1, NoopEntry(s), s.membership);
    SteppedTrans(g, g1, g', s.cfg.id);
    CrownedRel(g', s, s1.(log := s.log + [NoopEntry(s)]));
  }

  lemma CrownedRel(g: Proto, s: NodeState, s1: NodeState)
    requires CoreRel(g, s1) && LeaderRel(g, s1) && AckOf(g, s.term, s.cfg.id) == LastIndex(s) + 1
    requires s1 == s.(progress := NO_PROGRESS, role := Leader, log := s.log + [NoopEntry(s)])
    ensures Rel(g, Crowned(s))
  {
  }

  lemma BecomeLeaderOK(g: Proto, s: NodeState) returns (g': Proto)
    requires Safe(g) && CoreRel(g, s) && CandidateRel(g, s) && HasQuorum(s.membership, Granted(s.votes))
    ensures Stepped(g, g', s.cfg.id)
    ensures var (s', u) := BecomeLeader(s); Rel(g', s') && EffectsOK(g', u) && s'.cfg == s.cfg
  {
    var g1 := CrownedOK(g, s);
    g' := PublishOK(g1, Crowned(s), NO_EFFECT.(entries := [NoopEntry(s)], roleChanged := true), false);
    SteppedTrans(g, g1, g', s.cfg.id);
  }

  // ---- votes -----------------------------------------------------------

  lemma HandleVoteOK(g: Proto, s: NodeState, m: Message) returns (g': Proto)
    requires Safe(g) && Rel(g, s) && m.Vote? && MessageOK(g, m) && m.term == s.term
    ensures Stepped(g, g', s.cfg.id)
    ensures var (s', u) := HandleVote(s, m); Rel(g', s') && EffectsOK(g', u) && s'.cfg == s.cfg
  {
    hide Safe;
    if GrantsVote(s, m) {
      LastTermRel(g, s);
      g' := Grant(g, s.cfg.id, m.from);
      GrantSafe(g, s.cfg.id, m.from);
      GrantRel(g, s, m.from);
    } else {
      g' := g;
    }
  }

  /** Granting a vote leaves a candidate's or leader's standing alone. */
  lemma GrantRel(g: Proto, s: NodeState, c: nat)
    requires Safe(g) && Rel(g, s) && Stepped(g, Grant(g, s.cfg.id, c), s.cfg.id)
    ensures Rel(Grant(g, s.cfg.id, c), VotedFor(s, c))
  {
  }

  lemma HandleVoteResponseOK(g: Proto, s: NodeState, m: Message) returns (g': Proto)
    requires Safe(g) && Rel(g, s) && m.VoteResponse? && MessageOK(g, m) && m.to == s.cfg.id
    ensures Stepped(g, g', s.cfg.id)
    ensures var (s', u) := HandleVoteResponse(s, m); Rel(g', s') && EffectsOK(g', u) && s'.cfg == s.cfg
  {
    hide Safe, HasQuorum, VoteLost, BecomeLeader, BecomeFollower, Granted, Refused;
    g' := g;
    if s.role == Candidate && m.term == s.term {
      var s1 := s.(votes := s.votes[m.from := !m.reject]);
      if HasQuorum(s1.membership, Granted(s1.votes)) {
        g' := BecomeLeaderOK(g, s1);
      } else if VoteLost(s1.membership, Refused(s1.votes)) {
        g' := BecomeFollowerOK(g, s1, s1.term, 0);
      }
    }
  }

  lemma HandlePreVoteResponseOK(g: Proto, s: NodeState, m: Message) returns (g': Proto)
    requires Safe(g) && Rel(g, s) && m.PreVoteResponse?
    ensures Stepped(g, g', s.cfg.id)
    ensures var (s', u) := HandlePreVoteResponse(s, m); Rel(g', s') && EffectsOK(g', u) && s'.cfg == s.cfg
  {
    hide Safe, HasQuorum, VoteLost, StartElection, BecomeFollower, Granted, Refused;
    g' := g;
    if m.reject && m.term > s.term {
      g' := BecomeFollowerOK(g, s, m.term, 0);
    } else if s.role == PreCandidate && (m.reject || m.term == s.term + 1) {
      var s1 := s.(votes := s.votes[m.from := !m.reject && m.term == s.term + 1]);
      if HasQuorum(s1.membership, Granted(s1.votes)) {
        g' := StartElectionOK(g, s1);
      } else if VoteLost(s1.membership, Refused(s1.votes)) {
        g' := BecomeFollowerOK(g, s1, s1.term, 0);
      }
    }
  }
}
