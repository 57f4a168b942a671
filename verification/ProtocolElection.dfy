/** Elections: a new leader holds every commit of earlier terms, and a term has one leader. */
module ProtocolElection {
  import opened RaftTypes
  import opened Voters
  import opened Protocol
  import opened ProtocolLogs
  import opened ProtocolFrame

  /** n stood in its term with its present log and `voters` chose it. */
  ghost predicate Elected(g: Proto, n: nat, voters: set<nat>) {
    && n in g.peers
    && var t, x := g.peers[n].term, g.peers[n].log;
    && (t, n) in g.candidacies && g.candidacies[(t, n)] == x
    && Valid(g.start, x) && HasQuorum(ConfigOf(g.start, x), voters)
    && (forall v :: v in voters ==> (t, v) in g.ballots && g.ballots[(t, v)].candidate == n)
  }

  /** The vote check passes committed entries on from the voter's log to the candidate's. */
  lemma VoteCarries(g: Proto, x: Log, y: Log, p: Log, t: nat, top: nat)
    requires ReignsOK(g) && Grounded(g, x) && Grounded(g, y) && UpToDate(x, y)
    requires p <= y && p != [] && p[|p| - 1].term == t && LastTerm(x) < top
    requires HeldUntil(g, p, t, top)
    ensures p <= x
  {
    SameAt(p, y, |p| - 1);
    LastTermBounds(g, y, |p| - 1);
    assert x != [];
    WithinReign(g, x);
    WithinReign(g, y);
    var u := LastTerm(x);
    if u > LastTerm(y) {
      assert ReignOK(g, u);
      NotShorter(g, x, p, u);
      PrefixOfBoth(p, x, g.reigns[u].log);
    } else {
      PrefixOfBoth(y, x, g.reigns[u].log);
      PrefixTrans(p, y, x);
    }
  }

  /** A log whose last term is newer than p's reaches past p. */
  lemma NotShorter(g: Proto, x: Log, p: Log, u: nat)
    requires x != [] && LastTerm(x) == u && p != [] && p[|p| - 1].term < u
    requires u in g.reigns && x <= g.reigns[u].log && p <= g.reigns[u].log && ReignOK(g, u)
    ensures |p| <= |x|
  {
    var log := g.reigns[u].log;
    SameAt(x, log, |x| - 1);
    SameAt(p, log, |p| - 1);
    assert g.reigns[u].base <= |x| - 1;
    assert |p| - 1 < g.reigns[u].base;
  }

  /** Before the election, every leader up to t holds commit j of an earlier term. */
  lemma HeldUpTo(g: Proto, j: nat, top: nat)
    requires CommitsOK(g) && Complete(g) && j < |g.commits|
    ensures CommitOK(g, j) && HeldUntil(g, Committed(g, j), g.commits[j].term, top)
  {
    assert CommitOK(g, j);
    forall u | u in g.reigns && g.commits[j].term < u < top ensures Committed(g, j) <= g.reigns[u].log {
      assert Holds(g, u, j);
    }
  }

  lemma {:induction false} NewLeaderHolds(g: Proto, n: nat, voters: set<nat>, j: nat)
    requires Safe(g) && Elected(g, n, voters)
    requires j < |g.commits| && g.commits[j].term < g.peers[n].term
    ensures CommitOK(g, j) && Committed(g, j) <= g.peers[n].log
    decreases j
  {
    var t, x, c := g.peers[n].term, g.peers[n].log, g.commits[j];
    assert CommitOK(g, j);
    assert PeerOK(g, n) && CandidacyOK(g, t, n);
    if !(Committed(g, j) <= x) {
      forall i | 0 <= i < j && g.commits[i].term <= c.term ensures CommitOK(g, i) && Committed(g, i) <= x {
        NewLeaderHolds(g, n, voters, i);
      }
      HeldUpTo(g, j, t);
      var v := QuorumsMeet(g, c.term, c.len, c.index, c.quorum, j, x, t, voters);
      VoterHeld(g, j, t, v);
      assert BallotOK(g, t, v);
      VoteCarries(g, x, g.ballots[(t, v)].log, Committed(g, j), c.term, t);
    }
  }

  /** A voter that acknowledged a commit had it in its log when it voted later. */
  lemma VoterHeld(g: Proto, j: nat, t: nat, v: nat)
    requires Safe(g) && j < |g.commits| && CommitOK(g, j) && g.commits[j].term < t
    requires v in g.commits[j].quorum && (t, v) in g.ballots
    ensures Committed(g, j) <= g.ballots[(t, v)].log
  {
    var c, b := g.commits[j], g.ballots[(t, v)];
    assert BallotOK(g, t, v);
    assert Kept(g, b.log, c.term, c.index, Horizon(t, b));
    forall u | u in g.reigns && c.term < u ensures Committed(g, j) <= g.reigns[u].log {
      assert Holds(g, u, j);
    }
  }

  lemma AllHeldByCandidate(g: Proto, n: nat, voters: set<nat>)
    requires Safe(g) && Elected(g, n, voters) && g.peers[n].term > 0
    ensures HeldBefore(g, g.peers[n].term - 1, g.peers[n].log, |g.commits|)
  {
    forall j | 0 <= j < |g.commits| && g.commits[j].term <= g.peers[n].term - 1
      ensures CommitOK(g, j) && Committed(g, j) <= g.peers[n].log
    {
      NewLeaderHolds(g, n, voters, j);
    }
  }

  /** What a leader brought holds every commit of earlier terms. */
  lemma AllHeldByBase(g: Proto, t: nat)
    requires Safe(g) && t in g.reigns
    ensures ReignOK(g, t)
    ensures HeldBefore(g, t - 1, g.reigns[t].log[..g.reigns[t].base], |g.commits|)
  {
    assert ReignOK(g, t);
    forall j | 0 <= j < |g.commits| && g.commits[j].term <= t - 1
      ensures CommitOK(g, j) && Committed(g, j) <= g.reigns[t].log[..g.reigns[t].base]
    {
      var c := g.commits[j];
      assert CommitOK(g, j);
      assert Holds(g, t, j);
      assert ReignOK(g, c.term);
      WithinBase(g, t, Committed(g, j), c.term);
    }
  }

  /** Two logs that could each lead term t have meeting election quorums. */
  lemma ElectorsMeet(g: Proto, x: Log, y: Log, t: nat, a: set<nat>, b: set<nat>) returns (v: nat)
    requires Safe(g) && t > 0
    requires Grounded(g, x) && Valid(g.start, x) && LastTerm(x) < t && HeldBefore(g, t - 1, x, |g.commits|)
    requires Grounded(g, y) && Valid(g.start, y) && LastTerm(y) < t && HeldBefore(g, t - 1, y, |g.commits|)
    requires HasQuorum(ConfigOf(g.start, x), a) && HasQuorum(ConfigOf(g.start, y), b)
    ensures v in a && v in b
  {
    GroundedSide(g, x, y, t - 1);
    GroundedSide(g, y, x, t - 1);
    CommonSymmetric(x, y);
    GroundedNumbered(g, x);
    GroundedNumbered(g, y);
    v := MeetFrom(g.start, x, y, a, b);
  }

  lemma CommonSymmetric(x: Log, y: Log)
    ensures Common(x, y) == Common(y, x)
  {
    HeldPastParting(x, y, Common(y, x));
    HeldPastParting(y, x, Common(x, y));
  }

  /** Election safety: the term of a newly elected peer had no other leader. */
  lemma TermIsFree(g: Proto, n: nat, voters: set<nat>)
    requires Safe(g) && Elected(g, n, voters)
    requires g.peers[n].term in g.reigns ==> g.reigns[g.peers[n].term].leader != n
    ensures g.peers[n].term !in g.reigns
  {
    var t, x := g.peers[n].term, g.peers[n].log;
    if t in g.reigns {
      AllHeldByBase(g, t);
      AllHeldByCandidate(g, n, voters);
      assert PeerOK(g, n) && CandidacyOK(g, t, n);
      var y := g.reigns[t].log[..g.reigns[t].base];
      assert CandidacyOK(g, t, g.reigns[t].leader);
      var v := ElectorsMeet(g, x, y, t, voters, g.reigns[t].voters);
    }
  }

  // ---- the new reign ---------------------------------------------------

  lemma NewReignLocal(g: Proto, n: nat, voters: set<nat>)
    requires Safe(g) && Elected(g, n, voters) && g.peers[n].term !in g.reigns
    ensures Local(g, Elect(g, n, voters), n)
  {
    if (g.peers[n].term, n) in g.acks { AckedReign(g, g.peers[n].term, n); }
  }

  lemma AckedReign(g: Proto, t: nat, v: nat)
    requires AcksOK(g) && (t, v) in g.acks
    ensures t in g.reigns
  {
    assert AckOK(g, t, v);
  }

  lemma NewReignOK(g: Proto, n: nat, voters: set<nat>)
    requires Safe(g) && Elected(g, n, voters) && g.peers[n].term !in g.reigns
    requires Extends(g, Elect(g, n, voters))
    ensures ReignOK(Elect(g, n, voters), g.peers[n].term) && PeerOK(Elect(g, n, voters), n)
  {
    var g' := Elect(g, n, voters);
    var t, x := g.peers[n].term, g.peers[n].log;
    assert PeerOK(g, n) && CandidacyOK(g, t, n);
    forall v | v in voters ensures !g.ballots[(t, v)].late { assert BallotOK(g, t, v); }
    forall k | 0 <= k < |x| ensures x[k].term < t { LastTermBounds(g, x, k); }
    hide Safe, Grounded, Known, Extends, HasQuorum, Fold;
    GroundedKept(g, g', x);
    KnownKept(g, g', x, g.peers[n].commit, t, t);
    assert x[..|x|] == x;
  }

  lemma NewReignShape(g: Proto, n: nat, voters: set<nat>)
    requires Safe(g) && Elected(g, n, voters) && g.peers[n].term !in g.reigns
    ensures var g' := Elect(g, n, voters); Local(g, g', n) && Fresh(g, g', n)
  {
    NewReignLocal(g, n, voters);
    NewReignOK(g, n, voters);
    hide Safe, PeerOK, ReignOK, Extends, ActedOnly, Elected;
  }

  lemma NewReignConfigs(g: Proto, n: nat, voters: set<nat>)
    requires Safe(g) && Elected(g, n, voters) && g.peers[n].term !in g.reigns
    requires Extends(g, Elect(g, n, voters))
    ensures ConfigsOK(Elect(g, n, voters))
  {
    var g' := Elect(g, n, voters);
    var t, x := g.peers[n].term, g.peers[n].log;
    assert PeerOK(g, n);
    forall k | 0 <= k < |x| ensures ConfigOK(g', t, k) { InheritedConfig(g, n, voters, k); }
    ConfigsKept(g, g');
  }

  lemma InheritedConfig(g: Proto, n: nat, voters: set<nat>, k: nat)
    requires Safe(g) && Elected(g, n, voters) && g.peers[n].term !in g.reigns
    requires Extends(g, Elect(g, n, voters)) && k < |g.peers[n].log|
    ensures ConfigOK(Elect(g, n, voters), g.peers[n].term, k)
  {
    var g' := Elect(g, n, voters);
    var t, x := g.peers[n].term, g.peers[n].log;
    assert PeerOK(g, n);
    ValidPrefix(g.start, x, k);
    if IsConfig(x[k].payload) {
      GroundedNumbered(g, x);
      ConfigAt(g.start, x[..k]);
      var p := ConfigOf(g.start, x[..k]).index;
      if p > 0 {
        var j := BackingOf(g, x, k + 1, p);
        CoversKept(g, g', j, x, p);
        forall i | 0 <= i < |g.commits| ensures g.commits[i].term != t { assert CommitOK(g, i); }
      }
    }
  }

  lemma NewReignAcks(g: Proto, n: nat, voters: set<nat>)
    requires Safe(g) && Elected(g, n, voters) && g.peers[n].term !in g.reigns
    requires var g' := Elect(g, n, voters); Local(g, g', n) && Shape(g')
    ensures AcksKept(Elect(g, n, voters))
  {
    var g' := Elect(g, n, voters);
    var t, x := g.peers[n].term, g.peers[n].log;
    forall u, i: nat | (u, n) in g'.acks && i <= g'.acks[(u, n)] ensures Kept(g', x, u, i, t) {
      if u == t {
        assert g'.reigns[t].log[..i] <= x;
      } else {
        assert AckOK(g, u, n);
        assert Kept(g, g.peers[n].log, u, i, g.peers[n].term);
        assert ReignOK(g, u);
        KeptKept(g, g', n, x, u, i, t, t);
      }
    }
    AcksKeptFrom(g, g', n);
  }

  lemma ElectSafe(g: Proto, n: nat, voters: set<nat>)
    requires Safe(g) && Elected(g, n, voters)
    requires g.peers[n].term in g.reigns ==> g.reigns[g.peers[n].term].leader != n
    ensures g.peers[n].term !in g.reigns
    ensures Stepped(g, Elect(g, n, voters), n)
  {
    TermIsFree(g, n, voters);
    var g' := Elect(g, n, voters);
    var t := g.peers[n].term;
    NewReignShape(g, n, voters);
    ShapeKept(g, g', n);
    NewReignAcks(g, n, voters);
    BallotsKeptFrom(g, g', n);
    NewReignConfigs(g, n, voters);
    NewReignComplete(g, n, voters);
  }

  lemma NewReignComplete(g: Proto, n: nat, voters: set<nat>)
    requires Safe(g) && Elected(g, n, voters) && g.peers[n].term !in g.reigns
    requires var g' := Elect(g, n, voters); Extends(g, g') && CommitsOK(g')
    ensures Complete(Elect(g, n, voters))
  {
    var g' := Elect(g, n, voters);
    var t := g.peers[n].term;
    forall j | 0 <= j < |g.commits| && g.commits[j].term < t ensures CommitOK(g', j) && Holds(g', t, j) {
      NewLeaderHolds(g, n, voters, j);
      CommitKept(g, g', j);
    }
    CompleteKept(g, g');
  }
}
