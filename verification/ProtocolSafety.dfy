/** What a safe protocol state promises: agreement on committed entries, one leader per term,
    leader completeness, and reads that see every earlier commit. */
module ProtocolSafety {
  import opened RaftTypes
  import opened Voters
  import opened Protocol
  import opened ProtocolLogs
  import opened ProtocolFrame
  import opened ProtocolElection
  import opened ProtocolReplication

  /** Any two commits agree: the shorter committed log is a prefix of the longer. */
  lemma CommitsAgree(g: Proto, i: nat, j: nat)
    requires Safe(g) && i < |g.commits| && j < |g.commits|
    ensures CommitOK(g, i) && CommitOK(g, j)
    ensures Committed(g, i) <= Committed(g, j) || Committed(g, j) <= Committed(g, i)
  {
    assert CommitOK(g, i) && CommitOK(g, j);
    var a, b := g.commits[i].term, g.commits[j].term;
    var t := Max(a, b);
    assert a < t ==> Holds(g, t, i);
    assert b < t ==> Holds(g, t, j);
    if g.commits[i].index <= g.commits[j].index {
      PrefixOfBoth(Committed(g, i), Committed(g, j), g.reigns[t].log);
    } else {
      PrefixOfBoth(Committed(g, j), Committed(g, i), g.reigns[t].log);
    }
  }

  /** Entry e at its index was committed. */
  ghost predicate Decided(g: Proto, e: Entry) {
    exists j :: 0 <= j < |g.commits| && DecidedBy(g, j, e)
  }

  ghost predicate DecidedBy(g: Proto, j: nat, e: Entry)
    requires j < |g.commits|
  {
    CommitOK(g, j) && 1 <= e.index <= g.commits[j].index && Committed(g, j)[e.index - 1] == e
  }

  /** State machine safety: two decided entries at one index are the same entry. */
  lemma DecisionsAgree(g: Proto, d: Entry, e: Entry)
    requires Safe(g) && Decided(g, d) && Decided(g, e) && d.index == e.index
    ensures d == e
  {
    var i :| 0 <= i < |g.commits| && DecidedBy(g, i, d);
    var j :| 0 <= j < |g.commits| && DecidedBy(g, j, e);
    CommitsAgree(g, i, j);
    if Committed(g, i) <= Committed(g, j) {
      SameAt(Committed(g, i), Committed(g, j), d.index - 1);
    } else {
      SameAt(Committed(g, j), Committed(g, i), d.index - 1);
    }
  }

  lemma DecidedKept(g: Proto, g': Proto, e: Entry)
    requires Extends(g, g') && Decided(g, e)
    ensures Decided(g', e)
  {
    var j :| 0 <= j < |g.commits| && DecidedBy(g, j, e);
    CommitKept(g, g', j);
    assert DecidedBy(g', j, e);
  }

  /** What a log knows to be committed is decided. */
  lemma KnownDecided(g: Proto, x: Log, c: nat, t: nat, k: nat)
    requires CommitsOK(g) && Known(g, x, c, t) && k < c && x[k].index == k + 1
    ensures Decided(g, x[k])
  {
    var j :| 0 <= j < |g.commits| && Covers(g, j, x, c) && g.commits[j].term <= t;
    assert CommitOK(g, j);
    SameAt(x[..c], g.reigns[g.commits[j].term].log, k);
    assert DecidedBy(g, j, x[k]);
  }

  /** Every commit index a peer has reached lies within some commit record. */
  lemma CommitRecorded(g: Proto, n: nat) returns (j: nat)
    requires Safe(g) && n in g.peers && g.peers[n].commit > 0
    ensures j < |g.commits| && g.peers[n].commit <= g.commits[j].index
  {
    assert PeerOK(g, n);
    j :| 0 <= j < |g.commits| && Covers(g, j, g.peers[n].log, g.peers[n].commit)
      && g.commits[j].term <= g.peers[n].term;
  }

  // ---- reads -----------------------------------------------------------

  /** v answered the probe: it had voted in no later term when the probe started. */
  ghost predicate Answered(g: Proto, l: nat, t: nat, context: nat, v: nat) {
    (l, t, context) in g.probes &&
    forall u :: (u, v) in g.probes[(l, t, context)].ballots ==> u <= t
  }

  /** A confirmed probe: a quorum of the leader's present configuration answered it. */
  ghost predicate Confirmed(g: Proto, n: nat, context: nat, quorum: set<nat>)
    requires Leads(g, n)
  {
    var t, x := g.peers[n].term, g.peers[n].log;
    && (n, t, context) in g.probes
    && Valid(g.start, x) && HasQuorum(ConfigOf(g.start, x), quorum)
    && (forall v :: v in quorum ==> Answered(g, n, t, context, v))
  }

  lemma OwnLogHolds(g: Proto, t: nat)
    requires Safe(g) && t in g.reigns
    ensures HeldBefore(g, t, g.reigns[t].log, |g.commits|)
  {
    forall j | 0 <= j < |g.commits| && g.commits[j].term <= t
      ensures CommitOK(g, j) && Committed(g, j) <= g.reigns[t].log
    {
      assert CommitOK(g, j);
      assert g.commits[j].term < t ==> Holds(g, t, j);
    }
  }

  /** No leader of a later term was elected before a confirmed probe started. */
  lemma {:induction false} NoLaterTerm(g: Proto, n: nat, context: nat, quorum: set<nat>, u: nat)
    requires Safe(g) && Leads(g, n) && Confirmed(g, n, context, quorum)
    requires u in g.probes[(n, g.peers[n].term, context)].terms
    ensures u <= g.peers[n].term
    decreases u
  {
    var t, x := g.peers[n].term, g.peers[n].log;
    var r := g.probes[(n, t, context)];
    assert ReadOK(g, n, t, context);
    if u > t {
      forall w | w in r.terms && w < u ensures w <= t { NoLaterTerm(g, n, context, quorum, w); }
      var y := PriorLog(g, n, context, u);
      OwnLogHolds(g, t);
      GroundedSide(g, y, x, t);
      EarlierHeld(g, t, u);
      assert ReignOK(g, t);
      GroundedSide(g, x, y, t);
      CommonSymmetric(x, y);
      GroundedNumbered(g, x);
      GroundedNumbered(g, y);
      var v := MeetFrom(g.start, x, y, quorum, g.reigns[u].voters);
    }
  }

  /** The log the first later leader brought holds no entry past term t. */
  lemma PriorLog(g: Proto, n: nat, context: nat, u: nat) returns (y: Log)
    requires Safe(g) && Leads(g, n) && (n, g.peers[n].term, context) in g.probes
    requires u in g.probes[(n, g.peers[n].term, context)].terms && u in g.reigns
    requires forall w :: w in g.probes[(n, g.peers[n].term, context)].terms && w < u ==> w <= g.peers[n].term
    ensures ReignOK(g, u) && y == g.reigns[u].log[..g.reigns[u].base]
    ensures Grounded(g, y) && LastTerm(y) <= g.peers[n].term
  {
    assert ReadOK(g, n, g.peers[n].term, context);
    assert ReignOK(g, u);
    y := g.reigns[u].log[..g.reigns[u].base];
    GroundedPrefix(g, g.reigns[u].log, g.reigns[u].base);
  }

  /** Linearizable reads: a leader that has committed in its term and whose probe is confirmed
      has a commit index at least as high as every commit made before the probe started. */
  lemma ReadSeesEarlierCommits(g: Proto, n: nat, context: nat, quorum: set<nat>, j: nat)
    requires Safe(g) && Leads(g, n) && Confirmed(g, n, context, quorum)
    requires var p := g.peers[n]; 0 < p.commit <= |p.log| && p.log[p.commit - 1].term == p.term
    requires forall i :: 0 <= i < |g.commits| && g.commits[i].term == g.peers[n].term ==>
      g.commits[i].index <= g.peers[n].commit
    requires j < g.probes[(n, g.peers[n].term, context)].commits
    ensures j < |g.commits| && g.commits[j].index <= g.peers[n].commit
  {
    var p := g.peers[n];
    assert ReadOK(g, n, p.term, context);
    assert CommitOK(g, j);
    NoLaterTerm(g, n, context, quorum, g.commits[j].term);
    if g.commits[j].term < p.term {
      AllHeldByBase(g, p.term);
      assert g.reigns[p.term].base < p.commit;
    }
  }
}
