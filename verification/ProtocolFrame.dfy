/** What one peer's step leaves alone: an invariant of the old state carries over to the new
    one except where the step itself changed something. */
module ProtocolFrame {
  import opened RaftTypes
  import opened Voters
  import opened Protocol
  import opened ProtocolLogs

  /** A step of peer n that changes records only where n may. */
  ghost predicate Local(g: Proto, g': Proto, n: nat) {
    && n in g.peers && Extends(g, g') && ActedOnly(g, g', n)
    && n in g'.peers
    && (g'.peers[n].term == g.peers[n].term && g.peers[n].vote != 0 ==> g'.peers[n].vote == g.peers[n].vote)
    && (forall t, k :: t in g.reigns && t in g'.reigns && |g.reigns[t].log| <= k < |g'.reigns[t].log| ==>
          g'.reigns[t].log[k].term == t)
    && (forall t, v :: (t, v) in g'.acks ==>
          ((t, v) in g.acks && g'.acks[(t, v)] == g.acks[(t, v)]) || (t == g'.peers[n].term && v == n))
    && (forall t, v :: (t, v) in g'.ballots ==> (t, v) in g.ballots || (t == g'.peers[n].term && v == n))
    && (forall t, v :: (t, v) in g'.candidacies ==> (t, v) in g.candidacies || (t == g'.peers[n].term && v == n))
  }

  // ---- single facts ----------------------------------------------------

  lemma GroundedKept(g: Proto, g': Proto, x: Log)
    requires Extends(g, g') && Grounded(g, x)
    ensures Grounded(g', x)
  {
    forall k | 0 <= k < |x| ensures At(g', x, k) {
      assert At(g, x, k);
      PrefixTrans(x[..k + 1], g.reigns[x[k].term].log, g'.reigns[x[k].term].log);
    }
  }

  lemma CoversKept(g: Proto, g': Proto, j: nat, x: Log, c: nat)
    requires Extends(g, g') && j < |g.commits| && c <= |x| && Covers(g, j, x, c)
    ensures Covers(g', j, x, c)
  {
    PrefixTrans(x[..c], g.reigns[g.commits[j].term].log, g'.reigns[g.commits[j].term].log);
  }

  lemma KnownKept(g: Proto, g': Proto, x: Log, c: nat, t: nat, t': nat)
    requires Extends(g, g') && Known(g, x, c, t) && t <= t'
    ensures Known(g', x, c, t')
  {
    if c > 0 {
      var j :| 0 <= j < |g.commits| && Covers(g, j, x, c) && g.commits[j].term <= t;
      CoversKept(g, g', j, x, c);
    }
  }

  /** Knowing a commit is knowing every shorter one. */
  lemma KnownShorter(g: Proto, x: Log, c: nat, c': nat, t: nat)
    requires Known(g, x, c, t) && c' <= c
    ensures Known(g, x, c', t)
  {
    if c' > 0 {
      var j :| 0 <= j < |g.commits| && Covers(g, j, x, c) && g.commits[j].term <= t;
      assert x[..c'] == x[..c][..c'];
      assert Covers(g, j, x, c');
    }
  }

  /** A known commit is the leader's too, in every later term. */
  lemma KnownHeld(g: Proto, x: Log, c: nat, t: nat)
    requires CommitsOK(g) && Complete(g) && Known(g, x, c, t) && t in g.reigns
    ensures x[..c] <= g.reigns[t].log
  {
    if c > 0 {
      var j :| 0 <= j < |g.commits| && Covers(g, j, x, c) && g.commits[j].term <= t;
      HeldByLater(g, t, x, c, j);
    }
  }

  /** Known depends only on the entries it is about. */
  lemma KnownSame(g: Proto, x: Log, y: Log, c: nat, t: nat)
    requires Known(g, x, c, t) && c <= |y| && x[..c] == y[..c]
    ensures Known(g, y, c, t)
  {
    if c > 0 {
      var j :| 0 <= j < |g.commits| && Covers(g, j, x, c) && g.commits[j].term <= t;
      assert Covers(g, j, y, c);
    }
  }

  /** A leader that lacks p never gains it. */
  lemma LacksKept(g: Proto, g': Proto, n: nat, p: Log, lo: nat, hi: nat, hi': nat)
    requires Local(g, g', n) && Lacks(g, p, lo, hi) && hi <= hi'
    requires forall k :: 0 <= k < |p| ==> p[k].term <= lo
    ensures Lacks(g', p, lo, hi')
  {
    var u :| lo < u <= hi && u in g.reigns && !(p <= g.reigns[u].log);
    NeverGains(g.reigns[u].log, g'.reigns[u].log, p, u);
    assert lo < u <= hi' && u in g'.reigns && !(p <= g'.reigns[u].log);
  }

  lemma NeverGains(x: Log, x': Log, p: Log, u: nat)
    requires x <= x' && !(p <= x)
    requires forall k :: 0 <= k < |p| ==> p[k].term < u
    requires forall k :: |x| <= k < |x'| ==> x'[k].term == u
    ensures !(p <= x')
  {
    var k := |x|;
    if |p| <= k {
      if p <= x' { PrefixOfBoth(p, x, x'); }
    } else {
      if p <= x' { SameAt(p, x', k); }
    }
  }

  lemma KeptKept(g: Proto, g': Proto, n: nat, x: Log, t: nat, i: nat, hi: nat, hi': nat)
    requires Local(g, g', n) && t in g.reigns && ReignOK(g, t) && i <= |g.reigns[t].log|
    requires Kept(g, x, t, i, hi) && hi <= hi'
    ensures t in g'.reigns && i <= |g'.reigns[t].log| && Kept(g', x, t, i, hi')
  {
    var p := g.reigns[t].log[..i];
    assert g'.reigns[t].log[..i] == p;
    if !(p <= x) {
      assert forall k :: 0 <= k < |p| ==> p[k].term <= t;
      LacksKept(g, g', n, p, t, hi, hi');
    }
  }

  // ---- parts of the shape ----------------------------------------------

  lemma ReignKept(g: Proto, g': Proto, t: nat)
    requires Extends(g, g') && t in g.reigns && ReignOK(g, t) && g'.reigns[t] == g.reigns[t]
    ensures ReignOK(g', t)
  {
    GroundedKept(g, g', g.reigns[t].log);
  }

  lemma PeerKept(g: Proto, g': Proto, n: nat)
    requires Extends(g, g') && n in g.peers && PeerOK(g, n) && g'.peers[n] == g.peers[n]
    ensures PeerOK(g', n)
  {
    var p := g.peers[n];
    GroundedKept(g, g', p.log);
    KnownKept(g, g', p.log, p.commit, p.term, p.term);
  }

  lemma CandidacyKept(g: Proto, g': Proto, n: nat, t: nat, m: nat)
    requires Local(g, g', n) && PeersOK(g) && (t, m) in g.candidacies && CandidacyOK(g, t, m)
    ensures CandidacyOK(g', t, m)
  {
    assert PeerOK(g, m);
    GroundedKept(g, g', g.candidacies[(t, m)]);
  }

  lemma BallotShapeKept(g: Proto, g': Proto, n: nat, t: nat, v: nat)
    requires Local(g, g', n) && PeersOK(g) && CandidaciesOK(g)
    requires (t, v) in g.ballots && BallotOK(g, t, v)
    ensures BallotOK(g', t, v)
  {
    var b := g.ballots[(t, v)];
    GroundedKept(g, g', b.log);
    assert CandidacyOK(g, t, b.candidate);
    assert PeerOK(g, b.candidate);
  }

  lemma CommitKept(g: Proto, g': Proto, j: nat)
    requires Extends(g, g') && j < |g.commits| && CommitOK(g, j)
    ensures j < |g'.commits| && CommitOK(g', j) && Committed(g', j) == Committed(g, j)
  {
    var c := g.commits[j];
    assert g'.commits[j] == c;
    assert g'.reigns[c.term].log[..c.len] == g.reigns[c.term].log[..c.len];
    SameAt(g.reigns[c.term].log, g'.reigns[c.term].log, c.index - 1);
  }

  lemma ReadKept(g: Proto, g': Proto, l: nat, t: nat, c: nat)
    requires Extends(g, g') && ReignsOK(g) && (l, t, c) in g.probes && ReadOK(g, l, t, c)
    ensures ReadOK(g', l, t, c)
  {
    var r := g.probes[(l, t, c)];
    forall u, k | u in r.terms && u in g'.reigns && 0 <= k < g'.reigns[u].base && k < |g'.reigns[u].log|
      ensures g'.reigns[u].log[k].term in r.terms
    {
      assert ReignOK(g, u);
      SameAt(g.reigns[u].log, g'.reigns[u].log, k);
    }
    forall j | 0 <= j < r.commits ensures g'.commits[j].term in r.terms {
      assert g'.commits[j] == g.commits[j];
    }
  }

  lemma BackedKept(g: Proto, g': Proto, t: nat, k: nat, p: nat)
    requires Extends(g, g') && t in g.reigns && k < |g.reigns[t].log| && p <= k && Backed(g, t, k, p)
    ensures t in g'.reigns && k < |g'.reigns[t].log| && Backed(g', t, k, p)
  {
    var log, log' := g.reigns[t].log, g'.reigns[t].log;
    var j :| 0 <= j < |g.commits| && Covers(g, j, log, p)
      && g.commits[j].term <= log[k].term
      && (forall i :: 0 <= i < |g.commits| && g.commits[i].term == t && k < g.commits[i].len ==> j < i);
    CoversKept(g, g', j, log, p);
    assert log[..p] == log'[..p];
    SameAt(log, log', k);
    assert g'.commits[j] == g.commits[j];
    forall i | 0 <= i < |g'.commits| && g'.commits[i].term == t && k < g'.commits[i].len ensures j < i {
      if i < |g.commits| { assert g'.commits[i] == g.commits[i]; }
    }
    assert Covers(g', j, log', p);
  }

  lemma ConfigKept(g: Proto, g': Proto, t: nat, k: nat)
    requires Extends(g, g') && t in g.reigns && k < |g.reigns[t].log| && ConfigOK(g, t, k)
    ensures t in g'.reigns && k < |g'.reigns[t].log| && ConfigOK(g', t, k)
  {
    SameAt(g.reigns[t].log, g'.reigns[t].log, k);
    assert g'.reigns[t].log[..k] == g.reigns[t].log[..k];
    if IsConfig(g.reigns[t].log[k].payload) {
      var p := ConfigOf(g.start, g.reigns[t].log[..k]).index;
      if p != 0 { BackedKept(g, g', t, k, p); }
    }
  }

  lemma HoldsKept(g: Proto, g': Proto, t: nat, j: nat)
    requires Extends(g, g') && j < |g.commits| && CommitOK(g, j) && t in g.reigns && Holds(g, t, j)
    ensures j < |g'.commits| && t in g'.reigns && CommitOK(g', j) && Holds(g', t, j)
  {
    CommitKept(g, g', j);
    PrefixTrans(Committed(g, j), g.reigns[t].log, g'.reigns[t].log);
  }

  // ---- the whole -------------------------------------------------------

  /** What a step must show about the records it touched. */
  ghost predicate Fresh(g: Proto, g': Proto, n: nat)
    requires Local(g, g', n)
  {
    && PeerOK(g', n)
    && (forall t {:trigger ReignOK(g', t)} :: t in g'.reigns ==>
          (t in g.reigns && g'.reigns[t] == g.reigns[t]) || ReignOK(g', t))
    && (var t := g'.peers[n].term;
        && ((t, n) in g'.candidacies ==> (t, n) in g.candidacies || CandidacyOK(g', t, n))
        && ((t, n) in g'.ballots ==> (t, n) in g.ballots || BallotOK(g', t, n))
        && ((t, n) in g'.acks ==> AckOK(g', t, n)))
    && (forall j {:trigger CommitOK(g', j)} :: |g.commits| <= j < |g'.commits| ==> CommitOK(g', j))
    && (forall l, t, c {:trigger ReadOK(g', l, t, c)} ::
          (l, t, c) in g'.probes && (l, t, c) !in g.probes ==> ReadOK(g', l, t, c))
  }

  lemma ShapeReigns(g: Proto, g': Proto, n: nat)
    requires Shape(g) && Local(g, g', n) && Fresh(g, g', n)
    ensures ReignsOK(g') && PeersOK(g')
  {
    forall t | t in g'.reigns ensures ReignOK(g', t) {
      if t in g.reigns && g'.reigns[t] == g.reigns[t] {
        assert ReignOK(g, t);
        ReignKept(g, g', t);
      }
    }
    forall m | m in g'.peers ensures PeerOK(g', m) {
      if m != n { assert PeerOK(g, m); PeerKept(g, g', m); }
    }
  }

  lemma ShapeVotes(g: Proto, g': Proto, n: nat)
    requires Shape(g) && Local(g, g', n) && Fresh(g, g', n)
    ensures CandidaciesOK(g') && BallotsOK(g')
  {
    forall t, m | (t, m) in g'.candidacies ensures CandidacyOK(g', t, m) {
      if (t, m) in g.candidacies { assert CandidacyOK(g, t, m); CandidacyKept(g, g', n, t, m); }
    }
    forall t, v | (t, v) in g'.ballots ensures BallotOK(g', t, v) {
      if (t, v) in g.ballots { assert BallotOK(g, t, v); BallotShapeKept(g, g', n, t, v); }
    }
  }

  lemma ShapeAcks(g: Proto, g': Proto, n: nat)
    requires Shape(g) && Local(g, g', n) && Fresh(g, g', n)
    ensures AcksOK(g')
  {
    forall t, v | (t, v) in g'.acks ensures AckOK(g', t, v) {
      if !(t == g'.peers[n].term && v == n) { assert AckOK(g, t, v); }
    }
  }

  lemma ShapeCommits(g: Proto, g': Proto, n: nat)
    requires Shape(g) && Local(g, g', n) && Fresh(g, g', n)
    ensures CommitsOK(g') && ReadsOK(g')
  {
    forall j | 0 <= j < |g'.commits| ensures CommitOK(g', j) {
      if j < |g.commits| { assert CommitOK(g, j); CommitKept(g, g', j); }
    }
    forall l, t, c | (l, t, c) in g'.probes ensures ReadOK(g', l, t, c) {
      if (l, t, c) in g.probes { assert ReadOK(g, l, t, c); ReadKept(g, g', l, t, c); }
    }
  }

  lemma ShapeKept(g: Proto, g': Proto, n: nat)
    requires Shape(g) && Local(g, g', n) && Fresh(g, g', n)
    ensures Shape(g')
  {
    ShapeReigns(g, g', n);
    ShapeVotes(g, g', n);
    ShapeAcks(g, g', n);
    ShapeCommits(g, g', n);
  }

  /** Acknowledgements: others' are as before; n's must be shown. */
  lemma AcksKeptFrom(g: Proto, g': Proto, n: nat)
    requires Shape(g) && AcksKept(g) && Local(g, g', n) && Shape(g')
    requires forall t, i: nat {:trigger Kept(g', g'.peers[n].log, t, i, g'.peers[n].term)} ::
      (t, n) in g'.acks && i <= g'.acks[(t, n)] ==> Kept(g', g'.peers[n].log, t, i, g'.peers[n].term)
    ensures AcksKept(g')
  {
    forall t, v, i: nat | (t, v) in g'.acks && i <= g'.acks[(t, v)]
      ensures Kept(g', g'.peers[v].log, t, i, g'.peers[v].term)
    {
      if v != n {
        assert AckOK(g, t, v);
        assert Kept(g, g.peers[v].log, t, i, g.peers[v].term);
        assert ReignOK(g, t);
        KeptKept(g, g', n, g.peers[v].log, t, i, g.peers[v].term, g.peers[v].term);
      }
    }
  }

  /** n's own acknowledgements, when its log did not change. */
  lemma OwnAcksKept(g: Proto, g': Proto, n: nat)
    requires Shape(g) && AcksKept(g) && Local(g, g', n)
    requires g'.peers[n].log == g.peers[n].log && g'.acks == g.acks
    ensures forall t, i: nat {:trigger Kept(g', g'.peers[n].log, t, i, g'.peers[n].term)} ::
      (t, n) in g'.acks && i <= g'.acks[(t, n)] ==>
        t in g'.reigns && i <= |g'.reigns[t].log| && Kept(g', g'.peers[n].log, t, i, g'.peers[n].term)
  {
    forall t, i: nat | (t, n) in g'.acks && i <= g'.acks[(t, n)]
      ensures t in g'.reigns && i <= |g'.reigns[t].log| && Kept(g', g'.peers[n].log, t, i, g'.peers[n].term)
    {
      assert AckOK(g, t, n);
      assert Kept(g, g.peers[n].log, t, i, g.peers[n].term);
      assert ReignOK(g, t);
      KeptKept(g, g', n, g.peers[n].log, t, i, g.peers[n].term, g'.peers[n].term);
    }
  }

  lemma BallotsKeptFrom(g: Proto, g': Proto, n: nat)
    requires Shape(g) && BallotsKept(g) && Local(g, g', n) && Shape(g')
    requires var t := g'.peers[n].term;
      (t, n) in g'.ballots && (t, n) !in g.ballots ==>
        BallotKept(g', g'.ballots[(t, n)].log, n, t, Horizon(t, g'.ballots[(t, n)]))
    ensures BallotsKept(g')
  {
    forall t, v | (t, v) in g'.ballots
      ensures BallotKept(g', g'.ballots[(t, v)].log, v, t, Horizon(t, g'.ballots[(t, v)]))
    {
      if (t, v) in g.ballots {
        assert BallotOK(g, t, v);
        BallotKeptKept(g, g', n, t, v, Horizon(t, g.ballots[(t, v)]));
      }
    }
  }

  lemma BallotKeptKept(g: Proto, g': Proto, n: nat, t: nat, v: nat, hi: int)
    requires Shape(g) && Local(g, g', n) && AcksOK(g')
    requires (t, v) in g.ballots && BallotOK(g, t, v) && BallotKept(g, g.ballots[(t, v)].log, v, t, hi)
    ensures BallotKept(g', g.ballots[(t, v)].log, v, t, hi)
  {
    var x := g.ballots[(t, v)].log;
    forall t0, i: nat | (t0, v) in g'.acks && t0 < t && i <= g'.acks[(t0, v)] && t0 <= hi
      ensures Kept(g', x, t0, i, hi)
    {
      assert g.peers[v].term <= g'.peers[v].term;
      assert AckOK(g, t0, v);
      assert Kept(g, x, t0, i, hi);
      assert ReignOK(g, t0);
      KeptKept(g, g', n, x, t0, i, hi, hi);
    }
  }

  lemma ConfigsKept(g: Proto, g': Proto)
    requires ConfigsOK(g) && Extends(g, g')
    requires forall t, k {:trigger ConfigOK(g', t, k)} ::
      t in g'.reigns && 0 <= k < |g'.reigns[t].log| && !(t in g.reigns && k < |g.reigns[t].log|) ==> ConfigOK(g', t, k)
    ensures ConfigsOK(g')
  {
    forall t, k | t in g'.reigns && 0 <= k < |g'.reigns[t].log| ensures ConfigOK(g', t, k) {
      if t in g.reigns && k < |g.reigns[t].log| {
        assert ConfigOK(g, t, k);
        ConfigKept(g, g', t, k);
      }
    }
  }

  lemma CompleteKept(g: Proto, g': Proto)
    requires CommitsOK(g) && Complete(g) && Extends(g, g') && CommitsOK(g')
    requires forall j, t {:trigger Holds(g', t, j)} ::
      0 <= j < |g'.commits| && t in g'.reigns && g'.commits[j].term < t && !(j < |g.commits| && t in g.reigns) ==>
        CommitOK(g', j) && Holds(g', t, j)
    ensures Complete(g')
  {
    forall j, t | 0 <= j < |g'.commits| && t in g'.reigns && g'.commits[j].term < t
      ensures CommitOK(g', j) && Holds(g', t, j)
    {
      if j < |g.commits| && t in g.reigns {
        assert CommitOK(g, j);
        assert g'.commits[j] == g.commits[j];
        assert Holds(g, t, j);
        HoldsKept(g, g', t, j);
      } else {
        assert CommitOK(g', j);
      }
    }
  }
}
