/** Replication: leaders append, peers accept, leaders commit. */
module ProtocolReplication {
  import opened RaftTypes
  import opened Voters
  import opened Protocol
  import opened ProtocolLogs
  import opened ProtocolFrame
  import opened ProtocolElection

  /** n leads its term and its log is the reign's. */
  ghost predicate Leads(g: Proto, n: nat) {
    && n in g.peers && g.peers[n].term in g.reigns
    && g.reigns[g.peers[n].term].leader == n
    && g.reigns[g.peers[n].term].log == g.peers[n].log
  }

  /** An entry the leader may append: the next index, its own term, and a configuration only
      on top of a committed one. */
  ghost predicate MayAppend(g: Proto, n: nat, e: Entry)
    requires Leads(g, n)
  {
    var x := g.peers[n].log;
    && e.index == |x| + 1 && e.term == g.peers[n].term
    && Valid(g.start, x + [e])
    && (IsConfig(e.payload) ==>
          Valid(g.start, x) && Known(g, x, ConfigOf(g.start, x).index, g.peers[n].term))
  }

  // ---- the leader appends ----------------------------------------------

  lemma ExtendExtends(g: Proto, n: nat, e: Entry)
    requires AcksOK(g) && Leads(g, n)
    ensures Extends(g, Extend(g, n, e))
  {
    assert (g.peers[n].term, n) in g.acks ==> AckOK(g, g.peers[n].term, n);
  }

  lemma ExtendLocal(g: Proto, n: nat, e: Entry)
    requires AcksOK(g) && Leads(g, n) && e.term == g.peers[n].term
    ensures Local(g, Extend(g, n, e), n)
  {
    ExtendExtends(g, n, e);
  }

  lemma ExtendReign(g: Proto, n: nat, e: Entry)
    requires Safe(g) && Leads(g, n) && MayAppend(g, n, e) && Local(g, Extend(g, n, e), n)
    ensures ReignOK(Extend(g, n, e), g.peers[n].term)
  {
    var g' := Extend(g, n, e);
    var t, x := g.peers[n].term, g.peers[n].log;
    assert ReignOK(g, t);
    ExtendGrounded(g, n, e);
    assert g'.reigns[t].log[..g.reigns[t].base] == x[..g.reigns[t].base];
  }

  lemma ExtendPeer(g: Proto, n: nat, e: Entry)
    requires Safe(g) && Leads(g, n) && MayAppend(g, n, e) && Local(g, Extend(g, n, e), n)
    ensures PeerOK(Extend(g, n, e), n)
  {
    var g' := Extend(g, n, e);
    var t, x := g.peers[n].term, g.peers[n].log;
    assert PeerOK(g, n);
    ExtendGrounded(g, n, e);
    KnownKept(g, g', x, g.peers[n].commit, t, t);
    assert x[..g.peers[n].commit] == (x + [e])[..g.peers[n].commit];
    KnownSame(g', x, x + [e], g.peers[n].commit, t);
  }

  lemma ExtendShape(g: Proto, n: nat, e: Entry)
    requires Safe(g) && Leads(g, n) && MayAppend(g, n, e)
    ensures var g' := Extend(g, n, e); Local(g, g', n) && Fresh(g, g', n)
  {
    ExtendLocal(g, n, e);
    ExtendReign(g, n, e);
    ExtendPeer(g, n, e);
  }

  lemma ExtendGrounded(g: Proto, n: nat, e: Entry)
    requires Leads(g, n) && Grounded(g, g.peers[n].log) && e.index == |g.peers[n].log| + 1 && e.term == g.peers[n].term
    requires Extends(g, Extend(g, n, e))
    ensures Grounded(Extend(g, n, e), g.peers[n].log + [e])
  {
    var g' := Extend(g, n, e);
    var x := g.peers[n].log;
    var y := x + [e];
    GroundedKept(g, g', x);
    forall k | 0 <= k < |y| ensures At(g', y, k) {
      if k < |x| {
        assert At(g', x, k);
        assert y[..k + 1] == x[..k + 1];
      } else {
        assert y[..k + 1] == y;
      }
    }
  }

  lemma ExtendAcks(g: Proto, n: nat, e: Entry)
    requires Safe(g) && Leads(g, n)
    requires var g' := Extend(g, n, e); Local(g, g', n) && Shape(g')
    ensures AcksKept(Extend(g, n, e))
  {
    var g' := Extend(g, n, e);
    var t, x := g.peers[n].term, g.peers[n].log;
    forall u, i: nat | (u, n) in g'.acks && i <= g'.acks[(u, n)] ensures Kept(g', x + [e], u, i, t) {
      if u != t {
        assert AckOK(g, u, n);
        assert Kept(g, g.peers[n].log, u, i, g.peers[n].term);
        assert ReignOK(g, u);
        KeptKept(g, g', n, x, u, i, t, t);
        assert g'.reigns[u].log[..i] <= x ==> g'.reigns[u].log[..i] <= x + [e];
      }
    }
    AcksKeptFrom(g, g', n);
  }

  lemma ExtendConfigs(g: Proto, n: nat, e: Entry)
    requires Safe(g) && Leads(g, n) && MayAppend(g, n, e)
    requires Extends(g, Extend(g, n, e))
    ensures ConfigsOK(Extend(g, n, e))
  {
    var g' := Extend(g, n, e);
    var t, x := g.peers[n].term, g.peers[n].log;
    assert ConfigOK(g', t, |x|) by {
      assert g'.reigns[t].log[..|x|] == x;
      if IsConfig(e.payload) {
        var p := ConfigOf(g.start, x).index;
        if p > 0 {
          var j :| 0 <= j < |g.commits| && Covers(g, j, x, p) && g.commits[j].term <= t;
          CoversKept(g, g', j, x, p);
          assert x[..p] == g'.reigns[t].log[..p];
          assert Covers(g', j, g'.reigns[t].log, p);
          forall i | 0 <= i < |g.commits| && g.commits[i].term == t ensures g.commits[i].len <= |x| {
            assert CommitOK(g, i);
          }
        }
      }
    }
    ConfigsKept(g, g');
  }

  lemma ExtendSafe(g: Proto, n: nat, e: Entry)
    requires Safe(g) && Leads(g, n) && MayAppend(g, n, e)
    ensures Stepped(g, Extend(g, n, e), n) && Leads(Extend(g, n, e), n)
  {
    var g' := Extend(g, n, e);
    ExtendShape(g, n, e);
    ShapeKept(g, g', n);
    ExtendAcks(g, n, e);
    BallotsKeptFrom(g, g', n);
    ExtendConfigs(g, n, e);
    CompleteKept(g, g');
  }

  // ---- a peer accepts --------------------------------------------------

  /** n's term has a leader whose log reaches k. */
  ghost predicate MayAccept(g: Proto, n: nat, k: nat) {
    n in g.peers && g.peers[n].term in g.reigns && k <= |g.reigns[g.peers[n].term].log|
  }

  /** y keeps all of n's log, which already agrees through k, or is the leader's log through k and loses
      nothing the two have in common. */
  ghost predicate MayTake(g: Proto, n: nat, k: nat, y: Log) {
    && MayAccept(g, n, k)
    && var x, log := g.peers[n].log, g.reigns[g.peers[n].term].log;
    (y == x && log[..k] <= x) || (y == log[..k] && Common(log, x) <= k)
  }

  lemma AcceptTakes(g: Proto, n: nat, k: nat)
    requires MayAccept(g, n, k)
    ensures var x, log := g.peers[n].log, g.reigns[g.peers[n].term].log;
      MayTake(g, n, k, if log[..k] <= x then x else log[..k])
  {
    var x, log := g.peers[n].log, g.reigns[g.peers[n].term].log;
    if k <= Common(log, x) { CommonHolds(log, x, k); }
  }

  lemma TakenLog(g: Proto, n: nat, k: nat, y: Log)
    requires Safe(g) && MayTake(g, n, k, y)
    ensures Grounded(g, y) && Valid(g.start, y) && LastTerm(y) <= g.peers[n].term
  {
    var p := g.peers[n];
    assert PeerOK(g, n) && ReignOK(g, p.term);
    hide Safe;
    if y != p.log {
      GroundedPrefix(g, g.reigns[p.term].log, k);
      ValidPrefix(g.start, g.reigns[p.term].log, k);
      assert y != [] ==> LastTerm(y) == g.reigns[p.term].log[k - 1].term;
    }
  }

  lemma TakeExtends(g: Proto, n: nat, k: nat, y: Log)
    requires MayAccept(g, n, k)
    ensures var g' := Take(g, n, k, y); Extends(g, g') && ActedOnly(g, g', n)
  {
  }

  lemma TakeLocal(g: Proto, n: nat, k: nat, y: Log)
    requires Safe(g) && MayAccept(g, n, k)
    ensures var g', t := Take(g, n, k, y), g.peers[n].term;
      Local(g, g', n) && AckOK(g', t, n) && g'.reigns == g.reigns && g'.commits == g.commits
  {
    TakeAck(g, n, k, y);
    hide Safe, Extends, ActedOnly;
    TakeExtends(g, n, k, y);
  }

  lemma TakeAck(g: Proto, n: nat, k: nat, y: Log)
    requires Safe(g) && MayAccept(g, n, k)
    ensures AckOK(Take(g, n, k, y), g.peers[n].term, n)
  {
    var t := g.peers[n].term;
    assert (t, n) in g.acks ==> AckOK(g, t, n);
  }

  lemma TakePeer(g: Proto, n: nat, k: nat, y: Log)
    requires Safe(g) && MayTake(g, n, k, y)
    ensures PeerOK(Take(g, n, k, y), n)
  {
    var g', p := Take(g, n, k, y), g.peers[n];
    assert n != 0 by { assert PeerOK(g, n); }
    TakeKeepsCommit(g, n, k, y);
    TakenLog(g, n, k, y);
    hide Safe, Known, Grounded, MayTake;
    TakeLocal(g, n, k, y);
    GroundedKept(g, g', y);
    KnownKept(g, g', y, p.commit, p.term, p.term);
  }

  lemma TakeShape(g: Proto, n: nat, k: nat, y: Log)
    requires Safe(g) && MayTake(g, n, k, y)
    ensures var g' := Take(g, n, k, y); Local(g, g', n) && Fresh(g, g', n)
  {
    hide Safe, PeerOK, Local;
    TakeLocal(g, n, k, y);
    TakePeer(g, n, k, y);
  }

  /** Taking the leader's log never touches a committed entry. */
  lemma TakeKeepsCommit(g: Proto, n: nat, k: nat, y: Log)
    requires Safe(g) && MayTake(g, n, k, y)
    ensures g.peers[n].commit <= |g.peers[n].log| && g.peers[n].log[..g.peers[n].commit] <= y
    ensures Known(g, y, g.peers[n].commit, g.peers[n].term)
  {
    var p, log := g.peers[n], g.reigns[g.peers[n].term].log;
    assert PeerOK(g, n);
    KnownHeld(g, p.log, p.commit, p.term);
    if y != p.log {
      CommonCovers(log, p.log, p.log[..p.commit]);
      PrefixOfBoth(p.log[..p.commit], y, log);
      KnownSame(g, p.log, y, p.commit, p.term);
    }
  }

  lemma TakeAcks(g: Proto, n: nat, k: nat, y: Log)
    requires Safe(g) && MayTake(g, n, k, y)
    requires var g' := Take(g, n, k, y); Local(g, g', n) && Shape(g')
    ensures AcksKept(Take(g, n, k, y))
  {
    var g' := Take(g, n, k, y);
    var t := g.peers[n].term;
    forall u, i: nat | (u, n) in g'.acks && i <= g'.acks[(u, n)] ensures Kept(g', y, u, i, t) {
      if u == t { TakeKeepsOwn(g, n, k, y, i); } else { TakeKeepsOld(g, n, k, y, u, i); }
    }
    AcksKeptFrom(g, g', n);
  }

  lemma TakeKeepsOwn(g: Proto, n: nat, k: nat, y: Log, i: nat)
    requires Safe(g) && MayTake(g, n, k, y) && i <= Max(AckOf(g, g.peers[n].term, n), k)
    ensures i <= |g.reigns[g.peers[n].term].log|
    ensures g.reigns[g.peers[n].term].log[..i] <= y
  {
    var t, p, log := g.peers[n].term, g.peers[n], g.reigns[g.peers[n].term].log;
    if i <= k {
      assert log[..i] <= log[..k];
      PrefixTrans(log[..i], log[..k], y);
    } else {
      assert AckOK(g, t, n);
      assert Kept(g, p.log, t, i, t);
      CommonCovers(log, p.log, log[..i]);
    }
  }

  /** What n acknowledged in an earlier term survives, or its term's leader lacks it. */
  lemma TakeKeepsOld(g: Proto, n: nat, k: nat, y: Log, u: nat, i: nat)
    requires Safe(g) && MayTake(g, n, k, y) && (u, n) in g.acks && i <= g.acks[(u, n)] && u != g.peers[n].term
    requires var g' := Take(g, n, k, y); Local(g, g', n)
    ensures var g' := Take(g, n, k, y);
      u in g'.reigns && i <= |g'.reigns[u].log| && Kept(g', y, u, i, g.peers[n].term)
  {
    var t, p, log := g.peers[n].term, g.peers[n], g.reigns[g.peers[n].term].log;
    assert AckOK(g, u, n);
    assert Kept(g, p.log, u, i, t);
    assert ReignOK(g, u);
    KeptKept(g, Take(g, n, k, y), n, p.log, u, i, t, t);
    var q := g.reigns[u].log[..i];
    if y != p.log && q <= p.log && q <= log {
      CommonCovers(log, p.log, q);
      PrefixOfBoth(q, y, log);
    }
  }

  lemma TakeSafe(g: Proto, n: nat, k: nat, y: Log)
    requires Safe(g) && MayTake(g, n, k, y)
    ensures Stepped(g, Take(g, n, k, y), n)
  {
    var g' := Take(g, n, k, y);
    TakeShape(g, n, k, y);
    ShapeKept(g, g', n);
    TakeAcks(g, n, k, y);
    BallotsKeptFrom(g, g', n);
    ConfigsKept(g, g');
    CompleteKept(g, g');
  }

  lemma AcceptSafe(g: Proto, n: nat, k: nat)
    requires Safe(g) && MayAccept(g, n, k)
    ensures Stepped(g, Accept(g, n, k), n)
  {
    hide Safe, Stepped, Take;
    AcceptTakes(g, n, k);
    var x, log := g.peers[n].log, g.reigns[g.peers[n].term].log;
    TakeSafe(g, n, k, if log[..k] <= x then x else log[..k]);
  }

  /** Accepting never touches a committed entry. */
  lemma AcceptKeepsCommit(g: Proto, n: nat, k: nat)
    requires Safe(g) && MayAccept(g, n, k)
    ensures Known(g, Accept(g, n, k).peers[n].log, g.peers[n].commit, g.peers[n].term)
    ensures g.peers[n].commit <= |g.peers[n].log|
    ensures g.peers[n].log[..g.peers[n].commit] <= Accept(g, n, k).peers[n].log
  {
    hide Safe, Known;
    AcceptTakes(g, n, k);
    var x, log := g.peers[n].log, g.reigns[g.peers[n].term].log;
    TakeKeepsCommit(g, n, k, if log[..k] <= x then x else log[..k]);
  }

  // ---- the leader commits ----------------------------------------------

  /** The current-term commit rule. */
  ghost predicate MayCommit(g: Proto, n: nat, i: nat, quorum: set<nat>)
    requires Leads(g, n)
  {
    var t, x := g.peers[n].term, g.peers[n].log;
    && 1 <= i <= |x| && x[i - 1].term == t
    && Valid(g.start, x) && HasQuorum(ConfigOf(g.start, x), quorum)
    && (forall v :: v in quorum ==> (t, v) in g.acks && i <= g.acks[(t, v)])
  }

  /** Leader completeness for a fresh commit: each later leader already holds it. */
  lemma {:induction false} LaterLeadersHold(g: Proto, n: nat, i: nat, quorum: set<nat>, u: nat)
    requires Safe(g) && Leads(g, n) && MayCommit(g, n, i, quorum)
    requires u in g.reigns && g.peers[n].term < u
    ensures g.peers[n].log[..i] <= g.reigns[u].log
    decreases u
  {
    var t, x := g.peers[n].term, g.peers[n].log;
    assert ReignOK(g, u) && ReignOK(g, t);
    var y := g.reigns[u].log[..g.reigns[u].base];
    assert x[..|x|] == x;
    if !(x[..i] <= y) {
      forall w | w in g.reigns && t < w < u ensures x[..i] <= g.reigns[w].log {
        LaterLeadersHold(g, n, i, quorum, w);
      }
      EarlierHeld(g, t, u);
      GroundedPrefix(g, g.reigns[u].log, g.reigns[u].base);
      assert CandidacyOK(g, u, g.reigns[u].leader);
      var v := QuorumsMeet(g, t, |x|, i, quorum, |g.commits|, y, u, g.reigns[u].voters);
      assert BallotOK(g, u, v);
      assert Kept(g, g.ballots[(u, v)].log, t, i, Horizon(u, g.ballots[(u, v)]));
      VoteCarries(g, y, g.ballots[(u, v)].log, x[..i], t, u);
    } else {
      PrefixTrans(x[..i], y, g.reigns[u].log);
    }
  }

  lemma EarlierHeld(g: Proto, t: nat, u: nat)
    requires Safe(g) && u in g.reigns && t < u
    ensures ReignOK(g, u) && HeldBefore(g, t, g.reigns[u].log[..g.reigns[u].base], |g.commits|)
  {
    AllHeldByBase(g, u);
    forall j | 0 <= j < |g.commits| && g.commits[j].term <= t
      ensures CommitOK(g, j) && Committed(g, j) <= g.reigns[u].log[..g.reigns[u].base]
    {
      assert CommitOK(g, j);
    }
  }

  lemma CommitRecordOK(g: Proto, n: nat, i: nat, quorum: set<nat>)
    requires Safe(g) && Leads(g, n) && MayCommit(g, n, i, quorum)
    ensures var g' := Commit(g, n, i, quorum); Extends(g, g') && CommitOK(g', |g.commits|) && PeerOK(g', n)
  {
    var g' := Commit(g, n, i, quorum);
    var t, x := g.peers[n].term, g.peers[n].log;
    assert PeerOK(g, n);
    GroundedKept(g, g', x);
    assert x[..|x|] == x;
    assert Covers(g', |g.commits|, x, i);
  }

  lemma CommitShape(g: Proto, n: nat, i: nat, quorum: set<nat>)
    requires Safe(g) && Leads(g, n) && MayCommit(g, n, i, quorum)
    ensures var g' := Commit(g, n, i, quorum); Local(g, g', n) && Fresh(g, g', n)
  {
    hide Safe, PeerOK, CommitOK, MayCommit, AckOK;
    CommitRecordOK(g, n, i, quorum);
    CommitLocal(g, n, i, quorum);
    OwnAck(g, n);
    AckStays(g, Commit(g, n, i, quorum), n);
    hide Local;
  }

  lemma CommitLocal(g: Proto, n: nat, i: nat, quorum: set<nat>)
    requires Leads(g, n) && Extends(g, Commit(g, n, i, quorum))
    ensures Local(g, Commit(g, n, i, quorum), n)
  {
  }

  lemma OwnAck(g: Proto, n: nat)
    requires Safe(g) && n in g.peers
    ensures (g.peers[n].term, n) in g.acks ==> AckOK(g, g.peers[n].term, n)
  {
  }

  lemma AckStays(g: Proto, g': Proto, n: nat)
    requires n in g.peers && n in g'.peers && g'.peers[n].term == g.peers[n].term && g'.reigns == g.reigns
    requires g'.acks == g.acks && ((g.peers[n].term, n) in g.acks ==> AckOK(g, g.peers[n].term, n))
    ensures (g.peers[n].term, n) in g'.acks ==> AckOK(g', g.peers[n].term, n)
  {
  }

  lemma CommitSafe(g: Proto, n: nat, i: nat, quorum: set<nat>)
    requires Safe(g) && Leads(g, n) && MayCommit(g, n, i, quorum)
    ensures Stepped(g, Commit(g, n, i, quorum), n) && Leads(Commit(g, n, i, quorum), n)
  {
    var g' := Commit(g, n, i, quorum);
    CommitShape(g, n, i, quorum);
    ShapeKept(g, g', n);
    OwnAcksKept(g, g', n);
    AcksKeptFrom(g, g', n);
    BallotsKeptFrom(g, g', n);
    ConfigsKept(g, g');
    forall u | u in g.reigns && g.peers[n].term < u ensures CommitOK(g', |g.commits|) && Holds(g', u, |g.commits|) {
      assert CommitOK(g', |g.commits|);
      LaterLeadersHold(g, n, i, quorum, u);
    }
    CompleteKept(g, g');
  }
}
