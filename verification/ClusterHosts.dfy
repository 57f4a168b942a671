/** Carrying out what a node computed keeps its host in step with a safe protocol. */
module ClusterHosts {
  import opened RaftTypes
  import opened Voters
  import opened Protocol
  import opened ProtocolLogs
  import opened ProtocolSafety
  import opened RaftCore
  import opened Stable
  import opened NodeInvariant
  import opened NodeSizes
  import opened Simulation
  import opened Pipeline
  import opened Cluster

  /** Some commit reached index f. */
  ghost predicate Reached(g: Proto, f: nat) {
    f == 0 || exists j :: 0 <= j < |g.commits| && f <= g.commits[j].index
  }

  /** Some commit reached index f before the probe started. */
  ghost predicate Floor(g: Proto, key: (nat, nat, nat), f: nat)
    requires key in g.probes
  {
    f == 0 || exists j :: 0 <= j < g.probes[key].commits && j < |g.commits| && f <= g.commits[j].index
  }

  /** The store equals the node, the machine has applied exactly the committed prefix. */
  ghost predicate NodeHeld(g: Proto, n: nat, h: Host) {
    && h.node.cfg.id == n && Inv(h.node) && Fits(h.node) && Rel(g, h.node)
    && h.store == DurableOf(h.node)
    && h.machine == g.peers[n].log[..h.node.commit]
  }

  ghost predicate ReadHeld(g: Proto, n: nat, term: nat, x: nat, r: Read) {
    && (n, term, x) in g.probes
    && (forall v :: v in r.acks ==> Answered(g, n, term, x, v))
    && (forall f :: f in r.floors ==> Floor(g, (n, term, x), f))
  }

  /** The last committed entry is of the peer's own term. */
  ghost predicate TermCommitted(g: Proto, n: nat)
    requires n in g.peers
  {
    var p := g.peers[n];
    0 < p.commit <= |p.log| && p.log[p.commit - 1].term == p.term
  }

  ghost predicate PendingHeld(g: Proto, n: nat, h: Host) {
    && (forall x {:trigger ReadHeld(g, n, h.node.term, x, h.pending[x])} ::
          x in h.pending ==> ReadHeld(g, n, h.node.term, x, h.pending[x]))
    && (h.pending != map[] ==> h.node.role == Leader && n in g.peers && TermCommitted(g, n))
  }

  /** A leader's probe contexts are the ones its process has handed out. */
  ghost predicate ContextsHeld(g: Proto, n: nat, h: Host) {
    h.node.role == Leader ==> forall x :: (n, h.node.term, x) in g.probes ==> x <= h.contexts
  }

  ghost predicate HostHeld(g: Proto, n: nat, h: Host) {
    && NodeHeld(g, n, h) && PendingHeld(g, n, h) && ContextsHeld(g, n, h)
    && (forall f :: f in h.queue ==> Reached(g, f))
  }

  // ---- what an extension keeps -----------------------------------------

  lemma ReachedKept(g: Proto, g': Proto, f: nat)
    requires Extends(g, g') && Reached(g, f)
    ensures Reached(g', f)
  {
    if f > 0 {
      var j :| 0 <= j < |g.commits| && f <= g.commits[j].index;
      assert g'.commits[j] == g.commits[j];
    }
  }

  lemma ReadStays(g: Proto, g': Proto, n: nat, term: nat, x: nat, r: Read)
    requires Extends(g, g') && ReadHeld(g, n, term, x, r)
    ensures ReadHeld(g', n, term, x, r)
  {
    var key := (n, term, x);
    forall f | f in r.floors ensures Floor(g', key, f) {
      if f > 0 {
        var j :| 0 <= j < g.probes[key].commits && j < |g.commits| && f <= g.commits[j].index;
        assert g'.commits[j] == g.commits[j];
      }
    }
  }

  /** A committed prefix is never replaced. */
  lemma PrefixKept(g: Proto, g': Proto, n: nat)
    requires Safe(g) && Safe(g') && Extends(g, g') && n in g.peers && g.peers[n].commit <= g'.peers[n].commit
    ensures g.peers[n].commit <= |g.peers[n].log| && g'.peers[n].commit <= |g'.peers[n].log|
    ensures g.peers[n].log[..g.peers[n].commit] <= g'.peers[n].log
  {
    hide Safe;
    PeerDecided(g, n);
    PeerDecided(g', n);
    var p, p' := g.peers[n], g'.peers[n];
    forall k | 0 <= k < p.commit ensures p.log[k] == p'.log[k] {
      DecidedKept(g, g', p.log[k]);
      DecisionsAgree(g', p.log[k], p'.log[k]);
    }
  }

  lemma PeerDecided(g: Proto, n: nat)
    requires Safe(g) && n in g.peers
    ensures g.peers[n].commit <= |g.peers[n].log|
    ensures var p := g.peers[n]; forall k :: 0 <= k < p.commit ==> p.log[k].index == k + 1 && Decided(g, p.log[k])
  {
    var p := g.peers[n];
    assert PeerOK(g, n);
    GroundedNumbered(g, p.log);
    forall k | 0 <= k < p.commit ensures Decided(g, p.log[k]) { KnownDecided(g, p.log, p.commit, p.term, k); }
  }

  // ---- processing an update --------------------------------------------

  /** The machine after an update: the committed prefix of the new log, with no apply gap. */
  lemma MachineHeld(g: Proto, g': Proto, n: nat, h: Host, s: NodeState, u: Update)
    requires Safe(g) && Safe(g') && Extends(g, g') && NodeHeld(g, n, h)
    requires Transition(h.node, s, u) && Rel(g', s)
    ensures var restored := Restored(h.machine, DurableOf(s), u);
      && restored.Some?
      && ApplyAll(restored.value, u.committed) == Some(g'.peers[n].log[..s.commit])
  {
    hide Safe, Persisted, Rebuilt, Fold, LeaderRel, CandidateRel, SnapshotValid;
    PrefixKept(g, g', n);
    var x := g'.peers[n].log;
    assert h.machine == x[..h.node.commit];
    if u.snapshot.Some? {
      ApplyInOrder(Restored(h.machine, DurableOf(s), u).value, u.committed);
    } else {
      forall k | 0 <= k < |u.committed|
        ensures u.committed[k] == x[h.node.commit + k] && u.committed[k].index == h.node.commit + k + 1
      {
        var i := h.node.commit + 1 + k;
        assert InLog(s, i, u.committed[k]);
        assert s.log[i - s.snapshot.index - 1].index == i;
        assert s.log[i - s.snapshot.index - 1] == x[i - 1];
      }
      ApplyInOrder(h.machine, u.committed);
      assert h.machine + u.committed == x[..s.commit];
    }
  }

  /** The host that has carried out an update. */
  function Finished(g: Proto, n: nat, h: Host, s: NodeState, u: Update): Host
    requires n in g.peers && s.commit <= |g.peers[n].log|
  {
    h.(node := s, store := DurableOf(s), machine := g.peers[n].log[..s.commit],
       pending := if u.roleChanged && s.role != Leader then map[] else h.pending)
  }

  /** Processing an update finishes it exactly when the machine refuses none of its commands. */
  lemma ProcessHeld(g: Proto, g': Proto, n: nat, h: Host, s: NodeState, u: Update)
    requires Safe(g) && Safe(g') && Extends(g, g') && NodeHeld(g, n, h)
    requires Transition(h.node, s, u) && Rel(g', s) && Fitting(u)
    ensures n in g'.peers && s.commit <= |g'.peers[n].log| && NodeHeld(g', n, Finished(g', n, h, s, u))
    ensures Process(h, s, u) == if RefusesAny(h, u.committed) then None else Some(Finished(g', n, h, s, u))
  {
    MachineHeld(g, g', n, h, s, u);
    FitsKept(h.node, s, u);
    hide Safe, Restored, ApplyAll, KeepsCommitted, Reports, KeepsVote, Fits, RefusesAny, AllFit, Fold;
  }

  /** An update carried out in part brings the machine no further than the whole. */
  lemma PartApplied(g: Proto, g': Proto, n: nat, h: Host, s: NodeState, u: Update, done: seq<Entry>)
    requires Safe(g) && Safe(g') && Extends(g, g') && NodeHeld(g, n, h)
    requires Transition(h.node, s, u) && Rel(g', s) && Fitting(u) && done <= u.committed
    ensures n in g'.peers && s.commit <= |g'.peers[n].log|
    ensures var carried := Carry(h.store, h.machine, u.(committed := done));
      carried.Some? && carried.value.0 == DurableOf(s) && carried.value.1 <= g'.peers[n].log[..s.commit]
  {
    MachineHeld(g, g', n, h, s, u);
    ProcessHeld(g, g', n, h, s, u);
    hide Safe, Rel, KeepsCommitted, KeepsVote, Inv;
    var restored := Restored(h.machine, DurableOf(s), u).value;
    if u.snapshot.Some? {
      assert done == [];
    } else {
      ReportsInOrder(h.node, s, u);
      ApplyInOrder(h.machine, u.committed);
      ApplyInOrder(h.machine, done);
    }
    SameSaved(h.store, u, done);
  }

  lemma ReportsInOrder(s: NodeState, s': NodeState, u: Update)
    requires Transition(s, s', u) && u.snapshot.None?
    ensures forall k :: 0 <= k < |u.committed| ==> u.committed[k].index == s.commit + k + 1
  {
    hide Persisted, Rebuilt, SnapshotValid, KeepsCommitted;
    forall k | 0 <= k < |u.committed| ensures u.committed[k].index == s.commit + k + 1 {
      assert InLog(s', s.commit + 1 + k, u.committed[k]);
    }
  }

  lemma SameSaved(d: Durable, u: Update, done: seq<Entry>)
    ensures Persisted(d, u.(committed := done)) == Persisted(d, u)
  {
  }

  // ---- reads -----------------------------------------------------------

  /** A leader that stays one keeps its last commit in its term. */
  lemma TermCommittedKept(g: Proto, g': Proto, n: nat)
    requires Safe(g) && Safe(g') && Extends(g, g') && n in g.peers && TermCommitted(g, n)
    requires g'.peers[n].term == g.peers[n].term && g.peers[n].commit <= g'.peers[n].commit
    ensures TermCommitted(g', n)
  {
    PrefixKept(g, g', n);
    var p, p' := g.peers[n], g'.peers[n];
    SameAt(p.log[..p.commit], p'.log, p.commit - 1);
    assert PeerOK(g', n);
    TermsRise(g', p'.log, p.commit - 1, p'.commit - 1);
    LastTermBounds(g', p'.log, p'.commit - 1);
  }

  /** A node that just won leadership has begun no read in its term. */
  lemma NoContexts(g: Proto, g': Proto, n: nat, s: NodeState, s': NodeState, x: nat)
    requires Safe(g) && Extends(g, g') && Rel(g, s) && Rel(g', s') && s.cfg.id == n && s'.cfg.id == n
    requires s.role != Leader && s'.role == Leader
    requires s'.term > s.term || (s.role == Candidate && s'.term == s.term)
    ensures (n, s'.term, x) !in g.probes
  {
    ProbedReign(g, n, s'.term, x);
  }

  lemma ProbedReign(g: Proto, n: nat, t: nat, x: nat)
    requires Safe(g)
    ensures (n, t, x) in g.probes ==> t in g.reigns && ReignOK(g, t)
  {
    assert (n, t, x) in g.probes ==> ReadOK(g, n, t, x);
    assert t in g.reigns ==> ReignOK(g, t);
  }

  lemma PendingKept(g: Proto, g': Proto, n: nat, h: Host, h': Host, u: Update)
    requires Safe(g) && Safe(g') && Extends(g, g') && NodeHeld(g, n, h) && PendingHeld(g, n, h) && NodeHeld(g', n, h')
    requires KeepsRole(h.node, h'.node, u) && h.node.commit <= h'.node.commit
    requires h'.pending == if u.roleChanged && h'.node.role != Leader then map[] else h.pending
    ensures PendingHeld(g', n, h')
  {
    if h'.pending != map[] {
      TermCommittedKept(g, g', n);
      forall x | x in h'.pending ensures ReadHeld(g', n, h'.node.term, x, h'.pending[x]) {
        ReadStays(g, g', n, h.node.term, x, h.pending[x]);
      }
    }
  }

  lemma ContextsKept(g: Proto, g': Proto, n: nat, h: Host, h': Host, u: Update)
    requires Safe(g) && Extends(g, g') && g'.probes == g.probes
    requires NodeHeld(g, n, h) && NodeHeld(g', n, h') && ContextsHeld(g, n, h)
    requires KeepsRole(h.node, h'.node, u) && h'.contexts == h.contexts
    ensures ContextsHeld(g', n, h')
  {
    if h'.node.role == Leader && h.node.role != Leader {
      forall x: nat ensures (n, h'.node.term, x) !in g.probes { NoContexts(g, g', n, h.node, h'.node, x); }
    }
  }

  /** A transition that begins no read keeps the whole host in step. */
  lemma AdvanceHeld(g: Proto, g': Proto, n: nat, h: Host, s: NodeState, u: Update)
    requires Safe(g) && HostHeld(g, n, h) && Stepped(g, g', n)
    requires Transition(h.node, s, u) && KeepsRole(h.node, s, u) && Rel(g', s) && Fitting(u)
    ensures n in g'.peers && s.commit <= |g'.peers[n].log| && HostHeld(g', n, Finished(g', n, h, s, u))
    ensures Process(h, s, u) == if RefusesAny(h, u.committed) then None else Some(Finished(g', n, h, s, u))
  {
    hide Safe, Process, RefusesAny;
    ProcessHeld(g, g', n, h, s, u);
    var h' := Finished(g', n, h, s, u);
    CommitRises(h.node, s, u);
    hide Transition, NodeHeld, PendingHeld, ContextsHeld;
    PendingKept(g, g', n, h, h', u);
    ContextsKept(g, g', n, h, h', u);
    forall f | f in h'.queue ensures Reached(g', f) { ReachedKept(g, g', f); }
  }

  lemma CommitRises(s: NodeState, s': NodeState, u: Update)
    requires Transition(s, s', u)
    ensures s.commit <= s'.commit
  {
  }

  // ---- events ----------------------------------------------------------

  /** What an event must establish: its host in step, its messages and reports justified, its
      answers no lower than their floors, and no probe but the host's own. */
  ghost predicate Sound(g: Proto, g': Proto, n: nat, f: Effect) {
    && Progressed(g, g', n) && HostHeld(g', n, f.host)
    && EffectsOK(g', f.update) && AllMessagesFit(f.update.messages)
    && (forall a :: a in f.answers ==> a.0 <= a.1)
    && (forall k :: k in g'.probes && k !in g.probes ==> k.0 == n)
  }

  lemma InvBoundsOf(g: Proto, n: nat, h: Host)
    requires NodeHeld(g, n, h)
    ensures h.node.cfg.id == n && Inv(h.node) && Fits(h.node) && Rel(g, h.node) && Bounded(h.node)
  {
  }

  lemma HostNode(g: Proto, n: nat, h: Host)
    requires HostHeld(g, n, h)
    ensures h.node.cfg.id == n && Inv(h.node) && Fits(h.node) && Rel(g, h.node)
  {
  }

  lemma SameStep(g: Proto, n: nat)
    requires Safe(g)
    ensures Stepped(g, g, n)
  {
  }
}
