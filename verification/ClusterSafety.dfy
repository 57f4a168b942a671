/** What every run of the cluster promises. */
module ClusterSafety {
  import opened RaftTypes
  import opened Voters
  import opened Protocol
  import opened ProtocolLogs
  import opened ProtocolFrame
  import opened ProtocolSafety
  import opened RaftCore
  import opened NodeInvariant
  import opened NodeInputs
  import opened Simulation
  import opened Cluster
  import opened ClusterHosts
  import opened ClusterEvents

  /** The cluster is in step with a safe protocol. */
  ghost predicate Held(g: Proto, c: State) {
    && Safe(g) && g.peers.Keys == c.hosts.Keys
    && (forall n {:trigger HostHeld(g, n, c.hosts[n])} :: n in c.hosts ==> HostHeld(g, n, c.hosts[n]))
    && (forall m {:trigger MessageOK(g, m)} :: m in c.net ==> MessageOK(g, m) && MessageFits(m))
    && (forall p {:trigger Decided(g, p.1)} :: p in c.reported ==> Decided(g, p.1))
    && Reached(g, c.high)
    && (forall a :: a in c.answers ==> a.0 <= a.1)
  }

  // ---- one event -------------------------------------------------------

  lemma OtherNode(g: Proto, g': Proto, n: nat, o: nat, h: Host)
    requires Progressed(g, g', n) && o != n && NodeHeld(g, o, h)
    ensures NodeHeld(g', o, h) && o in g.peers && o in g'.peers && g'.peers[o] == g.peers[o]
  {
    hide Safe, Inv, Fold;
    RelKept(g, g', n, h.node);
  }

  lemma OtherPending(g: Proto, g': Proto, o: nat, h: Host)
    requires Extends(g, g') && PendingHeld(g, o, h) && o in g.peers && o in g'.peers && g'.peers[o] == g.peers[o]
    ensures PendingHeld(g', o, h)
  {
    forall x | x in h.pending ensures ReadHeld(g', o, h.node.term, x, h.pending[x]) {
      assert ReadHeld(g, o, h.node.term, x, h.pending[x]);
      ReadStays(g, g', o, h.node.term, x, h.pending[x]);
    }
  }

  lemma OtherHeld(g: Proto, g': Proto, n: nat, o: nat, h: Host)
    requires Safe(g) && Progressed(g, g', n) && o != n && HostHeld(g, o, h)
    requires forall k :: k in g'.probes && k !in g.probes ==> k.0 == n
    ensures HostHeld(g', o, h)
  {
    hide Safe, NodeHeld, PendingHeld, Extends, ActedOnly, Reached;
    OtherNode(g, g', n, o, h);
    OtherPending(g, g', o, h);
    QueueReached(g, g', h.queue);
  }

  lemma HostsHeld(g: Proto, g': Proto, c: State, n: nat, f: Effect)
    requires Held(g, c) && n in c.hosts && Sound(g, g', n, f)
    ensures var hosts := c.hosts[n := f.host]; forall o :: o in hosts ==> HostHeld(g', o, hosts[o])
  {
    hide Safe, HostHeld, Extends, ActedOnly;
    forall o | o in c.hosts && o != n ensures HostHeld(g', o, c.hosts[o]) {
      assert HostHeld(g, o, c.hosts[o]);
      OtherHeld(g, g', n, o, c.hosts[o]);
    }
  }

  lemma NetHeld(g: Proto, g': Proto, c: State, n: nat, f: Effect)
    requires Held(g, c) && n in c.hosts && Sound(g, g', n, f)
    ensures var c' := Recorded(c, n, f);
      && (forall m :: m in c'.net ==> MessageOK(g', m) && MessageFits(m))
      && (forall p :: p in c'.reported ==> Decided(g', p.1))
  {
    hide Safe, HostHeld, Extends, ActedOnly, MessageOK, MessageFits, Decided;
    forall m | m in c.net ensures MessageOK(g', m) && MessageFits(m) {
      assert MessageOK(g, m);
      MessageKept(g, g', m);
    }
    forall p | p in c.reported ensures Decided(g', p.1) {
      assert Decided(g, p.1);
      DecidedKept(g, g', p.1);
    }
  }

  lemma HighHeld(g: Proto, g': Proto, n: nat, f: Effect, high: nat)
    requires Safe(g') && Extends(g, g') && Reached(g, high) && HostHeld(g', n, f.host) && EffectsOK(g', f.update)
    ensures Reached(g', Max(high, Max(f.host.node.commit, Reaches(f.update))))
  {
    ReachedKept(g, g', high);
    if f.host.node.commit > 0 { var j := CommitRecorded(g', n); }
    if f.update.committed != [] { DecidedReached(g', f.update.committed[|f.update.committed| - 1]); }
  }

  lemma DecidedReached(g: Proto, e: Entry)
    requires Safe(g) && Decided(g, e)
    ensures Reached(g, e.index)
  {
  }

  lemma RecordedHeld(g: Proto, g': Proto, c: State, n: nat, f: Effect)
    requires Held(g, c) && n in c.hosts && Sound(g, g', n, f)
    ensures Held(g', Recorded(c, n, f)) && Extends(g, g')
  {
    hide HostHeld, ActedOnly, MessageOK, MessageFits, Decided, Reached, EffectsOK, Shape, AcksKept, BallotsKept;
    hide ConfigsOK, Complete;
    HostsHeld(g, g', c, n, f);
    NetHeld(g, g', c, n, f);
    HighHeld(g, g', n, f, c.high);
  }

  /** Every event the environment allows that does not stop the host keeps the cluster in step. */
  lemma NextHeld(g: Proto, c: State, n: nat, e: Event) returns (g': Proto)
    requires Held(g, c) && Enabled(c, n, e)
    ensures Next(c, n, e).Some? <==> !Stops(c.hosts[n], e)
    ensures Next(c, n, e).Some? ==> Held(g', Next(c, n, e).value) && Extends(g, g')
  {
    hide Safe, HostHeld, React, Possible, Sound, MessageOK, Reached, Decided, Extends, Recorded, Stops;
    assert HostHeld(g, n, c.hosts[n]);
    if Delivered(e).Some? { assert MessageOK(g, Delivered(e).value); }
    g' := ReactSound(g, n, c.hosts[n], e, c.high);
    if !Stops(c.hosts[n], e) { RecordedHeld(g, g', c, n, React(c.hosts[n], e, c.high).value); }
  }

  // ---- the start -------------------------------------------------------

  function Genesis(start: Membership, ids: set<nat>): Proto {
    Proto(start, map n | n in ids :: Peer(0, 0, [], 0), map[], map[], map[], map[], [], map[])
  }

  lemma GenesisSafe(start: Membership, ids: set<nat>)
    requires WellFormed(start) && start.index == 0 && 0 !in ids
    ensures Safe(Genesis(start, ids))
  {
    var g := Genesis(start, ids);
    forall n | n in g.peers ensures PeerOK(g, n) { }
  }

  lemma FreshHeld(g: Proto, n: nat, peers: seq<nat>, h: Host)
    requires StartsFrom(h, n, peers) && Normalize(peers).Some?
    requires n in g.peers && g.peers[n] == Peer(0, 0, [], 0) && g.probes == map[]
    requires g.start == Membership(Normalize(peers).value, [], 0)
    ensures HostHeld(g, n, h)
  {
    hide Normalize;
    var cfg: Config :| cfg.id == n && cfg.peers == peers && cfg.appliedIndex == 0 && NewHost(cfg, h.accepts) == Some(h);
    StartValid(cfg);
  }

  lemma StarterValid(n: nat, peers: seq<nat>, h: Host)
    requires StartsFrom(h, n, peers)
    ensures n != 0 && Normalize(peers).Some?
  {
    hide Normalize;
  }

  lemma StartHeld(c: State, peers: seq<nat>) returns (g: Proto)
    requires Start(c, peers)
    ensures Held(g, c)
  {
    hide Safe, HostHeld, StartsFrom, Normalize;
    forall n | n in c.hosts ensures n != 0 && Normalize(peers).Some? { StarterValid(n, peers, c.hosts[n]); }
    var start := if Normalize(peers).Some? then Membership(Normalize(peers).value, [], 0) else Membership([1], [], 0);
    g := Genesis(start, c.hosts.Keys);
    NormalizeExact(peers);
    if Normalize(peers).Some? { NormalizeExact(start.voters); }
    GenesisSafe(start, c.hosts.Keys);
    forall n | n in c.hosts ensures HostHeld(g, n, c.hosts[n]) { FreshHeld(g, n, peers, c.hosts[n]); }
  }

  // ---- runs ------------------------------------------------------------

  /** One protocol history for the whole run. */
  ghost predicate Histories(gs: seq<Proto>, states: seq<State>) {
    && |gs| == |states|
    && (forall i :: 0 <= i < |gs| ==> Held(gs[i], states[i]))
    && (forall i, j :: 0 <= i <= j < |gs| ==> Extends(gs[i], gs[j]))
  }

  lemma {:induction false} RunHeld(states: seq<State>, peers: seq<nat>) returns (gs: seq<Proto>)
    requires Run(states, peers)
    ensures Histories(gs, states)
    decreases |states|
  {
    hide Held, Extends, Start, Next, Enabled;
    var n := |states| - 1;
    if n == 0 {
      var g := StartHeld(states[0], peers);
      gs := [g];
      ExtendsSelf(g);
    } else {
      assert Run(states[..n], peers) by {
        forall i | 0 <= i < n - 1 ensures Steps(states[..n][i], states[..n][i + 1]) {
          assert Steps(states[i], states[i + 1]);
        }
      }
      var before := RunHeld(states[..n], peers);
      assert Steps(states[n - 1], states[n - 1 + 1]);
      var id, e :| Enabled(states[n - 1], id, e) && Next(states[n - 1], id, e) == Some(states[n]);
      var g := NextHeld(before[n - 1], states[n - 1], id, e);
      ExtendsSelf(g);
      gs := before + [g];
      forall i, j | 0 <= i <= j < |gs| ensures Extends(gs[i], gs[j]) {
        if i < n && j == n { ExtendsTrans(gs[i], before[n - 1], g); }
      }
    }
  }

  lemma ExtendsSelf(g: Proto)
    ensures Extends(g, g)
  {
  }

  // ---- theorems --------------------------------------------------------

  /** An event stops a host in a run exactly when `Stops` says so on the host alone; otherwise every
      update can be persisted, every commit applied without a gap, every snapshot found. */
  lemma StopsExactly(states: seq<State>, peers: seq<nat>, n: nat, e: Event)
    requires Run(states, peers) && Enabled(states[|states| - 1], n, e)
    ensures Next(states[|states| - 1], n, e).None? <==> Stops(states[|states| - 1].hosts[n], e)
  {
    hide Held, Next, Enabled, Extends, Stops;
    var gs := RunHeld(states, peers);
    var g := NextHeld(gs[|gs| - 1], states[|states| - 1], n, e);
  }

  /** State machine safety: entries ever reported committed at one index, by any hosts, before or
      after any crash, are the same entry. */
  lemma StateMachineSafety(states: seq<State>, peers: seq<nat>, p: (nat, Entry), q: (nat, Entry))
    requires Run(states, peers)
    requires p in states[|states| - 1].reported && q in states[|states| - 1].reported && p.1.index == q.1.index
    ensures p.1 == q.1
  {
    hide Safe, Extends, HostHeld, Decided;
    var gs := RunHeld(states, peers);
    var g := gs[|gs| - 1];
    assert Held(g, states[|states| - 1]);
    assert Decided(g, p.1) && Decided(g, q.1);
    DecisionsAgree(g, p.1, q.1);
  }

  /** Linearizable reads: no answered read returned an index below a commit any host had reached
      when the read was requested. */
  lemma ReadsAreLinearizable(states: seq<State>, peers: seq<nat>, floor: nat, index: nat)
    requires Run(states, peers) && (floor, index) in states[|states| - 1].answers
    ensures floor <= index
  {
    hide Safe, Extends, HostHeld;
    var gs := RunHeld(states, peers);
    assert Held(gs[|gs| - 1], states[|states| - 1]);
  }

  /** The log with its compacted prefix put back from the snapshot. */
  function FullLog(s: NodeState): Log { s.snapshot.data + s.log }

  lemma FullLogIs(g: Proto, c: State, n: nat)
    requires Held(g, c) && n in c.hosts
    ensures n in g.peers && g.peers[n].log == FullLog(c.hosts[n].node)
    ensures var s := c.hosts[n].node; Rel(g, s) && s.cfg.id == n && Inv(s) && c.hosts[n].store == DurableOf(s)
    ensures c.hosts[n].machine == g.peers[n].log[..c.hosts[n].node.commit]
  {
    assert HostHeld(g, n, c.hosts[n]);
    hide Safe, Inv, PendingHeld, ContextsHeld, Fold;
    var s := c.hosts[n].node;
    assert g.peers[n].log == g.peers[n].log[..s.snapshot.index] + g.peers[n].log[s.snapshot.index..];
  }

  /** What each reachable host keeps: its store is its node, its membership the fold of its whole
      log, its machine the committed prefix of that log, and snapshot <= commit <= last. */
  lemma HostsConsistent(states: seq<State>, peers: seq<nat>, n: nat)
    requires Run(states, peers) && n in states[|states| - 1].hosts
    ensures var h := states[|states| - 1].hosts[n]; var s := h.node;
      && h.store == DurableOf(s)
      && Fold(s.initial, FullLog(s)) == Some(s.membership)
      && |h.machine| == s.commit && h.machine <= FullLog(s)
      && s.snapshot.index <= s.commit <= LastIndex(s) == |FullLog(s)|
  {
    var gs := RunHeld(states, peers);
    hide Histories, Safe, Inv, Fold;
    assert Held(gs[|gs| - 1], states[|states| - 1]);
    FullLogIs(gs[|gs| - 1], states[|states| - 1], n);
  }

  /** Log matching across hosts and time. */
  lemma LogsMatch(states: seq<State>, peers: seq<nat>, i: nat, a: nat, j: nat, b: nat, k: nat)
    requires Run(states, peers) && i <= j < |states| && a in states[i].hosts && b in states[j].hosts
    requires var x, y := FullLog(states[i].hosts[a].node), FullLog(states[j].hosts[b].node);
      k < |x| && k < |y| && x[k].term == y[k].term
    ensures var x, y := FullLog(states[i].hosts[a].node), FullLog(states[j].hosts[b].node); x[..k + 1] == y[..k + 1]
  {
    var gs := RunHeld(states, peers);
    assert Held(gs[i], states[i]) && Held(gs[j], states[j]) && Extends(gs[i], gs[j]);
    FullLogIs(gs[i], states[i], a);
    FullLogIs(gs[j], states[j], b);
    var x, y := gs[i].peers[a].log, gs[j].peers[b].log;
    assert PeerOK(gs[i], a) && PeerOK(gs[j], b);
    hide Safe, Held, Histories, Run, FullLog;
    GroundedKept(gs[i], gs[j], x);
    LogMatching(gs[j], x, y, k);
  }

  /** Election safety: at most one host is ever leader in a term, across crashes and voter changes. */
  lemma OneLeaderPerTerm(states: seq<State>, peers: seq<nat>, i: nat, a: nat, j: nat, b: nat)
    requires Run(states, peers) && i <= j < |states| && a in states[i].hosts && b in states[j].hosts
    requires states[i].hosts[a].node.role == Leader && states[j].hosts[b].node.role == Leader
    requires states[i].hosts[a].node.term == states[j].hosts[b].node.term
    ensures a == b
  {
    var gs := RunHeld(states, peers);
    assert Held(gs[i], states[i]) && Held(gs[j], states[j]) && Extends(gs[i], gs[j]);
    hide Safe, Histories, HostHeld, FullLog, Run;
    FullLogIs(gs[i], states[i], a);
    FullLogIs(gs[j], states[j], b);
  }

  /** Machines agree: what any host has applied at any time is a prefix of what any other has, or
      the other way round, whether it came by log or by snapshot. */
  lemma MachinesAgree(states: seq<State>, peers: seq<nat>, i: nat, a: nat, j: nat, b: nat)
    requires Run(states, peers) && i <= j < |states| && a in states[i].hosts && b in states[j].hosts
    ensures var x, y := states[i].hosts[a].machine, states[j].hosts[b].machine; x <= y || y <= x
  {
    var gs := RunHeld(states, peers);
    assert Held(gs[i], states[i]) && Held(gs[j], states[j]) && Extends(gs[i], gs[j]);
    hide Safe, Histories, HostHeld, FullLog, Run, Inv;
    FullLogIs(gs[i], states[i], a);
    FullLogIs(gs[j], states[j], b);
    PrefixesAgree(gs[i], gs[j], a, b);
  }

  lemma PrefixesAgree(g: Proto, g': Proto, a: nat, b: nat)
    requires Safe(g) && Safe(g') && Extends(g, g') && a in g.peers && b in g'.peers
    ensures var p, q := g.peers[a], g'.peers[b];
      && p.commit <= |p.log| && q.commit <= |q.log|
      && (p.log[..p.commit] <= q.log[..q.commit] || q.log[..q.commit] <= p.log[..p.commit])
  {
    hide Safe;
    PeerDecided(g, a);
    PeerDecided(g', b);
    var x, y := g.peers[a].log[..g.peers[a].commit], g'.peers[b].log[..g'.peers[b].commit];
    forall k | 0 <= k < |x| && k < |y| ensures x[k] == y[k] {
      DecidedKept(g, g', x[k]);
      DecisionsAgree(g', x[k], y[k]);
    }
  }

  /** A leader held, already when it was elected, what a lower term has committed by any later time. */
  lemma HeldSinceElection(g: Proto, g': Proto, x: Log, c: nat, t: nat, u: nat)
    requires Safe(g) && Safe(g') && Extends(g, g') && Known(g', x, c, t) && t < u && u in g.reigns
    ensures x[..c] <= g.reigns[u].log
  {
    KnownHeld(g', x, c, u);
    if c > 0 {
      var j :| 0 <= j < |g'.commits| && Covers(g', j, x, c) && g'.commits[j].term <= t;
      assert CommitOK(g', j) && ReignOK(g', g'.commits[j].term) && ReignOK(g', u) && ReignOK(g, u);
      var y, r := g'.reigns[g'.commits[j].term], g'.reigns[u];
      assert x[..c][c - 1] == y.log[c - 1] && x[..c][c - 1] == r.log[c - 1];
      assert y.log[c - 1].term <= g'.commits[j].term;
      assert c <= r.base;
    }
  }

  /** Leader completeness: what a host knew to be committed is in the log of every leader of a higher term,
      whenever it led, and of every later leader of the same term. */
  lemma LeadersAreComplete(states: seq<State>, peers: seq<nat>, i: nat, a: nat, j: nat, b: nat)
    requires Run(states, peers) && i < |states| && j < |states| && a in states[i].hosts && b in states[j].hosts
    requires states[j].hosts[b].node.role == Leader
    requires var t, u := states[i].hosts[a].node.term, states[j].hosts[b].node.term; t < u || (t == u && i <= j)
    ensures states[i].hosts[a].machine <= FullLog(states[j].hosts[b].node)
  {
    var gs := RunHeld(states, peers);
    assert Held(gs[i], states[i]) && Held(gs[j], states[j]);
    FullLogIs(gs[i], states[i], a);
    FullLogIs(gs[j], states[j], b);
    assert PeerOK(gs[i], a);
    var p, u := gs[i].peers[a], gs[j].peers[b].term;
    assert i <= j ==> Extends(gs[i], gs[j]);
    assert j <= i ==> Extends(gs[j], gs[i]);
    hide Safe, Held, Histories, Run, FullLog;
    if i <= j {
      KnownKept(gs[i], gs[j], p.log, p.commit, p.term, u);
      KnownHeld(gs[j], p.log, p.commit, u);
    } else {
      HeldSinceElection(gs[j], gs[i], p.log, p.commit, p.term, u);
    }
  }

  /** The floor a read is held to is real: at every moment `high` covers every commit index any
      host has had until then. */
  lemma {:induction false} HighCoversCommits(states: seq<State>, peers: seq<nat>, i: nat, a: nat, j: nat)
    requires Run(states, peers) && i <= j < |states| && a in states[i].hosts
    ensures states[i].hosts[a].node.commit <= states[j].high
    decreases j
  {
    hide React, NewHost;
    if i == j {
      Covered(states, peers, i, a);
    } else {
      HighCoversCommits(states, peers, i, a, j - 1);
      HighRises(states, peers, j - 1);
    }
  }

  lemma HighRises(states: seq<State>, peers: seq<nat>, i: nat)
    requires Run(states, peers) && i + 1 < |states|
    ensures states[i].high <= states[i + 1].high
    ensures forall a :: a in states[i + 1].hosts ==>
      states[i + 1].hosts[a].node.commit <= states[i + 1].high
      || (a in states[i].hosts && states[i + 1].hosts[a] == states[i].hosts[a])
  {
    hide React, Possible;
    assert Steps(states[i], states[i + 1]);
  }

  lemma {:induction false} Covered(states: seq<State>, peers: seq<nat>, i: nat, a: nat)
    requires Run(states, peers) && i < |states| && a in states[i].hosts
    ensures states[i].hosts[a].node.commit <= states[i].high
    decreases i
  {
    hide React, Steps;
    if i == 0 {
      assert StartsFrom(states[0].hosts[a], a, peers);
      var h := states[0].hosts[a];
      var cfg: Config :|
        cfg.id == a && cfg.peers == peers && cfg.appliedIndex == 0 && NewHost(cfg, h.accepts) == Some(h);
    } else {
      HighRises(states, peers, i - 1);
      if a in states[i - 1].hosts { Covered(states, peers, i - 1, a); }
    }
  }
}
