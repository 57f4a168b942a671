/** Each event of the cluster keeps its host in step with a safe protocol. */
module ClusterEvents {
  import opened RaftTypes
  import opened Voters
  import opened Protocol
  import opened ProtocolSafety
  import opened RaftCore
  import opened Stable
  import opened NodeInvariant
  import opened NodeInputs
  import opened NodeSizes
  import opened Simulation
  import opened SimulateInputs
  import opened Cluster
  import opened ClusterHosts
  import opened ClusterCrashes

  // ---- answering reads -------------------------------------------------

  /** A confirmed probe answers with an index no lower than any commit before it started. */
  lemma AnswerSound(g: Proto, n: nat, s: NodeState, x: nat, r: Read)
    requires Safe(g) && Rel(g, s) && s.cfg.id == n && s.role == Leader && TermCommitted(g, n)
    requires ReadHeld(g, n, s.term, x, r) && HasQuorum(s.membership, r.acks)
    ensures forall a :: a in Answers(r.floors, s.commit) ==> a.0 <= a.1
  {
    hide Safe, HasQuorum, Answered;
    forall f | f in r.floors ensures f <= s.commit {
      if f > 0 {
        var j :| 0 <= j < g.probes[(n, s.term, x)].commits && j < |g.commits| && f <= g.commits[j].index;
        ReadSeesEarlierCommits(g, n, x, r.acks, j);
      }
    }
  }

  lemma AcknowledgeHeld(g: Proto, n: nat, h: Host, m: Message)
    requires Safe(g) && HostHeld(g, n, h) && m.AppendResponse? && m.to == n
    requires m.context != 0 ==> Answered(g, n, m.term, m.context, m.from)
    requires m.context != 0
    ensures var (h', answers) := Acknowledge(h, m);
      HostHeld(g, n, h') && h'.node == h.node && forall a :: a in answers ==> a.0 <= a.1
  {
    var (h', answers) := Acknowledge(h, m);
    if m.context in h.pending && h.node.role == Leader && m.term == h.node.term {
      var x, t := m.context, h.node.term;
      assert ReadHeld(g, n, t, x, h.pending[x]);
      var counted := Read(h.pending[x].acks + {m.from}, h.pending[x].floors);
      Counted(g, n, t, x, h.pending[x], m.from);
      hide Safe, Rel, HasQuorum, Inv;
      if HasQuorum(h.node.membership, counted.acks) { AnswerSound(g, n, h.node, x, counted); }
      forall y | y in h'.pending ensures ReadHeld(g, n, t, y, h'.pending[y]) {
        assert y != x ==> ReadHeld(g, n, t, y, h.pending[y]);
      }
    }
  }

  lemma Counted(g: Proto, n: nat, t: nat, x: nat, r: Read, from: nat)
    requires ReadHeld(g, n, t, x, r) && Answered(g, n, t, x, from)
    ensures ReadHeld(g, n, t, x, Read(r.acks + {from}, r.floors))
  {
  }

  // ---- events that begin no read ---------------------------------------

  /** What stops a runtime: a voter change whose joint entry the store refuses, a committed command the
      machine refuses and, for a host that starts again, a store that does not open. */
  predicate Stops(h: Host, e: Event) {
    match e
    case Restart(_, _) => !Reopens(h.store)
    case Crash(during, writes, _, _, _, _) => !Reopens(Left(h, during, writes))
    case Reconfigure(voters) => OversizeChange(h.node, voters) || RefusesAny(h, Intended(h, e).1.committed)
    case _ => RefusesAny(h, Intended(h, e).1.committed)
  }

  /** What a host computed, it carries out exactly when its machine refuses none of the commands committed. */
  lemma SettledSound(g: Proto, g': Proto, n: nat, h: Host, s: NodeState, u: Update)
    requires Safe(g) && HostHeld(g, n, h) && Followed(g, g', h.node, s, u)
    ensures var f := Settled(Process(h, s, u), u);
      (f.Some? <==> !RefusesAny(h, u.committed)) && (f.Some? ==> Sound(g, g', n, f.value))
  {
    HostNode(g, n, h);
    AdvanceHeld(g, g', n, h, s, u);
    hide Safe, HostHeld, Process, Rel, Inv, KeepsCommitted, Reports, Persisted, RefusesAny, AllFit;
  }

  lemma ReceiveSound(g: Proto, n: nat, h: Host, m: Message) returns (g': Proto)
    requires Safe(g) && HostHeld(g, n, h) && m.to == n && MessageOK(g, m) && MessageFits(m)
    ensures Received(h, m).Some? <==> !Stops(h, Receive(m))
    ensures Received(h, m).Some? ==> Sound(g, g', n, Received(h, m).value)
  {
    InvBoundsOf(g, n, h);
    hide Safe, HostHeld, Step, Process, Sound, Inv, MessageOK, Followed, Acknowledge, RefusesAny;
    g' := Intends(g, n, h, Receive(m));
    var (s, u) := Step(h.node, m);
    SettledSound(g, g', n, h, s, u);
    if Process(h, s, u).Some? && m.AppendResponse? && !m.reject && m.context != 0 {
      AcknowledgeSound(g, g', n, Process(h, s, u).value, m, u);
    }
  }

  lemma AcknowledgeSound(g: Proto, g': Proto, n: nat, h: Host, m: Message, u: Update)
    requires Sound(g, g', n, Effect(h, u, {})) && m.AppendResponse? && !m.reject && m.context != 0 && m.to == n
    requires MessageOK(g, m)
    ensures var (h', answers) := Acknowledge(h, m); Sound(g, g', n, Effect(h', u, answers))
  {
    hide Safe, HostHeld, Acknowledge, EffectsOK, AllMessagesFit, ActedOnly;
    MessageKept(g, g', m);
    AcknowledgeHeld(g', n, h, m);
  }

  /** An offer that is turned away is carried out as nothing. */
  lemma OfferSettled(h: Host, r: Proposed)
    ensures var (s, u) := Accepted(h.node, r); Offer(h, r) == Settled(Process(h, s, u), u)
  {
    if !r.Proposed? { assert Process(h, h.node, NO_EFFECT) == Some(h); }
  }

  lemma ProposeSound(g: Proto, n: nat, h: Host, commands: seq<Bytes>) returns (g': Proto)
    requires Safe(g) && HostHeld(g, n, h)
    ensures var f := Offer(h, ProposeBatch(h.node, commands));
      && (f.Some? <==> !Stops(h, Propose(commands)))
      && (f.Some? ==> Sound(g, g', n, f.value))
  {
    hide Safe, HostHeld, ProposeBatch, Offer, Sound, Followed, RefusesAny, Settled, Process;
    g' := Intends(g, n, h, Propose(commands));
    var (s, u) := Intended(h, Propose(commands));
    OfferSettled(h, ProposeBatch(h.node, commands));
    SettledSound(g, g', n, h, s, u);
  }

  lemma TickSound(g: Proto, n: nat, h: Host) returns (g': Proto)
    requires Safe(g) && HostHeld(g, n, h)
    ensures var (s, u) := Tick(h.node); var f := Settled(Process(h, s, u), u);
      && (f.Some? <==> !Stops(h, Elapse))
      && (f.Some? ==> Sound(g, g', n, f.value))
  {
    hide Safe, HostHeld, Tick, Sound, Followed, RefusesAny, Settled, Process;
    g' := Intends(g, n, h, Elapse);
    SettledSound(g, g', n, h, Tick(h.node).0, Tick(h.node).1);
  }

  lemma ReconfigureSound(g: Proto, n: nat, h: Host, voters: seq<nat>) returns (g': Proto)
    requires Safe(g) && HostHeld(g, n, h)
    ensures var f := Offer(h, ProposeMembership(h.node, voters));
      && (f.Some? <==> !Stops(h, Reconfigure(voters)))
      && (f.Some? ==> Sound(g, g', n, f.value))
  {
    hide Safe, HostHeld, ProposeMembership, Offer, Sound, OversizeChange, Followed, RefusesAny, Settled, Process;
    if OversizeChange(h.node, voters) {
      g' := g;
      ChangeStops(g, n, h, voters);
    } else {
      g' := Intends(g, n, h, Reconfigure(voters));
      var (s, u) := Intended(h, Reconfigure(voters));
      OfferSettled(h, ProposeMembership(h.node, voters));
      SettledSound(g, g', n, h, s, u);
    }
  }

  lemma ChangeStops(g: Proto, n: nat, h: Host, voters: seq<nat>)
    requires HostHeld(g, n, h) && OversizeChange(h.node, voters)
    ensures Offer(h, ProposeMembership(h.node, voters)).None?
  {
    InvBoundsOf(g, n, h);
    assert h.store == DurableOf(h.node);
    hide NodeHeld, Inv, Rel, OversizeChange, ProposeMembership, Transition, Persisted, Fits;
    ProposeMembershipExactly(h.node, voters);
  }

  lemma MachineIs(g: Proto, n: nat, h: Host)
    requires HostHeld(g, n, h)
    ensures Inv(h.node) && Fits(h.node) && Rel(g, h.node) && h.node.cfg.id == n && n in g.peers
    ensures h.node.commit <= |g.peers[n].log| && h.machine == g.peers[n].log[..h.node.commit]
  {
  }

  /** A snapshot of the machine is always accepted. */
  lemma SnapshotSound(g: Proto, n: nat, h: Host) returns (g': Proto)
    requires Safe(g) && HostHeld(g, n, h) && |h.machine| > h.node.snapshot.index
    ensures var r := CreateSnapshot(h.node, |h.machine|, h.machine);
      && r.Some?
      && var f := Settled(Process(h, r.value.0, r.value.1), r.value.1);
      (f.Some? <==> !Stops(h, TakeSnapshot)) && (f.Some? ==> Sound(g, g', n, f.value))
  {
    hide Safe, HostHeld, CreateSnapshot, Process, Sound, Inv, Rel, Followed, RefusesAny, Settled, Fits;
    MachineIs(g, n, h);
    SnapshotFollowed(g, h.node, h.machine);
    var (s, u) := CreateSnapshot(h.node, |h.machine|, h.machine).value;
    g' := g;
    SettledSound(g, g, n, h, s, u);
  }

  lemma RequestSound(g: Proto, n: nat, h: Host, high: nat)
    requires Safe(g) && HostHeld(g, n, h) && Reached(g, high)
    ensures Sound(g, g, n, Effect(h.(queue := h.queue + [high]), NO_EFFECT, {}))
  {
    hide Safe, Rel, Inv;
  }

  // ---- beginning a read ------------------------------------------------

  /** A fresh probe: the leader has answered it, and every read it serves was requested before. */
  lemma BeginReadHeld(g: Proto, n: nat, context: nat, floors: seq<nat>)
    requires Safe(g) && n in g.peers && (n, g.peers[n].term, context) !in g.probes
    requires forall f :: f in floors ==> Reached(g, f)
    ensures ReadHeld(BeginRead(g, n, context), n, g.peers[n].term, context, Read({n}, floors))
  {
    forall u | (u, n) in g.ballots ensures u <= g.peers[n].term { assert BallotOK(g, u, n); }
  }

  /** The leader's own term has a commit when it may probe. */
  lemma ProbeReady(g: Proto, n: nat, s: NodeState, context: nat)
    requires Safe(g) && Rel(g, s) && s.cfg.id == n && ReadProbe(s, context).Probed?
    ensures TermCommitted(BeginRead(g, n, context), n)
    ensures var s' := ReadProbe(s, context).state; s'.role == Leader && s'.term == s.term && s'.cfg == s.cfg
  {
    hide Fold;
    SendAppendsSame(s, Peers(s), context, false);
    TermAtRel(g, s, s.commit);
  }

  lemma ProbePending(g: Proto, g': Proto, n: nat, h: Host, h': Host, x: nat, floors: seq<nat>)
    requires Safe(g) && n in g.peers && g.peers[n].term == h.node.term && (n, h.node.term, x) !in g.probes
    requires PendingHeld(g, n, h) && (forall f :: f in floors ==> Reached(g, f))
    requires g' == BeginRead(g, n, x) && Extends(g, g') && TermCommitted(g', n)
    requires h'.node.term == h.node.term && h'.node.role == Leader && h'.pending == h.pending[x := Read({n}, floors)]
    ensures PendingHeld(g', n, h')
  {
    hide Safe;
    var t := h.node.term;
    BeginReadHeld(g, n, x, floors);
    forall y | y in h'.pending ensures ReadHeld(g', n, t, y, h'.pending[y]) {
      if y != x {
        assert ReadHeld(g, n, t, y, h.pending[y]);
        ReadStays(g, g', n, t, y, h.pending[y]);
      }
    }
  }

  lemma ProbedHeld(g: Proto, g': Proto, n: nat, h: Host, count: nat, s: NodeState, h': Host)
    requires Safe(g) && HostHeld(g, n, h) && 0 < count <= |h.queue| && h.node.role == Leader
    requires g' == BeginRead(g, n, h.contexts + 1) && Progressed(g, g', n)
    requires NodeHeld(g', n, h') && TermCommitted(g', n)
    requires s.role == Leader && s.term == h.node.term
    requires h' == h.(node := s, store := h'.store, machine := h'.machine, queue := h.queue[count..],
                      contexts := h.contexts + 1, pending := h.pending[h.contexts + 1 := Read({n}, h.queue[..count])])
    ensures HostHeld(g', n, h')
  {
    hide Safe, NodeHeld, PendingHeld, TermCommitted, Reached, Extends, ActedOnly;
    PeerTerm(g, n, h);
    QueueReached(g, g', h.queue);
    ProbePending(g, g', n, h, h', h.contexts + 1, h.queue[..count]);
  }

  lemma PeerTerm(g: Proto, n: nat, h: Host)
    requires NodeHeld(g, n, h)
    ensures n in g.peers && g.peers[n].term == h.node.term
  {
  }

  lemma QueueReached(g: Proto, g': Proto, queue: seq<nat>)
    requires Extends(g, g') && forall f :: f in queue ==> Reached(g, f)
    ensures forall f :: f in queue ==> Reached(g', f)
  {
    forall f | f in queue ensures Reached(g', f) { ReachedKept(g, g', f); }
  }

  lemma ProbeSound(g: Proto, n: nat, h: Host, count: nat) returns (g': Proto)
    requires Safe(g) && HostHeld(g, n, h) && 0 < count <= |h.queue|
    ensures Probing(h, count).Some? && Sound(g, g', n, Probing(h, count).value)
  {
    InvBoundsOf(g, n, h);
    var x := h.contexts + 1;
    var r := ReadProbe(h.node, x);
    if r.Probed? {
      g' := ReadProbeOK(g, h.node, x);
      ReadProbeKeeps(h.node, x);
      ProbeAnswered(g, g', n, h, count, r.state, r.update);
    } else {
      g' := g;
      DequeueSound(g, n, h, count);
    }
  }

  lemma DequeueSound(g: Proto, n: nat, h: Host, count: nat)
    requires Safe(g) && HostHeld(g, n, h) && 0 < count <= |h.queue|
    ensures Sound(g, g, n, Effect(h.(queue := h.queue[count..], contexts := h.contexts + 1), NO_EFFECT, {}))
  {
    hide Safe, Rel, Inv;
    forall f | f in h.queue[count..] ensures Reached(g, f) { assert f in h.queue; }
  }

  lemma ProbeAnswered(g: Proto, g': Proto, n: nat, h: Host, count: nat, s: NodeState, u: Update)
    requires Safe(g) && HostHeld(g, n, h) && 0 < count <= |h.queue| && h.node.role == Leader
    requires ReadProbe(h.node, h.contexts + 1) == Probed(s, u) && g' == BeginRead(g, n, h.contexts + 1)
    requires Progressed(g, g', n) && Rel(g', s) && EffectsOK(g', u) && !u.roleChanged && Transition(h.node, s, u)
    ensures Probing(h, count).Some? && Sound(g, g', n, Probing(h, count).value)
  {
    hide Safe, HostHeld, Rel, Inv, Process, HasQuorum, EffectsOK, ReadProbe, Transition, TermCommitted, Extends;
    hide ActedOnly, Fits, AllMessagesFit, ReadHeld;
    HostId(g, n, h);
    var x := h.contexts + 1;
    var read := Read({n}, h.queue[..count]);
    var h2 := ProbeProcessed(g, g', n, h, count, s, u);
    if HasQuorum(s.membership, {n}) {
      AnswerSound(g', n, s, x, read);
      Completed(g', n, h2, x);
    }
  }

  lemma ProbeProcessed(g: Proto, g': Proto, n: nat, h: Host, count: nat, s: NodeState, u: Update) returns (h2: Host)
    requires Safe(g) && HostHeld(g, n, h) && 0 < count <= |h.queue| && h.node.role == Leader
    requires ReadProbe(h.node, h.contexts + 1) == Probed(s, u) && g' == BeginRead(g, n, h.contexts + 1)
    requires Progressed(g, g', n) && Rel(g', s) && !u.roleChanged && Transition(h.node, s, u)
    ensures var x, read := h.contexts + 1, Read({n}, h.queue[..count]);
      && Process(h.(queue := h.queue[count..], contexts := x, pending := h.pending[x := read]), s, u) == Some(h2)
      && HostHeld(g', n, h2) && AllMessagesFit(u.messages) && ReadHeld(g', n, s.term, x, read)
      && TermCommitted(g', n) && s.cfg.id == n && s.role == Leader
  {
    ProbeQuiet(h.node, h.contexts + 1);
    hide Safe, Rel, Inv, Process, HasQuorum, EffectsOK, ReadProbe, Transition, TermCommitted, Extends, ActedOnly, Fits;
    InvBoundsOf(g, n, h);
    ProbeReady(g, n, h.node, h.contexts + 1);
    var x, read := h.contexts + 1, Read({n}, h.queue[..count]);
    var h1 := h.(queue := h.queue[count..], contexts := x, pending := h.pending[x := read]);
    ProcessHeld(g, g', n, h1, s, u);
    h2 := Finished(g', n, h1, s, u);
    ProbedHeld(g, g', n, h, count, s, h2);
    MessagesFit(h.node, s, u);
    assert ReadHeld(g', n, s.term, x, h2.pending[x]);
  }

  lemma ProbeQuiet(s: NodeState, context: nat)
    ensures var r := ReadProbe(s, context); r.Probed? ==> Fitting(r.update) && r.update.committed == []
  {
  }

  lemma MessagesFit(s: NodeState, s': NodeState, u: Update)
    requires Transition(s, s', u) && Fits(s)
    ensures AllMessagesFit(u.messages)
  {
  }

  lemma Completed(g: Proto, n: nat, h: Host, x: nat)
    requires HostHeld(g, n, h)
    ensures HostHeld(g, n, h.(pending := h.pending - {x}))
  {
    hide Safe, Rel, Inv;
    forall y | y in h.pending && y != x ensures ReadHeld(g, n, h.node.term, y, (h.pending - {x})[y]) {
      assert ReadHeld(g, n, h.node.term, y, h.pending[y]);
    }
  }

  // ---- any event -------------------------------------------------------

  /** A host that went down comes back, and in step, exactly when the store it left opens. */
  lemma RecoverySound(g: Proto, n: nat, h: Host, e: Event, high: nat) returns (g': Proto)
    requires Safe(g) && HostHeld(g, n, h) && Possible(h, e) && (e.Restart? || e.Crash?)
    requires Delivered(e).Some? ==> MessageOK(g, Delivered(e).value) && MessageFits(Delivered(e).value)
    ensures React(h, e, high).Some? <==> !Stops(h, e)
    ensures React(h, e, high).Some? ==> Sound(g, g', n, React(h, e, high).value)
  {
    hide Safe, HostHeld, Sound, Booted, Left, MessageOK, MessageFits, Recoverable, Received, Probing, Reopens, Underway;
    hide Reopened, RefusesAny, OversizeChange, Intended;
    if e.Restart? {
      g' := RestartSound(g, n, h, e.kept, e.cfg);
    } else {
      g' := CrashSound(g, n, h, e.during, e.writes, e.sent, e.applied, e.kept, e.cfg);
    }
  }

  /** Exactly the events that `Stops` names stop a host's runtime, and each other keeps the host in step. */
  lemma ReactSound(g: Proto, n: nat, h: Host, e: Event, high: nat) returns (g': Proto)
    requires Safe(g) && HostHeld(g, n, h) && Possible(h, e) && Reached(g, high)
    requires Delivered(e).Some? ==> MessageOK(g, Delivered(e).value) && MessageFits(Delivered(e).value)
    ensures React(h, e, high).Some? <==> !Stops(h, e)
    ensures React(h, e, high).Some? ==> Sound(g, g', n, React(h, e, high).value)
  {
    if e.Restart? || e.Crash? {
      g' := RecoverySound(g, n, h, e, high);
    } else {
      g' := OrdinarySound(g, n, h, e, high);
    }
  }

  lemma OrdinarySound(g: Proto, n: nat, h: Host, e: Event, high: nat) returns (g': Proto)
    requires Safe(g) && HostHeld(g, n, h) && Possible(h, e) && Reached(g, high) && !e.Restart? && !e.Crash?
    requires Delivered(e).Some? ==> MessageOK(g, Delivered(e).value) && MessageFits(Delivered(e).value)
    ensures React(h, e, high).Some? <==> !Stops(h, e)
    ensures React(h, e, high).Some? ==> Sound(g, g', n, React(h, e, high).value)
  {
    HostId(g, n, h);
    hide Safe, HostHeld, Sound, OversizeChange, Received, Tick, Process, ProposeBatch, ProposeMembership, Followed;
    hide CreateSnapshot, Probing, Offer, Settled, MessageOK, MessageFits, Reached, Step, Stops;
    ReadsGoOn(h, e);
    match e
    case Receive(m) => g' := ReceiveSound(g, n, h, m);
    case Elapse => g' := TickSound(g, n, h);
    case Propose(commands) => g' := ProposeSound(g, n, h, commands);
    case Reconfigure(voters) => g' := ReconfigureSound(g, n, h, voters);
    case TakeSnapshot => g' := SnapshotSound(g, n, h);
    case Request => g' := g; RequestSound(g, n, h, high);
    case Probe(count) => g' := ProbeSound(g, n, h, count);
  }

  lemma ReadsGoOn(h: Host, e: Event)
    ensures e.Request? || e.Probe? ==> !Stops(h, e)
  {
  }

  lemma HostId(g: Proto, n: nat, h: Host)
    requires HostHeld(g, n, h)
    ensures h.node.cfg.id == n
  {
  }
}
