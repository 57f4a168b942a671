/** A host that comes back, also from an update cut off by its crash, is in step with a safe protocol. */
module ClusterCrashes {
  import opened RaftTypes
  import opened Voters
  import opened Protocol
  import opened ProtocolFrame
  import opened ProtocolSafety
  import opened ProtocolSteps
  import opened RaftCore
  import opened EntrySizes
  import opened Stable
  import opened NodeInvariant
  import opened NodeTransitions
  import opened NodeInputs
  import opened NodeSizes
  import opened Simulation
  import opened SimulateInputs
  import opened SimulateSnapshot
  import opened TornUpdates
  import opened Pipeline
  import opened Cluster
  import opened ClusterHosts

  // ---- starting again --------------------------------------------------

  lemma RestoredRel(g: Proto, s: NodeState, r: NodeState)
    requires CoreRel(g, s) && r.cfg.id == s.cfg.id && DurableOf(r) == DurableOf(s) && r.initial == s.initial
    requires r.membership == s.membership && r.role == Follower && s.snapshot.index <= r.commit <= LastIndex(s)
    ensures Rel(SetCommit(g, s.cfg.id, r.commit), r)
  {
  }

  /** Forgetting part of what was applied lowers only the peer's commit index. */
  lemma Forgets(g: Proto, n: nat, h: Host, a: nat)
    requires Safe(g) && NodeHeld(g, n, h) && a <= |h.machine|
    ensures Stepped(g, SetCommit(g, n, a), n) && h.machine[..a] == g.peers[n].log[..a]
    ensures |h.machine| == h.node.commit
  {
    assert PeerOK(g, n);
    KnownShorter(g, g.peers[n].log, h.node.commit, a, h.node.term);
    hide Fold, Inv;
    SetCommitSafe(g, n, a);
  }

  /** A follower with no reads in hand owes nothing but its node and machine. */
  lemma FreshHost(g: Proto, n: nat, h: Host)
    requires NodeHeld(g, n, h) && h.node.role == Follower && h.queue == [] && h.pending == map[]
    ensures HostHeld(g, n, h)
  {
    hide NodeHeld;
  }

  lemma BootHeld(g: Proto, n: nat, h: Host, a: nat, cfg: Config, accepts: Bytes -> bool, u: Update)
    requires NodeHeld(g, n, h) && h.store.snapshot.index <= a <= |h.machine| && Recoverable(h, h.machine, a, cfg)
    requires h.machine[..a] == g.peers[n].log[..a] && |h.machine| == h.node.commit
    ensures var f := Booted(h.store, h.machine[..a], cfg, accepts, u);
      && (f.Some? <==> Reopens(h.store))
      && (f.Some? ==> HostHeld(SetCommit(g, n, a), n, f.value.host) && f.value.update == u && f.value.answers == {})
  {
    InvBoundsOf(g, n, h);
    RestoreKeeps(h.node, cfg.(appliedIndex := a));
    var r := Restore(cfg.(appliedIndex := a), h.store.hard, h.store.entries, h.store.snapshot).value;
    hide Restore, Inv;
    RestoredRel(g, h.node, r);
    if Reopens(h.store) {
      FreshHost(SetCommit(g, n, a), n, Booted(h.store, h.machine[..a], cfg, accepts, u).value.host);
    }
  }

  lemma StepSound(g: Proto, g': Proto, n: nat, f: Effect)
    requires Stepped(g, g', n) && HostHeld(g', n, f.host) && f.answers == {}
    requires EffectsOK(g', f.update) && AllMessagesFit(f.update.messages)
    ensures Sound(g, g', n, f)
  {
    hide Safe, HostHeld, EffectsOK, AllMessagesFit;
  }

  /** The reopened machine is a committed prefix that reaches at least the stored snapshot. */
  lemma ReopenedPart(g: Proto, n: nat, h: Host, machine: Image, kept: nat) returns (a: nat)
    requires NodeHeld(g, n, h) && machine <= h.machine && kept <= |machine|
    ensures h.store.snapshot.index <= a <= |h.machine| && Reopened(h.store, machine, kept) == h.machine[..a]
  {
    hide Inv, Fold;
    var b := h.store.snapshot.index;
    a := if b > kept then b else kept;
    assert g.peers[n].log[..h.node.commit][..b] == g.peers[n].log[..b];
    assert machine[..kept] == h.machine[..kept];
  }

  /** A host in step with a later protocol whose store is d and whose machine holds all of `machine`. */
  ghost predicate StandsFor(g: Proto, g1: Proto, n: nat, cfg: Config, v: Host, d: Durable, machine: Image) {
    && Stepped(g, g1, n) && NodeHeld(g1, n, v) && v.store == d && machine <= v.machine && v.node.cfg == cfg
  }

  lemma BootSound(g: Proto, g1: Proto, n: nat, h: Host, v: Host, d: Durable, machine: Image, kept: nat, cfg: Config,
                  u: Update) returns (g': Proto)
    requires StandsFor(g, g1, n, h.node.cfg, v, d, machine) && Recoverable(h, machine, kept, cfg)
    requires EffectsOK(g1, u) && AllMessagesFit(u.messages)
    ensures var f := Booted(d, Reopened(d, machine, kept), cfg, h.accepts, u);
      (f.Some? <==> Reopens(d)) && (f.Some? ==> Sound(g, g', n, f.value))
  {
    SteppedSafe(g, g1, n);
    hide Safe, NodeHeld, Stepped, Booted, Reopened, Sound, HostHeld, EffectsOK, AllMessagesFit;
    var a := ReopenedPart(g1, n, v, machine, kept);
    Forgets(g1, n, v, a);
    g' := SetCommit(g1, n, a);
    BootHeld(g1, n, v, a, cfg, h.accepts, u);
    SteppedTrans(g, g1, g', n);
    SteppedExtends(g1, g', n);
    EffectsKept(g1, g', u);
    if Reopens(d) { StepSound(g, g', n, Booted(d, v.machine[..a], cfg, h.accepts, u).value); }
  }

  lemma ItselfStands(g: Proto, n: nat, h: Host)
    requires Safe(g) && NodeHeld(g, n, h)
    ensures StandsFor(g, g, n, h.node.cfg, h, h.store, h.machine)
  {
    hide NodeHeld;
    SameStep(g, n);
  }

  lemma NothingOut(g: Proto)
    ensures EffectsOK(g, NO_EFFECT) && AllMessagesFit(NO_EFFECT.messages)
  {
  }

  /** A crash between events: the host comes back in step exactly when its store opens. */
  lemma RestartSound(g: Proto, n: nat, h: Host, kept: nat, cfg: Config) returns (g': Proto)
    requires Safe(g) && HostHeld(g, n, h) && Recoverable(h, h.machine, kept, cfg)
    ensures var f := Booted(h.store, Reopened(h.store, h.machine, kept), cfg, h.accepts, NO_EFFECT);
      (f.Some? <==> Reopens(h.store)) && (f.Some? ==> Sound(g, g', n, f.value))
  {
    hide Safe, NodeHeld, StandsFor, Booted, Reopened, Sound, EffectsOK, AllMessagesFit;
    ItselfStands(g, n, h);
    NothingOut(g);
    g' := BootSound(g, g, n, h, h, h.store, h.machine, kept, cfg, NO_EFFECT);
  }

  // ---- what an event computes -------------------------------------------

  /** The protocol can follow what a node computed. */
  ghost predicate Followed(g: Proto, g': Proto, s: NodeState, s': NodeState, u: Update) {
    && Stepped(g, g', s.cfg.id) && Transition(s, s', u) && KeepsRole(s, s', u) && Rel(g', s') && EffectsOK(g', u)
    && Fitting(u)
  }

  lemma NothingFollowed(g: Proto, s: NodeState)
    requires Safe(g) && Inv(s) && Rel(g, s)
    ensures Followed(g, g, s, s, NO_EFFECT)
  {
    hide Safe, Inv, Rel;
    SameStep(g, s.cfg.id);
    Unchanged(s, []);
    NothingOut(g);
  }

  lemma StepFollowed(g: Proto, s: NodeState, m: Message) returns (g': Proto)
    requires Safe(g) && Rel(g, s) && Inv(s) && Fits(s) && MessageOK(g, m) && MessageFits(m) && m.to == s.cfg.id
    ensures Bounded(s) && Followed(g, g', s, Step(s, m).0, Step(s, m).1)
  {
    assert Bounded(s);
    hide Safe, Inv, Rel, Transition, Stepped, MessageOK, MessageFits, EffectsOK, KeepsRole, Fits, AllFit, Step;
    g' := StepOK(g, s, m);
    StepKeeps(s, m);
    StepFits(s, m);
  }

  lemma TickFollowed(g: Proto, s: NodeState) returns (g': Proto)
    requires Safe(g) && Rel(g, s) && Inv(s) && Fits(s)
    ensures Followed(g, g', s, Tick(s).0, Tick(s).1)
  {
    hide Safe, Inv, Rel, Transition, Stepped, EffectsOK, KeepsRole, Fits, AllFit, Tick;
    g' := TickOK(g, s);
    TickKeeps(s);
    TickFits(s);
  }

  lemma BatchFollowed(g: Proto, s: NodeState, commands: seq<Bytes>) returns (g': Proto)
    requires Safe(g) && Rel(g, s) && Inv(s) && Fits(s) && ProposeBatch(s, commands).Proposed?
    ensures var r := ProposeBatch(s, commands); Followed(g, g', s, r.state, r.update)
  {
    hide Safe, Inv, Rel, Transition, Stepped, EffectsOK, KeepsRole, Fits, AllFit, ProposeBatch;
    g' := ProposeBatchOK(g, s, commands);
    ProposeBatchKeeps(s, commands);
    BatchProposalFits(s, commands);
  }

  lemma ChangeFollowed(g: Proto, s: NodeState, voters: seq<nat>) returns (g': Proto)
    requires Safe(g) && Rel(g, s) && Inv(s) && Fits(s) && !OversizeChange(s, voters)
    requires ProposeMembership(s, voters).Proposed?
    ensures var r := ProposeMembership(s, voters); Followed(g, g', s, r.state, r.update)
  {
    hide Safe, Inv, Rel, Transition, Stepped, EffectsOK, KeepsRole, Fits, AllFit, ProposeMembership, OversizeChange;
    g' := ProposeMembershipOK(g, s, voters);
    ProposeMembershipKeeps(s, voters);
    ChangeFits(s, voters);
  }

  /** Whatever an event makes a host's node compute, but for an oversize voter change. */
  lemma Intends(g: Proto, n: nat, h: Host, e: Event) returns (g': Proto)
    requires Safe(g) && HostHeld(g, n, h) && Possible(h, e)
    requires Delivered(e).Some? ==> MessageOK(g, Delivered(e).value) && MessageFits(Delivered(e).value)
    requires e.Reconfigure? ==> !OversizeChange(h.node, e.voters)
    ensures Followed(g, g', h.node, Intended(h, e).0, Intended(h, e).1)
  {
    InvBoundsOf(g, n, h);
    assert h.machine == g.peers[n].log[..h.node.commit];
    hide Safe, Inv, Rel, NodeHeld, Followed, MessageOK, MessageFits, Fits;
    hide Step, Tick, ProposeBatch, ProposeMembership, CreateSnapshot, OversizeChange;
    var s := h.node;
    g' := g;
    NothingFollowed(g, s);
    match e
    case Receive(m) => g' := StepFollowed(g, s, m);
    case Elapse => g' := TickFollowed(g, s);
    case Propose(commands) => if ProposeBatch(s, commands).Proposed? { g' := BatchFollowed(g, s, commands); }
    case Reconfigure(voters) => if ProposeMembership(s, voters).Proposed? { g' := ChangeFollowed(g, s, voters); }
    case TakeSnapshot =>
      SnapshotFollowed(g, s, h.machine);
    case _ =>
  }

  /** A snapshot of the machine is always accepted and always what it claims to be. */
  lemma SnapshotFollowed(g: Proto, s: NodeState, machine: Image)
    requires Safe(g) && Rel(g, s) && Inv(s) && Fits(s) && machine == g.peers[s.cfg.id].log[..s.commit]
    requires |machine| > s.snapshot.index
    ensures var r := CreateSnapshot(s, |machine|, machine); r.Some? && Followed(g, g, s, r.value.0, r.value.1)
  {
    hide Safe, Inv, CreateSnapshot, Transition, Stepped, EffectsOK, AllFit, FinalFits;
    CreateSnapshotOK(g, s, |machine|, machine);
    CreateSnapshotKeeps(s, |machine|, machine);
    CompactionFits(s, |machine|, machine);
    SameStep(g, s.cfg.id);
  }

  // ---- crashes inside an event -----------------------------------------

  /** A cut-off update left nothing, everything, or the store of a state the protocol allows. */
  lemma EventTorn(g: Proto, n: nat, h: Host, e: Event, writes: nat) returns (g2: Proto, x: NodeState)
    requires Safe(g) && NodeHeld(g, n, h) && Possible(h, e)
    requires Delivered(e).Some? ==> MessageOK(g, Delivered(e).value) && MessageFits(Delivered(e).value)
    ensures Torn(g, g2, h.node, x, Intended(h, e).0, Intended(h, e).1, writes)
    ensures e.Reconfigure? && OversizeChange(h.node, e.voters) ==> Left(h, e, writes) == h.store
  {
    InvBoundsOf(g, n, h);
    StoreOf(g, n, h);
    assert h.machine == g.peers[n].log[..h.node.commit];
    hide Safe, Inv, Rel, NodeHeld, Torn, MessageOK, MessageFits, Fits, TornAt;
    hide Step, Tick, ProposeBatch, ProposeMembership, CreateSnapshot, OversizeChange;
    var s := h.node;
    g2, x := g, s;
    NothingTorn(g, s, writes);
    match e
    case Receive(m) => g2, x := TornStep(g, s, m, writes);
    case Elapse => g2, x := TornTick(g, s, writes);
    case Propose(commands) =>
      var g1, y := TornPropose(g, s, commands, writes);
      if ProposeBatch(s, commands).Proposed? { g2, x := g1, y; }
    case Reconfigure(voters) =>
      var g1, y := TornReconfigure(g, s, voters, writes);
      if ProposeMembership(s, voters).Proposed? { g2, x := g1, y; } else { NothingLeft(h, writes); }
    case TakeSnapshot =>
      SnapshotFollowed(g, s, h.machine);
      SnapshotTorn(g, s, |h.machine|, h.machine, writes);
    case _ =>
  }

  lemma NothingTorn(g: Proto, s: NodeState, writes: nat)
    ensures Torn(g, g, s, s, s, NO_EFFECT, writes)
  {
  }

  lemma NothingLeft(h: Host, writes: nat)
    ensures TornAt(h.store, NO_EFFECT, writes) == h.store
  {
  }

  /** A snapshot of the machine is one write. */
  lemma SnapshotTorn(g: Proto, s: NodeState, index: nat, data: Image, writes: nat)
    requires CreateSnapshot(s, index, data).Some?
    requires var (s', u) := CreateSnapshot(s, index, data).value; Transition(s, s', u) && AllFit(u.entries)
    ensures var (s', u) := CreateSnapshot(s, index, data).value; Torn(g, g, s, s, s', u, writes)
  {
    hide Transition, Torn, CreateSnapshot, AllFit;
    var (s', u) := CreateSnapshot(s, index, data).value;
    TransitionPersists(s, s', u);
    CreatedShape(s, index, data);
    OneWriteTorn(g, s, s', u, writes);
  }

  lemma CreatedShape(s: NodeState, index: nat, data: Image)
    ensures var r := CreateSnapshot(s, index, data); r.Some? ==> OneWrite(r.value.1)
  {
    hide CompactLog, MembershipAt, Rebuilt;
  }

  /** The host a witness stands for. */
  lemma WitnessStands(g: Proto, g2: Proto, n: nat, h: Host, x: NodeState, d: Durable) returns (v: Host)
    requires Safe(g) && NodeHeld(g, n, h) && Witness(g, g2, h.node, x, d) && Follows(d.entries, d.snapshot.index)
    ensures StandsFor(g, g2, n, h.node.cfg, v, d, h.machine)
  {
    SteppedSafe(g, g2, n);
    var r := x.(role := Follower);
    v := Host(r, d, g2.peers[n].log[..r.commit], [], 0, map[], h.accepts);
    FollowsExactly(d.entries, d.snapshot.index);
    WitnessValid(g2, h.node, x);
    PrefixKept(g, g2, n);
    hide Safe, Fold, Inv, InSequence, AllFit, FinalFits;
  }

  lemma WitnessValid(g: Proto, s: NodeState, x: NodeState)
    requires Safe(g) && Inv(s) && CoreRel(g, x) && InSequence(x.log, x.snapshot.index)
    requires x.cfg == s.cfg && x.initial == s.initial && x.snapshot == s.snapshot
    ensures Inv(x.(role := Follower))
  {
    hide Safe, Fold, InSequence;
    RebuildRel(g, x, x.log);
    assert g.peers[x.cfg.id].log[..x.snapshot.index] + x.log == g.peers[x.cfg.id].log;
  }

  /** The host that carried the whole update through stands for any that carried it through in part. */
  lemma DoneStands(g: Proto, g1: Proto, n: nat, h: Host, s': NodeState, u: Update, machine: Image) returns (v: Host)
    requires Safe(g) && NodeHeld(g, n, h) && Followed(g, g1, h.node, s', u)
    requires s'.cfg.id == n && n in g1.peers && s'.commit <= |g1.peers[n].log|
    requires machine <= g1.peers[n].log[..s'.commit]
    ensures StandsFor(g, g1, n, h.node.cfg, v, DurableOf(s'), machine)
  {
    SteppedExtends(g, g1, n);
    ProcessHeld(g, g1, n, h, s', u);
    v := Finished(g1, n, h, s', u);
    hide Safe, Fold, Inv, KeepsCommitted, Reports, KeepsVote, EffectsOK;
  }

  lemma OldMachine(g: Proto, g1: Proto, n: nat, h: Host, s': NodeState, u: Update)
    requires Safe(g) && NodeHeld(g, n, h) && Followed(g, g1, h.node, s', u)
    ensures s'.cfg.id == n && n in g1.peers && s'.commit <= |g1.peers[n].log|
    ensures h.machine <= g1.peers[n].log[..s'.commit]
  {
    SteppedExtends(g, g1, n);
    CommitRises(h.node, s', u);
    PrefixKept(g, g1, n);
    hide Safe, Fold, Inv, EffectsOK;
  }

  /** What a host that went down had let out and applied, and a host that stands for it. */
  lemma LeftStands(g: Proto, n: nat, h: Host, e: Event, writes: nat, sent: nat, applied: nat)
    returns (g': Proto, v: Host)
    requires Safe(g) && HostHeld(g, n, h) && Possible(h, e)
    requires Delivered(e).Some? ==> MessageOK(g, Delivered(e).value) && MessageFits(Delivered(e).value)
    ensures var (machine, u) := Underway(h, e, writes, sent, applied);
      && StandsFor(g, g', n, h.node.cfg, v, Left(h, e, writes), machine)
      && EffectsOK(g', u) && AllMessagesFit(u.messages)
  {
    hide Safe, NodeHeld, Intended, TornAt, StandsFor, Underway, Followed, EffectsOK, AllMessagesFit, MessageOK;
    hide OversizeChange;
    if Whole(h, Intended(h, e).1, writes) {
      g', v := WholeStands(g, n, h, e, writes, sent, applied);
    } else {
      PartOut(h, e, writes, sent, applied);
      g', v := PartStands(g, n, h, e, writes);
      NothingOut(g');
    }
  }

  /** All of the update has been written. */
  predicate Whole(h: Host, u: Update, writes: nat) { writes > |u.entries| && Persisted(h.store, u).Some? }

  lemma PartOut(h: Host, e: Event, writes: nat, sent: nat, applied: nat)
    requires !Whole(h, Intended(h, e).1, writes)
    ensures Underway(h, e, writes, sent, applied) == (h.machine, NO_EFFECT)
  {
    hide Intended, Persisted;
  }

  lemma StoreOf(g: Proto, n: nat, h: Host)
    requires NodeHeld(g, n, h)
    ensures h.node.cfg.id == n && h.store == DurableOf(h.node) && Follows(h.store.entries, h.store.snapshot.index)
  {
    FollowsExactly(h.store.entries, h.store.snapshot.index);
  }

  lemma PartStands(g: Proto, n: nat, h: Host, e: Event, writes: nat) returns (g': Proto, v: Host)
    requires Safe(g) && HostHeld(g, n, h) && Possible(h, e)
    requires Delivered(e).Some? ==> MessageOK(g, Delivered(e).value) && MessageFits(Delivered(e).value)
    ensures StandsFor(g, g', n, h.node.cfg, v, Left(h, e, writes), h.machine)
  {
    var (s', u) := Intended(h, e);
    StoreOf(g, n, h);
    TornFollows(h.store, u, writes);
    hide Safe, NodeHeld, Intended, TornAt, StandsFor, Followed, Witness, Follows, MessageOK, OversizeChange;
    ItselfStands(g, n, h);
    g', v := g, h;
    var g2, x := EventTorn(g, n, h, e, writes);
    var d := Left(h, e, writes);
    if Witness(g, g2, h.node, x, d) {
      g' := g2;
      v := WitnessStands(g, g2, n, h, x, d);
    } else if d != h.store {
      g' := Intends(g, n, h, e);
      OldMachine(g, g', n, h, s', u);
      v := DoneStands(g, g', n, h, s', u, h.machine);
    }
  }

  lemma WholeStands(g: Proto, n: nat, h: Host, e: Event, writes: nat, sent: nat, applied: nat)
    returns (g': Proto, v: Host)
    requires Safe(g) && HostHeld(g, n, h) && Possible(h, e) && Whole(h, Intended(h, e).1, writes)
    requires Delivered(e).Some? ==> MessageOK(g, Delivered(e).value) && MessageFits(Delivered(e).value)
    ensures var (machine, u) := Underway(h, e, writes, sent, applied);
      && StandsFor(g, g', n, h.node.cfg, v, Left(h, e, writes), machine)
      && EffectsOK(g', u) && AllMessagesFit(u.messages)
  {
    var (s', u) := Intended(h, e);
    hide Safe, NodeHeld, Intended, TornAt, StandsFor, Followed, MessageOK, OversizeChange, Persisted, Applicable, Carry;
    StoreOf(g, n, h);
    NotOversize(g, n, h, e);
    g' := Intends(g, n, h, e);
    OldMachine(g, g', n, h, s', u);
    TornWhole(h.store, u, writes);
    FollowedStore(g, g', h.node, s', u);
    var done := Applicable(h, u.committed[..Min(applied, |u.committed|)]);
    FollowedPart(g, g', n, h, s', u, done);
    PartEffects(g, g', n, h, s', u, done, sent);
    v := DoneStands(g, g', n, h, s', u, Carry(h.store, h.machine, u.(committed := done)).value.1);
  }

  /** An oversize voter change is never written whole. */
  lemma NotOversize(g: Proto, n: nat, h: Host, e: Event)
    requires NodeHeld(g, n, h) && Persisted(h.store, Intended(h, e).1).Some?
    ensures e.Reconfigure? ==> !OversizeChange(h.node, e.voters)
  {
    InvBoundsOf(g, n, h);
    StoreOf(g, n, h);
    hide NodeHeld, Inv, Rel, OversizeChange, ProposeMembership, Persisted, Follows;
    if e.Reconfigure? { ProposeMembershipExactly(h.node, e.voters); }
  }

  lemma FollowedStore(g: Proto, g': Proto, s: NodeState, s': NodeState, u: Update)
    requires Followed(g, g', s, s', u)
    ensures Persisted(DurableOf(s), u) == Some(DurableOf(s'))
  {
    hide Inv, KeepsCommitted, Reports, KeepsVote, Rel, EffectsOK, Persisted, Stepped;
  }

  lemma FollowedPart(g: Proto, g': Proto, n: nat, h: Host, s': NodeState, u: Update, done: seq<Entry>)
    requires Safe(g) && NodeHeld(g, n, h) && Followed(g, g', h.node, s', u) && done <= u.committed
    requires n in g'.peers && s'.commit <= |g'.peers[n].log|
    ensures var carried := Carry(h.store, h.machine, u.(committed := done));
      carried.Some? && carried.value.1 <= g'.peers[n].log[..s'.commit]
  {
    SteppedExtends(g, g', h.node.cfg.id);
    hide Safe, NodeHeld, Transition, Rel, EffectsOK, Stepped, Carry;
    PartApplied(g, g', n, h, s', u, done);
  }

  lemma PartEffects(g: Proto, g': Proto, n: nat, h: Host, s': NodeState, u: Update, done: seq<Entry>, sent: nat)
    requires NodeHeld(g, n, h) && Followed(g, g', h.node, s', u) && done <= u.committed
    ensures var part := NO_EFFECT.(messages := u.messages[..Min(sent, |u.messages|)], committed := done);
      EffectsOK(g', part) && AllMessagesFit(part.messages)
  {
    hide Safe, Inv, Rel, KeepsCommitted, Reports, KeepsVote, Persisted, Stepped, MessageOK, Decided, MessageFits;
  }

  /** A crash at any point of carrying out an event: the host comes back in step exactly when the store it
      left opens. */
  lemma CrashSound(g: Proto, n: nat, h: Host, e: Event, writes: nat, sent: nat, applied: nat, kept: nat, cfg: Config)
    returns (g': Proto)
    requires Safe(g) && HostHeld(g, n, h) && Possible(h, e)
    requires Recoverable(h, Underway(h, e, writes, sent, applied).0, kept, cfg)
    requires Delivered(e).Some? ==> MessageOK(g, Delivered(e).value) && MessageFits(Delivered(e).value)
    ensures var d, (machine, u) := Left(h, e, writes), Underway(h, e, writes, sent, applied);
      var f := Booted(d, Reopened(d, machine, kept), cfg, h.accepts, u);
      (f.Some? <==> Reopens(d)) && (f.Some? ==> Sound(g, g', n, f.value))
  {
    hide Safe, HostHeld, Intended, TornAt, StandsFor, Booted, Reopened, Sound, Underway, EffectsOK, AllMessagesFit;
    hide MessageOK, Left, Reopens;
    var g1, v := LeftStands(g, n, h, e, writes, sent, applied);
    var (machine, u) := Underway(h, e, writes, sent, applied);
    g' := BootSound(g, g1, n, h, v, Left(h, e, writes), machine, kept, cfg, u);
  }
}
