/** Runs of one node under any inputs: its invariant and progress table always hold. */
module NodeRuns {
  import opened RaftTypes
  import opened RaftCore
  import opened Stable
  import opened NodeInvariant
  import opened NodeTransitions
  import opened NodeInputs
  import opened Replication

  datatype Input =
    | Message(message: RaftTypes.Message)
    | Elapsed
    | Commands(commands: seq<Bytes>)
    | NewVoters(voters: seq<nat>)
    | ReadContext(context: nat)
    | Snapshotted(index: nat, data: Image)

  /** The node after an input and the effects it emits; a refused input changes nothing. */
  function React(s: NodeState, i: Input): (NodeState, Update)
    requires Bounded(s)
  {
    match i
    case Message(m) => Step(s, m)
    case Elapsed => Tick(s)
    case Commands(commands) =>
      var r := ProposeBatch(s, commands);
      if r.Proposed? then (r.state, r.update) else (s, NO_EFFECT)
    case NewVoters(voters) =>
      var r := ProposeMembership(s, voters);
      if r.Proposed? then (r.state, r.update) else (s, NO_EFFECT)
    case ReadContext(context) =>
      var r := ReadProbe(s, context);
      if r.Probed? then (r.state, r.update) else (s, NO_EFFECT)
    case Snapshotted(index, data) =>
      var r := CreateSnapshot(s, index, data);
      if r.Some? then r.value else (s, NO_EFFECT)
  }

  lemma ReactKeeps(s: NodeState, i: Input)
    requires Inv(s) && Bounded(s)
    ensures Transition(s, React(s, i).0, React(s, i).1)
  {
    hide Inv, Transition, Step, Tick, ProposeBatch, ProposeMembership, ReadProbe, CreateSnapshot;
    Unchanged(s, []);
    match i
    case Message(m) => StepKeeps(s, m);
    case Elapsed => TickKeeps(s);
    case Commands(commands) => ProposeBatchKeeps(s, commands);
    case NewVoters(voters) => ProposeMembershipKeeps(s, voters);
    case ReadContext(context) => ReadProbeKeeps(s, context);
    case Snapshotted(index, data) => CreateSnapshotKeeps(s, index, data);
  }

  lemma ReadTable(s: NodeState, context: nat)
    requires s.role == Leader ==> TableOK(s)
    ensures var r := ReadProbe(s, context); r.Probed? ==> Advances(s, r.state)
  {
    hide SendAppends, Peers;
    SendAppendsTable(s, Peers(s), context, false);
  }

  lemma ReactAdvances(s: NodeState, i: Input)
    requires Inv(s) && Bounded(s) && (s.role == Leader ==> TableOK(s))
    ensures Advances(s, React(s, i).0)
  {
    hide Inv, TableOK, Rises, Step, Tick, ProposeBatch, ProposeMembership, ReadProbe, CreateSnapshot;
    SameAdvances(s);
    match i
    case Message(m) => StepTable(s, m);
    case Elapsed => TickTable(s);
    case Commands(commands) => ProposeTable(s, commands);
    case NewVoters(voters) => ReconfigureTable(s, voters);
    case ReadContext(context) => ReadTable(s, context);
    case Snapshotted(index, data) => CompactTable(s, index, data);
  }

  /** states[k + 1] and updates[k] are what inputs[k] does to states[k]. */
  ghost predicate Trace(states: seq<NodeState>, inputs: seq<Input>, updates: seq<Update>) {
    && |states| == |inputs| + 1 && |updates| == |inputs|
    && (forall k {:trigger StepAt(states, inputs, updates, k)} ::
          0 <= k < |inputs| ==> StepAt(states, inputs, updates, k))
  }

  ghost predicate StepAt(states: seq<NodeState>, inputs: seq<Input>, updates: seq<Update>, k: nat)
    requires k < |inputs| && |states| == |inputs| + 1 && |updates| == |inputs|
  {
    Bounded(states[k]) && React(states[k], inputs[k]) == (states[k + 1], updates[k])
  }

  /** The node leads one term throughout. */
  ghost predicate OneReign(states: seq<NodeState>) {
    forall k :: 0 <= k < |states| ==> states[k].role == Leader && states[k].term == states[0].term
  }

  ghost predicate InOrder(s: NodeState) { Inv(s) && (s.role == Leader ==> TableOK(s)) }

  lemma StepFacts(states: seq<NodeState>, inputs: seq<Input>, updates: seq<Update>, k: nat)
    requires Trace(states, inputs, updates) && k + 1 < |states| && InOrder(states[k])
    ensures Transition(states[k], states[k + 1], updates[k]) && Advances(states[k], states[k + 1])
    ensures InOrder(states[k + 1])
  {
    hide Inv, TableOK, React, Rises, Persisted, Reports, KeepsCommitted;
    assert StepAt(states, inputs, updates, k);
    ReactKeeps(states[k], inputs[k]);
    ReactAdvances(states[k], inputs[k]);
  }

  /** From a valid start every state of a run is valid, and every leader's table is in order. */
  lemma {:induction false} AlwaysInOrder(states: seq<NodeState>, inputs: seq<Input>, updates: seq<Update>, k: nat)
    requires Trace(states, inputs, updates) && k < |states| && InOrder(states[0])
    ensures InOrder(states[k]) && states[k].cfg == states[0].cfg
    decreases k
  {
    hide InOrder, Trace, Transition, Advances;
    if k > 0 {
      TraceLengths(states, inputs, updates);
      AlwaysInOrder(states, inputs, updates, k - 1);
      StepFacts(states, inputs, updates, k - 1);
      TransitionFacts(states[k - 1], states[k], updates[k - 1]);
    }
  }

  lemma TransitionFacts(s: NodeState, s': NodeState, u: Update)
    requires Transition(s, s', u)
    ensures Inv(s') && s'.cfg == s.cfg && s.commit <= s'.commit
  {
  }

  /** Within one leadership no match index ever falls. */
  lemma {:induction false} MatchNeverFalls(states: seq<NodeState>, inputs: seq<Input>, updates: seq<Update>, j: nat,
                                           k: nat)
    requires Trace(states, inputs, updates) && j <= k < |states| && OneReign(states) && InOrder(states[0])
    ensures InOrder(states[k]) && Rises(states[j], states[k])
    decreases k
  {
    hide InOrder, Trace, Transition, TableOK, Rises;
    if j == k {
      AlwaysInOrder(states, inputs, updates, k);
      RisesSelf(states[k]);
    } else {
      MatchNeverFalls(states, inputs, updates, j, k - 1);
      assert states[k - 1].role == Leader && states[k].role == Leader;
      StepFacts(states, inputs, updates, k - 1);
      RisesTrans(states[j], states[k - 1], states[k]);
    }
  }

  lemma RisesSelf(s: NodeState)
    ensures Rises(s, s)
  {
  }

  lemma RisesTrans(a: NodeState, b: NodeState, c: NodeState)
    requires Rises(a, b) && Rises(b, c)
    ensures Rises(a, c)
  {
    forall id ensures Get(a.progress.matchIndex, id) <= Get(c.progress.matchIndex, id) {
      assert Get(a.progress.matchIndex, id) <= Get(b.progress.matchIndex, id);
    }
  }

  /** Over any run, snapshots or not: the commit index never falls and no committed entry is replaced. */
  lemma {:induction false} CommittedStays(states: seq<NodeState>, inputs: seq<Input>, updates: seq<Update>, j: nat,
                                          k: nat)
    requires Trace(states, inputs, updates) && j <= k < |states| && InOrder(states[0])
    ensures states[j].commit <= states[k].commit && KeepsCommitted(states[j], states[k])
    decreases k
  {
    hide InOrder, Trace, Transition, Advances, KeepsCommitted, Inv;
    TraceLengths(states, inputs, updates);
    AlwaysInOrder(states, inputs, updates, j);
    InOrderInv(states[j]);
    if j == k {
      KeepsItself(states[j]);
    } else {
      CommittedStays(states, inputs, updates, j, k - 1);
      AlwaysInOrder(states, inputs, updates, k - 1);
      InOrderInv(states[k - 1]);
      StepFacts(states, inputs, updates, k - 1);
      KeptFacts(states[k - 1], states[k], updates[k - 1]);
      InvBounds(states[k - 1]);
      KeepsCommittedTrans(states[j], states[k - 1], states[k]);
    }
  }

  lemma InOrderInv(s: NodeState)
    requires InOrder(s)
    ensures Inv(s)
  {
  }

  lemma TraceLengths(states: seq<NodeState>, inputs: seq<Input>, updates: seq<Update>)
    requires Trace(states, inputs, updates)
    ensures |states| == |inputs| + 1 && |updates| == |inputs|
  {
  }

  lemma KeepsItself(s: NodeState)
    ensures KeepsCommitted(s, s)
  {
  }

  lemma KeptFacts(s: NodeState, s': NodeState, u: Update)
    requires Transition(s, s', u)
    ensures KeepsCommitted(s, s') && s.commit <= s'.commit
  {
    hide Inv, Persisted, KeepsCommitted;
  }

  /** The update carries no snapshot beyond what was already committed. */
  predicate NoJump(s: NodeState, u: Update) { u.snapshot.Some? ==> u.snapshot.value.index <= s.commit }

  lemma OnlySnapshotsJump(s: NodeState, i: Input)
    requires Bounded(s) && !NoJump(s, React(s, i).1)
    ensures i.Message? && i.message.InstallSnapshot?
  {
    hide Step, Tick, ProposeBatch, ProposeMembership, ReadProbe, CreateSnapshot;
    match i
    case Message(m) => if !m.InstallSnapshot? { OnlyInstalls(s, m); }
    case Elapsed => TickNoSnapshot(s);
    case Commands(commands) => ProposalNoSnapshot(s, commands, []);
    case NewVoters(voters) => ProposalNoSnapshot(s, [], voters);
    case ReadContext(context) => ReadNoSnapshot(s, context);
    case Snapshotted(index, data) => CompactionStaysBehind(s, index, data);
  }

  lemma ReadNoSnapshot(s: NodeState, context: nat)
    ensures var r := ReadProbe(s, context); r.Probed? ==> r.update.snapshot.None?
  {
  }

  /** Where commits are skipped: only a snapshot message does it; the node then reports nothing, and its
      commit index and boundary become the snapshot's. */
  lemma JumpsExactly(states: seq<NodeState>, inputs: seq<Input>, updates: seq<Update>, k: nat)
    requires Trace(states, inputs, updates) && k + 1 < |states| && InOrder(states[0])
    requires !NoJump(states[k], updates[k])
    ensures inputs[k].Message? && inputs[k].message.InstallSnapshot?
    ensures updates[k].committed == []
    ensures states[k + 1].commit == updates[k].snapshot.value.index
    ensures states[k + 1].snapshot == updates[k].snapshot.value
  {
    hide InOrder, React, Transition, Inv;
    assert StepAt(states, inputs, updates, k);
    OnlySnapshotsJump(states[k], inputs[k]);
    AlwaysInOrder(states, inputs, updates, k);
    StepFacts(states, inputs, updates, k);
    InOrderInv(states[k]);
    SnapshotLands(states[k], states[k + 1], updates[k]);
  }

  lemma SnapshotLands(s: NodeState, s': NodeState, u: Update)
    requires Inv(s) && Transition(s, s', u) && !NoJump(s, u)
    ensures u.committed == [] && s'.commit == u.snapshot.value.index && s'.snapshot == u.snapshot.value
  {
    hide Rebuilt, KeepsCommitted, SnapshotValid;
  }

  /** The committed lists of a run without such a jump, compacted or not, join up to exactly the entries
      between its ends. */
  lemma {:induction false} CommitsJoinUp(states: seq<NodeState>, inputs: seq<Input>, updates: seq<Update>, k: nat)
    requires Trace(states, inputs, updates) && k < |states| && InOrder(states[0])
    requires forall i :: 0 <= i < |updates| ==> NoJump(states[i], updates[i])
    ensures InOrder(states[k]) && states[0].commit <= states[k].commit
    ensures Consecutive(Reported(updates[..k]), states[0].commit, states[k].commit)
    decreases k
  {
    if k > 0 {
      hide InOrder, Trace, Transition, Advances, Consecutive, Reported, NoJump;
      CommitsJoinUp(states, inputs, updates, k - 1);
      StepFacts(states, inputs, updates, k - 1);
      assert NoJump(states[k - 1], updates[k - 1]);
      ReportedIndexes(states[k - 1], states[k], updates[k - 1]);
      JoinedUp(updates, k - 1, states[0].commit, states[k - 1].commit, states[k].commit);
    }
  }

  lemma JoinedUp(updates: seq<Update>, k: nat, a: nat, b: nat, c: nat)
    requires k < |updates| && a <= b <= c
    requires Consecutive(Reported(updates[..k]), a, b) && Consecutive(updates[k].committed, b, c)
    ensures Consecutive(Reported(updates[..k + 1]), a, c)
  {
    assert updates[..k + 1] == updates[..k] + [updates[k]];
  }

  /** The entries from..to, one per index. */
  ghost predicate Consecutive(entries: seq<Entry>, after: nat, through: nat) {
    |entries| == through - after && forall i :: 0 <= i < |entries| ==> entries[i].index == after + 1 + i
  }

  function Reported(updates: seq<Update>): seq<Entry> {
    if updates == [] then [] else Reported(updates[..|updates| - 1]) + updates[|updates| - 1].committed
  }

  lemma ReportedIndexes(s: NodeState, s': NodeState, u: Update)
    requires Transition(s, s', u) && NoJump(s, u)
    ensures s.commit <= s'.commit && Consecutive(u.committed, s.commit, s'.commit)
  {
    hide Rebuilt, SnapshotValid, Persisted;
    forall k | 0 <= k < |u.committed| ensures u.committed[k].index == s.commit + 1 + k {
      assert InLog(s', s.commit + 1 + k, u.committed[k]);
    }
  }
}
