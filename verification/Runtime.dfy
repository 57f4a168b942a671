/** The runtime's event loop around a node, its store and its machine: processing an update, and
    stepping a group of appends with one persist. */
module Runtime {
  import opened RaftTypes
  import opened RaftCore
  import opened Stable
  import opened Pipeline
  import opened Coalescing
  import opened NodeInvariant
  import opened NodeTransitions
  import opened NodeInputs
  import opened NodeSizes
  import opened RaftNode
  import S = Store

  // ---- the updates of a group ------------------------------------------

  predicate AllAppends(group: seq<Message>) { forall k :: 0 <= k < |group| ==> group[k].Append? }

  /** The node after a group of messages and the update each emitted. */
  ghost function StepAll(s: NodeState, group: seq<Message>): (r: (NodeState, seq<Update>))
    requires Inv(s) && AllAppends(group)
    ensures Inv(r.0) && |r.1| == |group|
  {
    if group == [] then (s, [])
    else
      var n := |group| - 1;
      var (s1, us) := StepAll(s, group[..n]);
      InvBounds(s1);
      StepKeeps(s1, group[n]);
      var (s2, u) := Step(s1, group[n]);
      (s2, us + [u])
  }

  lemma {:induction false} StepAllPrefix(s: NodeState, group: seq<Message>, i: nat)
    requires Inv(s) && AllAppends(group) && i < |group|
    ensures var s1 := StepAll(s, group[..i]).0;
      Inv(s1) && Bounded(s1) && StepAll(s, group).1[i] == Step(s1, group[i]).1
      && StepAll(s, group[..i + 1]).0 == Step(s1, group[i]).0
    decreases |group|
  {
    hide Inv, Step;
    InvBounds(StepAll(s, group[..i]).0);
    assert group[..i + 1][..i] == group[..i];
    if i == |group| - 1 {
      assert group[..i + 1] == group;
    } else {
      var n := |group| - 1;
      StepAllPrefix(s, group[..n], i);
      assert group[..n][..i] == group[..i] && group[..n][..i + 1] == group[..i + 1];
    }
  }

  /** An append's update always carries: it persists to the new state and applies without a gap. */
  lemma AppendCarries(s: NodeState, m: Message, machine: Image)
    requires Inv(s) && Bounded(s) && m.Append? && |machine| == s.commit
    ensures var (s', u) := Step(s, m);
      && Carry(DurableOf(s), machine, u) == Some((DurableOf(s'), machine + u.committed))
      && |machine + u.committed| == s'.commit
  {
    StepKeeps(s, m);
    AppendNoSnapshot(s, m);
    AppendStepFits(s, m);
    var (s', u) := Step(s, m);
    hide Step, Inv, Persisted, Rebuilt, AllFit;
    CommittedApplies(s, s', u, machine);
  }

  lemma CommittedApplies(s: NodeState, s': NodeState, u: Update, machine: Image)
    requires Transition(s, s', u) && u.snapshot.None? && |machine| == s.commit
    ensures ApplyAll(machine, u.committed) == Some(machine + u.committed) && |machine + u.committed| == s'.commit
  {
    hide Rebuilt, SnapshotValid, Persisted;
    forall k | 0 <= k < |u.committed| ensures u.committed[k].index == |machine| + k + 1 {
      assert InLog(s', s.commit + 1 + k, u.committed[k]);
      assert s'.log[s.commit + k - s'.snapshot.index].index == s.commit + 1 + k;
    }
    ApplyInOrder(machine, u.committed);
  }

  // ---- the runtime -----------------------------------------------------

  /** What is merged so far: persisting and applying it would bring the pipe to the node. */
  ghost predicate Pending(p: Pipe, merged: Update, waiting: seq<nat>, s: NodeState) {
    if waiting == [] then merged == NO_EFFECT && p.store == DurableOf(s) && |p.machine| == s.commit
    else
      && Plain(merged) && Carry(p.store, p.machine, merged).Some?
      && Carry(p.store, p.machine, merged).value.0 == DurableOf(s)
      && |Carry(p.store, p.machine, merged).value.1| == s.commit
  }

  lemma PendingNext(p: Pipe, merged: Update, waiting: seq<nat>, s: NodeState, m: Message, rpc: nat)
    requires Inv(s) && Bounded(s) && m.Append? && Pending(p, merged, waiting, s) && Plain(Step(s, m).1)
    ensures Pending(p, Joined(merged, Step(s, m).1), waiting + [rpc], Step(s, m).0)
  {
    hide Inv, Step, Carry;
    var (s', u) := Step(s, m);
    if waiting == [] {
      AppendCarries(s, m, p.machine);
      CarryFirst(p.store, p.machine, u);
    } else {
      AppendCarries(s, m, Carry(p.store, p.machine, merged).value.1);
      CarryJoined(p.store, p.machine, merged, u);
    }
  }

  /** After a flush the pipe has caught up with the node. */
  lemma FlushedPending(p: Pipe, merged: Update, waiting: seq<nat>, s: NodeState)
    requires Pending(p, merged, waiting, s)
    ensures var (q, ok) := Flush(p, merged, waiting); ok ==> Pending(q, NO_EFFECT, [], s)
  {
    hide Carry;
    if waiting != [] && p.good > 0 { AnsweredShape(Process(p, merged).0, waiting, true); }
  }

  lemma AlonePending(p: Pipe, s: NodeState, m: Message, rpc: nat)
    requires Inv(s) && Bounded(s) && m.Append? && Pending(p, NO_EFFECT, [], s)
    ensures p.good > 0 ==> Carry(p.store, p.machine, Step(s, m).1).Some?
    ensures var (q, ok) := Process(p, Step(s, m).1); ok ==> Pending(Answered(q, [rpc], ok), NO_EFFECT, [], Step(s, m).0)
  {
    hide Inv, Step, Carry;
    AppendCarries(s, m, p.machine);
    var (q, ok) := Process(p, Step(s, m).1);
    AnsweredShape(q, [rpc], ok);
  }

  class Runtime {
    const node: Node
    const store: S.Store
    var machine: Image
    var sent: seq<Message>
    var good: nat
    var answers: seq<Answer>

    ghost predicate Valid()
      reads this, node, store
    {
      Inv(node.State()) && store.Valid()
    }

    function Current(): Pipe
      reads this, store
    {
      Pipe(store.Contents(), machine, sent, good, answers)
    }

    constructor (node: Node, store: S.Store, machine: Image, good: nat)
      ensures this.node == node && this.store == store
      ensures Current() == Pipe(store.Contents(), machine, [], good, [])
    {
      this.node, this.store, this.machine, this.sent, this.good, this.answers := node, store, machine, [], good, [];
    }

    /** Applies entries in order, passing over those the machine already has. */
    method ApplyCommitted(committed: seq<Entry>)
      requires ApplyAll(machine, committed).Some?
      modifies this`machine
      ensures machine == ApplyAll(old(machine), committed).value
    {
      for i := 0 to |committed|
        invariant ApplyAll(old(machine), committed) == ApplyAll(machine, committed[i..])
      {
        var e := committed[i];
        assert committed[i..][0] == e && committed[i..][1..] == committed[i + 1..];
        if e.index > |machine| {
          assert e.index == |machine| + 1;
          machine := machine + [e];
        }
      }
    }

    /** Persist, restore a newer snapshot, send, apply. The only failure left is that of the disk itself. */
    method ProcessUpdate(u: Update) returns (ok: bool)
      requires store.Valid() && (good > 0 ==> Carry(store.Contents(), machine, u).Some?)
      modifies this, store
      ensures store.Valid() && (Current(), ok) == Process(old(Current()), u)
    {
      if good == 0 { return false; }
      hide Persisted, TornAt, Follows, S.FileOf, S.Placed, S.Leading;
      good := good - 1;
      var persisted := store.Persist(u);
      assert persisted;
      if u.snapshot.Some? && |machine| < u.snapshot.value.index { machine := store.snapshot.data; }
      sent := sent + u.messages;
      ApplyCommitted(u.committed);
      ok := true;
    }

    method Answer(rpcs: seq<nat>, ok: bool)
      modifies this`answers
      ensures Current() == Answered(old(Current()), rpcs, ok)
    {
      for i := 0 to |rpcs|
        invariant Answered(old(Current()), rpcs, ok) == Answered(Current(), rpcs[i..], ok)
        invariant Current() == old(Current()).(answers := answers)
      {
        assert rpcs[i..][0] == rpcs[i] && rpcs[i..][1..] == rpcs[i + 1..];
        answers := answers + [Coalescing.Answer(rpcs[i], ok, store.Contents())];
      }
    }

    method FlushMerged(merged: Update, waiting: seq<nat>, ghost s: NodeState) returns (ok: bool)
      requires store.Valid() && Pending(Current(), merged, waiting, s)
      modifies this, store
      ensures store.Valid() && (Current(), ok) == Flush(old(Current()), merged, waiting)
    {
      hide Carry, Process;
      if waiting == [] { return true; }
      ok := ProcessUpdate(merged);
      Answer(waiting, ok);
    }

    /** Persists what was merged, then one update alone. */
    method ProcessSeparately(merged: Update, waiting: seq<nat>, u: Update, rpcs: seq<nat>, ghost s: NodeState,
                             ghost m: Message)
      returns (ok: bool)
      requires store.Valid() && Pending(Current(), merged, waiting, s) && rpcs != []
      requires Inv(s) && Bounded(s) && m.Append? && u == RaftCore.Step(s, m).1
      modifies this, store
      ensures store.Valid() && (Current(), ok) == Separate(old(Current()), merged, waiting, u, rpcs)
    {
      FlushedPending(Current(), merged, waiting, s);
      if Flush(Current(), merged, waiting).1 { AlonePending(Flush(Current(), merged, waiting).0, s, m, rpcs[0]); }
      AppendNoSnapshot(s, m);
      hide Inv, Carry, Process, RaftCore.Step, Pending, Flush;
      ok := FlushMerged(merged, waiting, s);
      if !ok {
        Answer(rpcs, false);
        return;
      }
      ok := ProcessUpdate(u);
      Answer([rpcs[0]], ok);
      if !ok { Answer(rpcs[1..], false); }
    }

    /** Steps a group of appends: updates that only append, commit and answer share a persist; any
        other is persisted alone, after what was merged before it. */
    method StepAppends(group: seq<Message>, rpcs: seq<nat>) returns (ok: bool)
      requires Valid() && AllAppends(group) && |group| == |rpcs|
      requires store.Contents() == DurableOf(node.State()) && |machine| == node.commit
      modifies this, node, store
      ensures Valid()
      ensures (Current(), ok) == Coalesced(old(Current()), NO_EFFECT, [], StepAll(old(node.State()), group).1, rpcs)
      ensures ok ==> node.State() == StepAll(old(node.State()), group).0
      ensures ok ==> store.Contents() == DurableOf(node.State()) && |machine| == node.commit
    {
      hide Inv, Carry, Process, RaftCore.Step, Flush, Plain, Joined, Separate;
      ghost var s0, p0 := node.State(), Current();
      ghost var us := StepAll(s0, group).1;
      var merged, waiting: seq<nat> := NO_EFFECT, [];
      assert group[..0] == [] && us[0..] == us && rpcs[0..] == rpcs;
      for i := 0 to |group|
        invariant Valid() && node.State() == StepAll(s0, group[..i]).0
        invariant Pending(Current(), merged, waiting, node.State())
        invariant Coalesced(p0, NO_EFFECT, [], us, rpcs) == Coalesced(Current(), merged, waiting, us[i..], rpcs[i..])
      {
        hide Pending;
        ghost var s, p := node.State(), Current();
        GroupStep(s0, group, i);
        Slices(us, i);
        Slices(rpcs, i);
        if Plain(us[i]) { PendingNext(p, merged, waiting, s, group[i], rpcs[i]); }
        var update := node.Step(group[i]);
        if Plain(update) {
          merged, waiting := Joined(merged, update), waiting + [rpcs[i]];
        } else {
          SeparatePending(p, merged, waiting, s, group[i], rpcs[i..]);
          ok := ProcessSeparately(merged, waiting, update, rpcs[i..], s, group[i]);
          if !ok { return; }
          merged, waiting := NO_EFFECT, [];
        }
      }
      assert group[..|group|] == group && us[|group|..] == [] && rpcs[|group|..] == [];
      FlushedPending(Current(), merged, waiting, node.State());
      ok := FlushMerged(merged, waiting, node.State());
    }
  }

  lemma SeparatePending(p: Pipe, merged: Update, waiting: seq<nat>, s: NodeState, m: Message, rpcs: seq<nat>)
    requires Inv(s) && Bounded(s) && m.Append? && Pending(p, merged, waiting, s) && rpcs != []
    ensures var (q, ok) := Separate(p, merged, waiting, Step(s, m).1, rpcs);
      ok ==> Pending(q, NO_EFFECT, [], Step(s, m).0)
  {
    FlushedPending(p, merged, waiting, s);
    if Flush(p, merged, waiting).1 { AlonePending(Flush(p, merged, waiting).0, s, m, rpcs[0]); }
    hide Inv, Carry, Process, Step, Pending, Flush;
  }

  /** The i-th message of a group meets the node it should, and leaves it valid. */
  lemma GroupStep(s: NodeState, group: seq<Message>, i: nat)
    requires Inv(s) && AllAppends(group) && i < |group|
    ensures var s1 := StepAll(s, group[..i]).0; var m := group[i];
      && Bounded(s1) && m.Append? && MessageFits(m) && Inv(Step(s1, m).0)
      && StepAll(s, group).1[i] == Step(s1, m).1 && StepAll(s, group[..i + 1]).0 == Step(s1, m).0
  {
    StepAllPrefix(s, group, i);
    StepKeeps(StepAll(s, group[..i]).0, group[i]);
    hide Step, StepAll;
  }

  // ---- coalescing is invisible -----------------------------------------

  lemma {:induction false} SequentialSucceeds(s: NodeState, group: seq<Message>, rpcs: seq<nat>, p: Pipe, i: nat)
    requires Inv(s) && AllAppends(group) && |group| == |rpcs| && i <= |group|
    requires Pending(p, NO_EFFECT, [], StepAll(s, group[..i]).0) && p.good >= |group| - i
    ensures OneByOne(p, StepAll(s, group).1[i..], rpcs[i..]).1
    decreases |group| - i
  {
    if i < |group| {
      hide Inv, Step, Process, Pending, StepAll;
      var us, s1 := StepAll(s, group).1, StepAll(s, group[..i]).0;
      GroupStep(s, group, i);
      Slices(us, i);
      Slices(rpcs, i);
      AlonePending(p, s1, group[i], rpcs[i]);
      ProcessBudget(p, us[i]);
      var q := Answered(Process(p, us[i]).0, [rpcs[i]], true);
      AnsweredShape(Process(p, us[i]).0, [rpcs[i]], true);
      SequentialSucceeds(s, group, rpcs, q, i + 1);
    }
  }

  lemma ProcessBudget(p: Pipe, u: Update)
    requires p.good > 0 && Carry(p.store, p.machine, u).Some?
    ensures Process(p, u).1 && Process(p, u).0.good == p.good - 1
  {
  }

  /** On a disk that holds out, a coalesced group ends exactly where one-at-a-time processing does:
      same store, same machine, same messages in the same order. */
  lemma CoalescingIsInvisible(s: NodeState, group: seq<Message>, rpcs: seq<nat>, p: Pipe)
    requires Inv(s) && AllAppends(group) && |group| == |rpcs| && p.good >= |group|
    requires p.store == DurableOf(s) && |p.machine| == s.commit
    ensures var us := StepAll(s, group).1; var (q, ok) := Coalesced(p, NO_EFFECT, [], us, rpcs);
      ok && OneByOne(p, us, rpcs).1 && SameOutcome(q, OneByOne(p, us, rpcs).0)
  {
    var us := StepAll(s, group).1;
    assert group[..0] == [] && us[0..] == us && rpcs[0..] == rpcs;
    hide Inv, OneByOne, Coalesced;
    SequentialSucceeds(s, group, rpcs, p, 0);
    CoalescingRefines(p, NO_EFFECT, [], p, us, rpcs);
  }
}
