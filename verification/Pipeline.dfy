/** What happens to an update after the node emits it: persist, restore, apply, in that order. */
module Pipeline {
  import opened RaftTypes
  import opened Stable

  /** Applies committed entries in order; None is the runtime's apply-gap error. */
  function ApplyAll(machine: Image, committed: seq<Entry>): Option<Image>
    decreases |committed|
  {
    if committed == [] then Some(machine)
    else if committed[0].index <= |machine| then ApplyAll(machine, committed[1..])
    else if committed[0].index != |machine| + 1 then None
    else ApplyAll(machine + [committed[0]], committed[1..])
  }

  /** The machine after a durable snapshot it has not reached, or None when the store lacks it. */
  function Restored(machine: Image, store: Durable, u: Update): Option<Image> {
    if u.snapshot.None? || |machine| >= u.snapshot.value.index then Some(machine)
    else if store.snapshot.index != u.snapshot.value.index then None
    else Some(store.snapshot.data)
  }

  /** Store and machine after an update, or None for any error that stops the runtime. */
  function Carry(store: Durable, machine: Image, u: Update): Option<(Durable, Image)> {
    var store' := Persisted(store, u);
    if store'.None? then None
    else
      var restored := Restored(machine, store'.value, u);
      if restored.None? then None
      else
        var machine' := ApplyAll(restored.value, u.committed);
        if machine'.None? then None else Some((store'.value, machine'.value))
  }

  /** Applying two lists in turn is applying them together. */
  lemma {:induction false} ApplyAllConcat(machine: Image, a: seq<Entry>, b: seq<Entry>)
    ensures ApplyAll(machine, a + b) ==
      (if ApplyAll(machine, a).None? then None else ApplyAll(ApplyAll(machine, a).value, b))
    decreases |a|
  {
    if a == [] {
      assert a + b == b;
    } else {
      assert (a + b)[1..] == a[1..] + b;
      ApplyAllConcat(machine, a[1..], b);
      ApplyAllConcat(machine + [a[0]], a[1..], b);
    }
  }

  /** Entries that follow the machine are all applied. */
  lemma {:induction false} ApplyInOrder(machine: Image, committed: seq<Entry>)
    requires forall k :: 0 <= k < |committed| ==> committed[k].index == |machine| + k + 1
    ensures ApplyAll(machine, committed) == Some(machine + committed)
    decreases |committed|
  {
    if committed == [] {
      assert machine + committed == machine;
    } else {
      ApplyInOrder(machine + [committed[0]], committed[1..]);
      assert machine + [committed[0]] + committed[1..] == machine + committed;
    }
  }
}
