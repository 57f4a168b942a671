/** Merging the updates of several appends into one persist, against persisting each alone. */
module Coalescing {
  import opened RaftTypes
  import opened Stable
  import opened Pipeline

  /** A completed call: which one, whether it succeeded, and what was durable when it completed. */
  datatype Answer = Answer(rpc: nat, ok: bool, durable: Durable)

  /** `good` is how many more persists succeed before one fails. */
  datatype Pipe = Pipe(store: Durable, machine: Image, sent: seq<Message>, good: nat, answers: seq<Answer>)

  function Process(p: Pipe, u: Update): (Pipe, bool) {
    if p.good == 0 then (p, false)
    else
      var carried := Carry(p.store, p.machine, u);
      if carried.None? then (p.(good := p.good - 1), false)
      else
        var (store, machine) := carried.value;
        (p.(store := store, machine := machine, sent := p.sent + u.messages, good := p.good - 1), true)
  }

  function Answered(p: Pipe, rpcs: seq<nat>, ok: bool): Pipe
    decreases |rpcs|
  {
    if rpcs == [] then p else Answered(p.(answers := p.answers + [Answer(rpcs[0], ok, p.store)]), rpcs[1..], ok)
  }

  /** Each update is processed and its call answered before the next. */
  function OneByOne(p: Pipe, updates: seq<Update>, rpcs: seq<nat>): (Pipe, bool)
    requires |updates| == |rpcs|
    decreases |updates|
  {
    if updates == [] then (p, true)
    else
      var (p1, ok) := Process(p, updates[0]);
      var p2 := Answered(p1, [rpcs[0]], ok);
      if ok then OneByOne(p2, updates[1..], rpcs[1..]) else (Answered(p2, rpcs[1..], false), false)
  }

  /** Updates that only append, commit and answer can share a persist. */
  predicate Plain(u: Update) { u.hardState.None? && u.truncateFrom == 0 && u.snapshot.None? && !u.roleChanged }

  function Joined(a: Update, b: Update): Update {
    NO_EFFECT.(entries := a.entries + b.entries, messages := a.messages + b.messages,
      committed := a.committed + b.committed)
  }

  function Flush(p: Pipe, merged: Update, waiting: seq<nat>): (Pipe, bool) {
    if waiting == [] then (p, true)
    else
      var (p1, ok) := Process(p, merged);
      (Answered(p1, waiting, ok), ok)
  }

  /** An update that ends the merge: what was merged first, then it alone. On a failure every call
      still waiting is answered with it. */
  function Separate(p: Pipe, merged: Update, waiting: seq<nat>, u: Update, rpcs: seq<nat>): (Pipe, bool)
    requires rpcs != []
  {
    var (p1, ok) := Flush(p, merged, waiting);
    if !ok then (Answered(p1, rpcs, false), false)
    else
      var (p2, ok2) := Process(p1, u);
      var p3 := Answered(p2, [rpcs[0]], ok2);
      if ok2 then (p3, true) else (Answered(p3, rpcs[1..], false), false)
  }

  /** stepAppends: plain updates are merged; any other ends the merge and is processed alone. */
  function Coalesced(p: Pipe, merged: Update, waiting: seq<nat>, updates: seq<Update>, rpcs: seq<nat>): (Pipe, bool)
    requires |updates| == |rpcs|
    decreases |updates|
  {
    if updates == [] then Flush(p, merged, waiting)
    else if Plain(updates[0]) then
      Coalesced(p, Joined(merged, updates[0]), waiting + [rpcs[0]], updates[1..], rpcs[1..])
    else
      var (p1, ok) := Separate(p, merged, waiting, updates[0], rpcs);
      if ok then Coalesced(p1, NO_EFFECT, [], updates[1..], rpcs[1..]) else (p1, false)
  }

  // ---- answers ---------------------------------------------------------

  function Rpcs(answers: seq<Answer>): seq<nat> {
    if answers == [] then [] else Rpcs(answers[..|answers| - 1]) + [answers[|answers| - 1].rpc]
  }

  lemma {:induction false} AnsweredRpcs(p: Pipe, rpcs: seq<nat>, ok: bool)
    ensures Rpcs(Answered(p, rpcs, ok).answers) == Rpcs(p.answers) + rpcs
    ensures Answered(p, rpcs, ok) == p.(answers := Answered(p, rpcs, ok).answers)
    decreases |rpcs|
  {
    if rpcs != [] {
      var p1 := p.(answers := p.answers + [Answer(rpcs[0], ok, p.store)]);
      AnsweredRpcs(p1, rpcs[1..], ok);
      assert p1.answers[..|p.answers|] == p.answers;
      assert Rpcs(p1.answers) == Rpcs(p.answers) + [rpcs[0]];
      assert Rpcs(p.answers) + [rpcs[0]] + rpcs[1..] == Rpcs(p.answers) + rpcs;
    }
  }

  lemma FlushRpcs(p: Pipe, merged: Update, waiting: seq<nat>)
    ensures Rpcs(Flush(p, merged, waiting).0.answers) == Rpcs(p.answers) + waiting
  {
    hide Carry;
    if waiting != [] { AnsweredRpcs(Process(p, merged).0, waiting, Process(p, merged).1); }
  }

  /** However the persists fare, every call is answered exactly once, in order. */
  lemma {:induction false} EveryCallAnsweredOnce(p: Pipe, merged: Update, waiting: seq<nat>, updates: seq<Update>,
                                                 rpcs: seq<nat>)
    requires |updates| == |rpcs|
    ensures Rpcs(Coalesced(p, merged, waiting, updates, rpcs).0.answers) == Rpcs(p.answers) + waiting + rpcs
    decreases |updates|, 1
  {
    hide Carry, Joined, Flush;
    if updates == [] {
      FlushRpcs(p, merged, waiting);
    } else if Plain(updates[0]) {
      EveryCallAnsweredOnce(p, Joined(merged, updates[0]), waiting + [rpcs[0]], updates[1..], rpcs[1..]);
      assert Rpcs(p.answers) + (waiting + [rpcs[0]]) + rpcs[1..] == Rpcs(p.answers) + waiting + rpcs;
    } else {
      FlushRpcs(p, merged, waiting);
      var (p1, ok) := Flush(p, merged, waiting);
      AnsweredRpcs(p1, rpcs, false);
      if ok { AloneAnswered(p1, updates, rpcs); }
    }
  }

  lemma {:induction false} AloneAnswered(p1: Pipe, updates: seq<Update>, rpcs: seq<nat>)
    requires |updates| == |rpcs| > 0
    ensures var (p2, ok) := Process(p1, updates[0]); var p3 := Answered(p2, [rpcs[0]], ok);
      && Rpcs(Answered(p3, rpcs[1..], false).answers) == Rpcs(p1.answers) + rpcs
      && Rpcs(Coalesced(p3, NO_EFFECT, [], updates[1..], rpcs[1..]).0.answers) == Rpcs(p1.answers) + rpcs
    decreases |updates|, 0
  {
    hide Process, Answered, Rpcs, Coalesced;
    ProcessStore(p1, updates[0]);
    var (p2, ok) := Process(p1, updates[0]);
    AnsweredRpcs(p2, [rpcs[0]], ok);
    var p3 := Answered(p2, [rpcs[0]], ok);
    AnsweredRpcs(p3, rpcs[1..], false);
    EveryCallAnsweredOnce(p3, NO_EFFECT, [], updates[1..], rpcs[1..]);
    assert Rpcs(p1.answers) + [rpcs[0]] + [] + rpcs[1..] == Rpcs(p1.answers) + rpcs;
    assert Rpcs(p1.answers) + [rpcs[0]] + rpcs[1..] == Rpcs(p1.answers) + rpcs;
  }

  // ---- the same outcome ------------------------------------------------

  lemma PlainMergeable(a: Update, b: Update)
    requires Plain(a) && Plain(b)
    ensures Mergeable(a, b) && Persisted(EMPTY_STORE, Merge(a, b)) == Persisted(EMPTY_STORE, Joined(a, b))
    ensures forall d :: Persisted(d, Merge(a, b)) == Persisted(d, Joined(a, b))
  {
  }

  /** Processing two plain updates in turn is processing them joined. */
  lemma CarryJoined(store: Durable, machine: Image, a: Update, b: Update)
    requires Plain(a) && Plain(b) && Carry(store, machine, a).Some?
    ensures var c := Carry(store, machine, a).value; Carry(store, machine, Joined(a, b)) == Carry(c.0, c.1, b)
  {
    hide Persisted, ApplyAll;
    PlainMergeable(a, b);
    PersistedMerged(store, a, b);
    ApplyAllConcat(machine, a.committed, b.committed);
  }

  /** Same store, machine and messages in the same order. */
  predicate SameOutcome(p: Pipe, q: Pipe) { p.store == q.store && p.machine == q.machine && p.sent == q.sent }

  /** q is where the merged updates would leave p, if they were processed. */
  ghost predicate Ahead(p: Pipe, merged: Update, waiting: seq<nat>, q: Pipe) {
    if waiting == [] then merged == NO_EFFECT && SameOutcome(p, q)
    else
      && Plain(merged) && p.good > 0
      && Carry(p.store, p.machine, merged) == Some((q.store, q.machine)) && q.sent == p.sent + merged.messages
  }

  lemma FlushAhead(p: Pipe, merged: Update, waiting: seq<nat>, q: Pipe)
    requires Ahead(p, merged, waiting, q)
    ensures var (p1, ok) := Flush(p, merged, waiting);
      ok && SameOutcome(p1, q) && p1.good >= p.good - (if waiting == [] then 0 else 1)
  {
    hide Carry;
    if waiting != [] { AnsweredRpcs(Process(p, merged).0, waiting, true); }
  }

  lemma AheadNext(p: Pipe, merged: Update, waiting: seq<nat>, q: Pipe, u: Update, rpc: nat)
    requires Ahead(p, merged, waiting, q) && Plain(u) && p.good > 0 && Carry(q.store, q.machine, u).Some?
    ensures var c := Carry(q.store, q.machine, u).value;
      Ahead(p, Joined(merged, u), waiting + [rpc], q.(store := c.0, machine := c.1, sent := q.sent + u.messages))
  {
    hide Carry;
    if waiting == [] {
      CarryFirst(q.store, q.machine, u);
      assert p.sent + ([] + u.messages) == q.sent + u.messages;
    } else {
      CarryJoined(p.store, p.machine, merged, u);
      assert p.sent + (merged.messages + u.messages) == q.sent + u.messages;
    }
  }

  lemma CarryFirst(store: Durable, machine: Image, u: Update)
    requires Plain(u)
    ensures Carry(store, machine, Joined(NO_EFFECT, u)) == Carry(store, machine, u)
  {
    assert [] + u.entries == u.entries && [] + u.committed == u.committed;
  }

  /** Coalescing refines sequential processing: when every persist succeeds it ends with the same
      store, the same machine and the same messages in the same order. */
  lemma {:induction false} CoalescingRefines(p: Pipe, merged: Update, waiting: seq<nat>, q: Pipe, updates: seq<Update>,
                                             rpcs: seq<nat>)
    requires |updates| == |rpcs| && Ahead(p, merged, waiting, q)
    requires p.good >= |updates| + (if waiting == [] then 0 else 1) && OneByOne(q, updates, rpcs).1
    ensures var (p', ok) := Coalesced(p, merged, waiting, updates, rpcs);
      ok && SameOutcome(p', OneByOne(q, updates, rpcs).0)
    decreases |updates|
  {
    hide Carry, Ahead, Joined, Flush;
    if updates == [] {
      FlushAhead(p, merged, waiting, q);
    } else {
      var u := updates[0];
      var q1 := Process(q, u).0;
      AnsweredRpcs(q1, [rpcs[0]], true);
      var q2 := Answered(q1, [rpcs[0]], true);
      if Plain(u) {
        AheadNext(p, merged, waiting, q, u, rpcs[0]);
        var c := Carry(q.store, q.machine, u).value;
        AheadSame(p, Joined(merged, u), waiting + [rpcs[0]],
                  q.(store := c.0, machine := c.1, sent := q.sent + u.messages), q2);
        CoalescingRefines(p, Joined(merged, u), waiting + [rpcs[0]], q2, updates[1..], rpcs[1..]);
      } else {
        AloneRefines(p, merged, waiting, q, updates, rpcs, q2);
        var p1 := Flush(p, merged, waiting).0;
        var p3 := Answered(Process(p1, u).0, [rpcs[0]], true);
        CoalescingRefines(p3, NO_EFFECT, [], q2, updates[1..], rpcs[1..]);
      }
    }
  }

  lemma AheadSame(p: Pipe, merged: Update, waiting: seq<nat>, q1: Pipe, q2: Pipe)
    requires SameOutcome(q1, q2)
    ensures Ahead(p, merged, waiting, q1) ==> Ahead(p, merged, waiting, q2)
  {
    hide Carry;
  }

  /** An update that ends the merge: flushed first, then processed alone. */
  lemma AloneRefines(p: Pipe, merged: Update, waiting: seq<nat>, q: Pipe, updates: seq<Update>, rpcs: seq<nat>,
                     q2: Pipe)
    requires |updates| == |rpcs| > 0 && Ahead(p, merged, waiting, q) && Process(q, updates[0]).1
    requires p.good >= |updates| + (if waiting == [] then 0 else 1)
    requires q2 == Answered(Process(q, updates[0]).0, [rpcs[0]], true)
    ensures var (p1, ok) := Flush(p, merged, waiting);
      && ok && Process(p1, updates[0]).1
      && var p3 := Answered(Process(p1, updates[0]).0, [rpcs[0]], true);
      Ahead(p3, NO_EFFECT, [], q2) && p3.good >= |updates| - 1
  {
    hide Carry;
    FlushAhead(p, merged, waiting, q);
    var p1 := Flush(p, merged, waiting).0;
    AnsweredRpcs(Process(p1, updates[0]).0, [rpcs[0]], true);
    AnsweredRpcs(Process(q, updates[0]).0, [rpcs[0]], true);
  }

  // ---- answered only once durable --------------------------------------

  /** The store after each of the updates in turn; after an update that cannot be stored, nothing. */
  function StoreAfter(store: Durable, updates: seq<Update>): Option<Durable> {
    if updates == [] then Some(store)
    else
      var before := StoreAfter(store, updates[..|updates| - 1]);
      if before.None? then None else Persisted(before.value, updates[|updates| - 1])
  }

  /** Each successful answer was given when the store held at least its own update: call k of
      `rpcs` saw the store after some j > k updates. */
  ghost predicate Covered(answers: seq<Answer>, first: nat, store: Durable, updates: seq<Update>) {
    && first + |updates| <= |answers|
    && (forall k {:trigger CoveredAt(answers, first, store, updates, k)} ::
          0 <= k < |updates| ==> CoveredAt(answers, first, store, updates, k))
  }

  ghost predicate CoveredAt(answers: seq<Answer>, first: nat, store: Durable, updates: seq<Update>, k: nat)
    requires k < |updates| && first + |updates| <= |answers|
  {
    answers[first + k].ok ==>
      exists j :: k < j <= |updates| && StoreAfter(store, updates[..j]) == Some(answers[first + k].durable)
  }

  lemma {:induction false} AnsweredShape(p: Pipe, rpcs: seq<nat>, ok: bool)
    ensures var q := Answered(p, rpcs, ok);
      && q == p.(answers := q.answers) && p.answers <= q.answers && |q.answers| == |p.answers| + |rpcs|
      && (forall k :: |p.answers| <= k < |q.answers| ==> q.answers[k].ok == ok && q.answers[k].durable == p.store)
    decreases |rpcs|
  {
    if rpcs != [] {
      var p1 := p.(answers := p.answers + [Answer(rpcs[0], ok, p.store)]);
      AnsweredShape(p1, rpcs[1..], ok);
      assert p.answers <= p1.answers;
    }
  }

  /** Joined plain updates persist as the two in turn, failing when either would. */
  lemma JoinedStore(d: Durable, a: Update, b: Update)
    requires Plain(a) && Plain(b)
    ensures Persisted(d, Joined(a, b)) == (if Persisted(d, a).None? then None else Persisted(Persisted(d, a).value, b))
  {
    if Persisted(d, a).Some? {
      AppendedTwice(d, a.entries, b.entries);
    } else {
      AppendedExact(d, a.entries);
      AppendedExact(d, a.entries + b.entries);
      var k :| 0 <= k < |a.entries| && !Storable(a.entries[k], LastStored(d) + k + 1);
      assert (a.entries + b.entries)[k] == a.entries[k];
    }
  }

  lemma StoreNext(store: Durable, updates: seq<Update>, i: nat)
    requires i < |updates|
    ensures var before := StoreAfter(store, updates[..i]);
      StoreAfter(store, updates[..i + 1]) == (if before.None? then None else Persisted(before.value, updates[i]))
  {
    assert updates[..i + 1][..i] == updates[..i];
  }

  /** Answers lo..hi are covered, the later ones having failed. */
  ghost predicate CoveredBetween(answers: seq<Answer>, first: nat, store: Durable, updates: seq<Update>, lo: nat,
                                 hi: nat) {
    && first + |updates| <= |answers|
    && (forall k {:trigger CoveredAt(answers, first, store, updates, k)} ::
          lo <= k < hi && k < |updates| ==> CoveredAt(answers, first, store, updates, k))
  }

  /** The state of stepAppends after i updates: the store holds all but the waiting ones, and
      persisting the merged update would make up for those. */
  ghost predicate Midway(p: Pipe, merged: Update, waiting: seq<nat>, store: Durable, all: seq<Update>, i: nat,
                         first: nat) {
    && |waiting| <= i <= |all| && |p.answers| == first + i - |waiting|
    && StoreAfter(store, all[..i - |waiting|]) == Some(p.store)
    && (if waiting == [] then merged == NO_EFFECT
        else Plain(merged) && Persisted(p.store, merged) == StoreAfter(store, all[..i]))
  }

  lemma ProcessStore(p: Pipe, u: Update)
    ensures var (q, ok) := Process(p, u);
      q.answers == p.answers && (ok ==> Persisted(p.store, u) == Some(q.store)) && (!ok ==> q.store == p.store)
  {
    hide Persisted, Restored, ApplyAll;
  }

  lemma FlushCovers(p: Pipe, merged: Update, waiting: seq<nat>, store: Durable, all: seq<Update>, i: nat, first: nat)
    requires Midway(p, merged, waiting, store, all, i, first)
    ensures var (q, ok) := Flush(p, merged, waiting);
      && p.answers <= q.answers && |q.answers| == first + i
      && (ok ==> StoreAfter(store, all[..i]) == Some(q.store))
      && (forall k :: first + i - |waiting| <= k < first + i ==>
            q.answers[k].ok ==> ok && q.answers[k].durable == q.store)
  {
    hide Process, StoreAfter;
    if waiting != [] {
      ProcessStore(p, merged);
      var (p1, ok) := Process(p, merged);
      AnsweredShape(p1, waiting, ok);
    }
  }

  lemma CoverBy(answers: seq<Answer>, first: nat, store: Durable, all: seq<Update>, k: nat, j: nat)
    requires k < j <= |all| && first + |all| <= |answers|
    requires answers[first + k].ok ==> StoreAfter(store, all[..j]) == Some(answers[first + k].durable)
    ensures CoveredAt(answers, first, store, all, k)
  {
  }

  lemma MidwayNext(p: Pipe, merged: Update, waiting: seq<nat>, store: Durable, all: seq<Update>, i: nat, first: nat,
                   rpc: nat)
    requires Midway(p, merged, waiting, store, all, i, first) && i < |all| && Plain(all[i])
    ensures Midway(p, Joined(merged, all[i]), waiting + [rpc], store, all, i + 1, first)
  {
    StoreNext(store, all, i);
    hide StoreAfter, Persisted;
    if waiting == [] { FirstStore(p.store, all[i]); } else { JoinedStore(p.store, merged, all[i]); }
  }

  lemma FirstStore(d: Durable, u: Update)
    requires Plain(u)
    ensures Persisted(d, Joined(NO_EFFECT, u)) == Persisted(d, u)
  {
    assert [] + u.entries == u.entries;
  }

  /** What is answered by flushing and then processing one update alone. */
  lemma AloneCovers(p: Pipe, merged: Update, waiting: seq<nat>, store: Durable, all: seq<Update>, rpcs: seq<nat>,
                    i: nat, first: nat)
    requires |all| == |rpcs| && Midway(p, merged, waiting, store, all, i, first) && i < |all|
    requires Flush(p, merged, waiting).1
    ensures
      var p1 := Flush(p, merged, waiting).0;
      var (p2, ok) := Process(p1, all[i]);
      var p3 := Answered(p2, [rpcs[i]], ok);
      && p.answers <= p3.answers && |p3.answers| == first + i + 1
      && (ok ==> Midway(p3, NO_EFFECT, [], store, all, i + 1, first))
      && (forall k :: first + i - |waiting| <= k < first + i ==>
            p3.answers[k].ok ==> StoreAfter(store, all[..i]) == Some(p3.answers[k].durable))
      && (p3.answers[first + i].ok ==> StoreAfter(store, all[..i + 1]) == Some(p3.answers[first + i].durable))
  {
    FlushCovers(p, merged, waiting, store, all, i, first);
    StoreNext(store, all, i);
    hide Flush, Process, StoreAfter, Persisted, Midway;
    var p1 := Flush(p, merged, waiting).0;
    ProcessStore(p1, all[i]);
    var (p2, ok) := Process(p1, all[i]);
    AnsweredShape(p2, [rpcs[i]], ok);
    if ok { Clean(Answered(p2, [rpcs[i]], ok), store, all, i + 1, first); }
  }

  lemma Clean(p: Pipe, store: Durable, all: seq<Update>, i: nat, first: nat)
    requires i <= |all| && |p.answers| == first + i && StoreAfter(store, all[..i]) == Some(p.store)
    ensures Midway(p, NO_EFFECT, [], store, all, i, first)
  {
  }

  lemma Slices<T>(s: seq<T>, i: nat)
    requires i < |s|
    ensures s[i..][0] == s[i] && s[i..][1..] == s[i + 1..]
  {
  }

  /** No call is told it succeeded before the store holds its update. */
  lemma {:induction false} CoveredFrom(p: Pipe, merged: Update, waiting: seq<nat>, store: Durable, all: seq<Update>,
                                       rpcs: seq<nat>, i: nat, first: nat)
    requires |all| == |rpcs| && Midway(p, merged, waiting, store, all, i, first)
    ensures var q := Coalesced(p, merged, waiting, all[i..], rpcs[i..]).0;
      p.answers <= q.answers && |q.answers| == first + |all|
      && CoveredBetween(q.answers, first, store, all, i - |waiting|, |all|)
    decreases |all| - i
  {
    hide Flush, Process, StoreAfter, Persisted, Midway, CoveredAt;
    MidwayBounds(p, merged, waiting, store, all, i, first);
    var q := Coalesced(p, merged, waiting, all[i..], rpcs[i..]).0;
    if i == |all| {
      FlushCovers(p, merged, waiting, store, all, i, first);
      forall k | i - |waiting| <= k < |all| ensures CoveredAt(q.answers, first, store, all, k) {
        CoverBy(q.answers, first, store, all, k, i);
      }
    } else {
      Slices(all, i);
      Slices(rpcs, i);
      if Plain(all[i]) {
        MidwayNext(p, merged, waiting, store, all, i, first, rpcs[i]);
        CoveredFrom(p, Joined(merged, all[i]), waiting + [rpcs[i]], store, all, rpcs, i + 1, first);
      } else {
        AloneFrom(p, merged, waiting, store, all, rpcs, i, first);
      }
    }
  }

  lemma MidwayBounds(p: Pipe, merged: Update, waiting: seq<nat>, store: Durable, all: seq<Update>, i: nat, first: nat)
    requires Midway(p, merged, waiting, store, all, i, first)
    ensures |waiting| <= i <= |all|
  {
  }

  lemma {:induction false} AloneFrom(p: Pipe, merged: Update, waiting: seq<nat>, store: Durable, all: seq<Update>,
                                     rpcs: seq<nat>, i: nat, first: nat)
    requires |all| == |rpcs| && Midway(p, merged, waiting, store, all, i, first) && i < |all| && !Plain(all[i])
    ensures var q := Coalesced(p, merged, waiting, all[i..], rpcs[i..]).0;
      p.answers <= q.answers && |q.answers| == first + |all|
      && CoveredBetween(q.answers, first, store, all, i - |waiting|, |all|)
    decreases |all| - i, 0
  {
    hide Flush, Process, StoreAfter, Persisted, Midway, CoveredAt;
    MidwayBounds(p, merged, waiting, store, all, i, first);
    Slices(all, i);
    Slices(rpcs, i);
    var q := Coalesced(p, merged, waiting, all[i..], rpcs[i..]).0;
    var (p1, ok) := Flush(p, merged, waiting);
    if !ok {
      FlushCovers(p, merged, waiting, store, all, i, first);
      AnsweredShape(p1, rpcs[i..], false);
      forall k | i - |waiting| <= k < |all| ensures CoveredAt(q.answers, first, store, all, k) {
        CoverBy(q.answers, first, store, all, k, |all|);
      }
    } else {
      AloneCovers(p, merged, waiting, store, all, rpcs, i, first);
      var (p2, ok2) := Process(p1, all[i]);
      var p3 := Answered(p2, [rpcs[i]], ok2);
      if ok2 {
        CoveredFrom(p3, NO_EFFECT, [], store, all, rpcs, i + 1, first);
      } else {
        AnsweredShape(p3, rpcs[i + 1..], false);
      }
      forall k | i - |waiting| <= k < |all| ensures CoveredAt(q.answers, first, store, all, k) {
        if k <= i { CoverBy(q.answers, first, store, all, k, if k < i then i else i + 1); }
        else if !ok2 { CoverBy(q.answers, first, store, all, k, |all|); }
      }
    }
  }

  /** For the whole group. */
  lemma AnsweredOnlyOnceDurable(p: Pipe, updates: seq<Update>, rpcs: seq<nat>)
    requires |updates| == |rpcs|
    ensures var q := Coalesced(p, NO_EFFECT, [], updates, rpcs).0;
      p.answers <= q.answers && Covered(q.answers, |p.answers|, p.store, updates)
  {
    hide Coalesced, CoveredAt;
    assert updates[0..] == updates && rpcs[0..] == rpcs;
    Clean(p, p.store, updates, 0, |p.answers|);
    CoveredFrom(p, NO_EFFECT, [], p.store, updates, rpcs, 0, |p.answers|);
  }
}
