/** Gathering queued events behind the first into one batch without losing or reordering any. */
module Draining {
  /** A queued event: whether it can join the batch, and what it adds to the batch's load. */
  datatype Event = Event(id: nat, joins: bool, entries: nat, bytes: nat)

  datatype Caps = Caps(entries: nat, bytes: nat)

  /** The events that joined, the ones set aside, and the ones still queued. */
  datatype Drained = Drained(batch: seq<Event>, others: seq<Event>, queue: seq<Event>)

  function Entries(events: seq<Event>): nat {
    if events == [] then 0 else Entries(events[..|events| - 1]) + events[|events| - 1].entries
  }

  function TotalBytes(events: seq<Event>): nat {
    if events == [] then 0 else TotalBytes(events[..|events| - 1]) + events[|events| - 1].bytes
  }

  /** The batch has room for more and an event is waiting. */
  predicate Open(d: Drained, room: nat, caps: Caps) {
    d.queue != [] && room > 0 && Entries(d.batch) < caps.entries && TotalBytes(d.batch) < caps.bytes
  }

  /** Reading one event into the batch, or setting it aside; true when it overflows the batch. */
  function Take(d: Drained, caps: Caps): (Drained, bool)
    requires d.queue != []
  {
    var e, rest := d.queue[0], d.queue[1..];
    if !e.joins then (Drained(d.batch, d.others + [e], rest), false)
    else if Entries(d.batch) + e.entries > caps.entries || TotalBytes(d.batch) + e.bytes > caps.bytes
    then (Drained(d.batch, d.others + [e], rest), true)
    else (Drained(d.batch + [e], d.others, rest), false)
  }

  /** Reads up to `room` events while the batch has room; an event that would overflow it is set
      aside and ends the batch. */
  function Drain(d: Drained, room: nat, caps: Caps): Drained
    decreases room
  {
    if !Open(d, room, caps) then d
    else
      var (d', full) := Take(d, caps);
      if full then d' else Drain(d', room - 1, caps)
  }

  method DrainQueue(first: Event, queue: seq<Event>, capacity: nat, caps: Caps) returns (d: Drained)
    ensures d == Drain(Drained([first], [], queue), capacity, caps)
  {
    d := Drained([first], [], queue);
    var entries, bytes, room := first.entries, first.bytes, capacity;
    assert d.batch[..0] == [];
    while d.queue != [] && room > 0 && entries < caps.entries && bytes < caps.bytes
      invariant entries == Entries(d.batch) && bytes == TotalBytes(d.batch)
      invariant Drain(Drained([first], [], queue), capacity, caps) == Drain(d, room, caps)
      decreases room
    {
      var e, rest := d.queue[0], d.queue[1..];
      if !e.joins {
        d := Drained(d.batch, d.others + [e], rest);
      } else if entries + e.entries > caps.entries || bytes + e.bytes > caps.bytes {
        return Drained(d.batch, d.others + [e], rest);
      } else {
        BatchGrows(d.batch, e);
        d := Drained(d.batch + [e], d.others, rest);
        entries, bytes := entries + e.entries, bytes + e.bytes;
      }
      room := room - 1;
    }
  }

  lemma BatchGrows(batch: seq<Event>, e: Event)
    ensures Entries(batch + [e]) == Entries(batch) + e.entries && TotalBytes(batch + [e]) == TotalBytes(batch) + e.bytes
  {
    assert (batch + [e])[..|batch|] == batch;
  }

  // ---- nothing lost, nothing reordered ---------------------------------

  function Only(events: seq<Event>, joins: bool): seq<Event> {
    if events == [] then []
    else
      var last := events[|events| - 1];
      Only(events[..|events| - 1], joins) + (if last.joins == joins then [last] else [])
  }

  lemma {:induction false} OnlyConcat(a: seq<Event>, b: seq<Event>, joins: bool)
    ensures Only(a + b, joins) == Only(a, joins) + Only(b, joins)
  {
    if b == [] {
      assert a + b == a;
    } else {
      var n := |b| - 1;
      OnlyConcat(a, b[..n], joins);
      assert (a + b)[..|a + b| - 1] == a + b[..n];
    }
  }

  lemma {:induction false} OnlyNone(events: seq<Event>, joins: bool)
    requires forall e :: e in events ==> e.joins != joins
    ensures Only(events, joins) == []
  {
    if events != [] {
      assert events[|events| - 1] in events;
      OnlyNone(events[..|events| - 1], joins);
    }
  }

  /** The order in which events will be handled: the batch, what was set aside, the queue. */
  function Handled(d: Drained): seq<Event> { d.batch + d.others + d.queue }

  lemma TakeKeepsOrder(d: Drained, caps: Caps, joins: bool)
    requires d.queue != [] && forall e :: e in d.others ==> !e.joins
    ensures Only(Handled(Take(d, caps).0), joins) == Only(Handled(d), joins)
    ensures !Take(d, caps).1 ==> forall e :: e in Take(d, caps).0.others ==> !e.joins
  {
    hide Only;
    var e, rest, d' := d.queue[0], d.queue[1..], Take(d, caps).0;
    if d'.batch == d.batch {
      assert d.others + [e] + rest == d.others + d.queue;
      assert Handled(d') == Handled(d);
    } else {
      OverTakes(d.batch, d.others, e, rest, joins);
      assert Handled(d) == d.batch + (d.others + ([e] + rest));
      assert Handled(d') == d.batch + ([e] + (d.others + rest));
    }
  }

  /** An event that joins overtakes only events that do not. */
  lemma OverTakes(batch: seq<Event>, others: seq<Event>, e: Event, rest: seq<Event>, joins: bool)
    requires e.joins && forall o :: o in others ==> !o.joins
    ensures Only(batch + ([e] + (others + rest)), joins) == Only(batch + (others + ([e] + rest)), joins)
  {
    hide Only;
    OnlyConcat(batch, [e] + (others + rest), joins);
    OnlyConcat(batch, others + ([e] + rest), joins);
    OnlyConcat([e], others + rest, joins);
    OnlyConcat(others, rest, joins);
    OnlyConcat(others, [e] + rest, joins);
    OnlyConcat([e], rest, joins);
    if joins { OnlyNone(others, joins); } else { OnlyNone([e], joins); }
    assert Only([e], joins) + (Only(others, joins) + Only(rest, joins))
        == Only(others, joins) + (Only([e], joins) + Only(rest, joins));
  }

  /** Draining meets both the events that can join and those that cannot in arrival order, and
      neither loses nor repeats any. */
  lemma {:induction false} DrainKeepsOrder(d: Drained, room: nat, caps: Caps, joins: bool)
    requires forall e :: e in d.others ==> !e.joins
    ensures Only(Handled(Drain(d, room, caps)), joins) == Only(Handled(d), joins)
    decreases room
  {
    hide Only, Handled;
    if Open(d, room, caps) {
      TakeKeepsOrder(d, caps, joins);
      var (d', full) := Take(d, caps);
      if !full { DrainKeepsOrder(d', room - 1, caps, joins); }
    }
  }

  /** The batch grows only within both caps; its first event is taken whatever its size. */
  lemma {:induction false} DrainWithinCaps(d: Drained, room: nat, caps: Caps)
    ensures var r := Drain(d, room, caps);
      r.batch == d.batch || (Entries(r.batch) <= caps.entries && TotalBytes(r.batch) <= caps.bytes)
    ensures d.batch <= Drain(d, room, caps).batch
    decreases room
  {
    if Open(d, room, caps) {
      var (d', full) := Take(d, caps);
      if d'.batch != d.batch { BatchGrows(d.batch, d.queue[0]); }
      hide Entries, TotalBytes;
      if !full { DrainWithinCaps(d', room - 1, caps); }
    }
  }
}
