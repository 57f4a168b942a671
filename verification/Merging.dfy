/** The heap merge of sorted record sources, used by compaction and by the snapshot visitor. */
module Merging {
  import opened Records

  /** A heap entry: the current record of one source. */
  datatype Cursor = Cursor(rec: Record, src: nat, at: nat)

  /** Heap order: smallest key first, and the newest version of a key before the older ones. */
  predicate Before(a: Cursor, b: Cursor) {
    if a.rec.key != b.rec.key then Below(a.rec.key, b.rec.key) else a.rec.seqNum > b.rec.seqNum
  }

  type Sources = seq<seq<Record>>

  ghost function All(sources: Sources): set<Record> {
    set s, i | 0 <= s < |sources| && 0 <= i < |sources[s]| :: sources[s][i]
  }

  ghost predicate Mergeable(sources: Sources) {
    && (forall s :: 0 <= s < |sources| ==> Sorted(sources[s]))
    && Coherent(All(sources))
  }

  // ---- the same merge through one map --------------------------------------

  function Flat(sources: Sources): seq<Record> {
    if sources == [] then [] else sources[0] + Flat(sources[1..])
  }

  lemma {:induction false} FlatHolds(sources: Sources, r: Record)
    ensures r in Flat(sources) <==> r in All(sources)
  {
    if sources != [] {
      FlatHolds(sources[1..], r);
      if r in All(sources) {
        var s, i :| 0 <= s < |sources| && 0 <= i < |sources[s]| && sources[s][i] == r;
        if s > 0 { assert sources[1..][s - 1][i] == r; }
      }
      if r in sources[0] { var i :| 0 <= i < |sources[0]| && sources[0][i] == r; }
      if r in All(sources[1..]) {
        var s, i :| 0 <= s < |sources[1..]| && 0 <= i < |sources[1..][s]| && sources[1..][s][i] == r;
        assert sources[s + 1][i] == r;
      }
    }
  }

  lemma FlatElements(sources: Sources)
    ensures Elements(Flat(sources)) == All(sources)
  {
    hide All, Flat;
    forall r ensures r in Elements(Flat(sources)) <==> r in All(sources) { FlatHolds(sources, r); }
  }

  // ---- how far each source has been read --------------------------------

  ghost predicate Within(pos: seq<nat>, sources: Sources) {
    && |pos| == |sources|
    && forall s :: 0 <= s < |sources| ==> pos[s] <= |sources[s]|
  }

  ghost function Consumed(sources: Sources, pos: seq<nat>): set<Record>
    requires Within(pos, sources)
  {
    set s, i | 0 <= s < |sources| && 0 <= i < pos[s] :: sources[s][i]
  }

  ghost predicate Placed(c: Cursor, sources: Sources, pos: seq<nat>)
    requires Within(pos, sources)
  {
    c.src < |sources| && c.at == pos[c.src] < |sources[c.src]| && c.rec == sources[c.src][c.at]
  }

  /** The heap holds exactly one cursor for every source that is not exhausted. */
  ghost predicate HeapOK(h: seq<Cursor>, sources: Sources, pos: seq<nat>) {
    && Within(pos, sources)
    && (forall i :: 0 <= i < |h| ==> Placed(h[i], sources, pos))
    && (forall i, j :: 0 <= i < j < |h| ==> h[i].src != h[j].src)
    && (forall s :: 0 <= s < |sources| && pos[s] < |sources[s]| ==> Cursor(sources[s][pos[s]], s, pos[s]) in h)
  }

  /** Every record still to be read comes after k, or is a version of k no newer than q. */
  ghost predicate Ahead(sources: Sources, pos: seq<nat>, k: Key, q: nat)
    requires Within(pos, sources)
  {
    forall t, j :: 0 <= t < |sources| && pos[t] <= j < |sources[t]| ==> NoEarlier(sources[t][j], k, q)
  }

  ghost predicate NoEarlier(r: Record, k: Key, q: nat) {
    Below(k, r.key) || (r.key == k && r.seqNum <= q)
  }

  /** The least cursor bounds everything still to be read. */
  lemma LeastIsAhead(h: seq<Cursor>, sources: Sources, pos: seq<nat>, top: Cursor)
    requires Mergeable(sources) && HeapOK(h, sources, pos)
    requires forall c :: c in h ==> !Before(c, top)
    ensures Ahead(sources, pos, top.rec.key, top.rec.seqNum)
  {
    forall t, j | 0 <= t < |sources| && pos[t] <= j < |sources[t]|
      ensures NoEarlier(sources[t][j], top.rec.key, top.rec.seqNum)
    {
      var head := Cursor(sources[t][pos[t]], t, pos[t]);
      assert head in h && !Before(head, top);
      BelowTotal(head.rec.key, top.rec.key);
      if pos[t] < j {
        assert Below(head.rec.key, sources[t][j].key);
        if Below(top.rec.key, head.rec.key) { BelowTrans(top.rec.key, head.rec.key, sources[t][j].key); }
      }
    }
  }

  lemma AheadKept(sources: Sources, pos: seq<nat>, s: nat, k: Key, q: nat)
    requires Within(pos, sources) && s < |sources| && pos[s] < |sources[s]| && Ahead(sources, pos, k, q)
    ensures Within(pos[s := pos[s] + 1], sources) && Ahead(sources, pos[s := pos[s] + 1], k, q)
  {
  }

  lemma ConsumedStep(sources: Sources, pos: seq<nat>, s: nat)
    requires Within(pos, sources) && s < |sources| && pos[s] < |sources[s]|
    ensures Within(pos[s := pos[s] + 1], sources)
    ensures Consumed(sources, pos[s := pos[s] + 1]) == Consumed(sources, pos) + {sources[s][pos[s]]}
  {
    var pos' := pos[s := pos[s] + 1];
    forall r | r in Consumed(sources, pos') ensures r in Consumed(sources, pos) + {sources[s][pos[s]]} {
      var t, i :| 0 <= t < |sources| && 0 <= i < pos'[t] && r == sources[t][i];
      if t != s || i < pos[s] { assert sources[t][i] in Consumed(sources, pos); }
    }
    forall r | r in Consumed(sources, pos) ensures r in Consumed(sources, pos') {
      var t, i :| 0 <= t < |sources| && 0 <= i < pos[t] && r == sources[t][i];
      assert i < pos'[t];
    }
    assert pos'[s] > pos[s];
  }

  lemma ConsumedWithin(sources: Sources, pos: seq<nat>)
    requires Within(pos, sources)
    ensures Consumed(sources, pos) <= All(sources)
  {
  }

  /** With an empty heap everything has been read. */
  lemma AllConsumed(sources: Sources, pos: seq<nat>)
    requires HeapOK([], sources, pos)
    ensures Consumed(sources, pos) == All(sources)
  {
    ConsumedWithin(sources, pos);
    forall r | r in All(sources) ensures r in Consumed(sources, pos) {
      var s, i :| 0 <= s < |sources| && 0 <= i < |sources[s]| && r == sources[s][i];
      assert pos[s] == |sources[s]|;
    }
  }

  // ---- the heap -----------------------------------------------------------

  ghost predicate Popped(h: seq<Cursor>, top: Cursor, rest: seq<Cursor>) {
    exists i :: 0 <= i < |h| && h[i] == top && rest == h[..i] + h[i + 1..]
  }

  /** Pop: a least entry, and the others. */
  method PopLeast(h: seq<Cursor>) returns (top: Cursor, rest: seq<Cursor>)
    requires h != []
    ensures top in h && Popped(h, top, rest)
    ensures forall c :: c in h ==> !Before(c, top)
  {
    var least := 0;
    for i := 1 to |h|
      invariant 0 <= least < i
      invariant forall j :: 0 <= j < i ==> !Before(h[j], h[least])
    {
      if Before(h[i], h[least]) {
        forall j | 0 <= j < i ensures !Before(h[j], h[i]) { BeforeTrans(h[j], h[i], h[least]); }
        least := i;
      }
    }
    top, rest := h[least], h[..least] + h[least + 1..];
  }

  lemma BeforeTrans(a: Cursor, b: Cursor, c: Cursor)
    requires Before(b, c) && !Before(a, c)
    ensures !Before(a, b)
  {
    BelowTotal(a.rec.key, b.rec.key);
    BelowTotal(b.rec.key, c.rec.key);
    BelowTotal(a.rec.key, c.rec.key);
    if Below(a.rec.key, b.rec.key) && Below(b.rec.key, c.rec.key) {
      BelowTrans(a.rec.key, b.rec.key, c.rec.key);
    }
  }

  lemma PopRemoves(h: seq<Cursor>, top: Cursor, rest: seq<Cursor>, sources: Sources, pos: seq<nat>)
    requires HeapOK(h, sources, pos) && Popped(h, top, rest)
    ensures Within(pos, sources) && Placed(top, sources, pos)
    ensures forall j :: 0 <= j < |rest| ==> Placed(rest[j], sources, pos) && rest[j].src != top.src
    ensures forall j, k :: 0 <= j < k < |rest| ==> rest[j].src != rest[k].src
  {
    var i :| 0 <= i < |h| && h[i] == top && rest == h[..i] + h[i + 1..];
    assert Placed(h[i], sources, pos);
    forall j | 0 <= j < |rest| ensures Placed(rest[j], sources, pos) && rest[j].src != top.src {
      assert Placed(h[if j < i then j else j + 1], sources, pos);
    }
  }

  lemma PopKeepsOthers(h: seq<Cursor>, top: Cursor, rest: seq<Cursor>, c: Cursor)
    requires Popped(h, top, rest) && c in h && c != top
    ensures c in rest
  {
    var i :| 0 <= i < |h| && h[i] == top && rest == h[..i] + h[i + 1..];
    var k :| 0 <= k < |h| && h[k] == c;
    assert rest[if k < i then k else k - 1] == c;
  }

  function Pushed(rest: seq<Cursor>, sources: Sources, c: Cursor): seq<Cursor>
    requires c.src < |sources|
  {
    if c.at + 1 < |sources[c.src]| then rest + [Cursor(sources[c.src][c.at + 1], c.src, c.at + 1)] else rest
  }

  lemma PushKeeps(h: seq<Cursor>, top: Cursor, rest: seq<Cursor>, sources: Sources, pos: seq<nat>)
    requires HeapOK(h, sources, pos) && Popped(h, top, rest) && Placed(top, sources, pos)
    ensures HeapOK(Pushed(rest, sources, top), sources, pos[top.src := top.at + 1])
  {
    hide Popped;
    PopRemoves(h, top, rest, sources, pos);
    var h', pos' := Pushed(rest, sources, top), pos[top.src := top.at + 1];
    forall s | 0 <= s < |sources| && pos'[s] < |sources[s]|
      ensures Cursor(sources[s][pos'[s]], s, pos'[s]) in h'
    {
      if s != top.src { PopKeepsOthers(h, top, rest, Cursor(sources[s][pos[s]], s, pos[s])); }
      else { assert h'[|rest|] == Cursor(sources[s][pos'[s]], s, pos'[s]); }
    }
  }

  /** After a pop, the next record of the same source is pushed, when there is one. */
  method Advance(ghost h: seq<Cursor>, top: Cursor, rest: seq<Cursor>, sources: Sources, ghost pos: seq<nat>)
    returns (h': seq<Cursor>)
    requires HeapOK(h, sources, pos) && Popped(h, top, rest) && Placed(top, sources, pos)
    ensures HeapOK(h', sources, pos[top.src := top.at + 1])
    ensures Unread(sources, pos[top.src := top.at + 1]) < Unread(sources, pos)
  {
    PushKeeps(h, top, rest, sources, pos);
    UnreadStep(sources, pos, top.src);
    h' := rest;
    if top.at + 1 < |sources[top.src]| {
      h' := h' + [Cursor(sources[top.src][top.at + 1], top.src, top.at + 1)];
    }
  }

  // ---- the output -----------------------------------------------------------

  /** All keys read so far come before every key still to be read. */
  ghost predicate Parted(done: set<Record>, sources: Sources, pos: seq<nat>)
    requires Within(pos, sources)
  {
    forall r, t, j :: r in done && 0 <= t < |sources| && pos[t] <= j < |sources[t]| ==> Below(r.key, sources[t][j].key)
  }

  /** The newest version of the next key is emitted, or dropped when it is a tombstone. */
  function Emit(out: seq<Record>, winner: Record, live: bool): seq<Record> {
    if live && winner.kind.Delete? then out else out + [winner]
  }

  /** `done` grew by versions of one new key, the newest of them `winner`. */
  ghost predicate Grown(done: set<Record>, done': set<Record>, winner: Record) {
    && done <= done' && winner in done'
    && (forall r :: r in done ==> Below(r.key, winner.key))
    && (forall r :: r in done' && r !in done ==> r.key == winner.key && r.seqNum <= winner.seqNum)
  }

  lemma EmitMerges(out: seq<Record>, done: set<Record>, done': set<Record>, winner: Record, live: bool)
    requires IsMerge(out, done, live) && Grown(done, done', winner) && Coherent(done')
    ensures IsMerge(Emit(out, winner, live), done', live)
  {
    var out' := Emit(out, winner, live);
    BelowTotal(winner.key, winner.key);
    forall r ensures Newest(r, done') <==> (Newest(r, done) || r == winner) { NewestGrown(r, done, done', winner); }
    forall r | r in out ensures Below(r.key, winner.key) { assert Newest(r, done); }
  }

  lemma NewestGrown(r: Record, done: set<Record>, done': set<Record>, winner: Record)
    requires Grown(done, done', winner) && Coherent(done')
    ensures Newest(r, done') <==> (Newest(r, done) || r == winner)
  {
    BelowTotal(winner.key, winner.key);
    if r in done { assert forall o :: o in done' && o.key == r.key ==> o in done; }
  }

  /** The record positions still to be read. */
  ghost function Unread(sources: Sources, pos: seq<nat>): set<(nat, nat)>
    requires Within(pos, sources)
  {
    set s: nat, i: nat | s < |sources| && pos[s] <= i < |sources[s]| :: (s, i)
  }

  lemma UnreadStep(sources: Sources, pos: seq<nat>, s: nat)
    requires Within(pos, sources) && s < |sources| && pos[s] < |sources[s]|
    ensures Within(pos[s := pos[s] + 1], sources)
    ensures Unread(sources, pos[s := pos[s] + 1]) < Unread(sources, pos)
  {
    var pos' := pos[s := pos[s] + 1];
    assert (s, pos[s]) in Unread(sources, pos) && (s, pos[s]) !in Unread(sources, pos');
    forall t: nat, i: nat | (t, i) in Unread(sources, pos') ensures (t, i) in Unread(sources, pos) {
      assert pos[t] <= pos'[t];
    }
  }

  /** The heap starts with the first record of every non-empty source. */
  method Seed(sources: Sources) returns (h: seq<Cursor>, ghost pos: seq<nat>)
    ensures HeapOK(h, sources, pos) && pos == seq(|sources|, _ => 0)
  {
    h, pos := [], seq(|sources|, _ => 0);
    for s := 0 to |sources|
      invariant forall i :: 0 <= i < |h| ==> Placed(h[i], sources, pos) && h[i].src < s
      invariant forall i, j :: 0 <= i < j < |h| ==> h[i].src != h[j].src
      invariant forall t :: 0 <= t < s && pos[t] < |sources[t]| ==> Cursor(sources[t][pos[t]], t, pos[t]) in h
    {
      if |sources[s]| > 0 {
        ghost var was := h;
        h := h + [Cursor(sources[s][0], s, 0)];
        assert h[|was|] == Cursor(sources[s][pos[s]], s, pos[s]);
      }
    }
  }

  lemma FirstTaken(sources: Sources, pos: seq<nat>, top: Cursor)
    requires Within(pos, sources) && Placed(top, sources, pos) && Parted(Consumed(sources, pos), sources, pos)
    ensures Within(pos[top.src := top.at + 1], sources)
    ensures Grown(Consumed(sources, pos), Consumed(sources, pos[top.src := top.at + 1]), top.rec)
  {
    ConsumedStep(sources, pos, top.src);
  }

  lemma AnotherTaken(done: set<Record>, sources: Sources, pos: seq<nat>, dup: Cursor, winner: Record)
    requires Within(pos, sources) && Placed(dup, sources, pos) && Grown(done, Consumed(sources, pos), winner)
    requires dup.rec.key == winner.key && Ahead(sources, pos, winner.key, winner.seqNum)
    ensures Within(pos[dup.src := dup.at + 1], sources)
    ensures Grown(done, Consumed(sources, pos[dup.src := dup.at + 1]), winner)
  {
    ConsumedStep(sources, pos, dup.src);
    assert NoEarlier(sources[dup.src][dup.at], winner.key, winner.seqNum);
    BelowTotal(winner.key, winner.key);
  }

  /** When the least remaining key is a new one, the key read last is finished. */
  lemma KeyFinished(done: set<Record>, h: seq<Cursor>, sources: Sources, pos: seq<nat>, top: Cursor, winner: Record)
    requires Mergeable(sources) && HeapOK(h, sources, pos) && top in h && (forall c :: c in h ==> !Before(c, top))
    requires Grown(done, Consumed(sources, pos), winner) && Ahead(sources, pos, winner.key, winner.seqNum)
    requires top.rec.key != winner.key
    ensures Parted(Consumed(sources, pos), sources, pos)
  {
    LeastIsAhead(h, sources, pos, top);
    var k :| 0 <= k < |h| && h[k] == top;
    assert Placed(h[k], sources, pos);
    assert NoEarlier(sources[top.src][top.at], winner.key, winner.seqNum);
    forall r, t, j | r in Consumed(sources, pos) && 0 <= t < |sources| && pos[t] <= j < |sources[t]|
      ensures Below(r.key, sources[t][j].key)
    {
      assert NoEarlier(sources[t][j], top.rec.key, top.rec.seqNum);
      if Below(top.rec.key, sources[t][j].key) { BelowTrans(winner.key, top.rec.key, sources[t][j].key); }
      if r.key != winner.key { BelowTrans(r.key, winner.key, sources[t][j].key); }
    }
  }

  /** Pops every version of the least key; the first popped is the newest. */
  method TakeKey(h0: seq<Cursor>, sources: Sources, ghost pos0: seq<nat>)
    returns (winner: Record, h: seq<Cursor>, ghost pos: seq<nat>)
    requires Mergeable(sources) && HeapOK(h0, sources, pos0) && h0 != []
    requires Parted(Consumed(sources, pos0), sources, pos0)
    ensures HeapOK(h, sources, pos) && Grown(Consumed(sources, pos0), Consumed(sources, pos), winner)
    ensures Parted(Consumed(sources, pos), sources, pos) && Unread(sources, pos) < Unread(sources, pos0)
  {
    hide Below, Consumed, All, Ahead, Mergeable, Parted, Grown, Unread, HeapOK, Popped;
    var top, rest := PopLeast(h0);
    PopRemoves(h0, top, rest, sources, pos0);
    LeastIsAhead(h0, sources, pos0, top);
    AheadKept(sources, pos0, top.src, top.rec.key, top.rec.seqNum);
    FirstTaken(sources, pos0, top);
    winner := top.rec;
    h := Advance(h0, top, rest, sources, pos0);
    pos := pos0[top.src := top.at + 1];
    while h != []
      invariant HeapOK(h, sources, pos) && Within(pos, sources) && Ahead(sources, pos, winner.key, winner.seqNum)
      invariant Grown(Consumed(sources, pos0), Consumed(sources, pos), winner)
      invariant Unread(sources, pos) < Unread(sources, pos0)
      decreases Unread(sources, pos)
    {
      top, rest := PopLeast(h);
      if top.rec.key != winner.key {
        KeyFinished(Consumed(sources, pos0), h, sources, pos, top, winner);
        return;
      }
      PopRemoves(h, top, rest, sources, pos);
      AnotherTaken(Consumed(sources, pos0), sources, pos, top, winner);
      AheadKept(sources, pos, top.src, winner.key, winner.seqNum);
      h := Advance(h, top, rest, sources, pos);
      pos := pos[top.src := top.at + 1];
    }
    NothingLeft(Consumed(sources, pos), sources, pos);
  }

  lemma NothingLeft(done: set<Record>, sources: Sources, pos: seq<nat>)
    requires HeapOK([], sources, pos)
    ensures Parted(done, sources, pos)
  {
  }

  lemma StartsMerged(sources: Sources, pos: seq<nat>, live: bool)
    requires Within(pos, sources) && (forall s :: 0 <= s < |pos| ==> pos[s] == 0)
    ensures Consumed(sources, pos) == {} && Parted({}, sources, pos) && IsMerge([], {}, live)
  {
  }

  lemma CoherentPart(sources: Sources, pos: seq<nat>)
    requires Mergeable(sources) && Within(pos, sources)
    ensures Coherent(Consumed(sources, pos))
  {
    ConsumedWithin(sources, pos);
  }

  /** The heap merge emits the newest record of every key in ascending key order. */
  method Merge(sources: Sources, live: bool) returns (out: seq<Record>)
    requires Mergeable(sources)
    ensures IsMerge(out, All(sources), live)
  {
    hide Below, IsMerge, Consumed, All, Mergeable, Parted, Grown, Coherent, Unread;
    ghost var pos;
    var h;
    h, pos := Seed(sources);
    out := [];
    StartsMerged(sources, pos, live);
    while h != []
      invariant HeapOK(h, sources, pos) && Parted(Consumed(sources, pos), sources, pos)
      invariant IsMerge(out, Consumed(sources, pos), live)
      decreases Unread(sources, pos)
    {
      var winner;
      ghost var done := Consumed(sources, pos);
      winner, h, pos := TakeKey(h, sources, pos);
      CoherentPart(sources, pos);
      EmitMerges(out, done, Consumed(sources, pos), winner, live);
      if !(live && winner.kind.Delete?) { out := out + [winner]; }
    }
    AllConsumed(sources, pos);
  }
}
