/** Keys in byte order, versioned records, and what a pile of records means. */
module Records {
  import opened RaftTypes

  type Key = Bytes

  /** Byte-wise order, a proper prefix first. */
  predicate Below(a: Key, b: Key) {
    if b == [] then false
    else if a == [] then true
    else a[0] < b[0] || (a[0] == b[0] && Below(a[1..], b[1..]))
  }

  lemma {:induction false} BelowTotal(a: Key, b: Key)
    ensures a == b || Below(a, b) || Below(b, a)
    ensures !(Below(a, b) && Below(b, a)) && (a == b ==> !Below(a, b))
  {
    if a != [] && b != [] {
      BelowTotal(a[1..], b[1..]);
      assert a == [a[0]] + a[1..] && b == [b[0]] + b[1..];
    }
  }

  lemma {:induction false} BelowTrans(a: Key, b: Key, c: Key)
    requires Below(a, b) && Below(b, c)
    ensures Below(a, c)
  {
    if a != [] && a[0] == b[0] == c[0] { BelowTrans(a[1..], b[1..], c[1..]); }
  }

  datatype Kind = Put | Delete

  datatype Record = Record(key: Key, value: Bytes, seqNum: nat, kind: Kind)

  /** Strictly ascending keys. */
  ghost predicate Sorted(rs: seq<Record>) {
    forall i, j :: 0 <= i < j < |rs| ==> Below(rs[i].key, rs[j].key)
  }

  /** r is the newest of the records with its key. */
  ghost predicate Newest(r: Record, all: set<Record>) {
    r in all && forall o :: o in all && o.key == r.key ==> o.seqNum <= r.seqNum
  }

  /** No two different records share a key and a sequence number. */
  ghost predicate Coherent(all: set<Record>) {
    forall r, o :: r in all && o in all && r.key == o.key && r.seqNum == o.seqNum ==> r == o
  }

  function Elements(rs: seq<Record>): set<Record> { set r | r in rs }

  // ---- the simple merge: a map from key to newest record ---------------

  function Insert(m: map<Key, Record>, r: Record): map<Key, Record> {
    if r.key !in m || r.seqNum > m[r.key].seqNum then m[r.key := r] else m
  }

  function Latest(rs: seq<Record>): map<Key, Record> {
    if rs == [] then map[] else Insert(Latest(rs[..|rs| - 1]), rs[|rs| - 1])
  }

  lemma LatestNext(rs: seq<Record>, i: nat)
    requires i < |rs|
    ensures Latest(rs[..i + 1]) == Insert(Latest(rs[..i]), rs[i])
  {
    assert rs[..i + 1][..i] == rs[..i];
  }

  lemma LatestNone(rs: seq<Record>)
    ensures Latest(rs[..0]) == map[]
  {
  }

  /** The map holds exactly the newest record of every key. */
  ghost predicate Holds(m: map<Key, Record>, all: set<Record>) {
    && (forall r :: r in all ==> r.key in m)
    && (forall k :: k in m ==> m[k].key == k && Newest(m[k], all))
  }

  lemma InsertHolds(m: map<Key, Record>, all: set<Record>, r: Record)
    requires Holds(m, all)
    ensures Holds(Insert(m, r), all + {r})
  {
    var m' := Insert(m, r);
    forall k | k in m' ensures m'[k].key == k && Newest(m'[k], all + {r}) {
      if k in m { assert Newest(m[k], all); }
    }
  }

  lemma {:induction false} LatestHolds(rs: seq<Record>)
    ensures Holds(Latest(rs), Elements(rs))
  {
    if rs != [] {
      var n := |rs| - 1;
      LatestHolds(rs[..n]);
      InsertHolds(Latest(rs[..n]), Elements(rs[..n]), rs[n]);
      assert Elements(rs) == Elements(rs[..n]) + {rs[n]};
    }
  }

  /** What a reader sees: the live values. */
  function View(m: map<Key, Record>): map<Key, Bytes> { map k | k in m && m[k].kind.Put? :: m[k].value }

  /** What a pile of records means. */
  function Meaning(rs: seq<Record>): map<Key, Bytes> { View(Latest(rs)) }

  // ---- the merged list -------------------------------------------------

  /** The newest record of every key in key order, without tombstones when `live`. */
  ghost predicate IsMerge(out: seq<Record>, all: set<Record>, live: bool) {
    && Sorted(out)
    && (forall r :: r in out ==> Newest(r, all) && !(live && r.kind.Delete?))
    && (forall r :: Newest(r, all) && !(live && r.kind.Delete?) ==> r in out)
  }

  lemma NoElements(rs: seq<Record>)
    ensures rs == [] <==> Elements(rs) == {}
  {
    if rs != [] { assert rs[0] in Elements(rs); }
  }

  lemma {:induction false} SortedUnique(a: seq<Record>, b: seq<Record>)
    requires Sorted(a) && Sorted(b) && Elements(a) == Elements(b)
    ensures a == b
  {
    NoElements(a);
    NoElements(b);
    if a != [] {
      assert a[0] in Elements(a) && b[0] in Elements(b);
      FirstSame(a, b);
      TailElements(a);
      TailElements(b);
      SortedUnique(a[1..], b[1..]);
      assert a == [a[0]] + a[1..] && b == [b[0]] + b[1..];
    }
  }

  lemma FirstSame(a: seq<Record>, b: seq<Record>)
    requires Sorted(a) && Sorted(b) && a != [] && b != [] && a[0] in b && b[0] in a
    ensures a[0] == b[0]
  {
    var i :| 0 <= i < |b| && b[i] == a[0];
    var j :| 0 <= j < |a| && a[j] == b[0];
    BelowTotal(a[0].key, b[0].key);
  }

  lemma TailElements(a: seq<Record>)
    requires Sorted(a) && a != []
    ensures Elements(a[1..]) == Elements(a) - {a[0]}
  {
    forall i | 0 < i < |a| ensures a[i] != a[0] { BelowTotal(a[0].key, a[i].key); }
    assert a == [a[0]] + a[1..];
  }

  /** Two merges of the same pile are the same list. */
  lemma MergeUnique(a: seq<Record>, b: seq<Record>, all: set<Record>, live: bool)
    requires IsMerge(a, all, live) && IsMerge(b, all, live)
    ensures a == b
  {
    forall r ensures r in a <==> r in b { if r in a { assert Newest(r, all); } if r in b { assert Newest(r, all); } }
    assert Elements(a) == Elements(b);
    SortedUnique(a, b);
  }

  /** A merge means what the pile means. */
  lemma MergeMeaning(out: seq<Record>, rs: seq<Record>, live: bool)
    requires Coherent(Elements(rs)) && IsMerge(out, Elements(rs), live)
    ensures Meaning(out) == Meaning(rs)
  {
    LatestHolds(out);
    LatestHolds(rs);
    forall k ensures k in Meaning(out) ==> k in Meaning(rs) && Meaning(out)[k] == Meaning(rs)[k] {
      if k in Meaning(out) { MergeKeeps(Latest(out), Latest(rs), out, rs, live, k); }
    }
    forall k ensures k in Meaning(rs) ==> k in Meaning(out) {
      if k in Meaning(rs) { MergeMisses(Latest(out), Latest(rs), out, rs, live, k); }
    }
  }

  lemma MergeKeeps(a: map<Key, Record>, b: map<Key, Record>, out: seq<Record>, rs: seq<Record>, live: bool, k: Key)
    requires Coherent(Elements(rs)) && IsMerge(out, Elements(rs), live)
    requires Holds(a, Elements(out)) && Holds(b, Elements(rs)) && k in View(a)
    ensures k in View(b) && View(a)[k] == View(b)[k]
  {
    assert Newest(a[k], Elements(out));
    assert a[k] in out;
    assert Newest(a[k], Elements(rs));
    assert Newest(b[k], Elements(rs));
  }

  lemma MergeMisses(a: map<Key, Record>, b: map<Key, Record>, out: seq<Record>, rs: seq<Record>, live: bool, k: Key)
    requires Coherent(Elements(rs)) && IsMerge(out, Elements(rs), live)
    requires Holds(a, Elements(out)) && Holds(b, Elements(rs)) && k in View(b)
    ensures k in View(a)
  {
    assert Newest(b[k], Elements(rs));
    assert b[k] in out;
    assert b[k] in Elements(out);
    assert Newest(a[k], Elements(out));
    assert a[k] in out;
    assert Newest(a[k], Elements(rs));
  }
}
