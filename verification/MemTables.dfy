/** The memtable: the newest record per key, listed in key order. */
module MemTables {
  import opened RaftTypes
  import opened Records

  datatype Mem = Mem(entries: map<Key, Record>, nextSeq: nat)

  ghost predicate Keyed(m: map<Key, Record>) {
    forall k :: k in m ==> m[k].key == k
  }

  /** Writing a record that already has a sequence number: a strictly newer one wins. */
  function Raw(m: Mem, r: Record): Mem {
    Mem(Insert(m.entries, r), if r.seqNum >= m.nextSeq then r.seqNum + 1 else m.nextSeq)
  }

  function RawAll(m: Mem, rs: seq<Record>): Mem {
    if rs == [] then m else Raw(RawAll(m, rs[..|rs| - 1]), rs[|rs| - 1])
  }

  // ---- records in key order --------------------------------------------

  ghost predicate IsListing(out: seq<Record>, m: map<Key, Record>) {
    && Sorted(out)
    && (forall r :: r in out ==> r.key in m && m[r.key] == r)
    && (forall k :: k in m ==> m[k].key == k && m[k] in out)
  }

  lemma ListingUnique(a: seq<Record>, b: seq<Record>, m: map<Key, Record>)
    requires IsListing(a, m) && IsListing(b, m)
    ensures a == b
  {
    forall r ensures r in a <==> r in b { if r in a { assert m[r.key] == r; } if r in b { assert m[r.key] == r; } }
    assert Elements(a) == Elements(b);
    SortedUnique(a, b);
  }

  /** r put in its place in a list ordered by key. */
  function InPlace(rs: seq<Record>, r: Record): seq<Record> {
    if rs == [] || Below(r.key, rs[0].key) then [r] + rs else [rs[0]] + InPlace(rs[1..], r)
  }

  lemma {:induction false} InPlaceHolds(rs: seq<Record>, r: Record, x: Record)
    ensures x in InPlace(rs, r) <==> x == r || x in rs
  {
    if rs != [] && !Below(r.key, rs[0].key) {
      InPlaceHolds(rs[1..], r, x);
      assert rs == [rs[0]] + rs[1..];
    }
  }

  lemma {:induction false} InPlaceSorted(rs: seq<Record>, r: Record)
    requires Sorted(rs) && (forall i :: 0 <= i < |rs| ==> rs[i].key != r.key)
    ensures Sorted(InPlace(rs, r))
  {
    if rs == [] {
    } else if Below(r.key, rs[0].key) {
      forall j | 0 < j < |rs| ensures Below(r.key, rs[j].key) { BelowTrans(r.key, rs[0].key, rs[j].key); }
    } else {
      InPlaceSorted(rs[1..], r);
      BelowTotal(r.key, rs[0].key);
      var rest := InPlace(rs[1..], r);
      forall j | 0 <= j < |rest| ensures Below(rs[0].key, rest[j].key) {
        InPlaceHolds(rs[1..], r, rest[j]);
        assert rest[j] in rest;
        if rest[j] in rs[1..] {
          var k :| 0 <= k < |rs[1..]| && rs[1..][k] == rest[j];
          assert rs[k + 1] == rest[j];
        }
      }
    }
  }

  /** One more entry put in place. */
  lemma ListingGrows(out: seq<Record>, m: map<Key, Record>, k: Key)
    requires Keyed(m) && k in m && IsListing(out, m - {k})
    ensures IsListing(InPlace(out, m[k]), m)
  {
    forall r ensures r in InPlace(out, m[k]) <==> r == m[k] || r in out { InPlaceHolds(out, m[k], r); }
    forall i | 0 <= i < |out| ensures out[i].key != k { assert out[i] in out; }
    InPlaceSorted(out, m[k]);
    forall j | j in m ensures m[j] in InPlace(out, m[k]) { if j != k { assert j in m - {k}; } }
  }

  lemma {:induction false} ListingExists(m: map<Key, Record>)
    requires Keyed(m)
    ensures exists out :: IsListing(out, m)
    decreases |m|
  {
    if m == map[] {
      assert IsListing([], m);
    } else {
      var k :| k in m;
      assert |m - {k}| < |m| by { assert m.Keys == (m - {k}).Keys + {k}; }
      ListingExists(m - {k});
      var out :| IsListing(out, m - {k});
      ListingGrows(out, m, k);
    }
  }

  ghost function Listing(m: map<Key, Record>): (out: seq<Record>)
    requires Keyed(m)
    ensures IsListing(out, m)
  {
    ListingExists(m);
    var out :| IsListing(out, m); out
  }

  lemma NothingListed(m: map<Key, Record>)
    requires Keyed(m)
    ensures Listing(m) == [] <==> m == map[]
  {
    var run := Listing(m);
    if m != map[] { var k :| k in m; assert m[k] in run; }
    if run != [] { assert run[0] in run; }
  }

  /** The map's records, taken in no particular order and put in key order. */
  method ListRecords(m: map<Key, Record>) returns (out: seq<Record>)
    requires Keyed(m)
    ensures IsListing(out, m)
  {
    out := [];
    var left := m.Keys;
    while left != {}
      invariant left <= m.Keys && IsListing(out, m - left)
      decreases left
    {
      var k :| k in left;
      ghost var next := m - (left - {k});
      assert next - {k} == m - left && next[k] == m[k];
      ListingGrows(out, next, k);
      out, left := InPlace(out, m[k]), left - {k};
    }
    assert m - left == m;
  }

  // ---- key ranges -------------------------------------------------------

  predicate Between(k: Key, from: Key, to: Key) { !Below(k, from) && !Below(to, k) }

  /** The records of a list whose key lies in [from, to]. */
  function Ranged(rs: seq<Record>, from: Key, to: Key): seq<Record> {
    if rs == [] then []
    else
      var last := rs[|rs| - 1];
      Ranged(rs[..|rs| - 1], from, to) + if Between(last.key, from, to) then [last] else []
  }

  lemma {:induction false} RangedHolds(rs: seq<Record>, from: Key, to: Key, r: Record)
    ensures r in Ranged(rs, from, to) <==> r in rs && Between(r.key, from, to)
  {
    if rs != [] {
      RangedHolds(rs[..|rs| - 1], from, to, r);
      assert rs == rs[..|rs| - 1] + [rs[|rs| - 1]];
    }
  }

  lemma {:induction false} RangedNone(rs: seq<Record>, from: Key, to: Key)
    requires forall i :: 0 <= i < |rs| ==> !Between(rs[i].key, from, to)
    ensures Ranged(rs, from, to) == []
  {
    if rs != [] { RangedNone(rs[..|rs| - 1], from, to); }
  }

  lemma {:induction false} RangedWhole(rs: seq<Record>, from: Key, to: Key)
    requires forall i :: 0 <= i < |rs| ==> Between(rs[i].key, from, to)
    ensures Ranged(rs, from, to) == rs
  {
    if rs != [] { RangedWhole(rs[..|rs| - 1], from, to); }
  }

  lemma {:induction false} RangedConcat(a: seq<Record>, b: seq<Record>, from: Key, to: Key)
    ensures Ranged(a + b, from, to) == Ranged(a, from, to) + Ranged(b, from, to)
  {
    if b == [] {
      assert a + b == a;
    } else {
      var n := |b| - 1;
      RangedConcat(a, b[..n], from, to);
      assert (a + b)[..|a + b| - 1] == a + b[..n];
    }
  }

  /** A range that is one contiguous stretch. */
  lemma RangedStretch(rs: seq<Record>, from: Key, to: Key, lo: nat, hi: nat)
    requires lo <= hi <= |rs|
    requires forall i :: 0 <= i < |rs| ==> (lo <= i < hi <==> Between(rs[i].key, from, to))
    ensures Ranged(rs, from, to) == rs[lo..hi]
  {
    hide Ranged, Between;
    RangedNone(rs[..lo], from, to);
    RangedWhole(rs[lo..hi], from, to);
    RangedNone(rs[hi..], from, to);
    RangedConcat(rs[..lo], rs[lo..hi], from, to);
    RangedConcat(rs[..hi], rs[hi..], from, to);
    assert rs[..lo] + rs[lo..hi] == rs[..hi] && rs[..hi] + rs[hi..] == rs;
  }

  /** Binary search for the first key that is not below `from`. */
  method LowerBound(rs: seq<Record>, from: Key) returns (start: nat)
    requires Sorted(rs)
    ensures start <= |rs|
    ensures forall i :: 0 <= i < |rs| ==> (i < start <==> Below(rs[i].key, from))
  {
    var lo: nat, hi := 0, |rs|;
    while lo < hi
      invariant 0 <= lo <= hi <= |rs|
      invariant forall i :: 0 <= i < lo ==> Below(rs[i].key, from)
      invariant forall i :: hi <= i < |rs| ==> !Below(rs[i].key, from)
    {
      var mid := (lo + hi) / 2;
      if Below(rs[mid].key, from) {
        forall i | 0 <= i < mid ensures Below(rs[i].key, from) { BelowTrans(rs[i].key, rs[mid].key, from); }
        lo := mid + 1;
      } else {
        forall i | mid < i < |rs| ensures !Below(rs[i].key, from) {
          if Below(rs[i].key, from) { BelowTrans(rs[mid].key, rs[i].key, from); }
        }
        hi := mid;
      }
    }
    start := lo;
  }

  class MemTable {
    var entries: map<Key, Record>
    var nextSeq: nat

    ghost function Value(): Mem
      reads this
    { Mem(entries, nextSeq) }

    ghost predicate Valid()
      reads this
    {
      Keyed(entries) && forall k :: k in entries ==> entries[k].seqNum < nextSeq
    }

    constructor (start: nat)
      ensures Value() == Mem(map[], start) && Valid()
    {
      entries, nextSeq := map[], start;
    }

    method AllocSeq() returns (s: nat)
      requires Valid()
      modifies this
      ensures Valid() && s == old(nextSeq) && Value() == Mem(old(entries), old(nextSeq) + 1)
    {
      s := nextSeq;
      nextSeq := nextSeq + 1;
    }

    method SetRaw(r: Record)
      requires Valid()
      modifies this
      ensures Valid() && Value() == Raw(old(Value()), r)
    {
      if r.key !in entries || r.seqNum > entries[r.key].seqNum { entries := entries[r.key := r]; }
      if r.seqNum >= nextSeq { nextSeq := r.seqNum + 1; }
    }

    method SortedEntries() returns (out: seq<Record>)
      requires Valid()
      ensures out == Listing(entries)
    {
      out := ListRecords(entries);
      ListingUnique(out, Listing(entries), entries);
    }

    /** The records from `from` on, up to the first key above `to`. */
    method ScanRange(from: Key, to: Key) returns (out: seq<Record>)
      requires Valid()
      ensures out == Ranged(Listing(entries), from, to)
    {
      var all := SortedEntries();
      var start := LowerBound(all, from);
      out := [];
      var i := start;
      while i < |all| && !Below(to, all[i].key)
        invariant start <= i <= |all| && out == all[start..i]
        invariant forall j :: start <= j < i ==> !Below(to, all[j].key)
      {
        out := out + [all[i]];
        i := i + 1;
      }
      forall j | i <= j < |all| ensures Below(to, all[j].key) {
        if i < j { BelowTrans(to, all[i].key, all[j].key); }
      }
      RangedStretch(all, from, to, start, i);
    }
  }
}
