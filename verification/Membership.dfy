/** Voter sets, quorums and the fold of configuration entries. */
module Voters {
  import opened RaftTypes

  // ---- sorted voter lists ----------------------------------------------

  ghost predicate StrictlySorted(s: seq<nat>) {
    forall i, j :: 0 <= i < j < |s| ==> s[i] < s[j]
  }

  /** Inserts x in its place unless it is already there. */
  function InsertId(s: seq<nat>, x: nat): (r: seq<nat>)
    requires StrictlySorted(s)
    ensures StrictlySorted(r)
    ensures forall y :: y in r <==> y in s || y == x
    ensures |r| == |s| + (if x in s then 0 else 1)
  {
    if s == [] then [x]
    else
      var last := s[|s| - 1];
      if last < x then s + [x]
      else if last == x then s
      else
        var head := InsertId(s[..|s| - 1], x);
        assert forall y :: y in s <==> y in s[..|s| - 1] || y == last;
        assert forall i :: 0 <= i < |head| ==> head[i] in head;
        assert forall y :: y in head ==> y < last;
        head + [last]
  }

  /** The ids of a list in ascending order, each once. */
  function SortIds(ids: seq<nat>): (r: seq<nat>)
    ensures StrictlySorted(r)
    ensures forall y :: y in r <==> y in ids
    ensures |r| <= |ids|
  {
    if ids == [] then [] else
      var n := |ids| - 1;
      assert forall y :: y in ids <==> y in ids[..n] || y == ids[n];
      InsertId(SortIds(ids[..n]), ids[n])
  }

  ghost predicate Distinct(s: seq<nat>) {
    forall i, j :: 0 <= i < j < |s| ==> s[i] != s[j]
  }

  lemma AnyId(s: seq<nat>) returns (y: nat)
    requires s != []
    ensures y in s
  {
    y := s[0];
  }

  /** A strictly sorted list is determined by its elements. */
  lemma {:induction false} SortedUnique(a: seq<nat>, b: seq<nat>)
    requires StrictlySorted(a) && StrictlySorted(b)
    requires forall y :: y in a <==> y in b
    ensures a == b
  {
    if a == [] {
      if b != [] { var y := AnyId(b); }
    } else {
      assert a[|a| - 1] in b;
      assert b != [];
      var x, y := a[|a| - 1], b[|b| - 1];
      assert y in b && y in a;
      assert forall z :: z in a ==> z <= x;
      assert forall z :: z in b ==> z <= y;
      assert x == y;
      var a', b' := a[..|a| - 1], b[..|b| - 1];
      forall z ensures z in a' <==> z in b' {
        assert z in a <==> z in a' || z == x;
        assert z in b <==> z in b' || z == y;
        assert x !in a' && y !in b';
      }
      SortedUnique(a', b');
      assert a == a' + [x] && b == b' + [y];
    }
  }

  lemma {:induction false} SortIdsLength(ids: seq<nat>)
    ensures |SortIds(ids)| == |ids| <==> Distinct(ids)
  {
    if ids != [] {
      var n := |ids| - 1;
      SortIdsLength(ids[..n]);
      assert ids == ids[..n] + [ids[n]];
      if |SortIds(ids)| == |ids| {
        assert ids[n] !in ids[..n];
        assert Distinct(ids[..n]);
        forall i, j | 0 <= i < j < |ids| ensures ids[i] != ids[j] {
          if j == n { assert ids[..n][i] == ids[i]; }
          else { assert ids[..n][i] == ids[i] && ids[..n][j] == ids[j]; }
        }
      }
      if Distinct(ids) {
        assert Distinct(ids[..n]);
        assert ids[n] !in ids[..n];
      }
    }
  }

  /** Voters in ascending order, or None for an empty list, a zero id or a repeated id. */
  function Normalize(voters: seq<nat>): (r: Option<seq<nat>>) {
    if voters == [] || 0 in voters || |SortIds(voters)| != |voters| then None
    else Some(SortIds(voters))
  }

  /** Normalizing accepts exactly the non-empty lists of distinct positive ids,
      keeps their ids and is idempotent. */
  lemma NormalizeExact(voters: seq<nat>)
    ensures Normalize(voters).Some? <==> voters != [] && 0 !in voters && Distinct(voters)
    ensures Normalize(voters).Some? ==>
      var r := Normalize(voters).value;
      && StrictlySorted(r) && multiset(r) == multiset(voters)
      && Normalize(r) == Some(r)
  {
    SortIdsLength(voters);
    if Normalize(voters).Some? {
      var r := Normalize(voters).value;
      SortIdsLength(r);
      assert Distinct(r);
      SortedUnique(SortIds(r), r);
      DistinctMultiset(r);
      DistinctMultiset(voters);
      forall x ensures multiset(r)[x] == multiset(voters)[x] {
        assert x in multiset(r) <==> x in r;
        assert x in multiset(voters) <==> x in voters;
      }
    }
  }

  lemma {:induction false} DistinctMultiset(s: seq<nat>)
    requires Distinct(s)
    ensures forall x :: multiset(s)[x] == (if x in s then 1 else 0)
  {
    if s != [] {
      var n := |s| - 1;
      DistinctMultiset(s[..n]);
      assert s == s[..n] + [s[n]];
      assert s[n] !in s[..n];
    }
  }

  ghost predicate NormalVoters(s: seq<nat>) {
    s != [] && 0 !in s && StrictlySorted(s)
  }

  lemma NormalizeFixed(s: seq<nat>)
    requires NormalVoters(s)
    ensures Normalize(s) == Some(s)
  {
    SortIdsLength(s);
    assert Distinct(s);
    SortedUnique(SortIds(s), s);
  }

  /** The id's position found by binary search in a sorted voter list. */
  method ContainsVoter(voters: seq<nat>, id: nat) returns (found: bool)
    requires StrictlySorted(voters)
    ensures found <==> id in voters
  {
    var lo, hi := 0, |voters|;
    while lo < hi
      invariant 0 <= lo <= hi <= |voters|
      invariant forall i :: 0 <= i < lo ==> voters[i] < id
      invariant forall i :: hi <= i < |voters| ==> voters[i] >= id
    {
      var mid := (lo + hi) / 2;
      if voters[mid] >= id { hi := mid; } else { lo := mid + 1; }
    }
    found := lo < |voters| && voters[lo] == id;
    if id in voters {
      var k :| 0 <= k < |voters| && voters[k] == id;
      assert lo <= k;
    }
  }

  lemma RepeatedIdRejected(voters: seq<nat>, i: nat)
    requires i < |voters| && voters[i] in voters[..i]
    ensures Normalize(voters).None?
  {
    SortIdsLength(voters);
    var j :| 0 <= j < i && voters[..i][j] == voters[i];
    assert voters[j] == voters[i];
  }

  method NormalizeVoters(voters: seq<nat>) returns (r: Option<seq<nat>>)
    ensures r == Normalize(voters)
  {
    if voters == [] { return None; }
    var sorted: seq<nat> := [];
    var i := 0;
    while i < |voters|
      invariant 0 <= i <= |voters|
      invariant sorted == SortIds(voters[..i]) && |sorted| == i
      invariant 0 !in voters[..i]
    {
      assert voters[..i + 1][..i] == voters[..i];
      if voters[i] == 0 { return None; }
      if voters[i] in sorted {
        RepeatedIdRejected(voters, i);
        return None;
      }
      sorted := InsertId(sorted, voters[i]);
      i := i + 1;
    }
    assert voters[..i] == voters;
    r := Some(sorted);
  }

  /** Every voter of either half of a configuration, ascending. */
  function UnionVoters(m: Membership): (r: seq<nat>)
    ensures StrictlySorted(r)
    ensures forall y :: y in r <==> y in m.voters || y in m.joint
  {
    assert forall y :: y in m.voters + m.joint <==> y in m.voters || y in m.joint;
    SortIds(m.voters + m.joint)
  }

  // ---- quorums ---------------------------------------------------------

  function CountIn(voters: seq<nat>, acked: set<nat>): (n: nat)
    ensures n <= |voters|
  {
    if voters == [] then 0
    else CountIn(voters[..|voters| - 1], acked) + (if voters[|voters| - 1] in acked then 1 else 0)
  }

  function Majority(voters: seq<nat>): nat { |voters| / 2 + 1 }

  predicate SetQuorum(voters: seq<nat>, acked: set<nat>) {
    CountIn(voters, acked) >= Majority(voters)
  }

  predicate HasQuorum(m: Membership, acked: set<nat>) {
    SetQuorum(m.voters, acked) && (m.joint == [] || SetQuorum(m.joint, acked))
  }

  predicate VoteLost(m: Membership, rejected: set<nat>) {
    SetQuorum(m.voters, rejected) || (m.joint != [] && SetQuorum(m.joint, rejected))
  }

  method CountAcknowledged(voters: seq<nat>, acked: set<nat>) returns (quorum: bool)
    ensures quorum <==> SetQuorum(voters, acked)
  {
    var count, i := 0, 0;
    while i < |voters|
      invariant 0 <= i <= |voters|
      invariant count == CountIn(voters[..i], acked)
    {
      assert voters[..i + 1][..i] == voters[..i];
      if voters[i] in acked { count := count + 1; }
      i := i + 1;
    }
    assert voters[..i] == voters;
    quorum := count >= |voters| / 2 + 1;
  }

  lemma {:induction false} CountOverlap(voters: seq<nat>, a: set<nat>, b: set<nat>)
    ensures CountIn(voters, a) + CountIn(voters, b) <= |voters| + CountIn(voters, a * b)
  {
    if voters != [] { CountOverlap(voters[..|voters| - 1], a, b); }
  }

  lemma {:induction false} CountWitness(voters: seq<nat>, a: set<nat>)
    requires CountIn(voters, a) > 0
    ensures exists v :: v in voters && v in a
  {
    var n := |voters| - 1;
    if voters[n] !in a { CountWitness(voters[..n], a); }
  }

  /** Two majorities of one voter set share a voter. */
  lemma MajoritiesMeet(voters: seq<nat>, a: set<nat>, b: set<nat>)
    requires SetQuorum(voters, a) && SetQuorum(voters, b)
    ensures exists v :: v in voters && v in a && v in b
  {
    CountOverlap(voters, a, b);
    CountWitness(voters, a * b);
  }

  // ---- configuration entries -------------------------------------------

  datatype Decoded = NotConfig | Decoded(command: ConfigCommand) | Undecodable

  predicate IsConfig(p: Payload) { p.Config? || p.BadConfig? }

  function Decode(p: Payload): Decoded {
    match p
    case Command(_) => NotConfig
    case BadConfig(_) => Undecodable
    case Config(Joint(oldVoters, newVoters)) =>
      if Normalize(oldVoters).Some? && Normalize(newVoters).Some?
      then Decoded(Joint(Normalize(oldVoters).value, Normalize(newVoters).value)) else Undecodable
    case Config(Final(newVoters)) =>
      if Normalize(newVoters).Some? then Decoded(Final(Normalize(newVoters).value)) else Undecodable
  }

  function ApplyConfig(m: Membership, c: ConfigCommand, index: nat): Option<Membership> {
    match c
    case Joint(oldVoters, newVoters) =>
      if m.joint != [] || m.voters != oldVoters then None else Some(Membership(oldVoters, newVoters, index))
    case Final(newVoters) =>
      if m.joint == [] || m.joint != newVoters then None else Some(Membership(newVoters, [], index))
  }

  function FoldEntry(m: Membership, e: Entry): Option<Membership> {
    match Decode(e.payload)
    case NotConfig => Some(m)
    case Undecodable => None
    case Decoded(c) => ApplyConfig(m, c, e.index)
  }

  /** The configuration after replaying the entries' configuration commands over `base`. */
  function Fold(base: Membership, entries: seq<Entry>): Option<Membership> {
    if entries == [] then Some(base)
    else
      match Fold(base, entries[..|entries| - 1])
      case None => None
      case Some(m) => FoldEntry(m, entries[|entries| - 1])
  }

  ghost predicate WellFormed(m: Membership) {
    NormalVoters(m.voters) && (m.joint == [] || NormalVoters(m.joint))
  }

  /** validateMembership */
  predicate Validated(m: Membership) {
    Normalize(m.voters) == Some(m.voters) && (m.joint == [] || Normalize(m.joint) == Some(m.joint))
  }

  lemma ValidatedExact(m: Membership)
    ensures Validated(m) <==> WellFormed(m)
  {
    if WellFormed(m) {
      NormalizeFixed(m.voters);
      if m.joint != [] { NormalizeFixed(m.joint); }
    }
  }

  lemma FoldEntryWellFormed(m: Membership, e: Entry)
    requires WellFormed(m) && FoldEntry(m, e).Some?
    ensures WellFormed(FoldEntry(m, e).value)
  {
  }

  lemma {:induction false} FoldWellFormed(base: Membership, entries: seq<Entry>)
    requires WellFormed(base) && Fold(base, entries).Some?
    ensures WellFormed(Fold(base, entries).value)
  {
    if entries != [] {
      FoldWellFormed(base, entries[..|entries| - 1]);
      FoldEntryWellFormed(Fold(base, entries[..|entries| - 1]).value, entries[|entries| - 1]);
    }
  }

  /** Folding a concatenation is folding its parts in turn. */
  lemma {:induction false} FoldConcat(base: Membership, a: seq<Entry>, b: seq<Entry>)
    ensures Fold(base, a + b) ==
      (if Fold(base, a).None? then None else Fold(Fold(base, a).value, b))
  {
    if b == [] {
      assert a + b == a;
    } else {
      var n := |b| - 1;
      assert (a + b)[..|a + b| - 1] == a + b[..n];
      FoldConcat(base, a, b[..n]);
    }
  }

  /** Entries without configuration data leave the fold alone. */
  lemma {:induction false} FoldNoConfig(base: Membership, entries: seq<Entry>)
    requires forall e :: e in entries ==> !IsConfig(e.payload)
    ensures Fold(base, entries) == Some(base)
  {
    if entries != [] {
      FoldNoConfig(base, entries[..|entries| - 1]);
      assert entries[|entries| - 1] in entries;
    }
  }

  // ---- configurations that share a voter set ---------------------------

  /** One configuration entry leads from m to m' (or nothing happened). */
  ghost predicate OneStep(m: Membership, m': Membership) {
    m' == m || exists c, i :: ApplyConfig(m, c, i) == Some(m')
  }

  /** Two configurations at most one entry away from a common one have meeting quorums:
      from a stable configuration both keep its voters, from a joint one both keep the new half. */
  lemma SiblingQuorumsMeet(m: Membership, x: Membership, y: Membership, a: set<nat>, b: set<nat>)
    requires OneStep(m, x) && OneStep(m, y)
    requires HasQuorum(x, a) && HasQuorum(y, b)
    ensures exists v :: v in a && v in b
  {
    if m.joint == [] {
      MajoritiesMeet(m.voters, a, b);
    } else {
      MajoritiesMeet(m.joint, a, b);
    }
  }
}
