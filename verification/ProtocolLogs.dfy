/** Logs, their configurations, and why the quorums of two diverging logs meet. */
module ProtocolLogs {
  import opened RaftTypes
  import opened Voters
  import opened Protocol

  // ---- the configuration along a log -----------------------------------

  ghost predicate Numbered(x: Log) { forall k :: 0 <= k < |x| ==> x[k].index == k + 1 }

  lemma {:induction false} ValidPrefix(start: Membership, x: Log, d: nat)
    requires Valid(start, x) && d <= |x|
    ensures Valid(start, x[..d])
  {
    if d == |x| {
      assert x[..d] == x;
    } else {
      var n := |x| - 1;
      ValidPrefix(start, x[..n], d);
      assert x[..n][..d] == x[..d];
    }
  }

  /** The configuration's index is the last configuration entry's, and that entry made it. */
  lemma {:induction false} ConfigAt(start: Membership, x: Log)
    requires Valid(start, x) && Numbered(x) && start.index == 0
    ensures ConfigOf(start, x).index <= |x|
    ensures var p := ConfigOf(start, x).index;
      p > 0 ==>
        && IsConfig(x[p - 1].payload)
        && Valid(start, x[..p - 1]) && Valid(start, x[..p])
        && ConfigOf(start, x[..p]) == ConfigOf(start, x)
        && OneStep(ConfigOf(start, x[..p - 1]), ConfigOf(start, x))
    ensures ConfigOf(start, x).index == 0 ==> ConfigOf(start, x) == start
  {
    if x != [] {
      var n := |x| - 1;
      var e := x[n];
      ConfigAt(start, x[..n]);
      if Decode(e.payload).NotConfig? {
        var p := ConfigOf(start, x).index;
        if p > 0 {
          assert x[..n][..p - 1] == x[..p - 1];
          assert x[..n][..p] == x[..p];
        }
      } else {
        assert ApplyConfig(ConfigOf(start, x[..n]), Decode(e.payload).command, n + 1) == Some(ConfigOf(start, x));
        assert x[..n + 1] == x;
      }
    }
  }

  /** A configuration no younger than index d is the one at d. */
  lemma {:induction false} ConfigStable(start: Membership, x: Log, d: nat)
    requires Valid(start, x) && Numbered(x) && start.index == 0
    requires ConfigOf(start, x).index <= d <= |x|
    ensures Valid(start, x[..d]) && ConfigOf(start, x[..d]) == ConfigOf(start, x)
  {
    if d == |x| {
      assert x[..d] == x;
    } else {
      var n := |x| - 1;
      assert Decode(x[n].payload).NotConfig?;
      ConfigStable(start, x[..n], d);
      assert x[..n][..d] == x[..d];
    }
  }

  /** The index of the configuration before the current one; 0 when there is none. */
  ghost function PriorIndex(start: Membership, x: Log): nat
    requires Valid(start, x)
  {
    var p := ConfigOf(start, x).index;
    if 0 < p <= |x| && Valid(start, x[..p - 1]) then ConfigOf(start, x[..p - 1]).index else 0
  }

  /** With at most one configuration entry after d, the configuration is one step from that at d. */
  lemma OneStepFrom(start: Membership, x: Log, d: nat)
    requires Valid(start, x) && Numbered(x) && start.index == 0 && d <= |x|
    requires ConfigOf(start, x).index <= d || PriorIndex(start, x) <= d
    ensures Valid(start, x[..d]) && OneStep(ConfigOf(start, x[..d]), ConfigOf(start, x))
  {
    ConfigAt(start, x);
    var p := ConfigOf(start, x).index;
    if p <= d {
      ConfigStable(start, x, d);
    } else {
      ConfigStable(start, x[..p - 1], d);
      assert x[..p - 1][..d] == x[..d];
    }
  }

  // ---- where two logs part ---------------------------------------------

  ghost function Common(x: Log, y: Log): (d: nat)
    ensures d <= |x| && d <= |y| && x[..d] == y[..d]
    ensures d == |x| || d == |y| || x[d] != y[d]
  {
    if x == [] || y == [] || x[0] != y[0] then 0
    else
      var d := Common(x[1..], y[1..]) + 1;
      assert x[..d] == [x[0]] + x[1..][..d - 1];
      assert y[..d] == [y[0]] + y[1..][..d - 1];
      d
  }

  /** Two logs that both reach past their parting inside one log z do not exist. */
  lemma NoRejoin(x: Log, y: Log, z: Log, a: nat, b: nat)
    requires Common(x, y) < a <= |x| && Common(x, y) < b <= |y|
    requires x[..a] <= z
    ensures !(y[..b] <= z)
  {
    var d := Common(x, y);
    assert x[..a][d] == x[d];
    assert y[..b][d] == y[d];
  }

  lemma CommonHolds(x: Log, y: Log, i: nat)
    requires i <= Common(x, y)
    ensures x[..i] <= y
  {
    assert x[..i] == x[..Common(x, y)][..i];
  }

  lemma CommonCovers(x: Log, y: Log, q: Log)
    requires q <= x && q <= y
    ensures |q| <= Common(x, y)
  {
    assert forall i :: 0 <= i < |q| ==> q[i] == x[i] && q[i] == y[i];
  }

  lemma CommonEnds(x: Log, y: Log, k: nat)
    requires k < |x| && (k >= |y| || x[k] != y[k])
    ensures Common(x, y) <= k
  {
    var d := Common(x, y);
    assert forall i :: 0 <= i < d ==> x[..d][i] == x[i] && y[..d][i] == y[i];
  }

  lemma SameAt(x: Log, z: Log, k: nat)
    requires x <= z && k < |x|
    ensures x[k] == z[k]
  {
  }

  lemma PrefixTrans(x: Log, y: Log, z: Log)
    requires x <= y && y <= z
    ensures x <= z
  {
  }

  /** Two prefixes of one log are comparable. */
  lemma PrefixOfBoth(x: Log, y: Log, z: Log)
    requires x <= z && y <= z && |x| <= |y|
    ensures x <= y
  {
  }

  // ---- grounded logs ---------------------------------------------------

  lemma GroundedNumbered(g: Proto, x: Log)
    requires Grounded(g, x)
    ensures Numbered(x)
  {
    forall k | 0 <= k < |x| ensures x[k].index == k + 1 { assert At(g, x, k); }
  }

  lemma GroundedPrefix(g: Proto, x: Log, d: nat)
    requires Grounded(g, x) && d <= |x|
    ensures Grounded(g, x[..d])
  {
    forall k | 0 <= k < d ensures At(g, x[..d], k) {
      assert At(g, x, k);
      assert x[..d][..k + 1] == x[..k + 1];
    }
  }

  /** Log matching: equal terms at one index mean equal logs through it. */
  lemma LogMatching(g: Proto, x: Log, y: Log, k: nat)
    requires Grounded(g, x) && Grounded(g, y)
    requires k < |x| && k < |y| && x[k].term == y[k].term
    ensures x[..k + 1] == y[..k + 1]
  {
    assert At(g, x, k) && At(g, y, k);
  }

  /** Terms never fall along a log. */
  lemma TermsRise(g: Proto, x: Log, i: nat, k: nat)
    requires ReignsOK(g) && Grounded(g, x) && i <= k < |x|
    ensures x[i].term in g.reigns && 1 <= x[i].term <= x[k].term
  {
    assert At(g, x, k) && At(g, x, i);
    assert ReignOK(g, x[k].term) && ReignOK(g, x[i].term);
    SameAt(x[..k + 1], g.reigns[x[k].term].log, i);
  }

  lemma LastTermBounds(g: Proto, x: Log, i: nat)
    requires ReignsOK(g) && Grounded(g, x) && i < |x|
    ensures x[i].term in g.reigns && 1 <= x[i].term <= LastTerm(x)
  {
    TermsRise(g, x, i, |x| - 1);
  }

  /** A grounded log is a prefix of its last term's reign. */
  lemma WithinReign(g: Proto, x: Log)
    requires Grounded(g, x) && x != []
    ensures LastTerm(x) in g.reigns && x <= g.reigns[LastTerm(x)].log
  {
    assert At(g, x, |x| - 1);
    assert x[..|x|] == x;
  }

  /** Old entries of a reign's log lie in what its leader brought. */
  lemma WithinBase(g: Proto, t: nat, x: Log, hi: nat)
    requires t in g.reigns && ReignOK(g, t)
    requires x <= g.reigns[t].log && hi < t
    requires forall k :: 0 <= k < |x| ==> x[k].term <= hi
    ensures x <= g.reigns[t].log[..g.reigns[t].base]
  {
    var r := g.reigns[t];
    if |x| > r.base { SameAt(x, r.log, r.base); }
  }

  // ---- the quorums of parted logs meet ---------------------------------

  /** x holds the first `before` commits made in terms up to t. */
  ghost predicate HeldBefore(g: Proto, t: nat, x: Log, before: nat)
    requires CommitsOK(g)
  {
    forall j {:trigger CommitOK(g, j)} ::
      0 <= j < before && j < |g.commits| && g.commits[j].term <= t ==> Committed(g, j) <= x
  }

  /** Every leader in (t, top) holds p. */
  ghost predicate HeldUntil(g: Proto, p: Log, t: nat, top: nat) {
    forall u {:trigger ReignOK(g, u)} :: u in g.reigns && t < u < top ==> p <= g.reigns[u].log
  }

  /** On the side of term t: its log past the parting holds at most one configuration entry,
      because an earlier one would be committed and so held by x. */
  lemma CommittedSide(g: Proto, t: nat, len: nat, x: Log, before: nat)
    requires g.start.index == 0 && CommitsOK(g) && ConfigsOK(g)
    requires t in g.reigns && ReignOK(g, t) && len <= |g.reigns[t].log|
    requires Valid(g.start, g.reigns[t].log[..len])
    requires before == |g.commits|
          || (before < |g.commits| && g.commits[before].term == t && g.commits[before].len == len)
    requires HeldBefore(g, t, x, before)
    ensures var m := g.reigns[t].log[..len];
      ConfigOf(g.start, m).index <= Common(m, x) || PriorIndex(g.start, m) <= Common(m, x)
  {
    var m := g.reigns[t].log[..len];
    GroundedNumbered(g, g.reigns[t].log);
    ConfigAt(g.start, m);
    var p := ConfigOf(g.start, m).index;
    if p > 0 {
      var q := ConfigOf(g.start, m[..p - 1]).index;
      if q > 0 {
        assert m[..p - 1] == g.reigns[t].log[..p - 1];
        assert m[p - 1] == g.reigns[t].log[p - 1];
        var j := BackingIn(g, t, p, q);
        assert j < before;
        assert m[..q] == g.reigns[t].log[..q];
        CoveredWithin(g, j, g.reigns[t].log, q);
        PrefixTrans(m[..q], Committed(g, j), x);
        HeldPastParting(m, x, q);
      }
    }
  }

  lemma HeldPastParting(m: Log, x: Log, q: nat)
    requires q <= |m| && m[..q] <= x
    ensures q <= Common(m, x)
  {
    var d := Common(m, x);
    assert forall k :: 0 <= k < q ==> m[k] == x[k];
  }

  lemma CoveredWithin(g: Proto, j: nat, x: Log, q: nat)
    requires j < |g.commits| && q <= |x| && CommitOK(g, j) && Covers(g, j, x, q)
    ensures x[..q] <= Committed(g, j)
  {
  }

  /** The commit behind the configuration at q, when a later one sits at p of term w's log. */
  lemma BackingIn(g: Proto, w: nat, p: nat, q: nat) returns (j: nat)
    requires CommitsOK(g) && ConfigsOK(g)
    requires w in g.reigns && 0 < p <= |g.reigns[w].log| && IsConfig(g.reigns[w].log[p - 1].payload)
    requires Valid(g.start, g.reigns[w].log[..p - 1])
    requires ConfigOf(g.start, g.reigns[w].log[..p - 1]).index == q > 0
    ensures j < |g.commits| && q < p && Covers(g, j, g.reigns[w].log, q) && CommitOK(g, j)
    ensures g.commits[j].term <= g.reigns[w].log[p - 1].term
    ensures forall i :: 0 <= i < |g.commits| && g.commits[i].term == w && p <= g.commits[i].len ==> j < i
  {
    var k := p - 1;
    assert ConfigOK(g, w, k);
    assert Backed(g, w, k, q);
    j :| 0 <= j < |g.commits| && Covers(g, j, g.reigns[w].log, q)
      && g.commits[j].term <= g.reigns[w].log[k].term
      && (forall i :: 0 <= i < |g.commits| && g.commits[i].term == w && k < g.commits[i].len ==> j < i);
    assert CommitOK(g, j);
  }

  /** The same for a grounded log. */
  lemma BackingOf(g: Proto, x: Log, p: nat, q: nat) returns (j: nat)
    requires CommitsOK(g) && ConfigsOK(g)
    requires Grounded(g, x) && 0 < p <= |x| && IsConfig(x[p - 1].payload)
    requires Valid(g.start, x[..p - 1]) && ConfigOf(g.start, x[..p - 1]).index == q > 0
    ensures j < |g.commits| && q < p && Covers(g, j, x, q) && CommitOK(g, j)
    ensures g.commits[j].term <= x[p - 1].term
  {
    var k := p - 1;
    assert At(g, x, k);
    var log := g.reigns[x[k].term].log;
    assert x[k] == log[k] by { SameAt(x[..k + 1], log, k); }
    assert x[..k] == log[..k];
    j := BackingIn(g, x[k].term, p, q);
    assert x[..q] == log[..q];
  }

  /** A log that another log's holder has every commit of: past their parting it holds at most
      one configuration entry. */
  lemma GroundedSide(g: Proto, x: Log, y: Log, hi: nat)
    requires g.start.index == 0 && ReignsOK(g) && CommitsOK(g) && ConfigsOK(g)
    requires Grounded(g, x) && Valid(g.start, x) && LastTerm(x) <= hi
    requires HeldBefore(g, hi, y, |g.commits|)
    ensures ConfigOf(g.start, x).index <= Common(x, y) || PriorIndex(g.start, x) <= Common(x, y)
  {
    GroundedNumbered(g, x);
    ConfigAt(g.start, x);
    var p := ConfigOf(g.start, x).index;
    if p > 0 {
      var q := ConfigOf(g.start, x[..p - 1]).index;
      if q > 0 {
        LastTermBounds(g, x, p - 1);
        var j := BackingOf(g, x, p, q);
        CoveredWithin(g, j, x, q);
        PrefixTrans(x[..q], Committed(g, j), y);
        HeldPastParting(x, y, q);
      }
    }
  }

  /** On the side of a grounded log x with terms below `top`: likewise, since a committed
      configuration of x would be in term t's log, or term t's commit in the committing term's. */
  lemma CandidateSide(g: Proto, t: nat, len: nat, i: nat, x: Log, top: nat)
    requires g.start.index == 0 && ReignsOK(g) && CommitsOK(g) && ConfigsOK(g) && Complete(g)
    requires t in g.reigns && i <= len <= |g.reigns[t].log|
    requires Grounded(g, x) && LastTerm(x) < top && Valid(g.start, x)
    requires Common(g.reigns[t].log[..len], x) < len || len == |g.reigns[t].log|
    requires LastTerm(x) <= t ||
      (Common(g.reigns[t].log[..len], x) < i &&
       HeldUntil(g, g.reigns[t].log[..i], t, top))
    ensures var m := g.reigns[t].log[..len];
      ConfigOf(g.start, x).index <= Common(m, x) || PriorIndex(g.start, x) <= Common(m, x)
  {
    var m := g.reigns[t].log[..len];
    GroundedNumbered(g, x);
    ConfigAt(g.start, x);
    var p := ConfigOf(g.start, x).index;
    if p > 0 {
      var q := ConfigOf(g.start, x[..p - 1]).index;
      if q > 0 {
        LastTermBounds(g, x, p - 1);
        var j := BackingOf(g, x, p, q);
        CandidatePrior(g, t, len, i, x, top, q, j);
      }
    }
  }

  lemma CandidatePrior(g: Proto, t: nat, len: nat, i: nat, x: Log, top: nat, q: nat, j: nat)
    requires ReignsOK(g) && CommitsOK(g) && Complete(g)
    requires t in g.reigns && i <= len <= |g.reigns[t].log|
    requires q <= |x| && j < |g.commits| && Covers(g, j, x, q) && g.commits[j].term < top
    requires Common(g.reigns[t].log[..len], x) < len || len == |g.reigns[t].log|
    requires g.commits[j].term <= t ||
      (Common(g.reigns[t].log[..len], x) < i && HeldUntil(g, g.reigns[t].log[..i], t, top))
    ensures q <= Common(g.reigns[t].log[..len], x)
  {
    hide Complete, Covers, Grounded;
    var m, u := g.reigns[t].log[..len], g.commits[j].term;
    if u <= t {
      HeldByLater(g, t, x, q, j);
      HeldByWhole(m, x, g.reigns[t].log, q);
    } else if Common(m, x) < q {
      CommitWithin(g, j, x, q);
      assert g.reigns[t].log[..i] == m[..i];
      NoRejoin(m, x, g.reigns[u].log, i, q);
    }
  }

  lemma CommitWithin(g: Proto, j: nat, x: Log, q: nat)
    requires ReignsOK(g) && CommitsOK(g) && j < |g.commits| && q <= |x| && Covers(g, j, x, q)
    ensures g.commits[j].term in g.reigns && ReignOK(g, g.commits[j].term) && x[..q] <= g.reigns[g.commits[j].term].log
  {
    assert CommitOK(g, j);
    assert ReignOK(g, g.commits[j].term);
    CoveredWithin(g, j, x, q);
  }

  lemma HeldByLater(g: Proto, t: nat, x: Log, q: nat, j: nat)
    requires CommitsOK(g) && Complete(g)
    requires t in g.reigns && q <= |x| && j < |g.commits| && Covers(g, j, x, q) && g.commits[j].term <= t
    ensures x[..q] <= g.reigns[t].log
  {
    assert CommitOK(g, j);
    CoveredWithin(g, j, x, q);
    if g.commits[j].term < t {
      assert Holds(g, t, j);
      PrefixTrans(x[..q], Committed(g, j), g.reigns[t].log);
    }
  }

  lemma HeldByWhole(m: Log, x: Log, log: Log, q: nat)
    requires m <= log && (Common(m, x) < |m| || m == log)
    requires q <= |x| && x[..q] <= log
    ensures q <= Common(m, x)
  {
    assert forall k :: 0 <= k < q ==> x[k] == log[k];
  }

  /** A commit quorum of term t's log m and an election quorum of x meet, unless x holds the commit. */
  lemma QuorumsMeet(g: Proto, t: nat, len: nat, i: nat, a: set<nat>, before: nat, x: Log, top: nat, b: set<nat>)
    returns (v: nat)
    requires g.start.index == 0 && ReignsOK(g) && CommitsOK(g) && ConfigsOK(g) && Complete(g)
    requires t in g.reigns && i <= len <= |g.reigns[t].log|
    requires Valid(g.start, g.reigns[t].log[..len])
    requires HasQuorum(ConfigOf(g.start, g.reigns[t].log[..len]), a)
    requires before == |g.commits|
          || (before < |g.commits| && g.commits[before].term == t && g.commits[before].len == len)
    requires HeldBefore(g, t, x, before)
    requires Grounded(g, x) && LastTerm(x) < top && Valid(g.start, x)
    requires HasQuorum(ConfigOf(g.start, x), b)
    requires !(g.reigns[t].log[..i] <= x)
    requires HeldUntil(g, g.reigns[t].log[..i], t, top)
    ensures v in a && v in b
  {
    var m := g.reigns[t].log[..len];
    assert Common(m, x) < i by {
      assert g.reigns[t].log[..i] == m[..i];
      if i <= Common(m, x) { CommonHolds(m, x, i); }
    }
    assert ReignOK(g, t);
    CommittedSide(g, t, len, x, before);
    CandidateSide(g, t, len, i, x, top);
    GroundedNumbered(g, g.reigns[t].log);
    GroundedNumbered(g, x);
    v := MeetFrom(g.start, m, x, a, b);
  }

  lemma MeetFrom(start: Membership, m: Log, x: Log, a: set<nat>, b: set<nat>) returns (v: nat)
    requires start.index == 0
    requires Numbered(m) && Numbered(x) && Valid(start, m) && Valid(start, x)
    requires ConfigOf(start, m).index <= Common(m, x) || PriorIndex(start, m) <= Common(m, x)
    requires ConfigOf(start, x).index <= Common(m, x) || PriorIndex(start, x) <= Common(m, x)
    requires HasQuorum(ConfigOf(start, m), a) && HasQuorum(ConfigOf(start, x), b)
    ensures v in a && v in b
  {
    var d := Common(m, x);
    OneStepFrom(start, m, d);
    OneStepFrom(start, x, d);
    SiblingQuorumsMeet(ConfigOf(start, m[..d]), ConfigOf(start, m), ConfigOf(start, x), a, b);
    v :| v in a && v in b;
  }
}
