/** A leader looks for the point where a follower's log agrees with its own: exactly when the search ends. */
module Probing {
  import opened RaftTypes
  import opened Voters
  import opened Protocol
  import opened ProtocolFrame
  import opened RaftCore
  import opened NodeInvariant
  import opened Replication
  import opened Simulation
  import opened SimulateLeader
  import opened SimulateInputs
  import opened SimulateFollower

  // ---- one round -------------------------------------------------------

  lemma Replies(f: NodeState, m: Message)
    requires m.Append? && f.snapshot.index <= f.commit
    ensures var (f', u) := HandleAppend(f, m);
      && u.messages != []
      && var r := u.messages[|u.messages| - 1];
      && r.AppendResponse? && r.from == f.cfg.id && r.term == f.term
      && (r.reject ==> f' == Follow(f, m.from).0 && r.context == 0)
  {
    hide TermAt, RejectHint, SpliceOf, Rebuilt, Rebuilds, EntriesBetween, ResetElectionTimer;
  }

  /** What f answers to an append. */
  function Reply(f: NodeState, m: Message): (r: Message)
    requires m.Append? && f.snapshot.index <= f.commit
    ensures r.AppendResponse? && r.from == f.cfg.id && r.term == f.term
    ensures r.reject ==> HandleAppend(f, m).0 == Follow(f, m.from).0 && r.context == 0
  {
    Replies(f, m);
    var u := HandleAppend(f, m).1;
    u.messages[|u.messages| - 1]
  }

  function NextOf(l: NodeState, f: NodeState): nat { Get(l.progress.nextIndex, f.cfg.id) }

  function KnownOf(l: NodeState, f: NodeState): nat { Get(l.progress.matchIndex, f.cfg.id) }

  /** A leader and a follower of its term, and the leader's append on its way. */
  ghost predicate Talking(l: NodeState, f: NodeState, m: Message) {
    && Inv(l) && Inv(f) && l.role == Leader && f.term == l.term && TableOK(l) && f.cfg.id in l.progress.nextIndex
    && KnownOf(l, f) < NextOf(l, f) && l.snapshot.index < NextOf(l, f)
    && m == Append(l.cfg.id, f.cfg.id, l.term, NextOf(l, f) - 1, TermAt(l, NextOf(l, f) - 1),
                   CappedEntries(l, NextOf(l, f)), l.commit, 0)
  }

  /** The append a leader builds for a follower with none outstanding. */
  lemma StartsTalking(l: NodeState, f: NodeState)
    requires Inv(l) && Inv(f) && l.role == Leader && f.term == l.term && TableOK(l) && f.cfg.id in l.progress.nextIndex
    requires Get(l.progress.outstanding, f.cfg.id) == 0
    ensures var (l', m) := AppendMessage(l, f.cfg.id, 0);
      && (if NextOf(l, f) <= l.snapshot.index then m.InstallSnapshot? else Talking(l', f, m))
      && NextOf(l', f) == NextOf(l, f) && KnownOf(l', f) == KnownOf(l, f)
  {
    hide Inv, TermAt, CappedEntries, TableOK;
    NextAbove(l, f);
    var l' := AppendMessage(l, f.cfg.id, 0).0;
    AppendMessageTable(l, f.cfg.id, 0);
    NodeInvariant.AppendMessageSame(l, f.cfg.id, 0);
    ProgressOnly(l, l');
    TableKept(l, l');
  }

  lemma NextAbove(l: NodeState, f: NodeState)
    requires TableOK(l) && f.cfg.id in l.progress.nextIndex
    ensures KnownOf(l, f) < NextOf(l, f)
  {
  }

  lemma TableKept(l: NodeState, l': NodeState)
    requires TableOK(l) && SameTable(l, l')
    ensures TableOK(l')
  {
  }

  lemma ProgressOnly(l: NodeState, l': NodeState)
    requires Inv(l) && SameButProgress(l, l')
    ensures Inv(l') && forall i: nat :: TermAt(l', i) == TermAt(l, i) && CappedEntries(l', i) == CappedEntries(l, i)
  {
    hide Fold;
  }

  /** What a leader makes of a rejection: a lower next index, and the append from there. */
  lemma HandledRejection(l: NodeState, r: Message)
    requires Inv(l) && TableOK(l) && l.role == Leader && r.AppendResponse? && r.reject && r.term == l.term
    ensures var l1 := Rejected(MarkActive(l, r.from), r);
      && Inv(l1) && TableOK(l1) && l1.role == Leader && l1.term == l.term && l1.cfg == l.cfg
      && l1.snapshot == l.snapshot && l1.log == l.log && r.from in l1.progress.nextIndex
      && Get(l1.progress.nextIndex, r.from) == LowerNext(l.progress, r)
      && l1.progress.matchIndex == l.progress.matchIndex && Get(l1.progress.outstanding, r.from) == 0
      && var (l', m) := AppendMessage(l1, r.from, r.context);
      HandleAppendResponse(l, r).0 == l' && HandleAppendResponse(l, r).1.messages == [m]
  {
    hide Inv, TableOK, AppendMessage, CountAck, SendMore;
    TableKept(l, MarkActive(l, r.from));
    RejectedTable(MarkActive(l, r.from), r);
    ProgressOnly(l, Rejected(MarkActive(l, r.from), r));
  }

  /** The follower that rejected, and the leader that handled the rejection. */
  lemma Round(l: NodeState, f: NodeState, m: Message)
    requires Talking(l, f, m) && Reply(f, m).reject
    ensures var r := Reply(f, m); var (l', u) := HandleAppendResponse(l, r); var f' := HandleAppend(f, m).0;
      && u.messages != []
      && var m' := u.messages[|u.messages| - 1];
      && (if LowerNext(l.progress, r) <= l.snapshot.index then m'.InstallSnapshot? else Talking(l', f', m'))
      && l'.snapshot == l.snapshot && LastIndex(l') == LastIndex(l)
      && f' == Follow(f, l.cfg.id).0 && f'.snapshot == f.snapshot && f'.log == f.log && f'.commit == f.commit
      && f'.cfg == f.cfg && l' == AppendMessage(Rejected(MarkActive(l, f.cfg.id), r), f.cfg.id, 0).0
      && KnownOf(l', f') == KnownOf(l, f) && NextOf(l', f') == LowerNext(l.progress, r)
  {
    hide Reply, HandleAppend, HandleAppendResponse, Inv, TermAt, Follow, CappedEntries, AppendMessage, TableOK;
    hide Rejected, MarkActive;
    Shape(l, f, m);
    var r := Reply(f, m);
    FollowInv(f, l.cfg.id);
    HandledRejection(l, r);
    StartsTalking(Rejected(MarkActive(l, f.cfg.id), r), HandleAppend(f, m).0);
    NodeInvariant.AppendMessageSame(Rejected(MarkActive(l, f.cfg.id), r), f.cfg.id, 0);
  }

  lemma LowerAbove(p: Progress, r: Message)
    requires r.AppendResponse?
    ensures LowerNext(p, r) > Get(p.matchIndex, r.from)
  {
  }

  lemma FollowInv(f: NodeState, leader: nat)
    requires Inv(f)
    ensures var f' := Follow(f, leader).0;
      && Inv(f') && f'.term == f.term && f'.cfg == f.cfg
      && f'.snapshot == f.snapshot && f'.log == f.log && f'.commit == f.commit
  {
    hide Fold, ResetElectionTimer;
  }

  /** The leader's append, or one of the next n it sends after rejections, is accepted, or is a snapshot. */
  ghost predicate SettledWithin(l: NodeState, f: NodeState, m: Message, n: nat)
    decreases n
  {
    || m.InstallSnapshot?
    || (&& m.Append? && f.snapshot.index <= f.commit
        && (!Reply(f, m).reject
            || (n > 0
                && var (l', u) := HandleAppendResponse(l, Reply(f, m));
                u.messages != [] && SettledWithin(l', HandleAppend(f, m).0, u.messages[|u.messages| - 1], n - 1))))
  }

  // ---- when the search ends --------------------------------------------

  /** The leader's next index is above the follower's snapshot, or at most the first entry is covered. */
  predicate Reachable(l: NodeState, f: NodeState) { f.snapshot.index < NextOf(l, f) || f.snapshot.index <= 1 }

  /** Both belong to one safe history. */
  ghost predicate Related(g: Proto, l: NodeState, f: NodeState) {
    Safe(g) && Rel(g, l) && l.role == Leader && CoreRel(g, f) && f.term == l.term
  }

  /** What a follower has committed its leader has. */
  lemma CommittedAgrees(g: Proto, l: NodeState, f: NodeState)
    requires Related(g, l, f)
    ensures l.term in g.reigns && g.reigns[l.term].log == g.peers[l.cfg.id].log
    ensures f.commit <= |g.peers[f.cfg.id].log| && f.commit <= LastIndex(l)
    ensures g.peers[f.cfg.id].log[..f.commit] <= g.peers[l.cfg.id].log
  {
    assert PeerOK(g, f.cfg.id);
    hide Fold;
    KnownHeld(g, g.peers[f.cfg.id].log, f.commit, f.term);
  }

  lemma TermAgrees(g: Proto, l: NodeState, f: NodeState, i: nat)
    requires Related(g, l, f) && f.snapshot.index <= i <= f.commit && l.snapshot.index <= i
    ensures TermAt(f, i) == TermAt(l, i)
  {
    CommittedAgrees(g, l, f);
    hide Safe, Fold;
    TermAtRel(g, l, i);
    TermAtRel(g, f, i);
    if i > 0 { assert g.peers[f.cfg.id].log[i - 1] == g.peers[f.cfg.id].log[..f.commit][i - 1]; }
  }

  /** A follower of the leader's term agrees with it through the index it is known to match. */
  lemma MatchedAgrees(g: Proto, l: NodeState, f: NodeState)
    requires Related(g, l, f) && f.snapshot.index <= KnownOf(l, f) && l.snapshot.index <= KnownOf(l, f)
    ensures KnownOf(l, f) <= LastIndex(f) && TermAt(f, KnownOf(l, f)) == TermAt(l, KnownOf(l, f))
  {
    var known := KnownOf(l, f);
    if known > 0 {
      var t, v := l.term, f.cfg.id;
      assert AckOK(g, t, v);
      assert Kept(g, g.peers[v].log, t, known, g.peers[v].term);
      TermAtRel(g, l, known);
      TermAtRel(g, f, known);
    }
  }

  lemma BuiltOK(g: Proto, l: NodeState, f: NodeState, m: Message)
    requires Related(g, l, f) && Talking(l, f, m)
    ensures AppendOK(g, m)
  {
    hide Safe, Inv, Fold;
    WindowOK(g, l, f.cfg.id, NextOf(l, f), CappedEntries(l, NextOf(l, f)), 0);
  }

  /** A window of the leader's log from above what the follower compacted does not contradict what it committed. */
  lemma NoConflict(g: Proto, l: NodeState, f: NodeState, entries: seq<Entry>, prev: nat)
    requires Related(g, l, f) && l.term in g.reigns && (f.snapshot.index <= prev || f.snapshot.index <= 1)
    requires var x := g.reigns[l.term].log; prev + |entries| <= |x| && entries == x[prev..prev + |entries|]
    ensures f.snapshot.index <= f.commit && !SpliceOf(f, entries).CommittedConflict?
  {
    hide Related, TermAt, AlreadyPresent;
    RelatedBounds(g, l, f);
    var n := AlreadyPresent(f, entries);
    if n < |entries| {
      assert entries[n] == g.reigns[l.term].log[prev + n];
      if prev + n < f.commit { CommittedSame(g, l, f, prev + n); }
    }
  }

  lemma RelatedBounds(g: Proto, l: NodeState, f: NodeState)
    requires Related(g, l, f) && l.term in g.reigns
    ensures f.snapshot.index <= f.commit <= LastIndex(f)
    ensures forall k :: 0 <= k < |g.reigns[l.term].log| ==> g.reigns[l.term].log[k].index == k + 1
  {
    hide Safe, Fold;
    ReignNumbered(g, l.term);
  }

  lemma CommittedSame(g: Proto, l: NodeState, f: NodeState, i: nat)
    requires Related(g, l, f) && l.term in g.reigns && f.snapshot.index <= i + 1 <= f.commit
    ensures i < |g.reigns[l.term].log| && TermAt(f, i + 1) == g.reigns[l.term].log[i].term
  {
    CommittedAgrees(g, l, f);
    hide Safe, Fold;
    TermAtRel(g, f, i + 1);
    assert g.peers[f.cfg.id].log[i] == g.peers[f.cfg.id].log[..f.commit][i];
  }

  lemma WindowOf(g: Proto, l: NodeState, f: NodeState, m: Message)
    requires m.Append? && AppendOK(g, m) && Talking(l, f, m) && Reachable(l, f)
    ensures l.term in g.reigns && m.term == l.term && (f.snapshot.index <= m.logIndex || f.snapshot.index <= 1)
    ensures var x := g.reigns[l.term].log;
      m.logIndex + |m.entries| <= |x| && m.entries == x[m.logIndex..m.logIndex + |m.entries|]
  {
    hide Inv, TableOK, CappedEntries, TermAt;
  }

  /** An append that passes the check of the previous entry is accepted. */
  lemma PassedAccepts(g: Proto, l: NodeState, f: NodeState, m: Message)
    requires Related(g, l, f) && Talking(l, f, m) && Reachable(l, f)
    requires m.logIndex <= LastIndex(f) && TermAt(f, m.logIndex) == m.logTerm
    ensures !Reply(f, m).reject
  {
    hide Inv, SpliceOf, Rel, AppendOK, Safe, CoreRel, TableOK, CappedEntries;
    BuiltOK(g, l, f, m);
    WindowOf(g, l, f, m);
    NoConflict(g, l, f, m.entries, m.logIndex);
    hide Talking;
    var f1 := Follow(f, m.from).0;
    FollowOK(g, f, m.from);
    SameSplice(f, f1, m.entries);
    if SpliceOf(f1, m.entries).Splice? { SplicedMembership(g, f1, m); }
  }

  lemma SameSplice(f: NodeState, f': NodeState, entries: seq<Entry>)
    requires f'.snapshot == f.snapshot && f'.log == f.log && f'.commit == f.commit && f.snapshot.index <= f.commit
    ensures SpliceOf(f', entries) == SpliceOf(f, entries)
    ensures LastIndex(f') == LastIndex(f) && forall i: nat :: TermAt(f', i) == TermAt(f, i)
  {
    SamePresent(f, f', entries);
  }

  lemma {:induction false} SamePresent(f: NodeState, f': NodeState, entries: seq<Entry>)
    requires f'.snapshot == f.snapshot && f'.log == f.log
    ensures AlreadyPresent(f', entries) == AlreadyPresent(f, entries)
  {
    if entries != [] { SamePresent(f, f', entries[1..]); }
  }

  /** A rejection within reach is by the check of the previous entry, above the match and the snapshot. */
  lemma RejectedAbove(g: Proto, l: NodeState, f: NodeState, m: Message)
    requires Related(g, l, f) && Talking(l, f, m) && Reachable(l, f) && Reply(f, m).reject
    ensures var prev := NextOf(l, f) - 1;
      && Reply(f, m) == RejectAppend(f, m.from, RejectHint(f, prev))
      && KnownOf(l, f) < prev && f.snapshot.index < prev
  {
    hide Related, Inv, Reply, RejectHint, HandleAppend, CappedEntries, TableOK, TermAt;
    Shape(l, f, m);
    var prev := NextOf(l, f) - 1;
    if prev <= LastIndex(f) && TermAt(f, prev) == TermAt(l, prev) {
      PassedAccepts(g, l, f, m);
    } else {
      RejectedBy(f, m);
      MismatchAbove(g, l, f, prev);
    }
  }

  lemma MismatchAbove(g: Proto, l: NodeState, f: NodeState, prev: nat)
    requires Related(g, l, f) && l.snapshot.index <= prev && KnownOf(l, f) <= prev
    requires prev > LastIndex(f) || TermAt(f, prev) != TermAt(l, prev)
    requires f.snapshot.index <= prev || f.snapshot.index <= 1
    ensures KnownOf(l, f) < prev && f.snapshot.index < prev
  {
    CommitBounds(g, f);
    hide Related, TermAt;
    ZeroTerms(l, f);
    if f.snapshot.index == prev {
      TermAgrees(g, l, f, prev);
    } else if prev == KnownOf(l, f) {
      MatchedAgrees(g, l, f);
    }
  }

  /** A rejection within reach strictly lowers the next index and stays within reach. */
  lemma RejectionLowers(g: Proto, l: NodeState, f: NodeState, m: Message)
    requires Related(g, l, f) && Talking(l, f, m) && Reachable(l, f) && Reply(f, m).reject
    ensures var next := LowerNext(l.progress, Reply(f, m));
      KnownOf(l, f) < next < NextOf(l, f) && f.snapshot.index < next
  {
    RejectedAbove(g, l, f, m);
    Shape(l, f, m);
    hide Talking, Related, Reply, TermAt, ConflictStart;
  }

  lemma ZeroTerms(l: NodeState, f: NodeState)
    ensures TermAt(l, 0) == TermAt(f, 0)
  {
  }

  lemma Shape(l: NodeState, f: NodeState, m: Message)
    requires Talking(l, f, m)
    ensures m.Append? && f.snapshot.index <= f.commit && KnownOf(l, f) < NextOf(l, f)
  {
  }

  /** How the check of the previous entry rejects. */
  lemma RejectedBy(f: NodeState, m: Message)
    requires m.Append? && f.snapshot.index <= f.commit
    requires m.logIndex > LastIndex(f) || TermAt(f, m.logIndex) != m.logTerm
    ensures Reply(f, m) == RejectAppend(f, m.from, RejectHint(f, m.logIndex))
  {
    var f1 := Follow(f, m.from).0;
    SameHint(f, f1, m.logIndex);
    hide RejectHint, ResetElectionTimer;
  }

  lemma SameHint(f: NodeState, f': NodeState, prev: nat)
    requires f'.snapshot == f.snapshot && f'.log == f.log
    ensures RejectHint(f', prev) == RejectHint(f, prev) && TermAt(f', prev) == TermAt(f, prev)
  {
    SameStart(f, f', prev, TermAt(f, prev));
  }

  lemma {:induction false} SameStart(f: NodeState, f': NodeState, hint: nat, term: nat)
    requires f'.snapshot == f.snapshot && f'.log == f.log
    ensures ConflictStart(f', hint, term) == ConflictStart(f, hint, term)
    decreases hint
  {
    if hint > f.snapshot.index + 1 { SameStart(f, f', hint - 1, term); }
  }

  lemma StillRelated(g: Proto, l: NodeState, f: NodeState, m: Message)
    requires Related(g, l, f) && Talking(l, f, m) && Reply(f, m).reject
    ensures Related(g, HandleAppendResponse(l, Reply(f, m)).0, HandleAppend(f, m).0)
  {
    Round(l, f, m);
    Replies(f, m);
    hide Safe, Inv, Reply, HandleAppend, AppendMessage, Talking, Follow, Rejected, MarkActive;
    var l1 := MarkActive(l, f.cfg.id);
    MarkActiveRel(g, l, f.cfg.id);
    FollowOK(g, f, l.cfg.id);
    Marked(l, f.cfg.id);
    RejectedRel(g, l1, Reply(f, m));
    var l2 := Rejected(l1, Reply(f, m));
    RejectedLeads(l1, Reply(f, m));
    SimulateLeader.AppendMessageSame(l2, f.cfg.id, 0);
    SameRel(g, l2, AppendMessage(l2, f.cfg.id, 0).0);
  }

  lemma Marked(l: NodeState, id: nat)
    ensures MarkActive(l, id).role == l.role && MarkActive(l, id).term == l.term
  {
  }

  lemma RejectedLeads(l: NodeState, r: Message)
    requires r.AppendResponse?
    ensures Rejected(l, r).role == l.role && Rejected(l, r).term == l.term
  {
  }

  /** The search ends: the agreeing point is in reach, or the leader gets down to its own snapshot first. */
  predicate Ends(l: NodeState, f: NodeState) { Reachable(l, f) || KnownOf(l, f) < l.snapshot.index }

  /** Out of reach a rejection lowers the next index by one while it is above the match. */
  lemma OneLower(l: NodeState, f: NodeState, m: Message)
    requires Talking(l, f, m) && !Reachable(l, f) && KnownOf(l, f) < l.snapshot.index
    ensures Reply(f, m).reject && LowerNext(l.progress, Reply(f, m)) == NextOf(l, f) - 1
  {
    LeaderTerm(l, NextOf(l, f) - 1);
    RejectedBy(f, m);
    hide Inv, Reply, CappedEntries;
  }

  lemma Lowers(g: Proto, l: NodeState, f: NodeState, m: Message)
    requires Related(g, l, f) && Talking(l, f, m) && Ends(l, f) && Reply(f, m).reject
    ensures var next := LowerNext(l.progress, Reply(f, m));
      KnownOf(l, f) < next < NextOf(l, f) && (Reachable(l, f) ==> f.snapshot.index < next)
  {
    hide Related, Talking, Reply, LowerNext;
    Shape(l, f, m);
    LowerAbove(l.progress, Reply(f, m));
    if Reachable(l, f) { RejectionLowers(g, l, f, m); } else { OneLower(l, f, m); }
  }

  /** After a rejection the search goes on from a lower next index, and still ends. */
  lemma GoesOn(g: Proto, l: NodeState, f: NodeState, m: Message)
    requires Related(g, l, f) && Talking(l, f, m) && Ends(l, f) && Reply(f, m).reject
    ensures var (l', u) := HandleAppendResponse(l, Reply(f, m)); var f' := HandleAppend(f, m).0;
      && u.messages != [] && Related(g, l', f')
      && KnownOf(l', f') == KnownOf(l, f) < NextOf(l', f') < NextOf(l, f)
      && var m' := u.messages[|u.messages| - 1];
      m'.InstallSnapshot? || (Talking(l', f', m') && Ends(l', f'))
  {
    hide Related, Talking, LowerNext, Reply, HandleAppend, HandleAppendResponse;
    Shape(l, f, m);
    Lowers(g, l, f, m);
    Round(l, f, m);
    StillRelated(g, l, f, m);
  }

  /** The search then takes fewer than next - match rejections. */
  lemma {:induction false} ProbingEnds(g: Proto, l: NodeState, f: NodeState, m: Message)
    requires Related(g, l, f) && Talking(l, f, m) && Ends(l, f)
    ensures SettledWithin(l, f, m, NextOf(l, f) - KnownOf(l, f) - 1)
    decreases NextOf(l, f)
  {
    hide Related, Talking, Ends, Reply, HandleAppend, HandleAppendResponse;
    Shape(l, f, m);
    if Reply(f, m).reject {
      GoesOn(g, l, f, m);
      var (l', u) := HandleAppendResponse(l, Reply(f, m));
      var f', m' := HandleAppend(f, m).0, u.messages[|u.messages| - 1];
      if !m'.InstallSnapshot? {
        ProbingEnds(g, l', f', m');
        MoreRounds(l', f', m', NextOf(l', f') - KnownOf(l', f') - 1, NextOf(l, f) - KnownOf(l, f) - 2);
      }
    }
  }

  lemma {:induction false} MoreRounds(l: NodeState, f: NodeState, m: Message, n: nat, k: nat)
    requires SettledWithin(l, f, m, n) && n <= k
    ensures SettledWithin(l, f, m, k)
    decreases n
  {
    hide Reply, HandleAppend, HandleAppendResponse;
    if m.Append? && Reply(f, m).reject {
      var (l', u) := HandleAppendResponse(l, Reply(f, m));
      MoreRounds(l', HandleAppend(f, m).0, u.messages[|u.messages| - 1], n - 1, k - 1);
    }
  }

  // ---- when it does not ------------------------------------------------

  /** Out of reach every append is rejected, and leaves the next index out of reach. */
  lemma OutOfReachRejected(l: NodeState, f: NodeState, m: Message)
    requires Talking(l, f, m) && !Ends(l, f) && f.snapshot.index <= LastIndex(l)
    ensures Reply(f, m).reject && LowerNext(l.progress, Reply(f, m)) <= NextOf(l, f)
  {
    var prev := NextOf(l, f) - 1;
    if prev > 0 {
      LeaderTerm(l, prev);
      RejectedBy(f, m);
      hide Inv, Reply, ConflictStart, TableOK;
    } else {
      FirstRejected(l, f, m);
    }
  }

  lemma LeaderTerm(l: NodeState, i: nat)
    requires Inv(l) && l.snapshot.index <= i <= LastIndex(l) && i > 0
    ensures TermAt(l, i) != 0
  {
    hide Fold;
  }

  /** The first entry conflicts with what the follower has committed and compacted. */
  lemma FirstRejected(l: NodeState, f: NodeState, m: Message)
    requires Talking(l, f, m) && NextOf(l, f) == 1 < f.snapshot.index <= LastIndex(l)
    ensures Reply(f, m) == RejectAppend(f, m.from, f.commit + 1)
    ensures LowerNext(l.progress, Reply(f, m)) == 1
  {
    FirstEntry(l);
    var f1 := Follow(f, m.from).0;
    SameSplice(f, f1, m.entries);
    assert AlreadyPresent(f, m.entries) == 0;
    hide CappedEntries, ResetElectionTimer, AlreadyPresent, Fold;
    assert SpliceOf(f, m.entries).CommittedConflict?;
  }

  lemma FirstEntry(l: NodeState)
    requires Inv(l) && l.snapshot.index == 0 && 1 <= LastIndex(l)
    ensures var es := CappedEntries(l, 1); es != [] && es[0].index == 1 && es[0].term != 0
  {
    hide Fold;
  }

  /** A follower that has compacted past the leader's next index is probed for ever. */
  lemma {:induction false} ProbingNeverEnds(l: NodeState, f: NodeState, m: Message, n: nat)
    requires Talking(l, f, m) && !Ends(l, f) && f.snapshot.index <= LastIndex(l)
    ensures !SettledWithin(l, f, m, n)
    decreases n
  {
    hide Talking, LowerNext, Reply, HandleAppend, HandleAppendResponse;
    Shape(l, f, m);
    OutOfReachRejected(l, f, m);
    if n > 0 {
      Round(l, f, m);
      LowerAbove(l.progress, Reply(f, m));
      var (l', u) := HandleAppendResponse(l, Reply(f, m));
      ProbingNeverEnds(l', HandleAppend(f, m).0, u.messages[|u.messages| - 1], n - 1);
    }
  }

  /** A leader's search for where a follower agrees with it ends if and only if its next index is above the
      follower's snapshot, or nothing but the first entry is under that, or the leader has itself compacted
      past what it knows the follower to have. */
  lemma ProbingEndsExactly(g: Proto, l: NodeState, f: NodeState, m: Message)
    requires Related(g, l, f) && Talking(l, f, m)
    ensures (exists n :: SettledWithin(l, f, m, n)) <==> Ends(l, f)
  {
    hide Inv, SettledWithin, TableOK;
    if Ends(l, f) {
      ProbingEnds(g, l, f, m);
      var n: nat := NextOf(l, f) - KnownOf(l, f) - 1;
      assert SettledWithin(l, f, m, n);
    } else {
      CommittedAgrees(g, l, f);
      CommitBounds(g, f);
      forall n ensures !SettledWithin(l, f, m, n) { ProbingNeverEnds(l, f, m, n); }
    }
  }

  lemma CommitBounds(g: Proto, f: NodeState)
    requires CoreRel(g, f)
    ensures f.snapshot.index <= f.commit <= LastIndex(f)
  {
  }
}
