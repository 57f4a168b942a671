/** Accepting appends and snapshots is accepting in the protocol. */
module SimulateFollower {
  import opened RaftTypes
  import opened Voters
  import opened Protocol
  import opened ProtocolLogs
  import opened ProtocolFrame
  import opened ProtocolSteps
  import opened ProtocolReplication
  import opened ProtocolSafety
  import opened RaftCore
  import opened Simulation
  import opened SimulateLeader

  lemma FollowOK(g: Proto, s: NodeState, leader: nat)
    requires CoreRel(g, s)
    ensures var (s', u) := Follow(s, leader);
      && CoreRel(g, s') && s'.role == Follower && EffectsOK(g, u)
      && s'.cfg == s.cfg && s'.term == s.term && u.committed == []
      && s'.snapshot == s.snapshot && s'.log == s.log && s'.commit == s.commit && s'.membership == s.membership
      && s'.initial == s.initial && s'.votedFor == s.votedFor
  {
  }

  // ---- appends ---------------------------------------------------------

  /** The last index an append proves: the follower's log agrees with the leader through it. */
  function Proved(m: Message): nat
    requires m.Append?
  {
    m.logIndex + |m.entries|
  }

  /** Passing the previous-entry check means agreeing with the leader through it. */
  lemma PrevMatches(g: Proto, s: NodeState, m: Message)
    requires Safe(g) && CoreRel(g, s) && m.Append? && AppendOK(g, m)
    requires m.logIndex <= LastIndex(s) && TermAt(s, m.logIndex) == m.logTerm
    ensures g.peers[s.cfg.id].log[..m.logIndex] == g.reigns[m.term].log[..m.logIndex]
  {
    var i, x, y := m.logIndex, g.reigns[m.term].log, g.peers[s.cfg.id].log;
    assert ReignOK(g, m.term) && PeerOK(g, s.cfg.id);
    hide Safe, Known, Fold, Valid, TermAt, Grounded;
    if i > 0 {
      TermsRise(g, x, i - 1, i - 1);
      TermAtRel(g, s, i);
      LogMatching(g, x, y, i - 1);
    }
  }

  /** Entries the log already has agree with the leader's. */
  lemma PresentMatches(g: Proto, s: NodeState, m: Message, n: nat)
    requires Safe(g) && CoreRel(g, s) && m.Append? && AppendOK(g, m)
    requires m.logIndex <= LastIndex(s) && TermAt(s, m.logIndex) == m.logTerm
    requires n <= AlreadyPresent(s, m.entries)
    ensures m.logIndex + n <= |g.peers[s.cfg.id].log|
    ensures g.peers[s.cfg.id].log[..m.logIndex + n] == g.reigns[m.term].log[..m.logIndex + n]
  {
    var x, y := g.reigns[m.term].log, g.peers[s.cfg.id].log;
    if n == 0 {
      PrevMatches(g, s, m);
    } else {
      var k := m.logIndex + n - 1;
      assert ReignOK(g, m.term) && PeerOK(g, s.cfg.id);
      hide Safe, Known, Fold, Valid, TermAt, Grounded, AlreadyPresent;
      assert m.entries[n - 1] == x[k];
      GroundedNumbered(g, x);
      TermsRise(g, x, k, k);
      TermAtRel(g, s, k + 1);
      LogMatching(g, x, y, k);
    }
  }

  lemma NotPrefix(z: Log, y: Log, k: nat)
    requires k < |z| && (k >= |y| || z[k] != y[k])
    ensures !(z <= y)
  {
  }

  /** The first entry of an append that the follower does not already have. */
  lemma PartsAt(g: Proto, s: NodeState, m: Message)
    requires Safe(g) && CoreRel(g, s) && m.Append? && AppendOK(g, m)
    requires SpliceOf(s, m.entries).Splice?
    ensures var x, y, k := g.reigns[m.term].log, g.peers[s.cfg.id].log, m.logIndex + AlreadyPresent(s, m.entries);
      k < Proved(m) && (k >= |y| || x[k] != y[k])
  {
    hide Safe, Known, Fold;
    var x, n := g.reigns[m.term].log, AlreadyPresent(s, m.entries);
    assert m.entries[n] == x[m.logIndex + n];
    ReignNumbered(g, m.term);
    TermAtRel(g, s, m.logIndex + n + 1);
  }

  /** A conflict or a longer append parts from the follower's log. */
  lemma AddsSomething(g: Proto, s: NodeState, m: Message)
    requires Safe(g) && CoreRel(g, s) && m.Append? && AppendOK(g, m)
    requires SpliceOf(s, m.entries).Splice?
    ensures !(g.reigns[m.term].log[..Proved(m)] <= g.peers[s.cfg.id].log)
  {
    hide Safe, Known, Fold, AlreadyPresent, SpliceOf;
    PartsAt(g, s, m);
    NotPrefix(g.reigns[m.term].log[..Proved(m)], g.peers[s.cfg.id].log, m.logIndex + AlreadyPresent(s, m.entries));
  }

  lemma SpliceWindows(x: Log, y: Log, b: nat, k: nat, e: nat)
    requires b <= k <= e <= |x| && k <= |y| && x[..k] == y[..k]
    ensures x[..e][..b] == y[..b] && x[..e][b..] == y[b..][..k - b] + x[k..e]
  {
    assert forall i :: 0 <= i < k ==> x[i] == x[..k][i] == y[i];
  }

  lemma ReignNumbered(g: Proto, t: nat)
    requires Safe(g) && t in g.reigns
    ensures forall k :: 0 <= k < |g.reigns[t].log| ==> g.reigns[t].log[k].index == k + 1
  {
    assert ReignOK(g, t);
    GroundedNumbered(g, g.reigns[t].log);
  }

  lemma SpliceValue(s: NodeState, entries: seq<Entry>)
    requires s.snapshot.index <= s.commit && SpliceOf(s, entries).Splice?
    ensures var sp := SpliceOf(s, entries); var n := AlreadyPresent(s, entries);
      && n < |entries| && sp.added == entries[n..]
      && (if entries[n].index > LastIndex(s) then sp.keep == |s.log| && sp.truncateFrom == 0
          else sp.truncateFrom == entries[n].index > s.commit && sp.keep == entries[n].index - s.snapshot.index - 1)
  {
  }

  /** Where a splice starts: the first entry the follower lacks. */
  lemma SplicePoint(g: Proto, s: NodeState, m: Message) returns (k: nat)
    requires Safe(g) && CoreRel(g, s) && m.Append? && AppendOK(g, m)
    requires m.logIndex <= LastIndex(s) && TermAt(s, m.logIndex) == m.logTerm
    requires SpliceOf(s, m.entries).Splice?
    ensures s.snapshot.index <= k <= Proved(m) && k <= |g.peers[s.cfg.id].log|
    ensures g.reigns[m.term].log[..k] == g.peers[s.cfg.id].log[..k]
    ensures Common(g.reigns[m.term].log, g.peers[s.cfg.id].log) <= k
    ensures var sp := SpliceOf(s, m.entries);
      && sp.keep == k - s.snapshot.index && sp.added == g.reigns[m.term].log[k..Proved(m)]
      && (sp.truncateFrom == 0 ==> sp.keep == |s.log|)
  {
    hide Safe, TermAt, TermOf, Known, SpliceOf, AlreadyPresent, Fold;
    var x, n := g.reigns[m.term].log, AlreadyPresent(s, m.entries);
    k := m.logIndex + n;
    SpliceValue(s, m.entries);
    PartsAt(g, s, m);
    CommonEnds(x, g.peers[s.cfg.id].log, k);
    SpliceStarts(g, s, m);
    WindowAt(x, m.entries, m.logIndex, n);
  }

  /** The follower has the leader's entries up to the first of the append that it lacks. */
  lemma SpliceStarts(g: Proto, s: NodeState, m: Message)
    requires Safe(g) && CoreRel(g, s) && m.Append? && AppendOK(g, m)
    requires m.logIndex <= LastIndex(s) && TermAt(s, m.logIndex) == m.logTerm && SpliceOf(s, m.entries).Splice?
    ensures var k, n := m.logIndex + AlreadyPresent(s, m.entries), AlreadyPresent(s, m.entries);
      && k <= |g.peers[s.cfg.id].log| && g.reigns[m.term].log[..k] == g.peers[s.cfg.id].log[..k]
      && n < |m.entries| && m.entries[n].index == k + 1
  {
    hide Safe, TermAt, TermOf, Known, SpliceOf, AlreadyPresent, Fold;
    var n := AlreadyPresent(s, m.entries);
    SpliceValue(s, m.entries);
    PresentMatches(g, s, m, n);
    ReignNumbered(g, m.term);
    assert m.entries[n] == g.reigns[m.term].log[m.logIndex + n];
  }

  lemma WindowAt(x: Log, entries: Log, i: nat, n: nat)
    requires i + |entries| <= |x| && entries == x[i..i + |entries|] && n < |entries|
    ensures entries[n] == x[i + n] && entries[n..] == x[i + n..i + |entries|]
  {
  }

  /** The spliced log is the leader's through the last new entry. */
  lemma SplicedRel(g: Proto, s: NodeState, m: Message)
    requires Safe(g) && CoreRel(g, s) && m.Append? && AppendOK(g, m)
    requires m.logIndex <= LastIndex(s) && TermAt(s, m.logIndex) == m.logTerm
    requires SpliceOf(s, m.entries).Splice?
    ensures var sp := SpliceOf(s, m.entries); var z := g.reigns[m.term].log[..Proved(m)];
      && s.snapshot.index <= |z|
      && z[..s.snapshot.index] == g.peers[s.cfg.id].log[..s.snapshot.index]
      && z[s.snapshot.index..] == SplicedLog(s, sp)
      && (sp.truncateFrom == 0 ==> z == g.peers[s.cfg.id].log + sp.added)
  {
    hide Safe, TermAt, TermOf, Known, SpliceOf, Fold, ReignOK, PeerOK;
    var x, y, b := g.reigns[m.term].log, g.peers[s.cfg.id].log, s.snapshot.index;
    var k := SplicePoint(g, s, m);
    SpliceWindows(x, y, b, k, Proved(m));
    PrefixAndWindow(x, k, Proved(m));
  }

  lemma PrefixAndWindow(x: Log, k: nat, e: nat)
    requires k <= e <= |x|
    ensures x[..e] == x[..k] + x[k..e]
  {
  }

  /** The membership cache after a splice is the fold, whether or not the code rebuilds it,
      and the rebuild cannot fail. */
  lemma SplicedMembership(g: Proto, s: NodeState, m: Message)
    requires Safe(g) && CoreRel(g, s) && m.Append? && AppendOK(g, m)
    requires m.logIndex <= LastIndex(s) && TermAt(s, m.logIndex) == m.logTerm
    requires SpliceOf(s, m.entries).Splice?
    ensures var sp := SpliceOf(s, m.entries); var z := g.reigns[m.term].log[..Proved(m)];
      && Fold(g.start, z).Some?
      && ApplySplice(s, sp) == Some(s.(log := SplicedLog(s, sp), membership := Fold(g.start, z).value))
  {
    var sp, z, y := SpliceOf(s, m.entries), g.reigns[m.term].log[..Proved(m)], g.peers[s.cfg.id].log;
    SplicedRel(g, s, m);
    assert ReignOK(g, m.term);
    ValidPrefix(g.start, g.reigns[m.term].log, |z|);
    if Rebuilds(sp) {
      SplicedRebuild(g, s, sp, z);
    } else {
      FoldConcat(g.start, y, sp.added);
      FoldNoConfig(s.membership, sp.added);
    }
  }

  lemma SplicedRebuild(g: Proto, s: NodeState, sp: Splice, z: Log)
    requires Safe(g) && CoreRel(g, s) && sp.Splice? && sp.keep <= |s.log|
    requires s.snapshot.index <= |z| && z[..s.snapshot.index] == g.peers[s.cfg.id].log[..s.snapshot.index]
    requires z[s.snapshot.index..] == SplicedLog(s, sp)
    ensures Rebuilt(s.(log := SplicedLog(s, sp))) == Fold(g.start, z)
  {
    RebuildRel(g, s, SplicedLog(s, sp));
    assert z[..s.snapshot.index] + z[s.snapshot.index..] == z;
    assert Base(s.(log := SplicedLog(s, sp))) == Base(s);
  }

  /** CoreRel after the log became z. */
  lemma ReplacedCore(g: Proto, s: NodeState, k: nat, log: seq<Entry>, membership: Membership)
    requires Safe(g) && CoreRel(g, s) && MayAccept(g, s.cfg.id, k) && Stepped(g, Accept(g, s.cfg.id, k), s.cfg.id)
    requires var z := Accept(g, s.cfg.id, k).peers[s.cfg.id].log;
      && s.snapshot.index <= |z| && z[..s.snapshot.index] == g.peers[s.cfg.id].log[..s.snapshot.index]
      && z[s.snapshot.index..] == log && Fold(g.start, z) == Some(membership)
    ensures CoreRel(Accept(g, s.cfg.id, k), s.(log := log, membership := membership))
  {
    var g' := Accept(g, s.cfg.id, k);
    AcceptKeepsCommit(g, s.cfg.id, k);
    var z := g'.peers[s.cfg.id].log;
    if s.snapshot.index > 0 {
      assert z[s.snapshot.index - 1] == z[..s.snapshot.index][s.snapshot.index - 1];
    }
  }

  lemma AcceptedAppend(g: Proto, s: NodeState, m: Message, k: nat)
    requires Safe(g) && CoreRel(g, s) && m.Append? && AppendOK(g, m) && m.term == s.term && k == Proved(m)
    ensures MayAccept(g, s.cfg.id, k) && Stepped(g, Accept(g, s.cfg.id, k), s.cfg.id)
    ensures k <= AckOf(Accept(g, s.cfg.id, k), s.term, s.cfg.id)
  {
    AcceptSafe(g, s.cfg.id, k);
  }

  /** Acknowledging: learn the leader's commit index and answer. */
  lemma AcknowledgeOK(g: Proto, s: NodeState, m: Message, u: Update) returns (g': Proto)
    requires Safe(g) && CoreRel(g, s) && s.role == Follower && m.Append? && AppendOK(g, m) && m.term == s.term
    requires EffectsOK(g, u)
    requires Proved(m) <= LastIndex(s) && g.reigns[m.term].log[..Proved(m)] <= g.peers[s.cfg.id].log
    requires Proved(m) <= AckOf(g, s.term, s.cfg.id)
    ensures Stepped(g, g', s.cfg.id)
    ensures var (s', u') := AcknowledgeAppend(s, m, u); Rel(g', s') && EffectsOK(g', u') && s'.cfg == s.cfg
  {
    var commit := Max(s.commit, Min(m.leaderCommit, Proved(m)));
    g' := LearnCommitOK(g, s, m, commit);
    AnswerOK(g', s, m, Proved(m));
    EffectsKept(g, g', u);
    AcknowledgeEffects(g', s, m, u, commit);
  }

  lemma AcknowledgeEffects(g: Proto, s: NodeState, m: Message, u: Update, commit: nat)
    requires m.Append? && Proved(m) <= LastIndex(s) && commit == Max(s.commit, Min(m.leaderCommit, Proved(m)))
    requires EffectsOK(g, u)
    requires MessageOK(g, AppendResponse(s.cfg.id, m.from, s.term, Proved(m), false, 0, m.context))
    requires forall e :: e in EntriesBetween(s, s.commit + 1, commit + 1) ==> Decided(g, e)
    ensures EffectsOK(g, AcknowledgeAppend(s, m, u).1)
  {
    EffectsMerge(g, u, NO_EFFECT.(committed := EntriesBetween(s, s.commit + 1, commit + 1),
        messages := [AppendResponse(s.cfg.id, m.from, s.term, Proved(m), false, 0, m.context)]));
  }

  lemma LearnCommitOK(g: Proto, s: NodeState, m: Message, commit: nat) returns (g': Proto)
    requires Safe(g) && CoreRel(g, s) && m.Append? && AppendOK(g, m) && m.term == s.term
    requires commit == Max(s.commit, Min(m.leaderCommit, Proved(m))) && Proved(m) <= LastIndex(s)
    requires g.reigns[m.term].log[..Proved(m)] <= g.peers[s.cfg.id].log
    ensures Stepped(g, g', s.cfg.id) && g' == SetCommit(g, s.cfg.id, commit)
    ensures CoreRel(g', s.(commit := commit))
    ensures forall e :: e in EntriesBetween(s, s.commit + 1, commit + 1) ==> Decided(g', e)
  {
    CommitLearnable(g, s, m, commit);
    g' := SetCommit(g, s.cfg.id, commit);
    SetCommitSafe(g, s.cfg.id, commit);
    CommitDecides(g', s.(commit := commit), s.commit, commit);
    assert EntriesBetween(s.(commit := commit), s.commit + 1, commit + 1) ==
      EntriesBetween(s, s.commit + 1, commit + 1);
  }

  lemma CommitLearnable(g: Proto, s: NodeState, m: Message, commit: nat)
    requires Safe(g) && CoreRel(g, s) && m.Append? && AppendOK(g, m) && m.term == s.term
    requires commit == Max(s.commit, Min(m.leaderCommit, Proved(m))) && Proved(m) <= LastIndex(s)
    requires g.reigns[m.term].log[..Proved(m)] <= g.peers[s.cfg.id].log
    ensures Known(g, g.peers[s.cfg.id].log, commit, s.term)
  {
    var x, y := g.reigns[m.term].log, g.peers[s.cfg.id].log;
    assert PeerOK(g, s.cfg.id);
    if commit > s.commit {
      KnownShorter(g, x, m.leaderCommit, commit, m.term);
      assert x[..commit] == x[..Proved(m)][..commit] == y[..commit];
      KnownSame(g, x, y, commit, m.term);
    }
  }

  lemma AnswerOK(g: Proto, s: NodeState, m: Message, k: nat)
    requires Safe(g) && s.cfg.id in g.peers && g.peers[s.cfg.id].term == s.term
    requires m.Append? && m.term == s.term && k <= AckOf(g, s.term, s.cfg.id)
    requires m.context != 0 ==> (m.from, m.term, m.context) in g.probes
    ensures MessageOK(g, AppendResponse(s.cfg.id, m.from, s.term, k, false, 0, m.context))
  {
    if m.context != 0 {
      assert ReadOK(g, m.from, m.term, m.context);
      forall u | (u, s.cfg.id) in g.probes[(m.from, m.term, m.context)].ballots ensures u <= m.term {
        assert BallotOK(g, u, s.cfg.id);
      }
    }
  }

  lemma RefusedOK(g: Proto, s: NodeState, u: Update, hint: nat, to: nat)
    requires CoreRel(g, s) && s.role == Follower && EffectsOK(g, u)
    ensures Rel(g, s) && EffectsOK(g, Merge(u, WithMessages([RejectAppend(s, to, hint)])))
  {
    EffectsMerge(g, u, WithMessages([RejectAppend(s, to, hint)]));
  }

  lemma SplicedCore(g: Proto, s: NodeState, m: Message) returns (g': Proto)
    requires Safe(g) && CoreRel(g, s) && m.Append? && AppendOK(g, m) && m.term == s.term
    requires m.logIndex <= LastIndex(s) && TermAt(s, m.logIndex) == m.logTerm
    requires SpliceOf(s, m.entries).Splice?
    ensures var sp := SpliceOf(s, m.entries); ApplySplice(s, sp).Some? && CoreRel(g', ApplySplice(s, sp).value)
    ensures Stepped(g, g', s.cfg.id) && g'.reigns == g.reigns
    ensures g'.peers[s.cfg.id].log == g.reigns[m.term].log[..Proved(m)]
    ensures Proved(m) <= AckOf(g', s.term, s.cfg.id)
  {
    var sp, k := SpliceOf(s, m.entries), Proved(m);
    SplicedRel(g, s, m);
    SplicedMembership(g, s, m);
    AddsSomething(g, s, m);
    AcceptedAppend(g, s, m, k);
    g' := Accept(g, s.cfg.id, k);
    ReplacedCore(g, s, k, SplicedLog(s, sp), Fold(g.start, g.reigns[m.term].log[..k]).value);
  }

  lemma SplicedOK(g: Proto, s: NodeState, m: Message, u: Update) returns (g': Proto)
    requires Safe(g) && CoreRel(g, s) && s.role == Follower && m.Append? && AppendOK(g, m) && m.term == s.term
    requires m.logIndex <= LastIndex(s) && TermAt(s, m.logIndex) == m.logTerm
    requires SpliceOf(s, m.entries).Splice? && EffectsOK(g, u)
    ensures Stepped(g, g', s.cfg.id)
    ensures var sp := SpliceOf(s, m.entries);
      && ApplySplice(s, sp).Some?
      && var (s', u') := AcknowledgeAppend(ApplySplice(s, sp).value, m, Merge(u, SpliceEffects(sp)));
      Rel(g', s') && EffectsOK(g', u') && s'.cfg == s.cfg
  {
    var sp := SpliceOf(s, m.entries);
    var g1 := SplicedCore(g, s, m);
    var s1 := ApplySplice(s, sp).value;
    AppendKept(g, g1, m);
    EffectsKept(g, g1, u);
    EffectsMerge(g1, u, SpliceEffects(sp));
    g' := AcknowledgeOK(g1, s1, m, Merge(u, SpliceEffects(sp)));
    SteppedTrans(g, g1, g', s.cfg.id);
  }

  lemma AllPresent(s: NodeState, entries: seq<Entry>)
    requires s.snapshot.index <= s.commit && SpliceOf(s, entries).Nothing?
    ensures AlreadyPresent(s, entries) == |entries|
  {
  }

  lemma NothingCore(g: Proto, s: NodeState, m: Message) returns (g': Proto)
    requires Safe(g) && CoreRel(g, s) && m.Append? && AppendOK(g, m) && m.term == s.term
    requires m.logIndex <= LastIndex(s) && TermAt(s, m.logIndex) == m.logTerm
    requires SpliceOf(s, m.entries).Nothing?
    ensures Stepped(g, g', s.cfg.id) && CoreRel(g', s) && g'.reigns == g.reigns
    ensures Proved(m) <= LastIndex(s) && g.reigns[m.term].log[..Proved(m)] <= g'.peers[s.cfg.id].log
    ensures Proved(m) <= AckOf(g', s.term, s.cfg.id)
  {
    hide Safe, AlreadyPresent, TermAt, Known, Fold, Grounded;
    var k := Proved(m);
    AllPresent(s, m.entries);
    PresentMatches(g, s, m, |m.entries|);
    hide SpliceOf;
    AcceptedAppend(g, s, m, k);
    g' := Accept(g, s.cfg.id, k);
    assert g'.peers[s.cfg.id] == g.peers[s.cfg.id];
  }

  lemma NothingOK(g: Proto, s: NodeState, m: Message, u: Update) returns (g': Proto)
    requires Safe(g) && CoreRel(g, s) && s.role == Follower && m.Append? && AppendOK(g, m) && m.term == s.term
    requires m.logIndex <= LastIndex(s) && TermAt(s, m.logIndex) == m.logTerm
    requires SpliceOf(s, m.entries).Nothing? && EffectsOK(g, u)
    ensures Stepped(g, g', s.cfg.id)
    ensures var (s', u') := AcknowledgeAppend(s, m, u); Rel(g', s') && EffectsOK(g', u') && s'.cfg == s.cfg
  {
    var g1 := NothingCore(g, s, m);
    AppendKept(g, g1, m);
    EffectsKept(g, g1, u);
    g' := AcknowledgeOK(g1, s, m, u);
    SteppedTrans(g, g1, g', s.cfg.id);
  }

  lemma HandleAppendOK(g: Proto, s0: NodeState, m: Message) returns (g': Proto)
    requires Safe(g) && Rel(g, s0) && m.Append? && MessageOK(g, m) && m.term == s0.term
    ensures Stepped(g, g', s0.cfg.id)
    ensures var (s', u) := HandleAppend(s0, m); Rel(g', s') && EffectsOK(g', u) && s'.cfg == s0.cfg
  {
    hide Safe, SpliceOf, ApplySplice, SpliceEffects, AcknowledgeAppend, RejectHint;
    FollowOK(g, s0, m.from);
    var (s, u) := Follow(s0, m.from);
    if m.logIndex > LastIndex(s) || TermAt(s, m.logIndex) != m.logTerm {
      g' := g;
      RefusedOK(g, s, u, RejectHint(s, m.logIndex), m.from);
    } else {
      var sp := SpliceOf(s, m.entries);
      if sp.Nothing? {
        g' := NothingOK(g, s, m, u);
      } else if sp.CommittedConflict? {
        g' := g;
        RefusedOK(g, s, u, s.commit + 1, m.from);
      } else {
        g' := SplicedOK(g, s, m, u);
      }
    }
  }
}
