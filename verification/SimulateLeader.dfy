/** What a node does with a leader's authority is what the protocol allows. */
module SimulateLeader {
  import opened RaftTypes
  import opened Voters
  import opened Protocol
  import opened ProtocolLogs
  import opened ProtocolFrame
  import opened ProtocolSteps
  import opened ProtocolReplication
  import opened ProtocolSafety
  import opened RaftCore
  import opened Simulation

  /** s' differs from s only in what a leader remembers about outstanding appends. */
  ghost predicate SameButOutstanding(s: NodeState, s': NodeState) {
    s' == s.(progress :=
      s.progress.(outstanding := s'.progress.outstanding, outstandingAge := s'.progress.outstandingAge))
  }

  lemma SameRel(g: Proto, s: NodeState, s': NodeState)
    requires SameButOutstanding(s, s')
    ensures CoreRel(g, s) ==> CoreRel(g, s')
    ensures LeaderRel(g, s) ==> LeaderRel(g, s')
    ensures Rel(g, s) ==> Rel(g, s')
  {
  }

  lemma SnapshotMessageOK(g: Proto, s: NodeState)
    requires Safe(g) && CoreRel(g, s) && LeaderRel(g, s) && s.snapshot.index > 0
    ensures SnapshotOK(g, s.cfg.id, s.term, s.snapshot)
  {
    assert PeerOK(g, s.cfg.id);
    KnownShorter(g, g.peers[s.cfg.id].log, s.commit, s.snapshot.index, s.term);
  }

  lemma WindowOK(g: Proto, s: NodeState, peer: nat, next: nat, entries: seq<Entry>, context: nat)
    requires Safe(g) && CoreRel(g, s) && LeaderRel(g, s)
    requires context != 0 ==> (s.cfg.id, s.term, context) in g.probes
    requires s.snapshot.index < next <= LastIndex(s) + 1 && (entries == [] || entries == CappedEntries(s, next))
    ensures AppendOK(g, Append(s.cfg.id, peer, s.term, next - 1, TermAt(s, next - 1), entries, s.commit, context))
  {
    assert PeerOK(g, s.cfg.id);
    CappedWindow(g, s, next);
    TermAtRel(g, s, next - 1);
  }

  lemma AppendMessageSame(s: NodeState, peer: nat, context: nat)
    ensures SameButOutstanding(s, AppendMessage(s, peer, context).0)
  {
  }

  /** Every append a leader builds is a window of its reign's log. */
  lemma AppendMessageOK(g: Proto, s: NodeState, peer: nat, context: nat)
    requires Safe(g) && CoreRel(g, s) && LeaderRel(g, s)
    requires context != 0 ==> (s.cfg.id, s.term, context) in g.probes
    ensures MessageOK(g, AppendMessage(s, peer, context).1)
    ensures SameButOutstanding(s, AppendMessage(s, peer, context).0)
  {
    hide Safe, CappedEntries, SnapshotOK, AppendOK, TermAt;
    AppendMessageSame(s, peer, context);
    var set_ := Get(s.progress.nextIndex, peer);
    var next := if set_ == 0 then LastIndex(s) + 1 else set_;
    if next <= s.snapshot.index {
      SnapshotMessageOK(g, s);
    } else {
      var entries := if Get(s.progress.outstanding, peer) != 0 then [] else CappedEntries(s, next);
      WindowOK(g, s, peer, next, entries, context);
    }
  }

  lemma CappedWindow(g: Proto, s: NodeState, next: nat)
    requires CoreRel(g, s) && s.snapshot.index < next <= LastIndex(s) + 1
    ensures var c := CappedEntries(s, next); var x := g.peers[s.cfg.id].log;
      next - 1 + |c| <= |x| && c == x[next - 1..next - 1 + |c|]
  {
    var c, x := CappedEntries(s, next), g.peers[s.cfg.id].log;
    if next <= LastIndex(s) {
      var k := next - s.snapshot.index - 1;
      assert c == s.log[k..][..|c|];
      assert s.log[k..] == x[next - 1..];
      assert x[next - 1..][..|c|] == x[next - 1..next - 1 + |c|];
    }
  }

  lemma {:induction false} SendAppendsOK(g: Proto, s: NodeState, peers: seq<nat>, context: nat, proposal: bool)
    requires Safe(g) && CoreRel(g, s) && LeaderRel(g, s)
    requires context != 0 ==> (s.cfg.id, s.term, context) in g.probes
    ensures MessagesOK(g, SendAppends(s, peers, context, proposal).1)
    ensures SameButOutstanding(s, SendAppends(s, peers, context, proposal).0)
  {
    if peers != [] {
      var n := |peers| - 1;
      SendAppendsOK(g, s, peers[..n], context, proposal);
      var s1 := SendAppends(s, peers[..n], context, proposal).0;
      SameRel(g, s, s1);
      AppendMessageOK(g, s1, peers[n], context);
    }
  }

  // ---- stepping down ---------------------------------------------------

  /** Adopting a term (or only stepping down) is advancing to it. */
  lemma BecomeFollowerOK(g: Proto, s: NodeState, term: nat, leader: nat) returns (g': Proto)
    requires Safe(g) && CoreRel(g, s) && s.term <= term
    ensures g' == if term > s.term then AdvanceTerm(g, s.cfg.id, term) else g
    ensures Stepped(g, g', s.cfg.id)
    ensures var (s', u) := BecomeFollower(s, term, leader); Rel(g', s') && EffectsOK(g', u) && s'.cfg == s.cfg
    ensures term == s.term && LeaderRel(g, s) ==> LeaderRel(g', BecomeFollower(s, term, leader).0)
  {
    if term > s.term {
      g' := AdvanceTerm(g, s.cfg.id, term);
      AdvanceTermSafe(g, s.cfg.id, term);
    } else {
      g' := g;
    }
  }

  // ---- committing ------------------------------------------------------

  lemma CommitAllowed(g: Proto, s: NodeState, c: nat)
    requires Safe(g) && CoreRel(g, s) && LeaderRel(g, s)
    requires s.commit < c <= LastIndex(s) && Committable(s, c)
    ensures MayCommit(g, s.cfg.id, c, Matching(s.progress, c))
  {
    TermAtRel(g, s, c);
    forall v | v in Matching(s.progress, c) ensures (s.term, v) in g.acks && c <= g.acks[(s.term, v)] {
      assert s.progress.matchIndex[v] <= AckOf(g, s.term, v);
    }
  }

  lemma CommitDecides(g: Proto, s: NodeState, from: nat, c: nat)
    requires Safe(g) && CoreRel(g, s) && s.snapshot.index <= from <= c <= s.commit
    ensures forall e :: e in EntriesBetween(s, from + 1, c + 1) ==> Decided(g, e)
  {
    var x := g.peers[s.cfg.id].log;
    EntriesRel(g, s, from + 1, c + 1);
    assert PeerOK(g, s.cfg.id);
    GroundedNumbered(g, x);
    forall k | from <= k < c ensures Decided(g, x[k]) { KnownDecided(g, x, s.commit, s.term, k); }
  }

  lemma CommitOneOK(g: Proto, s: NodeState, c: nat) returns (g': Proto)
    requires Safe(g) && CoreRel(g, s) && LeaderRel(g, s)
    requires s.commit < c <= LastIndex(s) && Committable(s, c)
    ensures Stepped(g, g', s.cfg.id)
    ensures CoreRel(g', s.(commit := c)) && LeaderRel(g', s.(commit := c))
  {
    CommitAllowed(g, s, c);
    g' := Commit(g, s.cfg.id, c, Matching(s.progress, c));
    CommitSafe(g, s.cfg.id, c, Matching(s.progress, c));
  }

  lemma CommitReported(g: Proto, s: NodeState, c: nat) returns (g': Proto)
    requires Safe(g) && CoreRel(g, s) && LeaderRel(g, s)
    requires s.commit < c <= LastIndex(s) && Committable(s, c)
    ensures Stepped(g, g', s.cfg.id)
    ensures CoreRel(g', s.(commit := c)) && LeaderRel(g', s.(commit := c))
    ensures forall e :: e in EntriesBetween(s, s.commit + 1, c + 1) ==> Decided(g', e)
  {
    hide Safe, LeaderRel, Committable, Decided, EntriesBetween;
    g' := CommitOneOK(g, s, c);
    CommitDecides(g', s.(commit := c), s.commit, c);
    EntriesIgnoreCommit(s, c, s.commit + 1, c + 1);
  }

  /** Appending one entry with the leader's authority. */
  lemma ExtendOne(g: Proto, s: NodeState, e: Entry, m: Membership) returns (g': Proto)
    requires Safe(g) && CoreRel(g, s) && LeaderRel(g, s)
    requires e.index == LastIndex(s) + 1 && e.term == s.term && FoldEntry(s.membership, e) == Some(m)
    requires IsConfig(e.payload) ==> s.membership.index <= s.commit
    ensures Stepped(g, g', s.cfg.id) && g' == Extend(g, s.cfg.id, e)
    ensures var s' := s.(log := s.log + [e], membership := m); CoreRel(g', s') && LeaderRel(g', s')
    ensures AckOf(g', s.term, s.cfg.id) == e.index
  {
    hide Safe, Known, Stepped;
    var n := s.cfg.id;
    if IsConfig(e.payload) { ConfigKnown(g, s); }
    ExtendSafe(g, n, e);
    g' := Extend(g, n, e);
    ExtendedCore(g, g', s, e, m);
    SteppedKeeps(g, g', n);
    hide Fold;
    forall v | v in s.progress.matchIndex ensures s.progress.matchIndex[v] <= AckOf(g', s.term, v) {
      AckGrows(g, g', s.term, v);
    }
  }

  lemma SteppedKeeps(g: Proto, g': Proto, n: nat)
    requires Stepped(g, g', n)
    ensures Extends(g, g')
  {
  }

  /** The configuration in force is known to be committed once the commit index covers it. */
  lemma ConfigKnown(g: Proto, s: NodeState)
    requires Safe(g) && CoreRel(g, s) && s.membership.index <= s.commit
    ensures Known(g, g.peers[s.cfg.id].log, s.membership.index, s.term)
  {
    assert PeerOK(g, s.cfg.id);
    hide Safe;
    KnownShorter(g, g.peers[s.cfg.id].log, s.commit, s.membership.index, s.term);
  }

  lemma ExtendedCore(g: Proto, g': Proto, s: NodeState, e: Entry, m: Membership)
    requires CoreRel(g, s) && s.cfg.id in g'.peers && g'.start == g.start && FoldEntry(s.membership, e) == Some(m)
    requires g'.peers[s.cfg.id] == g.peers[s.cfg.id].(log := g.peers[s.cfg.id].log + [e])
    ensures CoreRel(g', s.(log := s.log + [e], membership := m))
  {
    var x := g.peers[s.cfg.id].log;
    assert (x + [e])[..|x|] == x;
    assert (x + [e])[s.snapshot.index..] == s.log + [e];
    assert (x + [e])[..s.snapshot.index] == x[..s.snapshot.index];
  }

  /** The self entries of the progress table may follow the log. */
  lemma OwnProgress(g: Proto, s: NodeState, index: nat)
    requires LeaderRel(g, s) && index <= AckOf(g, s.term, s.cfg.id) && index <= LastIndex(s)
    ensures LeaderRel(g, s.(progress := Matched(s.progress, s.cfg.id, index)))
  {
  }

  function FinalEntry(s: NodeState): Entry {
    Entry(LastIndex(s) + 1, s.term, RaftTypes.Config(Final(s.membership.joint)))
  }

  /** The final configuration always matches the joint one it completes. */
  lemma FinalFolds(g: Proto, s: NodeState)
    requires Safe(g) && CoreRel(g, s) && s.membership.joint != []
    ensures var m := Membership(s.membership.joint, [], LastIndex(s) + 1);
      FoldEntry(s.membership, FinalEntry(s)) == Some(m) && Rebuilt(s.(log := s.log + [FinalEntry(s)])) == Some(m)
  {
    MembershipWellFormed(g, s);
    NormalizeFixed(s.membership.joint);
    FinalApplies(s);
    AppendFolds(g, s, FinalEntry(s), Membership(s.membership.joint, [], LastIndex(s) + 1));
  }

  lemma FinalApplies(s: NodeState)
    requires WellFormed(s.membership) && s.membership.joint != []
    requires Normalize(s.membership.joint) == Some(s.membership.joint)
    ensures FoldEntry(s.membership, FinalEntry(s)) == Some(Membership(s.membership.joint, [], LastIndex(s) + 1))
  {
  }

  lemma AppendFinalValue(s: NodeState, m: Membership)
    requires Rebuilt(s.(log := s.log + [FinalEntry(s)])) == Some(m)
    ensures AppendFinal(s).Some?
    ensures AppendFinal(s).value.0 == s.(log := s.log + [FinalEntry(s)], membership := m,
                                         progress := Matched(s.progress, s.cfg.id, LastIndex(s) + 1))
  {
  }

  /** C_new is appended only after C_old,new is committed, and the rebuild cannot fail. */
  lemma AppendFinalOK(g: Proto, s: NodeState) returns (g': Proto)
    requires Safe(g) && CoreRel(g, s) && LeaderRel(g, s)
    requires s.membership.joint != [] && s.membership.index <= s.commit
    ensures AppendFinal(s).Some?
    ensures Stepped(g, g', s.cfg.id)
    ensures CoreRel(g', AppendFinal(s).value.0) && LeaderRel(g', AppendFinal(s).value.0)
    ensures SameIdentity(s, AppendFinal(s).value.0)
  {
    hide Safe, Fold, FoldEntry, Rebuilt;
    FinalFolds(g, s);
    var final, m := FinalEntry(s), Membership(s.membership.joint, [], LastIndex(s) + 1);
    g' := ExtendOne(g, s, final, m);
    AppendFinalValue(s, m);
    var s1 := s.(log := s.log + [final], membership := m);
    OwnProgress(g', s1, final.index);
    CoreIgnoresProgress(g', s1, Matched(s1.progress, s.cfg.id, final.index));
  }

  lemma CoreIgnoresProgress(g: Proto, s: NodeState, p: Progress)
    requires CoreRel(g, s)
    ensures CoreRel(g, s.(progress := p))
  {
  }

  ghost predicate SameIdentity(s: NodeState, s': NodeState) {
    s'.cfg == s.cfg && s'.role == s.role && s'.term == s.term && s'.commit == s.commit
  }

  lemma EntriesIgnoreCommit(s: NodeState, c: nat, from: nat, to: nat)
    ensures EntriesBetween(s.(commit := c), from, to) == EntriesBetween(s, from, to)
  {
  }

  /** The committing part of MaybeCommit: advance, then append C_new if due. */
  lemma AfterCommitOK(g: Proto, s: NodeState, c: nat) returns (g': Proto)
    requires Safe(g) && CoreRel(g, s) && LeaderRel(g, s) && s.role == Leader
    requires s.commit < c <= LastIndex(s) && Committable(s, c)
    ensures FinalDue(s.(commit := c)) ==> AppendFinal(s.(commit := c)).Some?
    ensures Stepped(g, g', s.cfg.id) && CoreRel(g', AfterCommit(s, c)) && LeaderRel(g', AfterCommit(s, c))
    ensures SameIdentity(s.(commit := c), AfterCommit(s, c))
    ensures forall e :: e in EntriesBetween(s, s.commit + 1, c + 1) ==> Decided(g', e)
  {
    hide Safe, CoreRel, LeaderRel, Committable, Decided, AppendFinal, EntriesBetween;
    var s1 := s.(commit := c);
    var g1 := CommitReported(g, s, c);
    if FinalDue(s1) {
      g' := AppendFinalOK(g1, s1);
      SteppedTrans(g, g1, g', s.cfg.id);
    } else {
      g' := g1;
    }
    forall e | e in EntriesBetween(s, s.commit + 1, c + 1) ensures Decided(g', e) { DecidedKept(g1, g', e); }
  }

  lemma StepDownOK(g: Proto, s: NodeState)
    requires Safe(g) && Rel(g, s) && LeaderRel(g, s)
    ensures var (s', u) := StepDownIfRemoved(s);
      Rel(g, s') && LeaderRel(g, s') && EffectsOK(g, u) && s'.cfg == s.cfg && s'.term == s.term
  {
    var _ := BecomeFollowerOK(g, s, s.term, 0);
  }

  lemma BroadcastOK(g: Proto, s: NodeState, proposal: bool)
    requires Safe(g) && Rel(g, s) && s.role == Leader
    ensures var (s', messages) := BroadcastAppend(s, proposal);
      Rel(g, s') && LeaderRel(g, s') && MessagesOK(g, messages) && SameButOutstanding(s, s')
  {
    SendAppendsOK(g, s, ReplicationPeers(s), 0, proposal);
    SameRel(g, s, BroadcastAppend(s, proposal).0);
  }

  lemma CommitToOK(g: Proto, s: NodeState, c: nat) returns (g': Proto)
    requires Safe(g) && CoreRel(g, s) && LeaderRel(g, s) && s.role == Leader
    requires s.commit < c <= LastIndex(s) && Committable(s, c)
    ensures FinalDue(s.(commit := c)) ==> AppendFinal(s.(commit := c)).Some?
    ensures Stepped(g, g', s.cfg.id)
    ensures var (s', u) := CommitTo(s, c);
      Rel(g', s') && LeaderRel(g', s') && EffectsOK(g', u) && s'.cfg == s.cfg && s'.term == s.term
  {
    hide Safe, CoreRel, LeaderRel, CandidateRel, MessageOK, Decided, Committable, FinalDue, AppendFinal;
    hide AfterCommit, AppendedByCommit, EntriesBetween, BroadcastAppend, StepDownIfRemoved;
    g' := AfterCommitOK(g, s, c);
    var s2 := AfterCommit(s, c);
    BroadcastOK(g', s2, false);
    var (s3, messages) := BroadcastAppend(s2, false);
    StepDownOK(g', s3);
    var committed := EntriesBetween(s, s.commit + 1, c + 1);
    var u := NO_EFFECT.(committed := committed, messages := messages, entries := AppendedByCommit(s, c));
    EffectsMerge(g', u, StepDownIfRemoved(s3).1);
  }

  /** Committing keeps the relation, and its panic is unreachable. */
  lemma MaybeCommitOK(g: Proto, s: NodeState) returns (g': Proto)
    requires Safe(g) && CoreRel(g, s) && LeaderRel(g, s) && s.role == Leader
    ensures !PanicsOnFinal(s)
    ensures Stepped(g, g', s.cfg.id)
    ensures var (s', u) := MaybeCommit(s);
      Rel(g', s') && LeaderRel(g', s') && EffectsOK(g', u) && s'.cfg == s.cfg && s'.term == s.term
  {
    var c := CommitCandidate(s, LastIndex(s));
    if c <= s.commit {
      g' := g;
    } else {
      g' := CommitToOK(g, s, c);
    }
  }

  /** Sending freshly appended entries and committing what that allows. */
  lemma PublishOK(g: Proto, s: NodeState, first: Update, proposal: bool) returns (g': Proto)
    requires Safe(g) && Rel(g, s) && s.role == Leader && first.committed == []
    ensures Stepped(g, g', s.cfg.id)
    ensures var (s', u) := Publish(s, first, proposal); Rel(g', s') && EffectsOK(g', u) && s'.cfg == s.cfg
  {
    BroadcastOK(g, s, proposal);
    var (s1, messages) := BroadcastAppend(s, proposal);
    g' := MaybeCommitOK(g, s1);
    EffectsKept(g, g', WithMessages(messages));
    EffectsMerge(g', first.(messages := messages), MaybeCommit(s1).1);
  }
}
