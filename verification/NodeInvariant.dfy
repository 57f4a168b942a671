/** What every transition of one node keeps, whatever messages it is sent: the log is contiguous,
    snapshot <= commit <= last, the membership cache is the fold of the log, committed entries
    stay, commits are reported without a gap, and the store takes the update exactly when every
    entry in it fits, which turns a store equal to the old state into one equal to the new. */
module NodeInvariant {
  import opened RaftTypes
  import opened Voters
  import opened RaftCore
  import opened Stable
  import opened EntrySizes

  function DurableOf(s: NodeState): Durable { Durable(HardStateOf(s), s.snapshot, s.log) }

  ghost predicate SnapshotValid(x: Snapshot) {
    if x.index == 0 then x == NO_SNAPSHOT
    else x.term > 0 && x.membership.index <= x.index && WellFormed(x.membership)
  }

  ghost predicate Inv(s: NodeState) {
    && InSequence(s.log, s.snapshot.index)
    && s.snapshot.index <= s.commit <= LastIndex(s)
    && SnapshotValid(s.snapshot)
    && s.initial == Membership(s.cfg.peers, [], 0) && WellFormed(s.initial)
    && Rebuilt(s) == Some(s.membership)
    && (s.role == Leader || s.role == Candidate ==> s.term > 0)
  }

  /** e is the retained entry at index i. */
  predicate InLog(s: NodeState, i: nat, e: Entry) {
    s.snapshot.index < i <= LastIndex(s) && s.log[i - s.snapshot.index - 1] == e
  }

  /** No committed entry is replaced: it stays, or a snapshot with its term covers it. */
  ghost predicate KeepsCommitted(s: NodeState, s': NodeState) {
    && s.snapshot.index <= s'.snapshot.index
    && (s.snapshot.index == s'.snapshot.index ==> s'.snapshot == s.snapshot)
    && (s.snapshot.index < s'.snapshot.index <= s.commit ==> TermAt(s, s'.snapshot.index) == s'.snapshot.term)
    && (forall i: nat, e :: i <= s.commit && InLog(s, i, e) && i > s'.snapshot.index ==> InLog(s', i, e))
  }

  /** The commit index never falls; the committed list is exactly the entries it passed, except
      that a snapshot may carry it past entries nobody reports. */
  predicate Reports(s: NodeState, s': NodeState, u: Update) {
    if u.snapshot.Some? then
      u.committed == [] && s'.commit == Max(s.commit, u.snapshot.value.index)
    else
      && s.commit <= s'.commit && |u.committed| == s'.commit - s.commit
      && (forall k :: 0 <= k < |u.committed| ==> InLog(s', s.commit + 1 + k, u.committed[k]))
  }

  /** The term never falls and a vote is never changed within a term. */
  predicate KeepsVote(s: NodeState, s': NodeState) {
    s.term < s'.term || (s.term == s'.term && (s.votedFor == 0 || s'.votedFor == s.votedFor))
  }

  /** Every entry of the node, and the completion of its snapshot's membership, is within the store's limit. */
  predicate Fits(s: NodeState) { AllFit(s.log) && FinalFits(s.snapshot.membership) }

  /** What an update adds is within the limit. */
  predicate Fitting(u: Update) {
    AllFit(u.entries) && (u.snapshot.Some? ==> FinalFits(u.snapshot.value.membership))
  }

  /** An offered snapshot's joint configuration can be completed. */
  predicate MessageFits(m: Message) {
    m.InstallSnapshot? && m.snapshot.Some? ==> FinalFits(m.snapshot.value.membership)
  }

  predicate AllMessagesFit(messages: seq<Message>) { forall m :: m in messages ==> MessageFits(m) }

  /** The store after the update: the new state's, or an error when an entry does not fit. */
  function Stored(s': NodeState, u: Update): Option<Durable> {
    if AllFit(u.entries) then Some(DurableOf(s')) else None
  }

  ghost predicate Transition(s: NodeState, s': NodeState, u: Update) {
    && Inv(s') && s'.cfg == s.cfg && s'.snapshot == (if u.snapshot.Some? then u.snapshot.value else s.snapshot)
    && (FinalFits(s.snapshot.membership) ==> AllMessagesFit(u.messages))
    && Persisted(DurableOf(s), u) == Stored(s', u)
    && KeepsCommitted(s, s') && Reports(s, s', u) && KeepsVote(s, s')
  }

  /** Leadership is won only by standing for it, and lost only with a role change. */
  predicate KeepsRole(s: NodeState, s': NodeState, u: Update) {
    && (s.role == Leader ==>
          (s'.role == Leader && s'.term == s.term) || (s'.role != Leader && u.roleChanged))
    && (s.role != Leader && s'.role == Leader ==>
          s'.term > s.term || (s.role == Candidate && s'.term == s.term))
  }

  // ---- composing transitions -------------------------------------------

  predicate Chained(u: Update, o: Update) {
    && u.snapshot.None?
    && ((u.entries == [] && u.truncateFrom == 0 && u.committed == []) || (o.snapshot.None? && o.truncateFrom == 0))
  }

  lemma KeepsCommittedTrans(s: NodeState, s1: NodeState, s2: NodeState)
    requires Inv(s) && s.commit <= s1.commit && KeepsCommitted(s, s1) && KeepsCommitted(s1, s2)
    requires s1.snapshot.index <= s1.commit <= LastIndex(s1)
    ensures KeepsCommitted(s, s2)
  {
    var k := s2.snapshot.index;
    if s.snapshot.index < k <= s.commit && s1.snapshot.index < k {
      var e := s.log[k - s.snapshot.index - 1];
      assert InLog(s, k, e);
      assert InLog(s1, k, e);
    }
    forall i: nat, e | i <= s.commit && InLog(s, i, e) && i > s2.snapshot.index ensures InLog(s2, i, e) {
      assert InLog(s1, i, e);
    }
  }

  lemma ReportsTrans(s: NodeState, s1: NodeState, u: Update, s2: NodeState, o: Update)
    requires Reports(s, s1, u) && Reports(s1, s2, o) && Chained(u, o) && KeepsCommitted(s1, s2)
    requires o.snapshot.None? ==> s2.snapshot.index == s1.snapshot.index
    ensures Reports(s, s2, Merge(u, o))
  {
    var m := Merge(u, o);
    if m.snapshot.None? {
      forall k | 0 <= k < |m.committed| ensures InLog(s2, s.commit + 1 + k, m.committed[k]) {
        if k < |u.committed| {
          assert InLog(s1, s.commit + 1 + k, u.committed[k]);
        } else {
          assert InLog(s2, s1.commit + 1 + (k - |u.committed|), o.committed[k - |u.committed|]);
        }
      }
    }
  }

  /** The store takes a merged update exactly when it takes both parts. */
  lemma StoredMerged(s: NodeState, s1: NodeState, u: Update, s2: NodeState, o: Update)
    requires Persisted(DurableOf(s), u) == Stored(s1, u) && Persisted(DurableOf(s1), o) == Stored(s2, o)
    requires Chained(u, o)
    ensures Persisted(DurableOf(s), Merge(u, o)) == Stored(s2, Merge(u, o))
  {
    FitTogether(u.entries, o.entries);
    hide Cut, Appended, AllFit;
    if AllFit(u.entries) { PersistedMerged(DurableOf(s), u, o); } else { NotStoredMerged(DurableOf(s), u, o); }
  }

  lemma FitTogether(a: seq<Entry>, b: seq<Entry>)
    ensures AllFit(a + b) <==> AllFit(a) && AllFit(b)
  {
    if AllFit(a + b) {
      forall k | 0 <= k < |a| ensures DataBytes(a[k].payload) <= MAX_ENTRY_BYTES { assert (a + b)[k] == a[k]; }
      forall k | 0 <= k < |b| ensures DataBytes(b[k].payload) <= MAX_ENTRY_BYTES { assert (a + b)[|a| + k] == b[k]; }
    }
  }

  lemma NotStoredMerged(d: Durable, u: Update, o: Update)
    requires Chained(u, o) && !AllFit(u.entries)
    ensures Persisted(d, Merge(u, o)).None?
  {
    FitTogether(u.entries, o.entries);
    hide WithSnapshot, Truncated, Appended;
    var cut := Cut(d, Merge(u, o));
    if cut.Some? {
      AppendedExact(cut.value, u.entries + o.entries);
      FollowsExactly(u.entries + o.entries, LastStored(cut.value));
    }
  }

  lemma Chain(s: NodeState, s1: NodeState, u: Update, s2: NodeState, o: Update)
    requires Inv(s) && Transition(s, s1, u) && Transition(s1, s2, o) && Chained(u, o)
    ensures Transition(s, s2, Merge(u, o))
  {
    hide Persisted, Appended, Cut, InLog, Rebuilt, SnapshotValid, InSequence, Stored;
    StoredMerged(s, s1, u, s2, o);
    KeepsCommittedTrans(s, s1, s2);
    ReportsTrans(s, s1, u, s2, o);
  }

  /** s' differs from s only in what is neither durable nor derived from it. */
  predicate SameLog(s: NodeState, s': NodeState) {
    && s'.cfg == s.cfg && s'.initial == s.initial && s'.snapshot == s.snapshot && s'.log == s.log
    && s'.commit == s.commit && s'.membership == s.membership
  }

  /** Changing only role, timers, progress or hard state. */
  lemma HardTransition(s: NodeState, s': NodeState, u: Update)
    requires Inv(s) && SameLog(s, s') && (s'.role == Leader || s'.role == Candidate ==> s'.term > 0) && KeepsVote(s, s')
    requires u.truncateFrom == 0 && u.entries == [] && u.committed == [] && u.snapshot.None?
    requires FinalFits(s.snapshot.membership) ==> AllMessagesFit(u.messages)
    requires if u.hardState.Some? then u.hardState.value == HardStateOf(s') else HardStateOf(s') == HardStateOf(s)
    ensures Transition(s, s', u)
  {
    assert s.log + [] == s.log;
  }

  /** Appending entries that continue the log and fold. */
  lemma AppendTransition(s: NodeState, s': NodeState, u: Update)
    requires Inv(s) && s'.cfg == s.cfg && s'.initial == s.initial && s'.snapshot == s.snapshot
    requires s'.commit == s.commit && HardStateOf(s') == HardStateOf(s) && s'.term > 0
    requires InSequence(u.entries, LastIndex(s)) && s'.log == s.log + u.entries && Rebuilt(s') == Some(s'.membership)
    requires u.hardState.None? && u.truncateFrom == 0 && u.committed == []
    requires u.snapshot.None? && u.messages == []
    ensures Transition(s, s', u)
  {
    hide Rebuilt, SnapshotValid, Follows, AllFit;
    AppendedExact(DurableOf(s), u.entries);
    FollowsExactly(u.entries, LastIndex(s));
    assert InSequence(s'.log, s.snapshot.index);
  }

  /** Raising the commit index within the log. */
  lemma CommitTransition(s: NodeState, c: nat, u: Update)
    requires Inv(s) && s.commit <= c <= LastIndex(s)
    requires u.committed == EntriesBetween(s, s.commit + 1, c + 1)
    requires u.hardState.None? && u.truncateFrom == 0 && u.entries == [] && u.snapshot.None?
    requires FinalFits(s.snapshot.membership) ==> AllMessagesFit(u.messages)
    ensures Transition(s, s.(commit := c), u)
  {
    hide SnapshotValid, Fold;
    assert s.log + [] == s.log;
    var s' := s.(commit := c);
    assert Rebuilt(s') == Rebuilt(s);
    forall k | 0 <= k < |u.committed| ensures InLog(s', s.commit + 1 + k, u.committed[k]) { }
  }

  // ---- memberships -----------------------------------------------------

  lemma BaseValid(s: NodeState)
    requires SnapshotValid(s.snapshot) && s.initial.joint == [] && WellFormed(s.initial)
    ensures WellFormed(Base(s)) && (FinalFits(s.snapshot.membership) ==> FinalFits(Base(s)))
  {
  }

  lemma MembershipValid(s: NodeState)
    requires Inv(s)
    ensures WellFormed(s.membership) && (Fits(s) ==> FinalFits(s.membership))
  {
    BaseValid(s);
    FoldWellFormed(Base(s), s.log);
    if Fits(s) { FoldFits(Base(s), s.log); }
  }

  /** Appending an entry folds it onto the cached membership. */
  lemma RebuiltAppend(s: NodeState, e: Entry)
    requires Rebuilt(s) == Some(s.membership)
    ensures Rebuilt(s.(log := s.log + [e])) == FoldEntry(s.membership, e)
  {
    assert (s.log + [e])[..|s.log|] == s.log;
  }

  /** Appending commands leaves the fold alone. */
  lemma RebuiltBatch(s: NodeState, entries: seq<Entry>)
    requires Rebuilt(s) == Some(s.membership)
    requires forall e :: e in entries ==> !IsConfig(e.payload)
    ensures Rebuilt(s.(log := s.log + entries)) == Some(s.membership)
  {
    FoldConcat(Base(s), s.log, entries);
    FoldNoConfig(s.membership, entries);
  }

  /** The membership cache is the fold of the log, whatever the sizes of its entries. */
  ghost predicate Cached(s: NodeState) {
    s.commit <= LastIndex(s) && Rebuilt(s) == Some(s.membership) && WellFormed(s.membership)
  }

  lemma InvCached(s: NodeState)
    requires Inv(s)
    ensures Cached(s)
  {
    MembershipValid(s);
  }

  // ---- sending ---------------------------------------------------------

  predicate SameButProgress(s: NodeState, s': NodeState) { s' == s.(progress := s'.progress) }

  lemma AppendMessageSame(s: NodeState, peer: nat, context: nat)
    ensures SameButProgress(s, AppendMessage(s, peer, context).0)
  {
  }

  lemma {:induction false} SendAppendsSame(s: NodeState, peers: seq<nat>, context: nat, proposal: bool)
    ensures SameButProgress(s, SendAppends(s, peers, context, proposal).0)
  {
    if peers != [] {
      var n := |peers| - 1;
      SendAppendsSame(s, peers[..n], context, proposal);
      AppendMessageSame(SendAppends(s, peers[..n], context, proposal).0, peers[n], context);
    }
  }

  lemma {:induction false} SendAppendsFit(s: NodeState, peers: seq<nat>, context: nat, proposal: bool)
    ensures FinalFits(s.snapshot.membership) ==> AllMessagesFit(SendAppends(s, peers, context, proposal).1)
  {
    if peers != [] && FinalFits(s.snapshot.membership) {
      hide AppendMessage, FinalFits;
      var n := |peers| - 1;
      SendAppendsFit(s, peers[..n], context, proposal);
      SendAppendsSame(s, peers[..n], context, proposal);
      AppendMessageFits(SendAppends(s, peers[..n], context, proposal).0, peers[n], context);
    }
  }

  lemma AppendMessageFits(s: NodeState, peer: nat, context: nat)
    requires FinalFits(s.snapshot.membership)
    ensures MessageFits(AppendMessage(s, peer, context).1)
  {
  }

  // ---- role changes ----------------------------------------------------

  lemma BecomeFollowerKeeps(s: NodeState, term: nat, leader: nat)
    requires Inv(s) && s.term <= term
    ensures var (s', u) := BecomeFollower(s, term, leader);
      && Transition(s, s', u) && KeepsRole(s, s', u) && SameLog(s, s')
      && u.entries == [] && u.truncateFrom == 0 && u.committed == [] && u.snapshot.None?
      && s'.role == Follower && s'.term == term
  {
    hide Inv;
    var (s', u) := BecomeFollower(s, term, leader);
    HardTransition(s, s', u);
  }

  lemma StepDownKeeps(s: NodeState)
    requires Inv(s) && s.role == Leader
    ensures var (s', u) := StepDownIfRemoved(s);
      Transition(s, s', u) && KeepsRole(s, s', u) && s'.term == s.term && u.snapshot.None? && u.truncateFrom == 0
  {
    hide Transition, BecomeFollower;
    BecomeFollowerKeeps(s, s.term, 0);
    HardTransition(s, s, NO_EFFECT);
  }

  // ---- committing ------------------------------------------------------

  /** Completing a joint configuration folds, so the code's panic cannot be reached. */
  lemma FinalKeeps(s: NodeState)
    requires Inv(s) && s.role == Leader && s.membership.joint != []
    ensures AppendFinal(s).Some?
    ensures var (s', e) := AppendFinal(s).value;
      Transition(s, s', NO_EFFECT.(entries := [e])) && s'.role == Leader && s'.term == s.term
  {
    hide Inv, Transition, Rebuilt;
    var e := Entry(LastIndex(s) + 1, s.term, RaftTypes.Config(Final(s.membership.joint)));
    FinalFolds(s, e);
    RoleHasTerm(s);
    FinalValue(s, e);
    AppendTransition(s, AppendFinal(s).value.0, NO_EFFECT.(entries := [e]));
  }

  lemma FinalFolds(s: NodeState, e: Entry)
    requires Inv(s) && s.role == Leader && s.membership.joint != []
    requires e == Entry(LastIndex(s) + 1, s.term, RaftTypes.Config(Final(s.membership.joint)))
    ensures Rebuilt(s.(log := s.log + [e])).Some?
  {
    hide Fold, InSequence;
    MembershipValid(s);
    CachedFinal(s);
  }

  lemma CachedFinal(s: NodeState)
    requires Rebuilt(s) == Some(s.membership) && WellFormed(s.membership) && s.membership.joint != []
    ensures var e := Entry(LastIndex(s) + 1, s.term, RaftTypes.Config(Final(s.membership.joint)));
      Rebuilt(s.(log := s.log + [e])) == Some(Membership(s.membership.joint, [], e.index))
    ensures AppendFinal(s).Some?
  {
    hide Rebuilt;
    var e := Entry(LastIndex(s) + 1, s.term, RaftTypes.Config(Final(s.membership.joint)));
    NormalizeFixed(s.membership.joint);
    RebuiltAppend(s, e);
  }

  lemma FinalValue(s: NodeState, e: Entry)
    requires e == Entry(LastIndex(s) + 1, s.term, RaftTypes.Config(Final(s.membership.joint)))
    requires Rebuilt(s.(log := s.log + [e])).Some?
    ensures AppendFinal(s).Some? && AppendFinal(s).value.1 == e
    ensures AppendFinal(s).value.0 == s.(log := s.log + [e], membership := Rebuilt(s.(log := s.log + [e])).value,
                                         progress := Matched(s.progress, s.cfg.id, e.index))
    ensures Rebuilt(AppendFinal(s).value.0) == Rebuilt(s.(log := s.log + [e]))
  {
  }

  lemma AfterCommitKeeps(s: NodeState, c: nat)
    requires Inv(s) && s.role == Leader && s.commit < c <= LastIndex(s)
    ensures FinalDue(s.(commit := c)) ==> AppendFinal(s.(commit := c)).Some?
    ensures var u := NO_EFFECT.(committed := EntriesBetween(s, s.commit + 1, c + 1), entries := AppendedByCommit(s, c));
      Transition(s, AfterCommit(s, c), u) && AfterCommit(s, c).role == Leader && AfterCommit(s, c).term == s.term
  {
    hide Transition, AppendFinal, EntriesBetween;
    var s1, u := s.(commit := c), NO_EFFECT.(committed := EntriesBetween(s, s.commit + 1, c + 1));
    CommitTransition(s, c, u);
    CommittedInv(s, c, u);
    if FinalDue(s1) {
      FinalKeeps(s1);
      var (s2, e) := AppendFinal(s1).value;
      Chain(s, s1, u, s2, NO_EFFECT.(entries := [e]));
      assert Merge(u, NO_EFFECT.(entries := [e])) == u.(entries := [e]);
    }
  }

  lemma CommittedInv(s: NodeState, c: nat, u: Update)
    requires Transition(s, s.(commit := c), u)
    ensures Inv(s.(commit := c))
  {
  }

  lemma TransitionInv(s: NodeState, s': NodeState, u: Update)
    requires Transition(s, s', u)
    ensures Inv(s') && (u.snapshot.None? ==> s'.snapshot == s.snapshot)
  {
  }

  /** Messages are not persisted. */
  lemma MoreMessages(s: NodeState, s': NodeState, u: Update, messages: seq<Message>)
    requires Transition(s, s', u) && (FinalFits(s.snapshot.membership) ==> AllMessagesFit(messages))
    ensures Transition(s, s', u.(messages := messages))
  {
  }

  lemma CommitToKeeps(s: NodeState, c: nat)
    requires Inv(s) && s.role == Leader && s.commit < c <= LastIndex(s)
    ensures FinalDue(s.(commit := c)) ==> AppendFinal(s.(commit := c)).Some?
    ensures var (s', u) := CommitTo(s, c);
      Transition(s, s', u) && KeepsRole(s, s', u) && u.snapshot.None? && u.truncateFrom == 0
  {
    hide Transition, Inv, AfterCommit, AppendedByCommit, StepDownIfRemoved, EntriesBetween, BroadcastAppend;
    hide FinalDue, AppendFinal, AllMessagesFit;
    AfterCommitKeeps(s, c);
    var s2 := AfterCommit(s, c);
    var u := NO_EFFECT.(committed := EntriesBetween(s, s.commit + 1, c + 1), entries := AppendedByCommit(s, c));
    TransitionInv(s, s2, u);
    BroadcastKeeps(s2, false);
    var (s3, messages) := BroadcastAppend(s2, false);
    MoreMessages(s, s2, u, messages);
    StepDownKeeps(s3);
    var (s4, o) := StepDownIfRemoved(s3);
    RoleHasTerm(s3);
    Through(s2, s3, s4, o);
    Chain(s, s2, u.(messages := messages), s4, o);
  }

  /** Sending appends changes nothing a transition speaks of. */
  lemma BroadcastKeeps(s: NodeState, proposal: bool)
    requires Inv(s)
    ensures var (s', messages) := BroadcastAppend(s, proposal);
      SameButProgress(s, s') && Inv(s') && (FinalFits(s.snapshot.membership) ==> AllMessagesFit(messages))
  {
    SendAppendsSame(s, ReplicationPeers(s), 0, proposal);
    SendAppendsFit(s, ReplicationPeers(s), 0, proposal);
  }

  /** A change of role, votes, timers or progress before a transition. */
  lemma Through(s: NodeState, s1: NodeState, s2: NodeState, u: Update)
    requires Inv(s) && SameLog(s, s1) && HardStateOf(s1) == HardStateOf(s)
    requires s1.role == Leader || s1.role == Candidate ==> s1.term > 0
    requires Transition(s1, s2, u)
    ensures Transition(s, s2, u)
  {
    hide Inv, Transition, Persisted;
    HardTransition(s, s1, NO_EFFECT);
    TransitionInv(s, s1, NO_EFFECT);
    Chain(s, s1, NO_EFFECT, s2, u);
    assert Merge(NO_EFFECT, u) == u;
  }

  lemma RoleHasTerm(s: NodeState)
    requires Inv(s)
    ensures s.role == Leader || s.role == Candidate ==> s.term > 0
  {
  }

  lemma MaybeCommitKeeps(s: NodeState)
    requires Inv(s) && s.role == Leader
    ensures !PanicsOnFinal(s)
    ensures var (s', u) := MaybeCommit(s);
      Transition(s, s', u) && KeepsRole(s, s', u) && u.snapshot.None? && u.truncateFrom == 0
  {
    hide Transition, CommitTo;
    var c := CommitCandidate(s, LastIndex(s));
    if c > s.commit { CommitToKeeps(s, c); } else { HardTransition(s, s, NO_EFFECT); }
  }

  /** Sending and committing after `first` appended what s has beyond s0. */
  lemma PublishKeeps(s0: NodeState, s: NodeState, first: Update, proposal: bool)
    requires Inv(s0) && s.role == Leader && Transition(s0, s, first) && first.snapshot.None?
    ensures var (s', u) := Publish(s, first, proposal); Transition(s0, s', u) && u.snapshot.None?
    ensures var (s', u) := Publish(s, first, proposal);
      if s'.role == Leader then s'.term == s.term else u.roleChanged
  {
    hide Transition, Inv, MaybeCommit, BroadcastAppend, AllMessagesFit;
    TransitionInv(s0, s, first);
    BroadcastKeeps(s, proposal);
    var (s1, messages) := BroadcastAppend(s, proposal);
    MaybeCommitKeeps(s1);
    var (s2, o) := MaybeCommit(s1);
    RoleHasTerm(s1);
    Through(s, s1, s2, o);
    MoreMessages(s0, s, first, messages);
    Chain(s0, s, first.(messages := messages), s2, o);
  }
}
