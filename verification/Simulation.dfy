/** How a node's state and messages stand for the protocol's. */
module Simulation {
  import opened RaftTypes
  import opened Voters
  import opened Protocol
  import opened ProtocolLogs
  import opened ProtocolFrame
  import opened ProtocolReplication
  import opened ProtocolSafety
  import opened RaftCore

  /** The node's term, vote, commit index, retained log, snapshot and membership cache are those
      of its protocol peer, whose log is the node's with the compacted prefix put back. */
  ghost predicate CoreRel(g: Proto, s: NodeState) {
    && s.cfg.id in g.peers && s.initial == g.start
    && var p := g.peers[s.cfg.id];
    && p.term == s.term && p.vote == s.votedFor && p.commit == s.commit
    && |p.log| == LastIndex(s) && p.log[s.snapshot.index..] == s.log
    && s.snapshot.index <= s.commit <= LastIndex(s) && s.snapshot.data == p.log[..s.snapshot.index]
    && (s.snapshot.index == 0 ==> s.snapshot.term == 0)
    && (s.snapshot.index > 0 ==>
          && p.log[s.snapshot.index - 1].term == s.snapshot.term
          && Fold(g.start, p.log[..s.snapshot.index]) == Some(s.snapshot.membership))
    && Fold(g.start, p.log) == Some(s.membership)
  }

  /** The node acts with a leader's authority in its term: its log is the reign's, its match
      indexes are acknowledged, and it knows of every commit of its own term. */
  ghost predicate LeaderRel(g: Proto, s: NodeState) {
    && Leads(g, s.cfg.id) && g.peers[s.cfg.id].term == s.term
    && (forall id :: id in s.progress.matchIndex ==> s.progress.matchIndex[id] <= AckOf(g, s.term, id))
    && (forall id :: id in s.progress.nextIndex ==> s.progress.nextIndex[id] <= LastIndex(s) + 1)
    && (forall j :: 0 <= j < |g.commits| && g.commits[j].term == s.term ==> g.commits[j].index <= s.commit)
  }

  /** The node stands in its term with its present log and counts only votes cast for it. */
  ghost predicate CandidateRel(g: Proto, s: NodeState) {
    && var n := s.cfg.id;
    && n in g.peers
    && (s.term, n) in g.candidacies && g.candidacies[(s.term, n)] == g.peers[n].log
    && (forall v :: v in s.votes && s.votes[v] ==> (s.term, v) in g.ballots && g.ballots[(s.term, v)].candidate == n)
    && (s.term in g.reigns ==> g.reigns[s.term].leader != n)
  }

  ghost predicate Rel(g: Proto, s: NodeState) {
    && CoreRel(g, s)
    && (s.role == Leader ==> LeaderRel(g, s))
    && (s.role == Candidate ==> CandidateRel(g, s))
  }

  function TermOf(x: Log, i: nat): nat
    requires i <= |x|
  {
    if i == 0 then 0 else x[i - 1].term
  }

  ghost predicate SnapshotOK(g: Proto, from: nat, t: nat, snap: Snapshot) {
    && t in g.reigns && g.reigns[t].leader == from
    && var x := g.reigns[t].log;
    && 1 <= snap.index <= |x| && x[snap.index - 1].term == snap.term && snap.data == x[..snap.index]
    && Fold(g.start, x[..snap.index]) == Some(snap.membership)
    && Known(g, x, snap.index, t)
  }

  ghost predicate AppendOK(g: Proto, m: Message)
    requires m.Append?
  {
    && m.term in g.reigns && g.reigns[m.term].leader == m.from
    && var x := g.reigns[m.term].log;
    && m.logIndex + |m.entries| <= |x|
    && m.entries == x[m.logIndex..m.logIndex + |m.entries|]
    && m.logTerm == TermOf(x, m.logIndex)
    && Known(g, x, m.leaderCommit, m.term)
    && (m.context != 0 ==> (m.from, m.term, m.context) in g.probes)
  }

  /** What a message in the network proves about the protocol's history. */
  ghost predicate MessageOK(g: Proto, m: Message) {
    match m
    case PreVote(_, _, _, _, _) => true
    case PreVoteResponse(_, _, _, _) => true
    case Vote(from, _, t, logIndex, logTerm) =>
      && (t, from) in g.candidacies
      && logIndex == |g.candidacies[(t, from)]| && logTerm == LastTerm(g.candidacies[(t, from)])
    case VoteResponse(from, to, t, reject) =>
      !reject ==> (t, from) in g.ballots && g.ballots[(t, from)].candidate == to
    case Append(_, _, _, _, _, _, _, _) => AppendOK(g, m)
    case AppendResponse(from, to, t, logIndex, reject, _, context) =>
      if reject then context == 0
      else logIndex <= AckOf(g, t, from) && (context != 0 ==> Answered(g, to, t, context, from))
    case InstallSnapshot(from, _, t, snapshot) => snapshot.Some? && SnapshotOK(g, from, t, snapshot.value)
    case SnapshotResponse(from, _, t, logIndex, reject, _) => !reject ==> logIndex <= AckOf(g, t, from)
  }

  ghost predicate MessagesOK(g: Proto, ms: seq<Message>) { forall m :: m in ms ==> MessageOK(g, m) }

  ghost predicate EffectsOK(g: Proto, u: Update) {
    MessagesOK(g, u.messages) && forall e :: e in u.committed ==> Decided(g, e)
  }

  // ---- what an extension keeps -----------------------------------------

  lemma SnapshotKept(g: Proto, g': Proto, from: nat, t: nat, snap: Snapshot)
    requires Extends(g, g') && SnapshotOK(g, from, t, snap)
    ensures SnapshotOK(g', from, t, snap)
  {
    var x, x' := g.reigns[t].log, g'.reigns[t].log;
    assert x'[..snap.index] == x[..snap.index];
    SameAt(x, x', snap.index - 1);
    KnownKept(g, g', x, snap.index, t, t);
    KnownSame(g', x, x', snap.index, t);
  }

  lemma AppendKept(g: Proto, g': Proto, m: Message)
    requires Extends(g, g') && m.Append? && AppendOK(g, m)
    ensures AppendOK(g', m)
  {
    var x, x' := g.reigns[m.term].log, g'.reigns[m.term].log;
    assert x'[m.logIndex..m.logIndex + |m.entries|] == x[m.logIndex..m.logIndex + |m.entries|];
    if m.logIndex > 0 { SameAt(x, x', m.logIndex - 1); }
    KnownKept(g, g', x, m.leaderCommit, m.term, m.term);
    assert x[..m.leaderCommit] == x'[..m.leaderCommit];
    KnownSame(g', x, x', m.leaderCommit, m.term);
  }

  lemma AckGrows(g: Proto, g': Proto, t: nat, v: nat)
    requires Extends(g, g')
    ensures AckOf(g, t, v) <= AckOf(g', t, v)
  {
  }

  lemma MessageKept(g: Proto, g': Proto, m: Message)
    requires Extends(g, g') && MessageOK(g, m)
    ensures MessageOK(g', m)
  {
    AckGrows(g, g', m.term, m.from);
    match m
    case Append(_, _, _, _, _, _, _, _) => AppendKept(g, g', m);
    case InstallSnapshot(from, _, t, snapshot) => SnapshotKept(g, g', from, t, snapshot.value);
    case _ =>
  }

  lemma EffectsKept(g: Proto, g': Proto, u: Update)
    requires Extends(g, g') && EffectsOK(g, u)
    ensures EffectsOK(g', u)
  {
    forall m | m in u.messages ensures MessageOK(g', m) { MessageKept(g, g', m); }
    forall e | e in u.committed ensures Decided(g', e) { DecidedKept(g, g', e); }
  }

  lemma EffectsMerge(g: Proto, u: Update, o: Update)
    requires EffectsOK(g, u) && EffectsOK(g, o)
    ensures EffectsOK(g, Merge(u, o))
  {
  }

  /** A node other than the one that acted keeps its relation. */
  lemma RelKept(g: Proto, g': Proto, n: nat, s: NodeState)
    requires Extends(g, g') && ActedOnly(g, g', n) && Safe(g') && Rel(g, s) && s.cfg.id != n
    ensures Rel(g', s)
  {
    var id := s.cfg.id;
    assert g'.peers[id] == g.peers[id];
    if s.role == Leader {
      forall v | v in s.progress.matchIndex ensures s.progress.matchIndex[v] <= AckOf(g', s.term, v) {
        AckGrows(g, g', s.term, v);
      }
      forall j | 0 <= j < |g'.commits| && g'.commits[j].term == s.term ensures g'.commits[j].index <= s.commit {
        if j < |g.commits| { assert g'.commits[j] == g.commits[j]; }
      }
    }
  }

  // ---- reading the log -------------------------------------------------

  lemma TermAtRel(g: Proto, s: NodeState, i: nat)
    requires Safe(g) && CoreRel(g, s)
    ensures var x := g.peers[s.cfg.id].log;
      && (TermAt(s, i) != 0 ==> 1 <= i <= |x| && x[i - 1].term == TermAt(s, i))
      && (s.snapshot.index <= i <= LastIndex(s) ==> TermAt(s, i) == TermOf(x, i))
      && (s.snapshot.index <= i <= LastIndex(s) && i > 0 ==> TermAt(s, i) >= 1)
  {
    var x := g.peers[s.cfg.id].log;
    assert PeerOK(g, s.cfg.id);
    if s.snapshot.index < i <= LastIndex(s) {
      assert s.log[i - s.snapshot.index - 1] == x[i - 1];
    }
    if s.snapshot.index <= i <= LastIndex(s) && i > 0 { TermsRise(g, x, i - 1, i - 1); }
  }

  lemma LastTermRel(g: Proto, s: NodeState)
    requires Safe(g) && CoreRel(g, s)
    ensures TermAt(s, LastIndex(s)) == LastTerm(g.peers[s.cfg.id].log)
  {
    TermAtRel(g, s, LastIndex(s));
  }

  lemma EntriesRel(g: Proto, s: NodeState, from: nat, to: nat)
    requires CoreRel(g, s) && s.snapshot.index < from <= to <= LastIndex(s) + 1
    ensures EntriesBetween(s, from, to) == g.peers[s.cfg.id].log[from - 1..to - 1]
  {
    var x := g.peers[s.cfg.id].log;
    if from < to {
      assert s.log[from - s.snapshot.index - 1..to - s.snapshot.index - 1] == x[from - 1..to - 1];
    }
  }

  /** The cached membership's base is the fold of the compacted prefix. */
  lemma BaseRel(g: Proto, s: NodeState)
    requires Safe(g) && CoreRel(g, s)
    ensures Fold(g.start, g.peers[s.cfg.id].log[..s.snapshot.index]) == Some(Base(s))
  {
    var x := g.peers[s.cfg.id].log;
    if s.snapshot.index > 0 {
      FoldWellFormed(g.start, x[..s.snapshot.index]);
    }
  }

  /** Replaying retained entries over the base is folding the full log. */
  lemma RebuildRel(g: Proto, s: NodeState, y: Log)
    requires Safe(g) && CoreRel(g, s)
    ensures Fold(Base(s), y) == Fold(g.start, g.peers[s.cfg.id].log[..s.snapshot.index] + y)
  {
    BaseRel(g, s);
    FoldConcat(g.start, g.peers[s.cfg.id].log[..s.snapshot.index], y);
  }

  lemma MembershipWellFormed(g: Proto, s: NodeState)
    requires Safe(g) && CoreRel(g, s)
    ensures WellFormed(s.membership)
  {
    FoldWellFormed(g.start, g.peers[s.cfg.id].log);
  }

  /** Appending an entry that folds onto the cached membership rebuilds to what it folds to. */
  lemma AppendFolds(g: Proto, s: NodeState, e: Entry, m: Membership)
    requires Safe(g) && CoreRel(g, s) && FoldEntry(s.membership, e) == Some(m)
    ensures Rebuilt(s.(log := s.log + [e])) == Some(m)
  {
    hide Safe, FoldEntry;
    var x := g.peers[s.cfg.id].log;
    RebuildRel(g, s, s.log + [e]);
    assert x[..s.snapshot.index] + (s.log + [e]) == x + [e];
    assert (x + [e])[..|x|] == x;
    assert Base(s.(log := s.log + [e])) == Base(s);
  }

  lemma MembershipAtRel(g: Proto, s: NodeState, index: nat)
    requires Safe(g) && CoreRel(g, s) && s.snapshot.index <= index <= LastIndex(s)
    ensures MembershipAt(s, index) == Fold(g.start, g.peers[s.cfg.id].log[..index])
  {
    hide Safe, Fold, Base;
    var x, b := g.peers[s.cfg.id].log, s.snapshot.index;
    RetainedNumbered(g, s);
    LeadingCount(s.log, b, index);
    RebuildRel(g, s, s.log[..index - b]);
    assert x[..b] + s.log[..index - b] == x[..index];
  }

  lemma RetainedNumbered(g: Proto, s: NodeState)
    requires Safe(g) && CoreRel(g, s)
    ensures forall k :: 0 <= k < |s.log| ==> s.log[k].index == s.snapshot.index + k + 1
  {
    var x, b := g.peers[s.cfg.id].log, s.snapshot.index;
    assert PeerOK(g, s.cfg.id);
    GroundedNumbered(g, x);
    forall k | 0 <= k < |s.log| ensures s.log[k].index == b + k + 1 { assert s.log[k] == x[b + k]; }
  }
}
