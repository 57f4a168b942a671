/** The consensus core as functions from a state and an input to a new state and its effects.

    These functions are the specification of the Node class and the steps of the cluster.
    Indexes and terms are unbounded; timers, random draws and sizes are the code's own. */
module RaftCore {
  import opened RaftTypes
  import opened Voters

  datatype RawConfig = RaftConfig(
    id: nat,
    peers: seq<nat>,
    electionTickMin: nat,
    electionTickMax: nat,
    heartbeatTicks: nat,
    checkQuorumTicks: nat,
    randomSeed: nat,
    appliedIndex: nat,
    maxAppendBytes: nat,
    inflightResendTicks: nat)
  {
    predicate Accepted() {
      && id != 0
      && 0 < electionTickMin < electionTickMax
      && 0 < heartbeatTicks < electionTickMin
      && 0 < checkQuorumTicks <= electionTickMin
    }
  }

  /** Configurations whose timing passes validation; the peer list is validated on start. */
  type Config = c: RawConfig | c.Accepted() witness RaftConfig(1, [1], 2, 3, 1, 1, 0, 0, 0, 0)

  datatype Timers = Timers(
    electionElapsed: nat,
    electionTimeout: nat,
    heartbeatElapsed: nat,
    quorumElapsed: nat,
    random: nat)

  /** A leader's view of its peers. */
  datatype Progress = Progress(
    nextIndex: map<nat, nat>,
    matchIndex: map<nat, nat>,
    recentActive: map<nat, bool>,
    outstanding: map<nat, nat>,
    outstandingAge: map<nat, nat>)

  const NO_PROGRESS := Progress(map[], map[], map[], map[], map[])

  datatype NodeState = NodeState(
    cfg: Config,
    initial: Membership,
    role: Role,
    term: nat,
    votedFor: nat,
    leaderID: nat,
    snapshot: Snapshot,
    log: seq<Entry>,
    commit: nat,
    membership: Membership,
    votes: map<nat, bool>,
    timers: Timers,
    progress: Progress,
    malformedAppendsDropped: nat,
    votesIgnoredInLease: nat)

  const TWO_TO_THE_64: nat := 0x1_0000_0000_0000_0000

  // ---- reading the log -------------------------------------------------

  function LastIndex(s: NodeState): nat { s.snapshot.index + |s.log| }

  function TermAt(s: NodeState, index: nat): nat {
    if index == 0 then 0
    else if index == s.snapshot.index then s.snapshot.term
    else if index <= s.snapshot.index || index > LastIndex(s) then 0
    else s.log[index - s.snapshot.index - 1].term
  }

  /** Entries from..to-1, clipped to the log; nothing when `from` is outside it. */
  function EntriesBetween(s: NodeState, from: nat, to: nat): seq<Entry> {
    if from >= to || from <= s.snapshot.index || from > LastIndex(s) then []
    else s.log[from - s.snapshot.index - 1 .. Min(to, LastIndex(s) + 1) - s.snapshot.index - 1]
  }

  predicate IsUpToDate(s: NodeState, index: nat, term: nat) {
    var localTerm := TermAt(s, LastIndex(s));
    term > localTerm || (term == localTerm && index >= LastIndex(s))
  }

  function HardStateOf(s: NodeState): HardState { HardState(s.term, s.votedFor) }

  // ---- membership ------------------------------------------------------

  function Base(s: NodeState): Membership {
    if s.snapshot.index > 0 && s.snapshot.membership.voters != [] then s.snapshot.membership else s.initial
  }

  function Rebuilt(s: NodeState): Option<Membership> { Fold(Base(s), s.log) }

  /** How many leading entries have an index of at most `index`. */
  function LeadingThrough(log: seq<Entry>, index: nat): (n: nat)
    ensures n <= |log|
  {
    if log == [] || log[0].index > index then 0 else 1 + LeadingThrough(log[1..], index)
  }

  lemma {:induction false} LeadingCount(log: seq<Entry>, base: nat, index: nat)
    requires forall k :: 0 <= k < |log| ==> log[k].index == base + k + 1
    ensures LeadingThrough(log, index) == (if index <= base then 0 else Min(index - base, |log|))
  {
    if log != [] {
      forall k | 0 <= k < |log[1..]| ensures log[1..][k].index == base + 1 + k + 1 { assert log[1..][k] == log[k + 1]; }
      LeadingCount(log[1..], base + 1, index);
    }
  }

  function MembershipAt(s: NodeState, index: nat): Option<Membership> {
    Fold(Base(s), s.log[..LeadingThrough(s.log, index)])
  }

  function Peers(s: NodeState): seq<nat> { UnionVoters(s.membership) }

  predicate IsVoter(s: NodeState, id: nat) { id in Peers(s) }

  function ReplicationPeers(s: NodeState): seq<nat> {
    if s.membership.joint == [] && s.membership.index > s.commit then
      var prior := MembershipAt(s, s.membership.index - 1);
      if prior.Some? && prior.value.joint != [] then UnionVoters(prior.value) else Peers(s)
    else Peers(s)
  }

  // ---- timers and roles ------------------------------------------------

  function ResetElectionTimer(cfg: Config, t: Timers): Timers {
    var random := (t.random * 6364136223846793005 + 1442695040888963407) % TWO_TO_THE_64;
    t.(electionElapsed := 0, random := random,
       electionTimeout := cfg.electionTickMin + random % (cfg.electionTickMax - cfg.electionTickMin))
  }

  function BecomeFollower(s: NodeState, term: nat, leader: nat): (NodeState, Update) {
    var hardChanged := term != s.term;
    var s' := s.(term := Max(term, s.term), votedFor := if term > s.term then 0 else s.votedFor,
                 role := Follower, leaderID := leader, votes := map[],
                 timers := ResetElectionTimer(s.cfg, s.timers));
    (s', NO_EFFECT.(roleChanged := s.role != Follower || s.term != term,
                    hardState := if hardChanged then Some(HardStateOf(s')) else None))
  }

  predicate InLease(s: NodeState) {
    s.role == Leader || (s.leaderID != 0 && s.timers.electionElapsed < s.cfg.electionTickMin)
  }

  /** One vote request to every other voter. */
  function VoteRequests(s: NodeState, peers: seq<nat>, pre: bool): seq<Message> {
    if peers == [] then []
    else
      var rest := VoteRequests(s, peers[..|peers| - 1], pre);
      var peer := peers[|peers| - 1];
      var last := LastIndex(s);
      if peer == s.cfg.id then rest
      else if pre then rest + [PreVote(s.cfg.id, peer, s.term + 1, last, TermAt(s, last))]
      else rest + [Vote(s.cfg.id, peer, s.term, last, TermAt(s, last))]
  }

  function StartPreVote(s: NodeState): (NodeState, Update) {
    var s' := s.(role := PreCandidate, leaderID := 0, votes := map[s.cfg.id := true],
                 timers := ResetElectionTimer(s.cfg, s.timers));
    if HasQuorum(s'.membership, {s.cfg.id}) then StartElection(s')
    else (s', NO_EFFECT.(roleChanged := s.role != PreCandidate, messages := VoteRequests(s', Peers(s'), true)))
  }

  /** Standing in the next term with a vote for itself. */
  function Campaigning(s: NodeState): NodeState {
    s.(role := Candidate, term := s.term + 1, votedFor := s.cfg.id, leaderID := 0,
       votes := map[s.cfg.id := true], timers := ResetElectionTimer(s.cfg, s.timers))
  }

  function StartElection(s: NodeState): (NodeState, Update) {
    var s' := Campaigning(s);
    var update := NO_EFFECT.(hardState := Some(HardStateOf(s')), roleChanged := true);
    if HasQuorum(s'.membership, {s.cfg.id}) then
      var (s'', u) := BecomeLeader(s');
      (s'', Merge(update, u))
    else (s', update.(messages := VoteRequests(s', Peers(s'), false)))
  }

  /** A leader's progress table as its reign starts, its no-op at index last + 1. */
  function FreshProgress(s: NodeState, last: nat): Progress {
    Progress((map p | p in Peers(s) :: last + 1)[s.cfg.id := last + 2], map[s.cfg.id := last + 1], map[], map[], map[])
  }

  function NoopEntry(s: NodeState): Entry { Entry(LastIndex(s) + 1, s.term, NOOP) }

  /** A new leader with its no-op appended, before anything is sent. */
  function Crowned(s: NodeState): NodeState {
    s.(role := Leader, leaderID := s.cfg.id,
       timers := s.timers.(heartbeatElapsed := 0, quorumElapsed := 0),
       progress := FreshProgress(s, LastIndex(s)),
       log := s.log + [NoopEntry(s)])
  }

  function BecomeLeader(s: NodeState): (NodeState, Update) {
    Publish(Crowned(s), NO_EFFECT.(entries := [NoopEntry(s)], roleChanged := true), false)
  }

  /** Sends what was just appended and commits what that allows. */
  function Publish(s: NodeState, first: Update, proposal: bool): (NodeState, Update) {
    var (s1, messages) := BroadcastAppend(s, proposal);
    var (s2, u) := MaybeCommit(s1);
    (s2, Merge(first.(messages := messages), u))
  }

  // ---- sending appends -------------------------------------------------

  function AppendLimit(cfg: Config): nat {
    if cfg.maxAppendBytes == 0 then DEFAULT_MAX_APPEND_BYTES else cfg.maxAppendBytes
  }

  function AccountedBytes(e: Entry): nat { DataBytes(e.payload) + ENTRY_OVERHEAD_BYTES }

  /** How many of `entries` fit `limit` after `size` bytes; the first of a chunk always does. */
  function FittingCount(entries: seq<Entry>, size: nat, limit: nat, first: bool): (n: nat)
    ensures n <= |entries|
    ensures first && entries != [] ==> n > 0
  {
    if entries == [] then 0
    else if !first && size + AccountedBytes(entries[0]) > limit then 0
    else 1 + FittingCount(entries[1..], size + AccountedBytes(entries[0]), limit, false)
  }

  function CappedEntries(s: NodeState, from: nat): seq<Entry> {
    if from <= s.snapshot.index || from > LastIndex(s) then []
    else
      var rest := s.log[from - s.snapshot.index - 1..];
      rest[..FittingCount(rest, 0, AppendLimit(s.cfg), true)]
  }

  /** The next append (or snapshot) to peer, and the outstanding-append bookkeeping. */
  function AppendMessage(s: NodeState, peer: nat, context: nat): (NodeState, Message) {
    var set_ := Get(s.progress.nextIndex, peer);
    var next := if set_ == 0 then LastIndex(s) + 1 else set_;
    if next <= s.snapshot.index then (s, InstallSnapshot(s.cfg.id, peer, s.term, Some(s.snapshot)))
    else
      var entries := if Get(s.progress.outstanding, peer) != 0 then [] else CappedEntries(s, next);
      var message := Append(s.cfg.id, peer, s.term, next - 1, TermAt(s, next - 1), entries, s.commit, context);
      if entries == [] then (s, message)
      else
        (s.(progress := s.progress.(
              outstanding := s.progress.outstanding[peer := entries[|entries| - 1].index],
              outstandingAge := s.progress.outstandingAge[peer := 0])),
         message)
  }

  /** Appends to each listed peer but this node, in order. A proposal's broadcast skips peers
      that have an append outstanding. */
  function SendAppends(s: NodeState, peers: seq<nat>, context: nat, proposal: bool): (NodeState, seq<Message>) {
    if peers == [] then (s, [])
    else
      var (s1, sent) := SendAppends(s, peers[..|peers| - 1], context, proposal);
      var peer := peers[|peers| - 1];
      if peer == s.cfg.id || (proposal && Get(s1.progress.outstanding, peer) != 0) then (s1, sent)
      else
        var (s2, message) := AppendMessage(s1, peer, context);
        (s2, sent + [message])
  }

  function BroadcastAppend(s: NodeState, proposal: bool): (NodeState, seq<Message>) {
    SendAppends(s, ReplicationPeers(s), 0, proposal)
  }

  function SettleOutstanding(p: Progress, peer: nat): Progress {
    if Get(p.outstanding, peer) != 0 && Get(p.matchIndex, peer) >= Get(p.outstanding, peer)
    then p.(outstanding := p.outstanding[peer := 0]) else p
  }

  function ResendLimit(cfg: Config): nat {
    if cfg.inflightResendTicks == 0 then DEFAULT_INFLIGHT_RESEND_TICKS else cfg.inflightResendTicks
  }

  /** Ages each peer's outstanding append by a tick; returns the peers whose append expired. */
  function ExpireOutstanding(p: Progress, peers: seq<nat>, limit: nat): (Progress, seq<nat>) {
    if peers == [] then (p, [])
    else
      var (p1, expired) := ExpireOutstanding(p, peers[..|peers| - 1], limit);
      var peer := peers[|peers| - 1];
      if Get(p1.outstanding, peer) == 0 then (p1, expired)
      else
        var age := Get(p1.outstandingAge, peer) + 1;
        var p2 := p1.(outstandingAge := p1.outstandingAge[peer := age]);
        if age >= limit then (p2.(outstanding := p2.outstanding[peer := 0]), expired + [peer]) else (p2, expired)
  }

  // ---- committing ------------------------------------------------------

  /** The peers known to match this log through `index`. */
  function Matching(p: Progress, index: nat): set<nat> { set id | id in p.matchIndex && p.matchIndex[id] >= index }

  predicate Committable(s: NodeState, index: nat) {
    TermAt(s, index) == s.term && HasQuorum(s.membership, Matching(s.progress, index))
  }

  /** The highest committable index in (commit, from], or commit. */
  function CommitCandidate(s: NodeState, from: nat): (c: nat)
    ensures s.commit <= from ==> s.commit <= c <= from
    ensures c > s.commit ==> Committable(s, c)
    ensures forall i :: c < i <= from && s.commit < i ==> !Committable(s, i)
  {
    if from <= s.commit then s.commit
    else if Committable(s, from) then from
    else CommitCandidate(s, from - 1)
  }

  /** Appends C_new once the joint configuration is committed. */
  function AppendFinal(s: NodeState): Option<(NodeState, Entry)> {
    var final := Entry(LastIndex(s) + 1, s.term, RaftTypes.Config(Final(s.membership.joint)));
    var s1 := s.(log := s.log + [final]);
    match Rebuilt(s1)
    case None => None
    case Some(m) =>
      Some((s1.(membership := m,
                progress := s1.progress.(matchIndex := s1.progress.matchIndex[s.cfg.id := final.index],
                                         nextIndex := s1.progress.nextIndex[s.cfg.id := final.index + 1])),
            final))
  }

  /** The joint configuration is committed and waits for C_new. */
  predicate FinalDue(s: NodeState) { s.membership.joint != [] && s.membership.index <= s.commit }

  /** The state after committing c: C_new is appended when due. */
  function AfterCommit(s: NodeState, c: nat): NodeState {
    var s1 := s.(commit := c);
    if FinalDue(s1) && AppendFinal(s1).Some? then AppendFinal(s1).value.0 else s1
  }

  function AppendedByCommit(s: NodeState, c: nat): seq<Entry> {
    var s1 := s.(commit := c);
    if FinalDue(s1) && AppendFinal(s1).Some? then [AppendFinal(s1).value.1] else []
  }

  /** A leader that is no longer a voter of a committed configuration steps down. */
  function StepDownIfRemoved(s: NodeState): (NodeState, Update) {
    if s.membership.index <= s.commit && !IsVoter(s, s.cfg.id) then BecomeFollower(s, s.term, 0) else (s, NO_EFFECT)
  }

  function CommitTo(s: NodeState, c: nat): (NodeState, Update) {
    var s2 := AfterCommit(s, c);
    var (s3, messages) := BroadcastAppend(s2, false);
    var (s4, u) := StepDownIfRemoved(s3);
    (s4, Merge(NO_EFFECT.(committed := EntriesBetween(s, s.commit + 1, c + 1), messages := messages,
                          entries := AppendedByCommit(s, c)), u))
  }

  function MaybeCommit(s: NodeState): (NodeState, Update) {
    var c := CommitCandidate(s, LastIndex(s));
    if c <= s.commit then (s, NO_EFFECT) else CommitTo(s, c)
  }

  /** The code panics when the C_new it appends does not fold; this says when. */
  predicate PanicsOnFinal(s: NodeState) {
    var c := CommitCandidate(s, LastIndex(s));
    c > s.commit && FinalDue(s.(commit := c)) && AppendFinal(s.(commit := c)).None?
  }

  // ---- elections -------------------------------------------------------

  function HandlePreVote(s: NodeState, m: Message): Message
    requires m.PreVote?
  {
    var leaderIsRecent := s.leaderID != 0 && s.timers.electionElapsed < s.timers.electionTimeout;
    var grant := IsVoter(s, s.cfg.id) && m.term >= s.term + 1 && !leaderIsRecent &&
      IsUpToDate(s, m.logIndex, m.logTerm);
    PreVoteResponse(s.cfg.id, m.from, if grant then m.term else s.term, !grant)
  }

  function Granted(votes: map<nat, bool>): set<nat> { set id | id in votes && votes[id] }
  function Refused(votes: map<nat, bool>): set<nat> { set id | id in votes && !votes[id] }

  function HandlePreVoteResponse(s: NodeState, m: Message): (NodeState, Update)
    requires m.PreVoteResponse?
  {
    if m.reject && m.term > s.term then BecomeFollower(s, m.term, 0)
    else
      var granted := !m.reject && m.term == s.term + 1;
      var rejected := m.reject && m.term <= s.term;
      if s.role != PreCandidate || (!granted && !rejected) then (s, NO_EFFECT)
      else
        var s' := s.(votes := s.votes[m.from := granted]);
        if HasQuorum(s'.membership, Granted(s'.votes)) then StartElection(s')
        else if VoteLost(s'.membership, Refused(s'.votes)) then BecomeFollower(s', s'.term, 0)
        else (s', NO_EFFECT)
  }

  predicate GrantsVote(s: NodeState, m: Message)
    requires m.Vote?
  {
    IsVoter(s, s.cfg.id) && (s.votedFor == 0 || s.votedFor == m.from) && IsUpToDate(s, m.logIndex, m.logTerm)
  }

  function VotedFor(s: NodeState, candidate: nat): NodeState {
    s.(votedFor := candidate, leaderID := 0, timers := ResetElectionTimer(s.cfg, s.timers))
  }

  function HandleVote(s: NodeState, m: Message): (NodeState, Update)
    requires m.Vote?
  {
    if GrantsVote(s, m) then
      var s' := VotedFor(s, m.from);
      (s', NO_EFFECT.(hardState := Some(HardStateOf(s')), messages := [VoteResponse(s.cfg.id, m.from, s.term, false)]))
    else (s, WithMessages([VoteResponse(s.cfg.id, m.from, s.term, true)]))
  }

  function HandleVoteResponse(s: NodeState, m: Message): (NodeState, Update)
    requires m.VoteResponse?
  {
    if s.role != Candidate || m.term != s.term then (s, NO_EFFECT)
    else
      var s' := s.(votes := s.votes[m.from := !m.reject]);
      if HasQuorum(s'.membership, Granted(s'.votes)) then BecomeLeader(s')
      else if VoteLost(s'.membership, Refused(s'.votes)) then BecomeFollower(s', s'.term, 0)
      else (s', NO_EFFECT)
  }

  // ---- receiving appends -----------------------------------------------

  /** Becomes a follower of the sender unless already one, and restarts the election timer. */
  function Follow(s: NodeState, leader: nat): (NodeState, Update) {
    var (s1, u) :=
      if s.role != Follower || s.leaderID != leader then BecomeFollower(s, s.term, leader) else (s, NO_EFFECT);
    (s1.(leaderID := leader, timers := ResetElectionTimer(s1.cfg, s1.timers)), u)
  }

  /** The first index of the run of equal terms that ends at `hint`, above the snapshot. */
  function ConflictStart(s: NodeState, hint: nat, term: nat): (r: nat)
    ensures r <= hint
    ensures s.snapshot.index < hint ==> s.snapshot.index < r
  {
    if hint > s.snapshot.index + 1 && TermAt(s, hint - 1) == term then ConflictStart(s, hint - 1, term) else hint
  }

  function RejectHint(s: NodeState, prev: nat): nat {
    if prev <= LastIndex(s) then ConflictStart(s, prev, TermAt(s, prev)) else LastIndex(s) + 1
  }

  /** How many leading entries the log already has at their index and term. */
  function AlreadyPresent(s: NodeState, entries: seq<Entry>): (n: nat)
    ensures n <= |entries|
    ensures forall i :: 0 <= i < n ==>
      entries[i].index <= LastIndex(s) && TermAt(s, entries[i].index) == entries[i].term
    ensures n < |entries| ==> entries[n].index > LastIndex(s) || TermAt(s, entries[n].index) != entries[n].term
  {
    if entries == [] then 0
    else if entries[0].index <= LastIndex(s) && TermAt(s, entries[0].index) == entries[0].term
    then 1 + AlreadyPresent(s, entries[1..])
    else 0
  }

  /** What accepting the entries does to the log: nothing, refuse at a committed conflict, or
      keep `keep` retained entries and append the rest. */
  datatype Splice = Nothing | CommittedConflict | Splice(keep: nat, truncateFrom: nat, added: seq<Entry>)

  function SpliceOf(s: NodeState, entries: seq<Entry>): (r: Splice)
    requires s.snapshot.index <= s.commit
    ensures r.Splice? ==> r.keep <= |s.log|
  {
    var n := AlreadyPresent(s, entries);
    if n == |entries| then Nothing
    else
      var e := entries[n];
      if e.index > LastIndex(s) then Splice(|s.log|, 0, entries[n..])
      else if e.index <= s.commit then CommittedConflict
      else Splice(e.index - s.snapshot.index - 1, e.index, entries[n..])
  }

  predicate AnyConfig(entries: seq<Entry>) { exists e :: e in entries && IsConfig(e.payload) }

  function RejectAppend(s: NodeState, to: nat, hint: nat): Message {
    AppendResponse(s.cfg.id, to, s.term, 0, true, hint, 0)
  }

  /** The last index an append proves to a follower whose log is s's. */
  function LastNew(s: NodeState, m: Message): nat
    requires m.Append?
  {
    Min(m.logIndex + |m.entries|, LastIndex(s))
  }

  /** After the log is in place: learn the commit index and acknowledge. */
  function AcknowledgeAppend(s: NodeState, m: Message, u: Update): (NodeState, Update)
    requires m.Append?
  {
    var commit := Max(s.commit, Min(m.leaderCommit, LastNew(s, m)));
    (s.(commit := commit),
     Merge(u, NO_EFFECT.(
       committed := EntriesBetween(s, s.commit + 1, commit + 1),
       messages := [AppendResponse(s.cfg.id, m.from, s.term, LastNew(s, m), false, 0, m.context)])))
  }

  /** The log after a splice. */
  function SplicedLog(s: NodeState, sp: Splice): seq<Entry>
    requires sp.Splice? && sp.keep <= |s.log|
  {
    s.log[..sp.keep] + sp.added
  }

  /** Membership is rebuilt only after a truncation or an appended configuration entry. */
  predicate Rebuilds(sp: Splice)
    requires sp.Splice?
  {
    sp.truncateFrom != 0 || AnyConfig(sp.added)
  }

  /** The state with the splice in place, or None when its membership does not fold. */
  function ApplySplice(s: NodeState, sp: Splice): Option<NodeState>
    requires sp.Splice? && sp.keep <= |s.log|
  {
    var s1 := s.(log := SplicedLog(s, sp));
    if !Rebuilds(sp) then Some(s1)
    else if Rebuilt(s1).Some? then Some(s1.(membership := Rebuilt(s1).value))
    else None
  }

  function SpliceEffects(sp: Splice): Update
    requires sp.Splice?
  {
    NO_EFFECT.(truncateFrom := sp.truncateFrom, entries := sp.added)
  }

  /** The follower's answer once the previous entry matches; `u` holds its effects so far. */
  function TakeEntries(s: NodeState, m: Message, u: Update): (NodeState, Update)
    requires m.Append? && s.snapshot.index <= s.commit
  {
    var sp := SpliceOf(s, m.entries);
    if sp.Nothing? then AcknowledgeAppend(s, m, u)
    else if sp.CommittedConflict? then (s, Merge(u, WithMessages([RejectAppend(s, m.from, s.commit + 1)])))
    else
      var spliced := ApplySplice(s, sp);
      if spliced.None? then (s, Merge(u, WithMessages([RejectAppend(s, m.from, LastIndex(s) + 1)])))
      else AcknowledgeAppend(spliced.value, m, Merge(u, SpliceEffects(sp)))
  }

  function HandleAppend(s0: NodeState, m: Message): (NodeState, Update)
    requires m.Append? && s0.snapshot.index <= s0.commit
  {
    var (s, u) := Follow(s0, m.from);
    if m.logIndex > LastIndex(s) || TermAt(s, m.logIndex) != m.logTerm then
      (s, Merge(u, WithMessages([RejectAppend(s, m.from, RejectHint(s, m.logIndex))])))
    else TakeEntries(s, m, u)
  }

  /** Why the entry at position i cannot have come from a correct leader. */
  function MalformedEntry(m: Message, i: nat): Option<Malformed>
    requires m.Append? && i < |m.entries|
  {
    var e := m.entries[i];
    var previous := if i == 0 then m.logTerm else m.entries[i - 1].term;
    if e.index != m.logIndex + i + 1 then Some(WrongIndex(i))
    else if e.term == 0 then Some(ZeroTerm(i))
    else if DataBytes(e.payload) > MAX_ENTRY_BYTES then Some(TooLarge(i))
    else if e.term > m.term then Some(TermAboveMessage(i))
    else if e.term < previous then Some(TermBelowPrevious(i))
    else None
  }

  /** The first malformed entry from position i on. */
  function MalformedFrom(m: Message, i: nat): (r: Option<Malformed>)
    requires m.Append? && i <= |m.entries|
    ensures r.None? <==> forall k :: i <= k < |m.entries| ==> MalformedEntry(m, k).None?
    decreases |m.entries| - i
  {
    if i == |m.entries| then None
    else if MalformedEntry(m, i).Some? then MalformedEntry(m, i)
    else MalformedFrom(m, i + 1)
  }

  // ---- snapshots -------------------------------------------------------

  function CompactLog(s: NodeState, snapshot: Snapshot): NodeState {
    var suffix := if snapshot.index < LastIndex(s) && TermAt(s, snapshot.index) == snapshot.term
      then EntriesBetween(s, snapshot.index + 1, LastIndex(s) + 1) else [];
    s.(snapshot := snapshot, log := suffix)
  }

  function RejectSnapshot(s: NodeState, to: nat): Message {
    SnapshotResponse(s.cfg.id, to, s.term, 0, true, LastIndex(s) + 1)
  }

  /** An absent membership stands for the bootstrap voters. */
  function Offered(s: NodeState, given: Snapshot): Snapshot {
    if given.membership.voters == [] then given.(membership := s.initial) else given
  }

  predicate RefusesSnapshot(s: NodeState, snapshot: Snapshot) {
    || !Validated(snapshot.membership) || snapshot.membership.index > snapshot.index
    || (s.snapshot.index < snapshot.index <= s.commit && TermAt(s, snapshot.index) != snapshot.term)
    || (snapshot.index > s.snapshot.index && Rebuilt(CompactLog(s, snapshot)).None?)
  }

  function Installed(s: NodeState, snapshot: Snapshot): NodeState
    requires Rebuilt(CompactLog(s, snapshot)).Some?
  {
    CompactLog(s, snapshot).(membership := Rebuilt(CompactLog(s, snapshot)).value,
                             commit := Max(s.commit, snapshot.index))
  }

  /** Answers a valid snapshot from the followed leader, installing it when it is newer. */
  function AnswerSnapshot(s: NodeState, from: nat, snapshot: Snapshot): (NodeState, Update) {
    if RefusesSnapshot(s, snapshot) then (s, WithMessages([RejectSnapshot(s, from)]))
    else if snapshot.index <= s.snapshot.index then
      (s, WithMessages([SnapshotResponse(s.cfg.id, from, s.term, s.snapshot.index, false, 0)]))
    else
      (Installed(s, snapshot),
       NO_EFFECT.(snapshot := Some(snapshot),
                  messages := [SnapshotResponse(s.cfg.id, from, s.term, snapshot.index, false, 0)]))
  }

  function HandleSnapshot(s0: NodeState, m: Message): (NodeState, Update)
    requires m.InstallSnapshot?
  {
    if m.snapshot.None? || m.snapshot.value.index == 0 || m.snapshot.value.term == 0 then
      (s0, WithMessages([RejectSnapshot(s0, m.from)]))
    else
      var (s, u) := Follow(s0, m.from);
      var (s', u') := AnswerSnapshot(s, m.from, Offered(s, m.snapshot.value));
      (s', Merge(u, u'))
  }

  /** Compact: None when the boundary or its membership is refused. The rebuild that would leave the log
      cut and report an error cannot fail on a valid node (NodeInputs.CompactionFolds). */
  function Compact(s: NodeState, snapshot: Snapshot): Option<(NodeState, Update)> {
    if snapshot.index <= s.snapshot.index then Some((s, NO_EFFECT))
    else if snapshot.index > s.commit || snapshot.term == 0 || TermAt(s, snapshot.index) != snapshot.term then None
    else
      match MembershipAt(s, snapshot.index)
      case None => None
      case Some(expected) =>
        var chosen := if snapshot.membership.voters == [] then snapshot.(membership := expected) else snapshot;
        if chosen.membership.index > chosen.index || chosen.membership != expected then None
        else
          var s1 := CompactLog(s, chosen);
          match Rebuilt(s1)
          case None => None
          case Some(membership) =>
            Some((s1.(membership := membership), NO_EFFECT.(snapshot := Some(chosen))))
  }

  function CreateSnapshot(s: NodeState, index: nat, data: Image): Option<(NodeState, Update)> {
    match MembershipAt(s, index)
    case None => None
    case Some(m) => Compact(s, Snapshot(index, TermAt(s, index), data, m))
  }

  // ---- leader's responses ----------------------------------------------

  function MarkActive(s: NodeState, id: nat): NodeState {
    s.(progress := s.progress.(recentActive := s.progress.recentActive[id := true]))
  }

  /** Records that `id` matches this log through `index`. */
  function Matched(p: Progress, id: nat, index: nat): Progress {
    p.(matchIndex := p.matchIndex[id := index], nextIndex := p.nextIndex[id := index + 1])
  }

  function LowerNext(p: Progress, m: Message): nat
    requires m.AppendResponse?
  {
    var next := Get(p.nextIndex, m.from);
    var lowered := if 0 < m.rejectHint < next then m.rejectHint else if next > 1 then next - 1 else next;
    Max(1, Max(lowered, Get(p.matchIndex, m.from) + 1))
  }

  /** After a rejection: lower the next index and forget the append in flight. */
  function Rejected(s: NodeState, m: Message): NodeState
    requires m.AppendResponse?
  {
    var p := s.progress;
    s.(progress := p.(nextIndex := p.nextIndex[m.from := LowerNext(p, m)], outstanding := p.outstanding[m.from := 0]))
  }

  /** After an acknowledgement of `index`: raise the match index and settle what it covers. */
  function Acknowledged(s: NodeState, id: nat, index: nat): NodeState {
    var matched := Min(index, LastIndex(s));
    var p := if index > Get(s.progress.matchIndex, id) then Matched(s.progress, id, matched) else s.progress;
    s.(progress := SettleOutstanding(p, id))
  }

  /** Sends the next append to `id` after everything in `u`. */
  function FollowUp(s: NodeState, u: Update, id: nat, context: nat): (NodeState, Update) {
    var (s', message) := AppendMessage(s, id, context);
    (s', u.(messages := u.messages + [message]))
  }

  /** Counts an acknowledgement of `index` from `id` and commits what it allows. */
  function CountAck(s: NodeState, id: nat, index: nat): (NodeState, Update) {
    MaybeCommit(Acknowledged(MarkActive(s, id), id, index))
  }

  /** Sends more to `id` after an acknowledgement, when `wanted` and it lacks entries. */
  function SendMore(s: NodeState, u: Update, id: nat, context: nat, wanted: bool): (NodeState, Update) {
    if wanted && Get(s.progress.nextIndex, id) <= LastIndex(s) then FollowUp(s, u, id, context) else (s, u)
  }

  function HandleAppendResponse(s: NodeState, m: Message): (NodeState, Update)
    requires m.AppendResponse?
  {
    if s.role != Leader || m.term != s.term then (s, NO_EFFECT)
    else if m.reject then FollowUp(Rejected(MarkActive(s, m.from), m), NO_EFFECT, m.from, m.context)
    else
      var advanced := Min(m.logIndex, LastIndex(s)) > Get(s.progress.matchIndex, m.from);
      var (s1, u) := CountAck(s, m.from, m.logIndex);
      SendMore(s1, u, m.from, m.context, advanced && Get(s1.progress.outstanding, m.from) == 0)
  }

  /** Forgets the append in flight to `id`. */
  function Idled(s: NodeState, id: nat): NodeState {
    s.(progress := s.progress.(outstanding := s.progress.outstanding[id := 0]))
  }

  function HandleSnapshotResponse(s: NodeState, m: Message): (NodeState, Update)
    requires m.SnapshotResponse?
  {
    if s.role != Leader || m.term != s.term then (s, NO_EFFECT)
    else if m.reject then FollowUp(Idled(MarkActive(s, m.from), m.from), NO_EFFECT, m.from, 0)
    else
      var (s1, u) := CountAck(s, m.from, Min(m.logIndex, LastIndex(s)));
      SendMore(s1, u, m.from, 0, true)
  }

  function RejectStale(s: NodeState, m: Message): Message {
    match m
    case PreVote(_, _, _, _, _) => PreVoteResponse(s.cfg.id, m.from, s.term, true)
    case PreVoteResponse(_, _, _, _) => PreVoteResponse(s.cfg.id, m.from, s.term, true)
    case Vote(_, _, _, _, _) => VoteResponse(s.cfg.id, m.from, s.term, true)
    case VoteResponse(_, _, _, _) => VoteResponse(s.cfg.id, m.from, s.term, true)
    case Append(_, _, _, _, _, _, _, _) => AppendResponse(s.cfg.id, m.from, s.term, 0, true, LastIndex(s) + 1, 0)
    case AppendResponse(_, _, _, _, _, _, _) => AppendResponse(s.cfg.id, m.from, s.term, 0, true, 0, 0)
    case InstallSnapshot(_, _, _, _) => SnapshotResponse(s.cfg.id, m.from, s.term, 0, true, 0)
    case SnapshotResponse(_, _, _, _, _, _) => SnapshotResponse(s.cfg.id, m.from, s.term, 0, true, 0)
  }

  // ---- inputs ----------------------------------------------------------

  /** What every state satisfies: compaction never passes the commit index. */
  predicate Bounded(s: NodeState) { s.snapshot.index <= s.commit }

  function Dispatch(s: NodeState, m: Message): (NodeState, Update)
    requires Bounded(s)
  {
    match m
    case PreVote(_, _, _, _, _) => (s, WithMessages([HandlePreVote(s, m)]))
    case PreVoteResponse(_, _, _, _) => HandlePreVoteResponse(s, m)
    case Vote(_, _, _, _, _) => HandleVote(s, m)
    case VoteResponse(_, _, _, _) => HandleVoteResponse(s, m)
    case Append(_, _, _, _, _, _, _, _) => HandleAppend(s, m)
    case AppendResponse(_, _, _, _, _, _, _) => HandleAppendResponse(s, m)
    case InstallSnapshot(_, _, _, _) => HandleSnapshot(s, m)
    case SnapshotResponse(_, _, _, _, _, _) => HandleSnapshotResponse(s, m)
  }

  /** Messages that are dropped before anything else: not for this node, not from a peer,
      a malformed append, or a vote request at a higher term while in lease. */
  predicate Dropped(s: NodeState, m: Message) {
    || (m.to != 0 && m.to != s.cfg.id)
    || m.from !in ReplicationPeers(s) || m.from == s.cfg.id
    || (m.Append? && MalformedFrom(m, 0).Some?)
    || (m.Vote? && m.term > s.term && InLease(s))
  }

  /** What dropping a message does: at most one counter moves. */
  function Drop(s: NodeState, m: Message): (NodeState, Update) {
    if (m.to != 0 && m.to != s.cfg.id) || m.from !in ReplicationPeers(s) || m.from == s.cfg.id then (s, NO_EFFECT)
    else if m.Append? then
      (s.(malformedAppendsDropped := s.malformedAppendsDropped + 1), NO_EFFECT.(droppedAppend := MalformedFrom(m, 0)))
    else (s.(votesIgnoredInLease := s.votesIgnoredInLease + 1), NO_EFFECT)
  }

  /** A message at a newer term is handled after adopting it. */
  function DispatchNewer(s: NodeState, m: Message): (NodeState, Update)
    requires Bounded(s)
  {
    var (s1, u1) := BecomeFollower(s, m.term, 0);
    var (s2, u2) := Dispatch(s1, m);
    (s2, Merge(u1, u2))
  }

  function Step(s: NodeState, m: Message): (NodeState, Update)
    requires Bounded(s)
  {
    if Dropped(s, m) then Drop(s, m)
    else if m.PreVote? || m.PreVoteResponse? || m.term == s.term then Dispatch(s, m)
    else if m.term < s.term then (s, WithMessages([RejectStale(s, m)]))
    else DispatchNewer(s, m)
  }

  /** The voters heard from since the last check, with this node if it is a voter. */
  function ActiveVoters(s: NodeState): set<nat> {
    (if IsVoter(s, s.cfg.id) then {s.cfg.id} else {})
    + (set p | p in Peers(s) && p != s.cfg.id && Flag(s.progress.recentActive, p))
  }

  predicate HeartbeatDue(s: NodeState) { s.timers.heartbeatElapsed + 1 >= s.cfg.heartbeatTicks }

  /** A leader one tick older, its outstanding appends aged. */
  function Ticked(s: NodeState): NodeState {
    s.(progress := ExpireOutstanding(s.progress, ReplicationPeers(s), ResendLimit(s.cfg)).0,
       timers := s.timers.(heartbeatElapsed := if HeartbeatDue(s) then 0 else s.timers.heartbeatElapsed + 1,
                           quorumElapsed := s.timers.quorumElapsed + 1))
  }

  /** Whom this tick sends an append: everyone on a heartbeat, else peers whose append expired. */
  function TickTargets(s: NodeState): seq<nat> {
    if HeartbeatDue(s) then ReplicationPeers(s)
    else ExpireOutstanding(s.progress, ReplicationPeers(s), ResendLimit(s.cfg)).1
  }

  /** A leader whose quorum check starts over. */
  function Checked(s: NodeState): NodeState {
    s.(timers := s.timers.(quorumElapsed := 0),
       progress := s.progress.(recentActive := s.progress.recentActive + (map p | p in Peers(s) :: false)))
  }

  function CheckQuorum(s: NodeState, messages: seq<Message>): (NodeState, Update) {
    if s.timers.quorumElapsed < s.cfg.checkQuorumTicks then (s, WithMessages(messages))
    else if HasQuorum(s.membership, ActiveVoters(s)) then (Checked(s), WithMessages(messages))
    else
      var (s', u) := BecomeFollower(Checked(s), s.term, 0);
      (s', Merge(WithMessages(messages), u))
  }

  function LeaderTick(s: NodeState): (NodeState, Update) {
    var (s1, messages) := SendAppends(Ticked(s), TickTargets(s), 0, false);
    CheckQuorum(s1, messages)
  }

  function Waited(s: NodeState): NodeState {
    s.(timers := s.timers.(electionElapsed := s.timers.electionElapsed + 1))
  }

  function VoterTick(s: NodeState): (NodeState, Update) {
    if Waited(s).timers.electionElapsed >= s.timers.electionTimeout then StartPreVote(Waited(s))
    else (Waited(s), NO_EFFECT)
  }

  function Tick(s: NodeState): (NodeState, Update) {
    if s.role == Leader then LeaderTick(s)
    else if IsVoter(s, s.cfg.id) then VoterTick(s)
    else (s, NO_EFFECT)
  }

  /** Consecutive commands of one term after index `last`. */
  ghost predicate IsBatch(entries: seq<Entry>, last: nat, term: nat) {
    forall k :: 0 <= k < |entries| ==>
      entries[k].index == last + k + 1 && entries[k].term == term && entries[k].payload.Command?
  }

  /** The entries a batch appends after index `last`, and each command's index or 0. */
  function BatchEntries(last: nat, term: nat, commands: seq<Bytes>): (r: (seq<Entry>, seq<nat>))
    ensures |r.1| == |commands|
    ensures IsBatch(r.0, last, term)
    ensures forall i :: 0 <= i < |commands| ==>
      (r.1[i] == 0 <==> |commands[i]| > MAX_ENTRY_BYTES)
      && (r.1[i] != 0 ==> last < r.1[i] <= last + |r.0| && r.0[r.1[i] - last - 1].payload == Command(commands[i]))
  {
    if commands == [] then ([], [])
    else
      var n := |commands| - 1;
      var (entries, indexes) := BatchEntries(last, term, commands[..n]);
      if |commands[n]| > MAX_ENTRY_BYTES then (entries, indexes + [0])
      else
        var e := Entry(last + |entries| + 1, term, Command(commands[n]));
        (entries + [e], indexes + [e.index])
  }

  datatype Proposed =
    | NotLeader
    | ChangeInProgress
    | InvalidVoters
    | Proposed(indexes: seq<nat>, state: NodeState, update: Update)

  function ProposeBatch(s: NodeState, commands: seq<Bytes>): Proposed {
    if s.role != Leader then NotLeader
    else
      var (entries, indexes) := BatchEntries(LastIndex(s), s.term, commands);
      if entries == [] then Proposed(indexes, s, NO_EFFECT)
      else
        var s1 := s.(log := s.log + entries);
        var s2 := s1.(progress := Matched(s1.progress, s.cfg.id, LastIndex(s1)));
        var (s3, u) := Publish(s2, NO_EFFECT.(entries := entries), true);
        Proposed(indexes, s3, u)
  }

  /** Peers new to the progress table start at the joint entry. */
  function StartTracking(next: map<nat, nat>, peers: seq<nat>, index: nat): map<nat, nat> {
    next + (map p | p in peers && Get(next, p) == 0 :: index)
  }

  function JointEntry(s: NodeState, newVoters: seq<nat>): Entry {
    Entry(LastIndex(s) + 1, s.term, RaftTypes.Config(Joint(s.membership.voters, newVoters)))
  }

  lemma JointApplies(s: NodeState, voters: seq<nat>)
    requires WellFormed(s.membership) && s.membership.joint == []
    requires Normalize(s.membership.voters) == Some(s.membership.voters) && Normalize(voters) == Some(voters)
    ensures var e := JointEntry(s, voters);
      FoldEntry(s.membership, e) == Some(Membership(s.membership.voters, voters, e.index))
  {
  }

  /** The progress table once the joint entry is appended. */
  function Tracked(s: NodeState, index: nat): NodeState {
    var p := s.progress.(nextIndex := StartTracking(s.progress.nextIndex, Peers(s), index));
    s.(progress := Matched(p, s.cfg.id, index))
  }

  /** Appends and publishes the joint entry. The rebuild that would leave it appended and unpublished
      cannot fail on a valid node (NodeInputs.JointAlwaysFolds). */
  function BeginChange(s: NodeState, newVoters: seq<nat>): Option<(NodeState, Update)> {
    var joint := JointEntry(s, newVoters);
    var s1 := s.(log := s.log + [joint]);
    if Rebuilt(s1).None? then None
    else
      var s2 := s1.(membership := Rebuilt(s1).value);
      Some(Publish(Tracked(s2, joint.index), NO_EFFECT.(entries := [joint]), false))
  }

  function ProposeMembership(s: NodeState, voters: seq<nat>): Proposed {
    if s.role != Leader then NotLeader
    else if s.membership.joint != [] || s.membership.index > s.commit then ChangeInProgress
    else if Normalize(voters).None? then InvalidVoters
    else
      var newVoters := Normalize(voters).value;
      if newVoters == s.membership.voters then Proposed([s.membership.index], s, NO_EFFECT)
      else
        var begun := BeginChange(s, newVoters);
        if begun.None? then InvalidVoters else Proposed([LastIndex(s) + 2], begun.value.0, begun.value.1)
  }

  datatype Probed = NotLeaderNow | NotReady | Probed(state: NodeState, update: Update)

  function ReadProbe(s: NodeState, context: nat): Probed {
    if s.role != Leader then NotLeaderNow
    else if s.commit == 0 || TermAt(s, s.commit) != s.term then NotReady
    else
      var (s', messages) := SendAppends(s, Peers(s), context, false);
      Probed(s', WithMessages(messages))
  }

  /** A follower with the durable state in place and its membership not yet rebuilt. */
  function Unstarted(cfg: Config, hard: HardState, entries: seq<Entry>, snapshot: Snapshot,
                     initial: Membership): NodeState
  {
    var seed := if cfg.randomSeed == 0
      then (cfg.id * 6364136223846793005 + 1442695040888963407) % TWO_TO_THE_64 else cfg.randomSeed;
    NodeState(cfg.(peers := initial.voters), initial, Follower, hard.term, hard.votedFor, 0,
              snapshot, entries, cfg.appliedIndex,
              initial, map[], ResetElectionTimer(cfg, Timers(0, 0, 0, 0, seed)), NO_PROGRESS, 0, 0)
  }

  /** New: a node from its durable state, or None when that state is not contiguous or the
      applied index is outside it. */
  function Restore(cfg: Config, hard: HardState, entries: seq<Entry>, snapshot: Snapshot): Option<NodeState> {
    if Normalize(cfg.peers).None? then None
    else if (snapshot.index == 0) != (snapshot.term == 0) || (snapshot.index == 0 && snapshot.data != []) then None
    else if snapshot.membership.index > snapshot.index then None
    else if exists i :: 0 <= i < |entries| && (entries[i].index != snapshot.index + i + 1 || entries[i].term == 0)
    then None
    else if snapshot.index > 0 && snapshot.membership.voters != [] && !Validated(snapshot.membership) then None
    else
      var initial := Membership(Normalize(cfg.peers).value, [], 0);
      var s := Unstarted(cfg, hard, entries, snapshot, initial);
      match Rebuilt(s)
      case None => None
      case Some(m) =>
        if cfg.appliedIndex < snapshot.index || cfg.appliedIndex > LastIndex(s) then None
        else Some(s.(membership := m))
  }
}
