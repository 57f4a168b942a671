/** The replication protocol behind the code, with its history made explicit.

    `Proto` keeps, beside each peer's term, vote, full log and commit index, a record of
    everything that happened: who reigned in which term and with which log, every vote with
    the voter's log at that moment, how far each peer acknowledged each term's leader, and
    every commit with the configuration and quorum that made it. Compaction does not show
    here: logs are full from index 1.

    Actions are functions on `Proto`; the lemmas in ProtocolSteps show each keeps `Safe`. */
module Protocol {
  import opened RaftTypes
  import opened Voters

  type Log = seq<Entry>

  datatype Peer = Peer(term: nat, vote: nat, log: Log, commit: nat)

  /** One leadership: log[..base] is what the candidate brought, the rest it appended. */
  datatype Reign = Reign(leader: nat, base: nat, voters: set<nat>, log: Log)

  /** A vote, the voter's log when it was cast, and whether the term already had a leader. */
  datatype Ballot = Ballot(candidate: nat, log: Log, late: bool)

  /** The leader of `term` committed `index` while its log had `len` entries. */
  datatype CommitRecord = CommitRecord(term: nat, index: nat, len: nat, quorum: set<nat>)

  /** What had already happened when a read probe started. */
  datatype ReadRecord = ReadRecord(commits: nat, terms: set<nat>, ballots: set<(nat, nat)>)

  datatype Proto = Proto(
    start: Membership,
    peers: map<nat, Peer>,
    reigns: map<nat, Reign>,
    candidacies: map<(nat, nat), Log>,
    ballots: map<(nat, nat), Ballot>,
    acks: map<(nat, nat), nat>,
    commits: seq<CommitRecord>,
    probes: map<(nat, nat, nat), ReadRecord>)

  function LastTerm(x: Log): nat { if x == [] then 0 else x[|x| - 1].term }

  /** The vote rule: x is at least as up to date as y. */
  predicate UpToDate(x: Log, y: Log) {
    LastTerm(x) > LastTerm(y) || (LastTerm(x) == LastTerm(y) && |x| >= |y|)
  }

  ghost predicate Valid(start: Membership, x: Log) { Fold(start, x).Some? }

  /** The configuration a log is in. */
  ghost function ConfigOf(start: Membership, x: Log): Membership
    requires Valid(start, x)
  {
    Fold(start, x).value
  }

  function AckOf(g: Proto, t: nat, v: nat): nat {
    if (t, v) in g.acks then g.acks[(t, v)] else 0
  }

  // ---- invariant -------------------------------------------------------

  // The invariant's quantifiers carry their own triggers: a part is used where a proof
  // names it and nowhere else.

  /** Entry k of x sits in its term's reign below the same prefix. */
  ghost predicate At(g: Proto, x: Log, k: nat)
    requires k < |x|
  {
    && x[k].index == k + 1
    && x[k].term in g.reigns
    && x[..k + 1] <= g.reigns[x[k].term].log
  }

  ghost predicate Grounded(g: Proto, x: Log) {
    forall k {:trigger At(g, x, k)} :: 0 <= k < |x| ==> At(g, x, k)
  }

  /** Some leader of a term in (lo, hi] does not hold p. */
  ghost predicate Lacks(g: Proto, p: Log, lo: nat, hi: nat) {
    exists u :: lo < u <= hi && u in g.reigns && !(p <= g.reigns[u].log)
  }

  /** x holds what term t's leader had at index i, unless a later leader up to hi lacked it. */
  ghost predicate Kept(g: Proto, x: Log, t: nat, i: nat, hi: nat)
    requires t in g.reigns && i <= |g.reigns[t].log|
  {
    g.reigns[t].log[..i] <= x || Lacks(g, g.reigns[t].log[..i], t, hi)
  }

  /** Commit record j proves the first c entries of x. */
  ghost predicate Covers(g: Proto, j: nat, x: Log, c: nat)
    requires j < |g.commits| && c <= |x|
  {
    && g.commits[j].term in g.reigns
    && c <= g.commits[j].index <= |g.reigns[g.commits[j].term].log|
    && x[..c] <= g.reigns[g.commits[j].term].log
  }

  /** The first c entries of x were committed in a term up to t. */
  ghost predicate Known(g: Proto, x: Log, c: nat, t: nat) {
    && c <= |x|
    && (c == 0 || exists j :: 0 <= j < |g.commits| && Covers(g, j, x, c) && g.commits[j].term <= t)
  }

  ghost predicate ReignOK(g: Proto, t: nat)
    requires t in g.reigns
  {
    var r := g.reigns[t];
    && t >= 1
    && r.base <= |r.log|
    && Grounded(g, r.log)
    && Valid(g.start, r.log) && Valid(g.start, r.log[..r.base])
    && (forall k :: 0 <= k < r.base ==> r.log[k].term < t)
    && (forall k :: r.base <= k < |r.log| ==> r.log[k].term == t)
    && r.leader in g.peers && t <= g.peers[r.leader].term
    && (t, r.leader) in g.candidacies && g.candidacies[(t, r.leader)] == r.log[..r.base]
    && HasQuorum(ConfigOf(g.start, r.log[..r.base]), r.voters)
    && (forall v :: v in r.voters ==>
          (t, v) in g.ballots && g.ballots[(t, v)].candidate == r.leader && !g.ballots[(t, v)].late)
  }

  ghost predicate ReignsOK(g: Proto) {
    forall t {:trigger ReignOK(g, t)} :: t in g.reigns ==> ReignOK(g, t)
  }

  ghost predicate PeerOK(g: Proto, n: nat)
    requires n in g.peers
  {
    var p := g.peers[n];
    && n != 0
    && Grounded(g, p.log)
    && Valid(g.start, p.log)
    && LastTerm(p.log) <= p.term
    && Known(g, p.log, p.commit, p.term)
  }

  ghost predicate PeersOK(g: Proto) {
    forall n {:trigger PeerOK(g, n)} :: n in g.peers ==> PeerOK(g, n)
  }

  ghost predicate CandidacyOK(g: Proto, t: nat, n: nat)
    requires (t, n) in g.candidacies
  {
    var x := g.candidacies[(t, n)];
    && n in g.peers && t <= g.peers[n].term
    && (t == g.peers[n].term ==> g.peers[n].vote == n)
    && Grounded(g, x) && LastTerm(x) < t
  }

  ghost predicate CandidaciesOK(g: Proto) {
    forall t, n {:trigger CandidacyOK(g, t, n)} :: (t, n) in g.candidacies ==> CandidacyOK(g, t, n)
  }

  ghost predicate BallotOK(g: Proto, t: nat, v: nat)
    requires (t, v) in g.ballots
  {
    var b := g.ballots[(t, v)];
    && v in g.peers && t <= g.peers[v].term
    && (t == g.peers[v].term ==> g.peers[v].vote == b.candidate)
    && (t, b.candidate) in g.candidacies
    && Grounded(g, b.log)
    && UpToDate(g.candidacies[(t, b.candidate)], b.log)
    && (b.late ==> t in g.reigns)
  }

  ghost predicate BallotsOK(g: Proto) {
    forall t, v {:trigger BallotOK(g, t, v)} :: (t, v) in g.ballots ==> BallotOK(g, t, v)
  }

  ghost predicate AckOK(g: Proto, t: nat, v: nat)
    requires (t, v) in g.acks
  {
    && t in g.reigns && g.acks[(t, v)] <= |g.reigns[t].log|
    && v in g.peers && t <= g.peers[v].term
  }

  ghost predicate AcksOK(g: Proto) {
    forall t, v :: (t, v) in g.acks ==> AckOK(g, t, v)
  }

  /** What a peer acknowledged it still has, unless a later leader lacked it. */
  ghost predicate AcksKept(g: Proto)
    requires AcksOK(g)
  {
    forall t, v, i: nat {:trigger Kept(g, g.peers[v].log, t, i, g.peers[v].term)} ::
      (t, v) in g.acks && i <= g.acks[(t, v)] ==> Kept(g, g.peers[v].log, t, i, g.peers[v].term)
  }

  /** x kept, counting leaders up to hi, what v acknowledged before term t. */
  ghost predicate BallotKept(g: Proto, x: Log, v: nat, t: nat, hi: int)
    requires AcksOK(g)
  {
    forall t0, i: nat {:trigger Kept(g, x, t0, i, hi)} ::
      (t0, v) in g.acks && t0 < t && i <= g.acks[(t0, v)] && t0 <= hi ==> Kept(g, x, t0, i, hi)
  }

  /** A ballot counts leaders before its term, a late one its term's leader too. */
  function Horizon(t: nat, b: Ballot): int { if b.late then t else t - 1 }

  /** The same held of a voter's log when it voted. */
  ghost predicate BallotsKept(g: Proto)
    requires AcksOK(g)
  {
    forall t, v {:trigger BallotOK(g, t, v)} ::
      (t, v) in g.ballots ==> BallotKept(g, g.ballots[(t, v)].log, v, t, Horizon(t, g.ballots[(t, v)]))
  }

  ghost predicate CommitOK(g: Proto, j: nat)
    requires j < |g.commits|
  {
    var c := g.commits[j];
    && c.term in g.reigns
    && 1 <= c.index <= c.len <= |g.reigns[c.term].log|
    && g.reigns[c.term].log[c.index - 1].term == c.term
    && Valid(g.start, g.reigns[c.term].log[..c.len])
    && HasQuorum(ConfigOf(g.start, g.reigns[c.term].log[..c.len]), c.quorum)
    && (forall v :: v in c.quorum ==> (c.term, v) in g.acks && c.index <= g.acks[(c.term, v)])
  }

  ghost predicate CommitsOK(g: Proto) {
    forall j {:trigger CommitOK(g, j)} :: 0 <= j < |g.commits| ==> CommitOK(g, j)
  }

  /** What commit record j committed. */
  ghost function Committed(g: Proto, j: nat): Log
    requires j < |g.commits| && CommitOK(g, j)
  {
    g.reigns[g.commits[j].term].log[..g.commits[j].index]
  }

  /** The configuration before position k, at index p, was committed before any commit
      that term t made with entry k in its log. */
  ghost predicate Backed(g: Proto, t: nat, k: nat, p: nat)
    requires t in g.reigns && k < |g.reigns[t].log| && p <= k
  {
    exists j :: 0 <= j < |g.commits|
      && Covers(g, j, g.reigns[t].log, p)
      && g.commits[j].term <= g.reigns[t].log[k].term
      && (forall i :: 0 <= i < |g.commits| && g.commits[i].term == t && k < g.commits[i].len ==> j < i)
  }

  /** The configuration entry at position k of term t's log followed a committed configuration. */
  ghost predicate ConfigOK(g: Proto, t: nat, k: nat)
    requires t in g.reigns && k < |g.reigns[t].log|
  {
    IsConfig(g.reigns[t].log[k].payload) ==>
      && Valid(g.start, g.reigns[t].log[..k])
      && var p := ConfigOf(g.start, g.reigns[t].log[..k]).index;
      && p <= k
      && (p == 0 || Backed(g, t, k, p))
  }

  ghost predicate ConfigsOK(g: Proto) {
    forall t, k {:trigger ConfigOK(g, t, k)} ::
      t in g.reigns && 0 <= k < |g.reigns[t].log| ==> ConfigOK(g, t, k)
  }

  /** Term t's leader holds what commit record j committed. */
  ghost predicate Holds(g: Proto, t: nat, j: nat)
    requires j < |g.commits| && CommitOK(g, j) && t in g.reigns
  {
    Committed(g, j) <= g.reigns[t].log
  }

  /** Leader completeness: what a term committed, every later leader holds. */
  ghost predicate Complete(g: Proto)
    requires CommitsOK(g)
  {
    forall j, t {:trigger Holds(g, t, j)} ::
      0 <= j < |g.commits| && t in g.reigns && g.commits[j].term < t ==> CommitOK(g, j) && Holds(g, t, j)
  }

  ghost predicate ReadOK(g: Proto, l: nat, t: nat, c: nat)
    requires (l, t, c) in g.probes
  {
    var r := g.probes[(l, t, c)];
    && r.commits <= |g.commits|
    && t in r.terms
    && (forall u :: u in r.terms ==> u in g.reigns)
    && (forall u, v :: u in r.terms && u in g.reigns && v in g.reigns[u].voters ==> (u, v) in r.ballots)
    && (forall u, k :: u in r.terms && u in g.reigns && 0 <= k < g.reigns[u].base && k < |g.reigns[u].log| ==>
          g.reigns[u].log[k].term in r.terms)
    && (forall j :: 0 <= j < r.commits ==> g.commits[j].term in r.terms)
    && (forall b :: b in r.ballots ==> b in g.ballots)
  }

  ghost predicate ReadsOK(g: Proto) {
    forall l, t, c {:trigger ReadOK(g, l, t, c)} :: (l, t, c) in g.probes ==> ReadOK(g, l, t, c)
  }

  ghost predicate Shape(g: Proto) {
    && WellFormed(g.start) && g.start.index == 0
    && ReignsOK(g) && PeersOK(g) && CandidaciesOK(g) && BallotsOK(g) && AcksOK(g)
    && CommitsOK(g) && ReadsOK(g)
  }

  ghost predicate Safe(g: Proto) {
    Shape(g) && AcksKept(g) && BallotsKept(g) && ConfigsOK(g) && Complete(g)
  }

  // ---- what later states keep ------------------------------------------

  /** g' records everything g does; nothing recorded is taken back. */
  ghost predicate Extends(g: Proto, g': Proto) {
    && g'.start == g.start
    && g'.peers.Keys == g.peers.Keys
    && (forall n :: n in g.peers && n in g'.peers ==> g.peers[n].term <= g'.peers[n].term)
    && (forall t :: t in g.reigns ==>
          && t in g'.reigns
          && g'.reigns[t].leader == g.reigns[t].leader
          && g'.reigns[t].base == g.reigns[t].base
          && g'.reigns[t].voters == g.reigns[t].voters
          && g.reigns[t].log <= g'.reigns[t].log)
    && (forall k :: k in g.candidacies ==> k in g'.candidacies && g'.candidacies[k] == g.candidacies[k])
    && (forall k :: k in g.ballots ==> k in g'.ballots && g'.ballots[k] == g.ballots[k])
    && (forall k :: k in g.acks ==> k in g'.acks && g.acks[k] <= g'.acks[k])
    && g.commits <= g'.commits
    && (forall k :: k in g.probes ==> k in g'.probes && g'.probes[k] == g.probes[k])
  }

  /** Only peer n acted: other peers, their reigns and their commits are as before. */
  ghost predicate ActedOnly(g: Proto, g': Proto, n: nat) {
    && (forall o :: o in g.peers && o != n ==> o in g'.peers && g'.peers[o] == g.peers[o])
    && (forall t :: t in g.reigns && g.reigns[t].leader != n ==> t in g'.reigns && g'.reigns[t] == g.reigns[t])
    && (forall t :: t in g'.reigns && t !in g.reigns ==> g'.reigns[t].leader == n)
    && (forall j :: |g.commits| <= j < |g'.commits| ==>
          g'.commits[j].term in g'.reigns && g'.reigns[g'.commits[j].term].leader == n)
  }

  ghost predicate Progressed(g: Proto, g': Proto, n: nat) {
    Safe(g') && Extends(g, g') && ActedOnly(g, g', n)
  }

  /** n acted and began no read. */
  ghost predicate Stepped(g: Proto, g': Proto, n: nat) {
    Progressed(g, g', n) && g'.probes == g.probes
  }

  lemma ExtendsTrans(a: Proto, b: Proto, c: Proto)
    requires Extends(a, b) && Extends(b, c)
    ensures Extends(a, c)
  {
    forall t | t in a.reigns ensures t in c.reigns && a.reigns[t].log <= c.reigns[t].log {
      assert a.reigns[t].log <= b.reigns[t].log <= c.reigns[t].log;
    }
  }

  lemma ActedTrans(a: Proto, b: Proto, c: Proto, n: nat)
    requires Extends(a, b) && Extends(b, c) && ActedOnly(a, b, n) && ActedOnly(b, c, n)
    ensures ActedOnly(a, c, n)
  {
    forall j | |a.commits| <= j < |c.commits|
      ensures c.commits[j].term in c.reigns && c.reigns[c.commits[j].term].leader == n
    {
      if j < |b.commits| { assert c.commits[j] == b.commits[j]; }
    }
  }

  /** Two successive steps of one peer are a step of it. */
  lemma SteppedTrans(a: Proto, b: Proto, c: Proto, n: nat)
    requires Stepped(a, b, n) && Stepped(b, c, n)
    ensures Stepped(a, c, n)
  {
    hide Safe, Extends, ActedOnly;
    ExtendsTrans(a, b, c);
    ActedTrans(a, b, c, n);
  }

  // ---- actions ---------------------------------------------------------

  function SetPeer(g: Proto, n: nat, p: Peer): Proto { g.(peers := g.peers[n := p]) }

  /** n learns of a newer term. */
  function AdvanceTerm(g: Proto, n: nat, t: nat): Proto
    requires n in g.peers
  {
    SetPeer(g, n, g.peers[n].(term := t, vote := 0))
  }

  /** n stands for election in its term. */
  function Stand(g: Proto, n: nat): Proto
    requires n in g.peers
  {
    SetPeer(g, n, g.peers[n].(vote := n))
    .(candidacies := g.candidacies[(g.peers[n].term, n) := g.peers[n].log])
  }

  /** v votes for c in its term; a repeated vote changes nothing. */
  function Grant(g: Proto, v: nat, c: nat): Proto
    requires v in g.peers
  {
    var p := g.peers[v];
    SetPeer(g, v, p.(vote := c))
    .(ballots := if (p.term, v) in g.ballots then g.ballots
                 else g.ballots[(p.term, v) := Ballot(c, p.log, p.term in g.reigns)])
  }

  /** n, elected by `voters`, starts its reign with the log it stood with. */
  function Elect(g: Proto, n: nat, voters: set<nat>): Proto
    requires n in g.peers
  {
    var p := g.peers[n];
    g.(reigns := g.reigns[p.term := Reign(n, |p.log|, voters, p.log)],
       acks := g.acks[(p.term, n) := |p.log|])
  }

  /** The leader n appends one entry to its log. */
  function Extend(g: Proto, n: nat, e: Entry): Proto
    requires n in g.peers && g.peers[n].term in g.reigns
  {
    var p := g.peers[n];
    var r := g.reigns[p.term];
    SetPeer(g, n, p.(log := p.log + [e]))
    .(reigns := g.reigns[p.term := r.(log := r.log + [e])],
      acks := g.acks[(p.term, n) := |p.log| + 1])
  }

  /** n's log becomes y, which agrees with its term's leader through index k, and n acknowledges k. */
  function Take(g: Proto, n: nat, k: nat, y: Log): Proto
    requires n in g.peers
  {
    var p := g.peers[n];
    SetPeer(g, n, p.(log := y)).(acks := g.acks[(p.term, n) := Max(AckOf(g, p.term, n), k)])
  }

  /** n makes its log agree with its term's leader through index k and acknowledges k. */
  function Accept(g: Proto, n: nat, k: nat): Proto
    requires n in g.peers && g.peers[n].term in g.reigns && k <= |g.reigns[g.peers[n].term].log|
  {
    var x := g.reigns[g.peers[n].term].log[..k];
    Take(g, n, k, if x <= g.peers[n].log then g.peers[n].log else x)
  }

  /** The leader n commits index i, acknowledged by `quorum`. */
  function Commit(g: Proto, n: nat, i: nat, quorum: set<nat>): Proto
    requires n in g.peers
  {
    var p := g.peers[n];
    SetPeer(g, n, p.(commit := i))
    .(commits := g.commits + [CommitRecord(p.term, i, |p.log|, quorum)])
  }

  /** n's commit index becomes c: learned from its leader, or recovered after a restart. */
  function SetCommit(g: Proto, n: nat, c: nat): Proto
    requires n in g.peers
  {
    SetPeer(g, n, g.peers[n].(commit := c))
  }

  /** The leader n starts a read probe. */
  function BeginRead(g: Proto, n: nat, context: nat): Proto
    requires n in g.peers
  {
    var key := (n, g.peers[n].term, context);
    g.(probes := if key in g.probes then g.probes
                else g.probes[key := ReadRecord(|g.commits|, g.reigns.Keys, g.ballots.Keys)])
  }
}
