/** A cluster of hosts, each a node with its stable store and state machine, exchanging messages
    over a network that may lose, duplicate, delay and reorder them; hosts may crash at any point of
    carrying out an update, and restart from what they wrote. */
module Cluster {
  import opened RaftTypes
  import opened Voters
  import opened RaftCore
  import opened Stable
  import opened Pipeline

  /** A read probe in flight: who answered, and for each read that shares it the highest commit
      index any host had reached when that read was requested. */
  datatype Read = Read(acks: set<nat>, floors: seq<nat>)

  /** `accepts` is what the state machine does with a command: apply it, or refuse it with an error. */
  datatype Host = Host(
    node: NodeState,
    store: Durable,
    machine: Image,
    queue: seq<nat>,
    contexts: nat,
    pending: map<nat, Read>,
    accepts: Bytes -> bool)

  /** `net` holds every message ever sent; `reported` every entry a host applied as committed;
      `high` the highest commit index any host ever reached; `answers` pairs the floor of every
      answered read with the index it returned. The last three only record history. */
  datatype State = State(
    hosts: map<nat, Host>,
    net: set<Message>,
    reported: set<(nat, Entry)>,
    high: nat,
    answers: set<(nat, nat)>)

  datatype Event =
    | Receive(message: Message)
    | Elapse
    | Propose(commands: seq<Bytes>)
    | Reconfigure(voters: seq<nat>)
    | TakeSnapshot
    | Request
    | Probe(count: nat)
    | Restart(kept: nat, cfg: Config)
    | Crash(during: Event, writes: nat, sent: nat, applied: nat, kept: nat, cfg: Config)

  /** What an event does to its host, the effects it lets out, and the reads it answers. */
  datatype Effect = Effect(host: Host, update: Update, answers: set<(nat, nat)>)

  // ---- one host --------------------------------------------------------

  /** The machine refuses the entry's command. */
  predicate Refused(h: Host, e: Entry) {
    e.payload.Command? && e.payload.data != [] && !h.accepts(e.payload.data)
  }

  predicate RefusesAny(h: Host, entries: seq<Entry>) { exists e :: e in entries && Refused(h, e) }

  /** Persist, restore, apply, and drop pending reads when leadership is lost. None is any error
      that stops the runtime. */
  function Process(h: Host, s: NodeState, u: Update): Option<Host> {
    var carried := Carry(h.store, h.machine, u);
    if carried.None? || RefusesAny(h, u.committed) then None
    else
      Some(h.(node := s, store := carried.value.0, machine := carried.value.1,
              pending := if u.roleChanged && s.role != Leader then map[] else h.pending))
  }

  function Answers(floors: seq<nat>, index: nat): set<(nat, nat)> { set f | f in floors :: (f, index) }

  /** Counts an answered probe and completes its reads once a quorum has answered. */
  function Acknowledge(h: Host, m: Message): (Host, set<(nat, nat)>)
    requires m.AppendResponse?
  {
    if m.context !in h.pending || h.node.role != Leader || m.term != h.node.term then (h, {})
    else
      var read := h.pending[m.context];
      var acks := read.acks + {m.from};
      var counted := h.(pending := h.pending[m.context := read.(acks := acks)]);
      if !HasQuorum(h.node.membership, acks) || |h.machine| < h.node.commit then (counted, {})
      else (h.(pending := h.pending - {m.context}), Answers(read.floors, h.node.commit))
  }

  function Settled(h: Option<Host>, u: Update): Option<Effect> {
    if h.None? then None else Some(Effect(h.value, u, {}))
  }

  function Received(h: Host, m: Message): Option<Effect> {
    if !Bounded(h.node) then None
    else
      var (s, u) := Step(h.node, m);
      var processed := Process(h, s, u);
      if processed.Some? && m.AppendResponse? && !m.reject && m.context != 0 then
        var (h', answers) := Acknowledge(processed.value, m);
        Some(Effect(h', u, answers))
      else Settled(processed, u)
  }

  /** The first `count` queued reads share one probe. */
  function Probing(h: Host, count: nat): Option<Effect>
    requires count <= |h.queue|
  {
    var context := h.contexts + 1;
    var taken := h.(queue := h.queue[count..], contexts := context);
    match ReadProbe(h.node, context)
    case NotLeaderNow => Some(Effect(taken, NO_EFFECT, {}))
    case NotReady => Some(Effect(taken, NO_EFFECT, {}))
    case Probed(s, u) =>
      var read := Read({h.node.cfg.id}, h.queue[..count]);
      var processed := Process(taken.(pending := h.pending[context := read]), s, u);
      if processed.None? then None
      else if HasQuorum(s.membership, read.acks) then
        var done := processed.value.(pending := processed.value.pending - {context});
        Some(Effect(done, u, Answers(read.floors, s.commit)))
      else Some(Effect(processed.value, u, {}))
  }

  /** What a reopened machine holds: the `kept` entries it had made durable, or the stored snapshot
      when that reaches further. */
  function Reopened(store: Durable, machine: Image, kept: nat): Image
    requires kept <= |machine|
  {
    if store.snapshot.index > kept then store.snapshot.data else machine[..kept]
  }

  /** A host started again from its store and machine; everything else is lost. What it had let out
      before it went down is `u`. */
  function Booted(store: Durable, machine: Image, cfg: Config, accepts: Bytes -> bool, u: Update): Option<Effect> {
    if !Reopens(store) then None
    else
      match Restore(cfg.(appliedIndex := |machine|), store.hard, store.entries, store.snapshot)
      case None => None
      case Some(s) => Some(Effect(Host(s, store, machine, [], 0, map[], accepts), u, {}))
  }

  function Accepted(s: NodeState, r: Proposed): (NodeState, Update) {
    if r.Proposed? then (r.state, r.update) else (s, NO_EFFECT)
  }

  /** The state and update an event computes before anything is written. */
  function Intended(h: Host, e: Event): (NodeState, Update) {
    match e
    case Receive(m) => if Bounded(h.node) then Step(h.node, m) else (h.node, NO_EFFECT)
    case Elapse => Tick(h.node)
    case Propose(commands) => Accepted(h.node, ProposeBatch(h.node, commands))
    case Reconfigure(voters) => Accepted(h.node, ProposeMembership(h.node, voters))
    case TakeSnapshot =>
      var r := CreateSnapshot(h.node, |h.machine|, h.machine);
      if r.Some? then r.value else (h.node, NO_EFFECT)
    case _ => (h.node, NO_EFFECT)
  }

  /** The store of a host that went down while it carried out what an event computed. */
  function Left(h: Host, e: Event, writes: nat): Durable { TornAt(h.store, Intended(h, e).1, writes) }

  /** The entries before the first that the machine refuses. */
  function Applicable(h: Host, entries: seq<Entry>): (r: seq<Entry>)
    ensures r <= entries
  {
    if entries == [] || Refused(h, entries[0]) then [] else [entries[0]] + Applicable(h, entries[1..])
  }

  /** The machine and the effects of a host that went down after its update was written: it had let out
      the first `sent` messages and applied the first `applied` entries, or met one its machine refuses. */
  function Underway(h: Host, e: Event, writes: nat, sent: nat, applied: nat): (Image, Update) {
    var u := Intended(h, e).1;
    if writes <= |u.entries| || Persisted(h.store, u).None? then (h.machine, NO_EFFECT)
    else
      var done := Applicable(h, u.committed[..Min(applied, |u.committed|)]);
      var carried := Carry(h.store, h.machine, u.(committed := done));
      if carried.None? then (h.machine, NO_EFFECT)
      else (carried.value.1, NO_EFFECT.(messages := u.messages[..Min(sent, |u.messages|)], committed := done))
  }

  function Offer(h: Host, r: Proposed): Option<Effect> {
    match r
    case Proposed(_, s, u) => Settled(Process(h, s, u), u)
    case NotLeader => Some(Effect(h, NO_EFFECT, {}))
    case ChangeInProgress => Some(Effect(h, NO_EFFECT, {}))
    case InvalidVoters => Some(Effect(h, NO_EFFECT, {}))
  }

  /** A host comes back under its own id and bootstrap voters, its machine with part of what it had applied. */
  predicate Recoverable(h: Host, machine: Image, kept: nat, cfg: Config) {
    cfg.id == h.node.cfg.id && Normalize(cfg.peers) == Some(h.node.cfg.peers) && kept <= |machine|
  }

  /** What the environment may do to a host. */
  predicate Possible(h: Host, e: Event) {
    match e
    case Receive(m) => m.to == h.node.cfg.id
    case TakeSnapshot => |h.machine| > h.node.snapshot.index
    case Probe(count) => 0 < count <= |h.queue|
    case Restart(kept, cfg) => Recoverable(h, h.machine, kept, cfg)
    case Crash(during, writes, sent, applied, kept, cfg) =>
      Possible(h, during) && Recoverable(h, Underway(h, during, writes, sent, applied).0, kept, cfg)
    case _ => true
  }

  /** The host after an event; None when the runtime would stop with an error. */
  function React(h: Host, e: Event, high: nat): Option<Effect>
    requires Possible(h, e)
  {
    match e
    case Receive(m) => Received(h, m)
    case Elapse => var (s, u) := Tick(h.node); Settled(Process(h, s, u), u)
    case Propose(commands) => Offer(h, ProposeBatch(h.node, commands))
    case Reconfigure(voters) => Offer(h, ProposeMembership(h.node, voters))
    case TakeSnapshot =>
      var r := CreateSnapshot(h.node, |h.machine|, h.machine);
      if r.None? then None else Settled(Process(h, r.value.0, r.value.1), r.value.1)
    case Request => Some(Effect(h.(queue := h.queue + [high]), NO_EFFECT, {}))
    case Probe(count) => Probing(h, count)
    case Restart(kept, cfg) => Booted(h.store, Reopened(h.store, h.machine, kept), cfg, h.accepts, NO_EFFECT)
    case Crash(during, writes, sent, applied, kept, cfg) =>
      var d, (machine, u) := Left(h, during, writes), Underway(h, during, writes, sent, applied);
      Booted(d, Reopened(d, machine, kept), cfg, h.accepts, u)
  }

  // ---- the cluster -----------------------------------------------------

  /** The message an event delivers, whether or not its host survives handling it. */
  function Delivered(e: Event): Option<Message> {
    match e
    case Receive(m) => Some(m)
    case Crash(during, _, _, _, _, _) => Delivered(during)
    case _ => None
  }

  predicate Enabled(c: State, n: nat, e: Event) {
    && n in c.hosts && Possible(c.hosts[n], e)
    && (Delivered(e).Some? ==> Delivered(e).value in c.net)
  }

  /** The last index an update reports. */
  function Reaches(u: Update): nat { if u.committed == [] then 0 else u.committed[|u.committed| - 1].index }

  function Recorded(c: State, n: nat, f: Effect): State {
    State(c.hosts[n := f.host],
          c.net + (set m | m in f.update.messages),
          c.reported + (set e | e in f.update.committed :: (n, e)),
          Max(c.high, Max(f.host.node.commit, Reaches(f.update))),
          c.answers + f.answers)
  }

  function Next(c: State, n: nat, e: Event): Option<State>
    requires Enabled(c, n, e)
  {
    var f := React(c.hosts[n], e, c.high);
    if f.None? then None else Some(Recorded(c, n, f.value))
  }

  function NewHost(cfg: Config, accepts: Bytes -> bool): Option<Host> {
    match Restore(cfg, EMPTY_STORE.hard, EMPTY_STORE.entries, EMPTY_STORE.snapshot)
    case None => None
    case Some(s) => Some(Host(s, EMPTY_STORE, [], [], 0, map[], accepts))
  }

  /** A host that starts empty with the given bootstrap voters. */
  ghost predicate StartsFrom(h: Host, n: nat, peers: seq<nat>) {
    exists cfg: Config ::
      cfg.id == n && cfg.peers == peers && cfg.appliedIndex == 0 && NewHost(cfg, h.accepts) == Some(h)
  }

  /** Empty hosts that agree on the bootstrap voters. */
  ghost predicate Start(c: State, peers: seq<nat>) {
    && c.net == {} && c.reported == {} && c.high == 0 && c.answers == {}
    && (forall n :: n in c.hosts ==> StartsFrom(c.hosts[n], n, peers))
  }

  /** A run: states joined by events, from a start. */
  ghost predicate Run(states: seq<State>, peers: seq<nat>) {
    && states != [] && Start(states[0], peers)
    && (forall i :: 0 <= i < |states| - 1 ==> Steps(states[i], states[i + 1]))
  }

  ghost predicate Steps(c: State, c': State) {
    exists n, e :: Enabled(c, n, e) && Next(c, n, e) == Some(c')
  }
}
