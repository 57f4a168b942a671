/** The values exchanged and kept by the consensus core: entries, messages,
    snapshots, memberships and the update each transition returns. */
module RaftTypes {

  datatype Option<+T> = None | Some(value: T)

  newtype byte = x: int | 0 <= x < 256
  type Bytes = seq<byte>

  datatype Role = Follower | PreCandidate | Candidate | Leader

  /** A decoded configuration command. Voter lists are as written by the proposer;
      decoding normalizes them. */
  datatype ConfigCommand =
    | Joint(oldVoters: seq<nat>, newVoters: seq<nat>)
    | Final(newVoters: seq<nat>)

  /** What an entry's data says. BadConfig is data that carries the configuration
      prefix and does not decode; `rest` is what follows the prefix. */
  datatype Payload =
    | Command(data: Bytes)
    | Config(command: ConfigCommand)
    | BadConfig(rest: Bytes)

  /** The entry a new leader appends carries no data. */
  const NOOP := Command([])

  datatype Entry = Entry(index: nat, term: nat, payload: Payload)

  datatype Membership = Membership(voters: seq<nat>, joint: seq<nat>, index: nat)

  datatype HardState = HardState(term: nat, votedFor: nat)

  /** A state machine's state: the entries it has applied, of which the state of every
      deterministic machine is a function. */
  type Image = seq<Entry>

  datatype Snapshot = Snapshot(index: nat, term: nat, data: Image, membership: Membership)

  datatype Message =
    | PreVote(from: nat, to: nat, term: nat, logIndex: nat, logTerm: nat)
    | PreVoteResponse(from: nat, to: nat, term: nat, reject: bool)
    | Vote(from: nat, to: nat, term: nat, logIndex: nat, logTerm: nat)
    | VoteResponse(from: nat, to: nat, term: nat, reject: bool)
    | Append(from: nat, to: nat, term: nat, logIndex: nat, logTerm: nat,
             entries: seq<Entry>, leaderCommit: nat, context: nat)
    | AppendResponse(from: nat, to: nat, term: nat, logIndex: nat,
                     reject: bool, rejectHint: nat, context: nat)
    | InstallSnapshot(from: nat, to: nat, term: nat, snapshot: Option<Snapshot>)
    | SnapshotResponse(from: nat, to: nat, term: nat, logIndex: nat,
                       reject: bool, rejectHint: nat)

  /** Why an append was dropped; `at` is the position of the offending entry. */
  datatype Malformed =
    | WrongIndex(at: nat)
    | ZeroTerm(at: nat)
    | TooLarge(at: nat)
    | TermAboveMessage(at: nat)
    | TermBelowPrevious(at: nat)

  datatype Update = Update(
    hardState: Option<HardState>,
    truncateFrom: nat,
    entries: seq<Entry>,
    messages: seq<Message>,
    committed: seq<Entry>,
    roleChanged: bool,
    snapshot: Option<Snapshot>,
    droppedAppend: Option<Malformed>)

  const NO_EFFECT := Update(None, 0, [], [], [], false, None, None)

  const MAX_ENTRY_BYTES: nat := 4 * 1048576 + 32 * 1024
  const ENTRY_OVERHEAD_BYTES: nat := 32
  const DEFAULT_MAX_APPEND_BYTES: nat := 1048576
  const DEFAULT_INFLIGHT_RESEND_TICKS: nat := 5
  const MEMBERSHIP_PREFIX_BYTES: nat := 15

  /** `u` after merging the effects of a later transition `o`. */
  function Merge(u: Update, o: Update): Update {
    Update(
      if o.hardState.Some? then o.hardState else u.hardState,
      if o.truncateFrom != 0 then o.truncateFrom else u.truncateFrom,
      u.entries + o.entries,
      u.messages + o.messages,
      u.committed + o.committed,
      u.roleChanged || o.roleChanged,
      if o.snapshot.Some? then o.snapshot else u.snapshot,
      if o.droppedAppend.Some? then o.droppedAppend else u.droppedAppend)
  }

  function WithMessages(messages: seq<Message>): Update {
    NO_EFFECT.(messages := messages)
  }

  function Min(a: nat, b: nat): nat { if a <= b then a else b }
  function Max(a: nat, b: nat): nat { if a <= b then b else a }

  /** Go map lookup: a missing key reads as zero. */
  function Get(m: map<nat, nat>, k: nat): nat { if k in m then m[k] else 0 }
  function Flag(m: map<nat, bool>, k: nat): bool { k in m && m[k] }

  // ---- accounted sizes -------------------------------------------------

  function DecimalDigits(n: nat): nat {
    if n < 10 then 1 else 1 + DecimalDigits(n / 10)
  }

  function IdListBytes(ids: seq<nat>): nat {
    if ids == [] then 0
    else if |ids| == 1 then DecimalDigits(ids[0])
    else DecimalDigits(ids[0]) + 1 + IdListBytes(ids[1..])
  }

  /** Length of the JSON object that encodes a configuration command. */
  function ConfigBytes(c: ConfigCommand): nat {
    match c
    case Joint(oldVoters, newVoters) =>
      // {"phase":"joint","old":[...],"new":[...]}; an empty old list is omitted
      26 + (if oldVoters == [] then 0 else 9 + IdListBytes(oldVoters)) + IdListBytes(newVoters)
    case Final(newVoters) => 26 + IdListBytes(newVoters)
  }

  /** len(Entry.Data) */
  function DataBytes(p: Payload): nat {
    match p
    case Command(data) => |data|
    case Config(c) => MEMBERSHIP_PREFIX_BYTES + ConfigBytes(c)
    case BadConfig(rest) => MEMBERSHIP_PREFIX_BYTES + |rest|
  }

  /** Length of the JSON object that encodes a membership in a snapshot file. */
  function MembershipBytes(m: Membership): nat {
    // {"voters":[...],"joint_voters":[...],"index":n}; no voters are null, no joint voters and index 0 are omitted
    10 + (if m.voters == [] then 4 else 2 + IdListBytes(m.voters))
    + (if m.joint == [] then 0 else 18 + IdListBytes(m.joint))
    + (if m.index == 0 then 0 else 9 + DecimalDigits(m.index)) + 1
  }
}
