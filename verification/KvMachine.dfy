/** The replicated key-value machine: each client request acts once, across flushes, crashes, replays and snapshots. */
module KvMachine {
  import opened BigEndian
  import opened EngineDisk
  import opened RaftTypes
  import opened Records
  import opened ReplicaState

  // ---- the specification -----------------------------------------------------------

  /** A committed entry's data: nothing, bytes that are not a command, or a command. */
  datatype KvEntry =
    | Empty
    | Malformed
    | Request(key: Bytes, value: Option<Bytes>, client: Bytes, number: nat)

  predicate Valid(p: KvEntry) { p.Empty? || (p.Request? && p.client != [] && 0 < p.number < TWO_64) }

  datatype Kv = Kv(data: map<Bytes, Bytes>, sessions: map<Bytes, nat>)

  /** A request acts only when its number exceeds the client's highest so far. */
  function Do(kv: Kv, p: KvEntry): Kv {
    if !p.Request? || (p.client in kv.sessions && p.number <= kv.sessions[p.client]) then kv
    else Kv(Updated(kv.data, p.key, p.value), kv.sessions[p.client := p.number])
  }

  function Fold(log: seq<KvEntry>): Kv {
    if log == [] then Kv(map[], map[]) else Do(Fold(log[..|log| - 1]), log[|log| - 1])
  }

  // ---- keys ------------------------------------------------------------------------

  const MAX_KEY_BYTES: nat := 16384
  const USER: Bytes := [1]
  const SESSION: Bytes := [0, 115, 101, 115, 115, 105, 111, 110, 47]

  /** What the engine holds under a key for a machine state. */
  function Cell(kv: Kv, key: Key): Option<Bytes> {
    if USER <= key then At(kv.data, key[|USER|..])
    else if SESSION <= key && key[|SESSION|..] in kv.sessions then Some(PutBig(kv.sessions[key[|SESSION|..]], 8))
    else None
  }

  /** Every read of the replica is what the machine state says. */
  ghost predicate Shows(s: State, kv: Kv) {
    forall key :: Read(s, key) == Cell(kv, key)
  }

  lemma UserCell(kv: Kv, k: Bytes)
    ensures Cell(kv, USER + k) == At(kv.data, k)
  {
    assert (USER + k)[|USER|..] == k;
  }

  lemma SessionCell(kv: Kv, client: Bytes)
    ensures Cell(kv, SESSION + client) == if client in kv.sessions then Some(PutBig(kv.sessions[client], 8)) else None
  {
    assert (SESSION + client)[|SESSION|..] == client;
    assert (SESSION + client)[0] == 0;
  }

  // ---- applying --------------------------------------------------------------------

  ghost predicate Numbered(kv: Kv) { forall c :: c in kv.sessions ==> kv.sessions[c] < TWO_64 }

  function Mutations(p: KvEntry): seq<Mutation>
    requires p.Request?
  { [Mutation(USER + p.key, p.value), Mutation(SESSION + p.client, Some(PutBig(p.number, 8)))] }

  /** The stored number already covers the request. */
  predicate Covered(stored: Option<Bytes>, number: nat) {
    stored.Some? && |stored.value| == 8 && number <= GetBig(stored.value)
  }

  ghost function Apply(s: State, index: nat, p: KvEntry, flushAt: nat, compactAt: nat): Outcome
    requires StateOK(s)
  {
    if p.Empty? then ApplyBatch(s, index, [], flushAt, compactAt)
    else if !Valid(p) then Refused
    else if Covered(Read(s, SESSION + p.client), p.number) then ApplyBatch(s, index, [], flushAt, compactAt)
    else ApplyBatch(s, index, Mutations(p), flushAt, compactAt)
  }

  lemma CoveredExactly(s: State, kv: Kv, p: KvEntry)
    requires Shows(s, kv) && Numbered(kv) && p.Request?
    ensures Covered(Read(s, SESSION + p.client), p.number) <==>
      p.client in kv.sessions && p.number <= kv.sessions[p.client]
  {
    SessionCell(kv, p.client);
    if p.client in kv.sessions {
      Widths();
      BigRoundTrip(kv.sessions[p.client], 8);
    }
  }

  /** A state with a batch applied, before it settles. */
  ghost function Staged(s: State, ms: seq<Mutation>): State
  { State(Mutated(s.entries, ms, s.applied + 1), s.tables, s.applied + 1, s.durable) }

  /** What reading a key gives after a batch with distinct keys. */
  lemma StagedReads(s: State, ms: seq<Mutation>, key: Key)
    requires StateOK(s) && DistinctKeys(ms)
    ensures StateOK(Staged(s, ms))
    ensures forall i :: 0 <= i < |ms| && ms[i].key == key ==> Read(Staged(s, ms), key) == ms[i].value
    ensures (forall i :: 0 <= i < |ms| ==> ms[i].key != key) ==> Read(Staged(s, ms), key) == Read(s, key)
  {
    hide FirstIn, Layered, Mutated;
    MutatedOK(s, ms);
    MutatedReads(s.entries, ms, s.applied + 1, key);
  }

  lemma RequestCell(kv: Kv, p: KvEntry, key: Key)
    requires p.Request?
    ensures var kv' := Kv(Updated(kv.data, p.key, p.value), kv.sessions[p.client := p.number]);
      Cell(kv', key) == if key == USER + p.key then p.value
                        else if key == SESSION + p.client then Some(PutBig(p.number, 8))
                        else Cell(kv, key)
  {
    hide PutBig;
    if USER <= key { assert key == USER + key[|USER|..]; }
    if SESSION <= key { assert key == SESSION + key[|SESSION|..]; assert key[0] == 0; }
    assert (USER + p.key)[|USER|..] == p.key && (SESSION + p.client)[|SESSION|..] == p.client;
    assert (SESSION + p.client)[0] == 0 && (USER + p.key)[0] == 1;
  }

  lemma RequestShows(s: State, kv: Kv, p: KvEntry)
    requires StateOK(s) && Shows(s, kv) && p.Request?
    ensures StateOK(Staged(s, Mutations(p)))
    ensures Shows(Staged(s, Mutations(p)), Kv(Updated(kv.data, p.key, p.value), kv.sessions[p.client := p.number]))
  {
    hide Read, Cell, PutBig, StateOK;
    var ms := Mutations(p);
    assert (SESSION + p.client)[0] == 0 && (USER + p.key)[0] == 1;
    assert ms[0].key == USER + p.key && ms[1].key == SESSION + p.client;
    StagedReads(s, ms, []);
    forall key
      ensures Read(Staged(s, ms), key) ==
        Cell(Kv(Updated(kv.data, p.key, p.value), kv.sessions[p.client := p.number]), key)
    {
      StagedReads(s, ms, key);
      RequestCell(kv, p, key);
    }
  }

  /** Applying the next entry takes the machine one step. */
  lemma ApplyShows(s: State, kv: Kv, p: KvEntry, flushAt: nat, compactAt: nat)
    requires StateOK(s) && Shows(s, kv) && Numbered(kv) && Valid(p)
    ensures Numbered(Do(kv, p))
    ensures var r := Apply(s, s.applied + 1, p, flushAt, compactAt);
      && r.Done? && StateOK(r.state) && Shows(r.state, Do(kv, p)) && r.state.applied == s.applied + 1
      && ((r.state.tables == s.tables && r.state.durable == s.durable)
          || (r.state.durable == r.state.applied && r.state.entries == map[]))
  {
    hide Read, Cell, PutBig, StateOK, Settled, Covered;
    var ms := if p.Request? && !Covered(Read(s, SESSION + p.client), p.number) then Mutations(p) else [];
    if p.Request? { CoveredExactly(s, kv, p); }
    if ms == [] { NothingStaged(s, kv); } else { RequestShows(s, kv, p); }
    var t := Staged(s, ms);
    assert Shows(t, Do(kv, p));
    forall key ensures Read(Settled(t, flushAt, compactAt), key) == Read(t, key) {
      SettledReads(t, flushAt, compactAt, key);
    }
    SettledReads(t, flushAt, compactAt, []);
    assert Apply(s, s.applied + 1, p, flushAt, compactAt) == ApplyBatch(s, s.applied + 1, ms, flushAt, compactAt);
  }

  lemma NothingStaged(s: State, kv: Kv)
    requires StateOK(s) && Shows(s, kv)
    ensures StateOK(Staged(s, [])) && Shows(Staged(s, []), kv)
  {
    hide Cell;
    MutatedOK(s, []);
    assert forall key :: Read(Staged(s, []), key) == Read(s, key);
  }
}
