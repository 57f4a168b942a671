/** The final configuration entry is never longer than the joint entry that announced it. */
module EntrySizes {
  import opened RaftTypes
  import opened Voters
  import opened Stable

  lemma {:induction false} IdListAppend(ids: seq<nat>, x: nat)
    ensures IdListBytes(ids + [x]) == IdListBytes(ids) + (if ids == [] then 0 else 1) + DecimalDigits(x)
  {
    if |ids| > 0 {
      IdListAppend(ids[1..], x);
      assert (ids + [x])[1..] == ids[1..] + [x];
    }
  }

  lemma {:induction false} InsertBytes(s: seq<nat>, x: nat)
    requires StrictlySorted(s) && x !in s
    ensures IdListBytes(InsertId(s, x)) == IdListBytes(s) + (if s == [] then 0 else 1) + DecimalDigits(x)
  {
    if s != [] {
      var n := |s| - 1;
      assert s == s[..n] + [s[n]];
      IdListAppend(s[..n], s[n]);
      if s[n] < x {
        IdListAppend(s, x);
      } else {
        InsertBytes(s[..n], x);
        IdListAppend(InsertId(s[..n], x), s[n]);
      }
    }
  }

  /** Normalizing a voter list does not change how long it is written. */
  lemma {:induction false} SortBytes(ids: seq<nat>)
    requires |SortIds(ids)| == |ids|
    ensures IdListBytes(SortIds(ids)) == IdListBytes(ids)
  {
    if ids != [] {
      var n := |ids| - 1;
      assert ids == ids[..n] + [ids[n]];
      SortBytes(ids[..n]);
      InsertBytes(SortIds(ids[..n]), ids[n]);
      IdListAppend(ids[..n], ids[n]);
    }
  }

  /** The entry that would complete m's joint configuration, if it has one, can be stored. */
  predicate FinalFits(m: Membership) {
    m.joint == [] || DataBytes(Config(Final(m.joint))) <= MAX_ENTRY_BYTES
  }

  lemma FoldEntryFits(m: Membership, e: Entry)
    requires FinalFits(m) && DataBytes(e.payload) <= MAX_ENTRY_BYTES && FoldEntry(m, e).Some?
    ensures FinalFits(FoldEntry(m, e).value)
  {
    if e.payload.Config? && e.payload.command.Joint? && Normalize(e.payload.command.newVoters).Some? {
      SortBytes(e.payload.command.newVoters);
    }
  }

  /** Replaying storable entries over a membership whose completion fits keeps it fitting. */
  lemma {:induction false} FoldFits(base: Membership, entries: seq<Entry>)
    requires FinalFits(base) && AllFit(entries) && Fold(base, entries).Some?
    ensures FinalFits(Fold(base, entries).value)
  {
    if entries != [] {
      var n := |entries| - 1;
      FoldFits(base, entries[..n]);
      FoldEntryFits(Fold(base, entries[..n]).value, entries[n]);
    }
  }
}
