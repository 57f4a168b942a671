/** The embedded engine's write-ahead log as bytes: appending, and replay of a file cut at any byte. */
module Wal {
  import opened BigEndian
  import opened RaftTypes
  import opened Records

  const HEADER: nat := 17
  const MAX_KEY: nat := 16384
  const MAX_VALUE: nat := 67108864

  /** What replay accepts. Appending does not ask for it. */
  predicate Small(r: Record) { |r.key| <= MAX_KEY && |r.value| <= MAX_VALUE }

  /** What the fixed-width fields can carry. */
  predicate Encodable(r: Record) { |r.key| < TWO_32 && |r.value| < TWO_32 && r.seqNum < TWO_64 }

  function TypeByte(k: Kind): byte { if k.Put? then 1 else 2 }

  function Header(r: Record): (b: Bytes)
    ensures |b| == HEADER
  { [TypeByte(r.kind)] + PutBig(r.seqNum, 8) + PutBig(|r.key|, 4) + PutBig(|r.value|, 4) }

  function Checksum(crc: Bytes -> nat, b: Bytes): nat { crc(b) % TWO_32 }

  function Encode(crc: Bytes -> nat, r: Record): (b: Bytes)
    ensures |b| == HEADER + |r.key| + |r.value| + 4
  {
    var body := Header(r) + r.key + r.value;
    body + PutBig(Checksum(crc, body), 4)
  }

  function EncodeAll(crc: Bytes -> nat, rs: seq<Record>): Bytes {
    if rs == [] then [] else Encode(crc, rs[0]) + EncodeAll(crc, rs[1..])
  }

  // ---- replay ------------------------------------------------------------------

  datatype Front = Stop | Fail | Skip(size: nat) | Whole(rec: Record, size: nat)

  /** The record at the front: none left or a length that cannot be right, an error when the file ends
      exactly after a header, a record to pass over, or a record. */
  function ParseFront(crc: Bytes -> nat, b: Bytes): (f: Front)
    ensures (f.Skip? || f.Whole?) ==> 0 < f.size <= |b|
  {
    if |b| < HEADER then Stop
    else
      var k, v := GetBig(b[9..13]), GetBig(b[13..17]);
      if k > MAX_KEY || v > MAX_VALUE then Stop
      else if |b| == HEADER then Fail
      else if |b| < HEADER + k + v + 4 then Stop
      else
        var body, size := b[..HEADER + k + v], HEADER + k + v + 4;
        if Checksum(crc, body) != GetBig(b[HEADER + k + v..size]) || (b[0] != 1 && b[0] != 2) then Skip(size)
        else
          var kind := if b[0] == 1 then Put else Delete;
          Whole(Record(b[HEADER..HEADER + k], b[HEADER + k..HEADER + k + v], GetBig(b[1..9]), kind), size)
  }

  datatype Replay = Failed | Replayed(records: seq<Record>, end: nat)

  /** The records of a file and where the last of them ends. */
  function ReadAll(crc: Bytes -> nat, b: Bytes): Replay {
    match ParseFront(crc, b)
    case Stop => Replayed([], 0)
    case Fail => Failed
    case Skip(size) => After([], size, ReadAll(crc, b[size..]))
    case Whole(r, size) => After([r], size, ReadAll(crc, b[size..]))
  }

  /** Records read in the first `size` bytes, then the rest. */
  function After(rs: seq<Record>, size: nat, rest: Replay): Replay {
    if rest.Failed? then Failed
    else Replayed(rs + rest.records, if rs + rest.records == [] then 0 else size + rest.end)
  }

  class Log {
    var file: Bytes

    constructor (file: Bytes)
      ensures this.file == file
    {
      this.file := file;
    }

    method Append(crc: Bytes -> nat, r: Record)
      modifies this
      ensures file == old(file) + Encode(crc, r)
    {
      var b := [TypeByte(r.kind)];
      b := b + PutBig(r.seqNum, 8) + PutBig(|r.key|, 4) + PutBig(|r.value|, 4);
      b := b + r.key + r.value;
      file := file + (b + PutBig(Checksum(crc, b), 4));
    }

    /** Replays the file and cuts it after the last record read. */
    method Recover(crc: Bytes -> nat) returns (r: Option<seq<Record>>)
      modifies this
      ensures match ReadAll(crc, old(file))
              case Failed => r == None && file == old(file)
              case Replayed(rs, end) => r == Some(rs) && end <= |old(file)| && file == old(file)[..end]
    {
      hide ParseFront, ReadAll, Joined;
      var rs: seq<Record>, pos: nat, end: nat := [], 0, 0;
      JoinedFirst(crc, file);
      while true
        invariant end <= pos <= |file| && file == old(file)
        invariant ReadAll(crc, file) == Joined(rs, end, pos, ReadAll(crc, file[pos..]))
        decreases |file| - pos
      {
        var f := ParseFront(crc, file[pos..]);
        JoinedNext(crc, file, rs, end, pos);
        if f.Stop? { break; }
        if f.Fail? { return None; }
        pos := pos + f.size;
        if f.Whole? { rs, end := rs + [f.rec], pos; }
      }
      file := file[..end];
      return Some(rs);
    }
  }

  /** What has been read up to `pos`, and the rest. */
  function Joined(rs: seq<Record>, end: nat, pos: nat, rest: Replay): Replay {
    if rest.Failed? then Failed
    else Replayed(rs + rest.records, if rest.records == [] then end else pos + rest.end)
  }

  lemma JoinedFirst(crc: Bytes -> nat, file: Bytes)
    ensures ReadAll(crc, file) == Joined([], 0, 0, ReadAll(crc, file[0..]))
  {
    hide ParseFront;
    assert file[0..] == file;
    var r := ReadAll(crc, file);
    if r.Replayed? { assert [] + r.records == r.records; }
  }

  lemma JoinedNext(crc: Bytes -> nat, file: Bytes, rs: seq<Record>, end: nat, pos: nat)
    requires end <= pos <= |file|
    ensures var f := ParseFront(crc, file[pos..]);
      Joined(rs, end, pos, ReadAll(crc, file[pos..]))
      == match f
         case Stop => Replayed(rs, end)
         case Fail => Failed
         case Skip(size) => Joined(rs, end, pos + size, ReadAll(crc, file[pos + size..]))
         case Whole(r, size) => Joined(rs + [r], pos + size, pos + size, ReadAll(crc, file[pos + size..]))
  {
    hide ParseFront;
    var f := ParseFront(crc, file[pos..]);
    if f.Skip? || f.Whole? {
      assert file[pos..][f.size..] == file[pos + f.size..];
      var rest := ReadAll(crc, file[pos + f.size..]);
      if f.Whole? && rest.Replayed? { assert rs + ([f.rec] + rest.records) == (rs + [f.rec]) + rest.records; }
      if f.Skip? && rest.Replayed? { assert [] + rest.records == rest.records; }
    }
  }

  // ---- a cut file -------------------------------------------------------------------

  /** How many records replay reaches in the first k bytes of a log. */
  function Reached(crc: Bytes -> nat, rs: seq<Record>, k: nat): (n: nat)
    ensures n <= |rs|
  {
    if rs == [] || !Small(rs[0]) || |Encode(crc, rs[0])| > k then 0
    else 1 + Reached(crc, rs[1..], k - |Encode(crc, rs[0])|)
  }

  ghost predicate AllSmall(rs: seq<Record>) { forall i :: 0 <= i < |rs| ==> Small(rs[i]) }

  /** Replay reaches every record that ends within the cut, up to the first that is too large. */
  lemma {:induction false} ReachedExact(crc: Bytes -> nat, rs: seq<Record>, k: nat)
    ensures var n := Reached(crc, rs, k);
      && AllSmall(rs[..n]) && |EncodeAll(crc, rs[..n])| <= k
      && (n < |rs| ==> !Small(rs[n]) || |EncodeAll(crc, rs[..n])| + |Encode(crc, rs[n])| > k)
  {
    hide Encode, Small;
    if rs != [] && Small(rs[0]) && |Encode(crc, rs[0])| <= k {
      var n := Reached(crc, rs, k);
      ReachedExact(crc, rs[1..], k - |Encode(crc, rs[0])|);
      assert rs[..n][1..] == rs[1..][..n - 1];
      forall i | 0 <= i < n ensures Small(rs[..n][i]) { if i > 0 { assert Small(rs[1..][..n - 1][i - 1]); } }
    }
  }

  /** The cut falls exactly after the header of a record that could be read. */
  predicate AfterHeader(crc: Bytes -> nat, rs: seq<Record>, k: nat) {
    var n := Reached(crc, rs, k);
    n < |rs| && Small(rs[n]) && k == |EncodeAll(crc, rs[..n])| + HEADER
  }

  lemma HeaderParts(r: Record, b: Bytes)
    requires Encodable(r) && |b| >= HEADER && b[..HEADER] == Header(r)
    ensures b[0] == TypeByte(r.kind) && GetBig(b[1..9]) == r.seqNum
    ensures GetBig(b[9..13]) == |r.key| && GetBig(b[13..17]) == |r.value|
  {
    hide PutBig, GetBig;
    var h := b[..HEADER];
    Widths();
    BigRoundTrip(r.seqNum, 8);
    BigRoundTrip(|r.key|, 4);
    BigRoundTrip(|r.value|, 4);
    assert h[1..9] == PutBig(r.seqNum, 8) && h[9..13] == PutBig(|r.key|, 4) && h[13..17] == PutBig(|r.value|, 4);
    assert b[0] == h[0] && b[1..9] == h[1..9] && b[9..13] == h[9..13] && b[13..17] == h[13..17];
  }

  lemma ParseEncoded(crc: Bytes -> nat, r: Record, rest: Bytes)
    requires Encodable(r) && Small(r)
    ensures ParseFront(crc, Encode(crc, r) + rest) == Whole(r, |Encode(crc, r)|)
  {
    hide PutBig, GetBig, Header;
    var b, k, v := Encode(crc, r) + rest, |r.key|, |r.value|;
    var body := Header(r) + r.key + r.value;
    assert b[..HEADER] == Header(r);
    HeaderParts(r, b);
    assert b[..HEADER + k + v] == body && b[HEADER..HEADER + k] == r.key && b[HEADER + k..HEADER + k + v] == r.value;
    assert b[HEADER + k + v..HEADER + k + v + 4] == PutBig(Checksum(crc, body), 4);
    Widths();
    BigRoundTrip(Checksum(crc, body), 4);
  }

  /** A record cut short, or too large, ends the replay; one cut after its header fails it. */
  lemma ParseCut(crc: Bytes -> nat, r: Record, b: Bytes)
    requires Encodable(r)
    requires (b <= Encode(crc, r) && |b| < |Encode(crc, r)|) || (Encode(crc, r) <= b && !Small(r))
    ensures ParseFront(crc, b) == if Small(r) && |b| == HEADER then Fail else Stop
  {
    hide PutBig, GetBig, Header;
    if |b| >= HEADER {
      assert Encode(crc, r)[..HEADER] == Header(r);
      assert b[..HEADER] == Header(r);
      HeaderParts(r, b);
    }
  }

  /** For every log and every byte at which the file is cut: replay returns the whole records before the
      cut, up to the first too large for it, and fails exactly when the cut falls after a header. */
  lemma {:induction false} ReadCutLog(crc: Bytes -> nat, rs: seq<Record>, k: nat)
    requires k <= |EncodeAll(crc, rs)| && forall i :: 0 <= i < |rs| ==> Encodable(rs[i])
    ensures ReadAll(crc, EncodeAll(crc, rs)[..k])
         == if AfterHeader(crc, rs, k) then Failed
            else var n := Reached(crc, rs, k); Replayed(rs[..n], |EncodeAll(crc, rs[..n])|)
  {
    hide ParseFront, Encode, Small, Encodable;
    var b := EncodeAll(crc, rs)[..k];
    if rs == [] {
      EmptyFront(crc);
    } else {
      var r, rest := rs[0], rs[1..];
      var e := Encode(crc, r);
      if Small(r) && |e| <= k {
        var n := Reached(crc, rest, k - |e|);
        assert b == e + EncodeAll(crc, rest)[..k - |e|];
        ParseEncoded(crc, r, EncodeAll(crc, rest)[..k - |e|]);
        assert b[|e|..] == EncodeAll(crc, rest)[..k - |e|];
        ReadCutLog(crc, rest, k - |e|);
        assert rs[..n + 1][1..] == rest[..n] && rs[..n + 1] == [r] + rest[..n];
      } else {
        if |e| <= k { assert b == e + b[|e|..]; } else { assert b == e[..k]; }
        ParseCut(crc, r, b);
        assert rs[..0] == [];
      }
    }
  }

  lemma EmptyFront(crc: Bytes -> nat)
    ensures ParseFront(crc, []) == Stop
  {
  }

  /** The records before the first that is too large for replay. */
  function Replayable(rs: seq<Record>): (r: seq<Record>)
    ensures |r| <= |rs| && r == rs[..|r|]
  {
    if rs == [] || !Small(rs[0]) then [] else [rs[0]] + Replayable(rs[1..])
  }

  lemma {:induction false} ReachedWhole(crc: Bytes -> nat, rs: seq<Record>)
    ensures Reached(crc, rs, |EncodeAll(crc, rs)|) == |Replayable(rs)|
    ensures |Replayable(rs)| == |rs| <==> AllSmall(rs)
  {
    hide Encode, Small;
    if rs != [] && Small(rs[0]) {
      ReachedWhole(crc, rs[1..]);
      assert AllSmall(rs[1..]) ==> AllSmall(rs) by {
        forall i | AllSmall(rs[1..]) && 0 <= i < |rs| ensures Small(rs[i]) {
          if i > 0 { assert Small(rs[1..][i - 1]); }
        }
      }
    }
  }

  /** A complete log replays up to the first record that is too large; all of it exactly when none is. */
  lemma ReadWholeLog(crc: Bytes -> nat, rs: seq<Record>)
    requires forall i :: 0 <= i < |rs| ==> Encodable(rs[i])
    ensures ReadAll(crc, EncodeAll(crc, rs)) == Replayed(Replayable(rs), |EncodeAll(crc, Replayable(rs))|)
    ensures Replayable(rs) == rs <==> AllSmall(rs)
  {
    hide Encode, Small, Encodable;
    var k, n := |EncodeAll(crc, rs)|, |Replayable(rs)|;
    ReachedWhole(crc, rs);
    ReadCutLog(crc, rs, k);
    assert EncodeAll(crc, rs)[..k] == EncodeAll(crc, rs);
    if n < |rs| { FitsWhole(crc, rs, n); }
  }

  /** A small record of a complete log does not end at its header. */
  lemma {:induction false} FitsWhole(crc: Bytes -> nat, rs: seq<Record>, n: nat)
    requires n < |rs|
    ensures |EncodeAll(crc, rs)| > |EncodeAll(crc, rs[..n])| + HEADER
  {
    if n > 0 {
      FitsWhole(crc, rs[1..], n - 1);
      assert rs[..n][1..] == rs[1..][..n - 1];
    }
  }

  // ---- an append cut short ----------------------------------------------------------

  /** A log whose last append reached the file with its first k bytes: replay fails exactly when they are the
      header of a record it would accept after records it accepts; otherwise it gives what it gives of the
      log without the record, or with it when it is whole. */
  lemma {:induction false} AppendCut(crc: Bytes -> nat, rs: seq<Record>, r: Record, k: nat)
    requires k <= |Encode(crc, r)| && Encodable(r) && forall i :: 0 <= i < |rs| ==> Encodable(rs[i])
    ensures ReadAll(crc, EncodeAll(crc, rs) + Encode(crc, r)[..k])
         == if AllSmall(rs) && Small(r) && k == HEADER then Failed
            else
              var kept := Replayable(if k == |Encode(crc, r)| then rs + [r] else rs);
              Replayed(kept, |EncodeAll(crc, kept)|)
  {
    hide ParseFront, Encode, Encodable;
    var b := EncodeAll(crc, rs) + Encode(crc, r)[..k];
    if rs == [] {
      OneCut(crc, r, k);
      assert b == Encode(crc, r)[..k] && rs + [r] == [r];
    } else {
      var e, rest := Encode(crc, rs[0]), rs[1..];
      assert b == e + (EncodeAll(crc, rest) + Encode(crc, r)[..k]);
      assert (rs + [r])[1..] == rest + [r];
      if Small(rs[0]) {
        ParseEncoded(crc, rs[0], EncodeAll(crc, rest) + Encode(crc, r)[..k]);
        assert b[|e|..] == EncodeAll(crc, rest) + Encode(crc, r)[..k];
        AllSmallFront(rs);
        hide Small, AllSmall;
        AppendCut(crc, rest, r, k);
        KeptFront(crc, rs[0], Replayable(if k == |Encode(crc, r)| then rest + [r] else rest));
      } else {
        ParseCut(crc, rs[0], b);
      }
    }
  }

  lemma OneCut(crc: Bytes -> nat, r: Record, k: nat)
    requires k <= |Encode(crc, r)| && Encodable(r)
    ensures ReadAll(crc, Encode(crc, r)[..k])
         == if Small(r) && k == HEADER then Failed
            else
              var kept := Replayable(if k == |Encode(crc, r)| then [r] else []);
              Replayed(kept, |EncodeAll(crc, kept)|)
  {
    hide ParseFront, Encode, Encodable, Small;
    ReadCutLog(crc, [r], k);
    assert EncodeAll(crc, [r]) == Encode(crc, r) + [] == Encode(crc, r);
    assert [r][..0] == [] && [r][..1] == [r] && [r][1..] == [];
  }

  lemma AllSmallFront(rs: seq<Record>)
    requires rs != []
    ensures AllSmall(rs) <==> Small(rs[0]) && AllSmall(rs[1..])
  {
    hide Small;
    if Small(rs[0]) && AllSmall(rs[1..]) {
      forall i | 0 <= i < |rs| ensures Small(rs[i]) { if i > 0 { assert Small(rs[1..][i - 1]); } }
    }
  }

  lemma KeptFront(crc: Bytes -> nat, r: Record, kept: seq<Record>)
    ensures ([r] + kept)[1..] == kept
    ensures EncodeAll(crc, [r] + kept) == Encode(crc, r) + EncodeAll(crc, kept)
  {
    assert ([r] + kept)[1..] == kept;
  }

  /** A file that holds one header and nothing else cannot be opened. */
  lemma HeaderAloneFails(crc: Bytes -> nat, r: Record)
    requires Encodable(r) && Small(r)
    ensures ReadAll(crc, Encode(crc, r)[..HEADER]) == Failed
  {
    OneCut(crc, r, HEADER);
  }
}
