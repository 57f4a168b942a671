/** The Raft log file as bytes: records, and recovery from a file cut at any byte. */
module LogFile {
  import opened BigEndian
  import opened RaftTypes

  /** A log record: an entry with its data as stored. */
  datatype Record = Record(index: nat, term: nat, data: Bytes)

  const HEADER: nat := 20
  const CHECKSUM: nat := 4

  // ---- records ---------------------------------------------------------

  predicate Encodable(r: Record) { r.index < TWO_64 && 0 < r.term < TWO_64 && |r.data| <= MAX_ENTRY_BYTES }

  function Header(r: Record): Bytes { PutBig(r.index, 8) + PutBig(r.term, 8) + PutBig(|r.data|, 4) }

  function Checksum(crc: Bytes -> nat, b: Bytes): nat { crc(b) % TWO_32 }

  /** Index, term, length, data and the checksum of all of them. */
  function Encode(crc: Bytes -> nat, r: Record): (b: Bytes)
    ensures |b| == HEADER + |r.data| + CHECKSUM
  {
    Header(r) + r.data + PutBig(Checksum(crc, Header(r) + r.data), 4)
  }

  function EncodeAll(crc: Bytes -> nat, records: seq<Record>): Bytes {
    if records == [] then [] else EncodeAll(crc, records[..|records| - 1]) + Encode(crc, records[|records| - 1])
  }

  /** The records continue a log from `first` on. */
  predicate Chained(records: seq<Record>, first: nat) {
    forall k :: 0 <= k < |records| ==> Encodable(records[k]) && records[k].index == first + k
  }

  // ---- reading ---------------------------------------------------------

  datatype Parsed = Torn | Refused | Whole(record: Record, size: nat)

  /** The record at the front of `b`: incomplete, not acceptable after `previous`, or whole. */
  function ParseRecord(crc: Bytes -> nat, b: Bytes, previous: nat, snapshot: nat): (p: Parsed)
    ensures p.Whole? ==> 0 < p.size <= |b|
  {
    if |b| < HEADER then Torn
    else
      var index, term, length := GetBig(b[..8]), GetBig(b[8..16]), GetBig(b[16..20]);
      if length > MAX_ENTRY_BYTES || term == 0 || (previous != 0 && index != previous + 1) then Refused
      else if previous == 0 && index != 1 && index != snapshot + 1 then Refused
      else if |b| < HEADER + length + CHECKSUM then Torn
      else if Checksum(crc, b[..HEADER + length]) != GetBig(b[HEADER + length..HEADER + length + CHECKSUM]) then Refused
      else Whole(Record(index, term, b[HEADER..HEADER + length]), HEADER + length + CHECKSUM)
  }

  /** What recovery reads: the records after the snapshot, where each starts, and where the last
      acceptable record ends. */
  datatype Log = Log(records: seq<Record>, offsets: seq<nat>, end: nat)

  /** The log read from position `pos` on, after `sofar`. */
  function ReadFrom(crc: Bytes -> nat, file: Bytes, snapshot: nat, previous: nat, sofar: Log): (log: Log)
    requires sofar.end <= |file|
    ensures log.end <= |file|
    decreases |file| - sofar.end
  {
    var p := ParseRecord(crc, file[sofar.end..], previous, snapshot);
    if !p.Whole? then sofar
    else ReadFrom(crc, file, snapshot, p.record.index, Keep(sofar, p.record, p.size, snapshot))
  }

  /** `sofar` with one more record read; records the snapshot covers are passed over. */
  function Keep(sofar: Log, r: Record, size: nat, snapshot: nat): Log {
    if r.index > snapshot then Log(sofar.records + [r], sofar.offsets + [sofar.end], sofar.end + size)
    else sofar.(end := sofar.end + size)
  }

  const NOTHING := Log([], [], 0)

  method ReadLog(crc: Bytes -> nat, file: Bytes, snapshot: nat) returns (log: Log)
    ensures log == ReadFrom(crc, file, snapshot, 0, NOTHING)
  {
    log := NOTHING;
    var previous := 0;
    while true
      invariant log.end <= |file|
      invariant ReadFrom(crc, file, snapshot, 0, NOTHING) == ReadFrom(crc, file, snapshot, previous, log)
      decreases |file| - log.end
    {
      var p := ParseRecord(crc, file[log.end..], previous, snapshot);
      if !p.Whole? { return; }
      previous := p.record.index;
      log := Keep(log, p.record, p.size, snapshot);
    }
  }

  // ---- a cut file ------------------------------------------------------

  /** An encoded record parses back to itself, whatever follows it. */
  lemma ParseEncoded(crc: Bytes -> nat, r: Record, rest: Bytes, previous: nat, snapshot: nat)
    requires Encodable(r)
    requires if previous == 0 then r.index == 1 || r.index == snapshot + 1 else r.index == previous + 1
    ensures ParseRecord(crc, Encode(crc, r) + rest, previous, snapshot) == Whole(r, |Encode(crc, r)|)
  {
    var b := Encode(crc, r) + rest;
    Widths();
    BigRoundTrip(r.index, 8);
    BigRoundTrip(r.term, 8);
    BigRoundTrip(|r.data|, 4);
    BigRoundTrip(Checksum(crc, Header(r) + r.data), 4);
    HeaderParts(r, b);
    assert b[..HEADER + |r.data|] == Header(r) + r.data;
    assert b[HEADER..HEADER + |r.data|] == r.data;
    assert b[HEADER + |r.data|..HEADER + |r.data| + CHECKSUM] == PutBig(Checksum(crc, Header(r) + r.data), 4);
  }

  lemma HeaderParts(r: Record, b: Bytes)
    requires |b| >= HEADER && b[..HEADER] == Header(r)
    ensures b[..8] == PutBig(r.index, 8) && b[8..16] == PutBig(r.term, 8) && b[16..20] == PutBig(|r.data|, 4)
  {
    assert b[..8] == b[..HEADER][..8] && b[8..16] == b[..HEADER][8..16] && b[16..20] == b[..HEADER][16..20];
  }

  /** A proper prefix of an encoded record is recognised as torn. */
  lemma ParseCut(crc: Bytes -> nat, r: Record, k: nat, previous: nat, snapshot: nat)
    requires Encodable(r) && k < |Encode(crc, r)|
    ensures !ParseRecord(crc, Encode(crc, r)[..k], previous, snapshot).Whole?
  {
    var b := Encode(crc, r)[..k];
    if |b| >= HEADER {
      Widths();
      BigRoundTrip(|r.data|, 4);
      assert b[..HEADER] == Header(r);
      HeaderParts(r, b);
    }
  }

  /** How many of the records end within the first k bytes. */
  function WholeWithin(crc: Bytes -> nat, records: seq<Record>, k: nat): (n: nat)
    ensures n <= |records|
  {
    if records == [] || |Encode(crc, records[0])| > k then 0
    else 1 + WholeWithin(crc, records[1..], k - |Encode(crc, records[0])|)
  }

  /** Keeping records one after another. */
  function KeepAll(crc: Bytes -> nat, sofar: Log, records: seq<Record>, snapshot: nat): Log
    decreases |records|
  {
    if records == [] then sofar
    else KeepAll(crc, Keep(sofar, records[0], |Encode(crc, records[0])|, snapshot), records[1..], snapshot)
  }

  lemma {:induction false} EncodeFront(crc: Bytes -> nat, records: seq<Record>)
    requires records != []
    ensures EncodeAll(crc, records) == Encode(crc, records[0]) + EncodeAll(crc, records[1..])
  {
    var n := |records| - 1;
    if n > 0 {
      EncodeFront(crc, records[..n]);
      assert records[..n][1..] == records[1..][..n - 1];
    }
  }

  /** The records may follow a record with index `previous`, or start a file. */
  predicate Continues(records: seq<Record>, previous: nat, snapshot: nat) {
    records != [] ==>
      && Chained(records, records[0].index)
      && (if previous == 0 then records[0].index == 1 || records[0].index == snapshot + 1
          else records[0].index == previous + 1)
  }

  /** The index of the record before what follows `records`. */
  function Before(records: seq<Record>, previous: nat): nat {
    if records == [] then previous else records[|records| - 1].index
  }

  /** Reading from a record boundary keeps the records up to the first thing that is not an acceptable one. */
  lemma {:induction false} ReadUpto(crc: Bytes -> nat, done: Bytes, records: seq<Record>, junk: Bytes, snapshot: nat,
                                    previous: nat, sofar: Log)
    requires sofar.end == |done| && Continues(records, previous, snapshot)
    requires !ParseRecord(crc, junk, Before(records, previous), snapshot).Whole?
    ensures ReadFrom(crc, done + (EncodeAll(crc, records) + junk), snapshot, previous, sofar)
         == KeepAll(crc, sofar, records, snapshot)
    decreases |records|
  {
    hide ParseRecord, Encode;
    var file := done + (EncodeAll(crc, records) + junk);
    if records == [] {
      assert file[|done|..] == junk;
    } else {
      var r, tail, e := records[0], records[1..], Encode(crc, records[0]);
      EncodeFront(crc, records);
      assert file[|done|..] == e + (EncodeAll(crc, tail) + junk);
      assert file == (done + e) + (EncodeAll(crc, tail) + junk);
      ParseEncoded(crc, r, EncodeAll(crc, tail) + junk, previous, snapshot);
      TailContinues(records, previous, snapshot);
      hide EncodeAll, Continues;
      ReadUpto(crc, done + e, tail, junk, snapshot, r.index, Keep(sofar, r, |e|, snapshot));
    }
  }

  lemma TailContinues(records: seq<Record>, previous: nat, snapshot: nat)
    requires records != [] && Continues(records, previous, snapshot)
    ensures Continues(records[1..], records[0].index, snapshot)
    ensures Before(records[1..], records[0].index) == Before(records, previous)
  {
    forall i | 0 <= i < |records| - 1
      ensures Encodable(records[1..][i]) && records[1..][i].index == records[0].index + 1 + i
    {
      assert records[1..][i] == records[i + 1];
    }
  }

  lemma EmptyParse(crc: Bytes -> nat, previous: nat, snapshot: nat)
    ensures ParseRecord(crc, [], previous, snapshot) == Torn
  {
  }

  /** A record that does not continue what was read is not accepted. */
  lemma ParseGap(crc: Bytes -> nat, r: Record, rest: Bytes, previous: nat, snapshot: nat)
    requires r.index < TWO_64
    requires if previous == 0 then r.index != 1 && r.index != snapshot + 1 else r.index != previous + 1
    ensures !ParseRecord(crc, Encode(crc, r) + rest, previous, snapshot).Whole?
  {
    var b := Encode(crc, r) + rest;
    Widths();
    BigRoundTrip(r.index, 8);
    assert b[..HEADER] == Header(r);
    HeaderParts(r, b);
  }

  /** The log is the part of `whole` beyond the snapshot, each record at its offset in the file
      that holds all of `whole`. */
  ghost predicate Recovers(crc: Bytes -> nat, log: Log, whole: seq<Record>, snapshot: nat) {
    && log.end == |EncodeAll(crc, whole)| && |log.records| == |log.offsets| <= |whole|
    && var c := |whole| - |log.records|;
    && log.records == whole[c..]
    && (forall i :: 0 <= i < c ==> whole[i].index <= snapshot)
    && (forall i :: 0 <= i < |log.records| ==> log.records[i].index > snapshot)
    && (forall i :: 0 <= i < |log.records| ==> log.offsets[i] == |EncodeAll(crc, whole[..c + i])|)
  }

  /** Keeping a chained run recovers it. */
  lemma {:induction false} KeepAllExact(crc: Bytes -> nat, records: seq<Record>, snapshot: nat)
    requires records != [] ==> Chained(records, records[0].index)
    ensures Recovers(crc, KeepAll(crc, NOTHING, records, snapshot), records, snapshot)
  {
    if records != [] {
      hide Encode, Recovers;
      var n := |records| - 1;
      assert n > 0 ==> Chained(records[..n], records[..n][0].index);
      KeepAllExact(crc, records[..n], snapshot);
      KeepLast(crc, NOTHING, records, snapshot);
      hide KeepAll;
      RecoversOneMore(crc, KeepAll(crc, NOTHING, records[..n], snapshot), records, snapshot);
    } else {
      hide Encode;
    }
  }

  lemma RecoversOneMore(crc: Bytes -> nat, log: Log, records: seq<Record>, snapshot: nat)
    requires records != [] && Chained(records, records[0].index)
    requires Recovers(crc, log, records[..|records| - 1], snapshot)
    ensures var n := |records| - 1;
      Recovers(crc, Keep(log, records[n], |Encode(crc, records[n])|, snapshot), records, snapshot)
  {
    var n := |records| - 1;
    if records[n].index > snapshot {
      RecoversKept(crc, log, records, snapshot);
    } else {
      RecoversCovered(crc, log, records, snapshot);
    }
  }

  lemma RecoversKept(crc: Bytes -> nat, log: Log, records: seq<Record>, snapshot: nat)
    requires records != [] && records[|records| - 1].index > snapshot
    requires Recovers(crc, log, records[..|records| - 1], snapshot)
    ensures var n := |records| - 1;
      Recovers(crc, Keep(log, records[n], |Encode(crc, records[n])|, snapshot), records, snapshot)
  {
    hide Encode;
    var n := |records| - 1;
    var whole, c, log' := records[..n], n - |log.records|, Keep(log, records[n], |Encode(crc, records[n])|, snapshot);
    assert |EncodeAll(crc, records)| == |EncodeAll(crc, whole)| + |Encode(crc, records[n])|;
    hide EncodeAll;
    assert records[c..] == whole[c..] + [records[n]];
    OffsetsKept(crc, log, log', records, c);
  }

  lemma OffsetsKept(crc: Bytes -> nat, log: Log, log': Log, records: seq<Record>, c: nat)
    requires records != [] && |log.records| == |log.offsets| && c + |log.records| == |records| - 1
    requires log'.records == log.records + [records[|records| - 1]] && log'.offsets == log.offsets + [log.end]
    requires var whole := records[..|records| - 1];
      && log.end == |EncodeAll(crc, whole)|
      && forall i :: 0 <= i < |log.records| ==> log.offsets[i] == |EncodeAll(crc, whole[..c + i])|
    ensures forall i :: 0 <= i < |log'.records| ==> log'.offsets[i] == |EncodeAll(crc, records[..c + i])|
  {
    hide EncodeAll;
    var whole := records[..|records| - 1];
    forall i | 0 <= i < |log'.records| ensures log'.offsets[i] == |EncodeAll(crc, records[..c + i])| {
      if i < |log.records| { assert whole[..c + i] == records[..c + i]; } else { assert records[..c + i] == whole; }
    }
  }

  lemma RecoversCovered(crc: Bytes -> nat, log: Log, records: seq<Record>, snapshot: nat)
    requires records != [] && Chained(records, records[0].index) && records[|records| - 1].index <= snapshot
    requires Recovers(crc, log, records[..|records| - 1], snapshot)
    ensures var n := |records| - 1;
      Recovers(crc, Keep(log, records[n], |Encode(crc, records[n])|, snapshot), records, snapshot)
  {
    var n := |records| - 1;
    assert |EncodeAll(crc, records)| == |EncodeAll(crc, records[..n])| + |Encode(crc, records[n])|;
    hide Encode, EncodeAll;
    forall i | 0 <= i < n ensures records[i].index <= snapshot { assert records[i].index <= records[n].index; }
  }

  lemma {:induction false} KeepLast(crc: Bytes -> nat, sofar: Log, records: seq<Record>, snapshot: nat)
    requires records != []
    ensures var n := |records| - 1;
      KeepAll(crc, sofar, records, snapshot)
      == Keep(KeepAll(crc, sofar, records[..n], snapshot), records[n], |Encode(crc, records[n])|, snapshot)
    decreases |records|
  {
    var n := |records| - 1;
    if n > 0 {
      KeepLast(crc, Keep(sofar, records[0], |Encode(crc, records[0])|, snapshot), records[1..], snapshot);
      assert records[1..][..n - 1] == records[..n][1..];
    }
  }

  /** How many records end within k bytes, said without recursion. */
  lemma {:induction false} WholeExact(crc: Bytes -> nat, records: seq<Record>, k: nat)
    ensures var n := WholeWithin(crc, records, k);
      && |EncodeAll(crc, records[..n])| <= k
      && (n < |records| ==> |EncodeAll(crc, records[..n + 1])| > k)
  {
    hide Encode;
    if records != [] && |Encode(crc, records[0])| <= k {
      var n := WholeWithin(crc, records, k);
      WholeExact(crc, records[1..], k - |Encode(crc, records[0])|);
      EncodeFront(crc, records[..n]);
      assert records[..n][1..] == records[1..][..n - 1];
      if n < |records| {
        EncodeFront(crc, records[..n + 1]);
        assert records[..n + 1][1..] == records[1..][..n];
      }
    } else if records != [] {
      assert records[..1] == [records[0]];
      EncodeFront(crc, records[..1]);
    }
  }

  lemma {:induction false} EncodeSplit(crc: Bytes -> nat, a: seq<Record>, b: seq<Record>)
    ensures EncodeAll(crc, a + b) == EncodeAll(crc, a) + EncodeAll(crc, b)
    decreases |b|
  {
    hide Encode;
    if b == [] {
      assert a + b == a;
    } else {
      var n := |b| - 1;
      EncodeSplit(crc, a, b[..n]);
      assert (a + b)[..|a + b| - 1] == a + b[..n] && (a + b)[|a + b| - 1] == b[n];
      var x, y, z := EncodeAll(crc, a), EncodeAll(crc, b[..n]), Encode(crc, b[n]);
      assert (x + y) + z == x + (y + z);
    }
  }

  /** A cut file is the file of its whole records and part of the next. */
  lemma CutParts(crc: Bytes -> nat, records: seq<Record>, k: nat) returns (rest: Bytes)
    requires k <= |EncodeAll(crc, records)|
    ensures var n := WholeWithin(crc, records, k);
      && EncodeAll(crc, records)[..k] == EncodeAll(crc, records[..n]) + rest
      && (if n == |records| then rest == []
          else |rest| < |Encode(crc, records[n])| && rest == Encode(crc, records[n])[..|rest|])
  {
    hide Encode, WholeWithin;
    var n := WholeWithin(crc, records, k);
    WholeExact(crc, records, k);
    EncodeSplit(crc, records[..n], records[n..]);
    assert records[..n] + records[n..] == records;
    var front, back := EncodeAll(crc, records[..n]), EncodeAll(crc, records[n..]);
    rest := back[..k - |front|];
    if n == |records| {
      assert records[..n] == records;
    } else {
      EncodeFront(crc, records[n..]);
      assert records[..n + 1][..n] == records[..n];
    }
  }

  /** Nothing follows the run, or a record that does not continue it. */
  predicate Stops(run: seq<Record>, tail: seq<Record>, snapshot: nat) {
    tail != [] ==>
      if run == [] then tail[0].index != 1 && tail[0].index != snapshot + 1
      else tail[0].index != run[|run| - 1].index + 1
  }

  /** Torn-tail recovery: a log file, cut at any byte, whose first records up to a gap, if it has one, start at
      1 or right after the snapshot. It reads back as exactly those of them that are whole and beyond the
      snapshot, each at its offset, and the valid end is where the last of them ends. */
  lemma TornTail(crc: Bytes -> nat, run: seq<Record>, tail: seq<Record>, k: nat, snapshot: nat)
    requires k <= |EncodeAll(crc, run + tail)| && Continues(run, 0, snapshot) && Stops(run, tail, snapshot)
    requires forall i :: 0 <= i < |tail| ==> Encodable(tail[i])
    ensures var n := WholeWithin(crc, run + tail, k);
      && Recovers(crc, ReadFrom(crc, EncodeAll(crc, run + tail)[..k], snapshot, 0, NOTHING),
                  if n <= |run| then run[..n] else run, snapshot)
      && |EncodeAll(crc, (run + tail)[..n])| <= k
      && (n < |run + tail| ==> |EncodeAll(crc, (run + tail)[..n + 1])| > k)
  {
    hide Encode, ReadFrom, KeepAll, Recovers, EncodeAll, Encodable;
    var records := run + tail;
    var n := WholeWithin(crc, records, k);
    WholeExact(crc, records, k);
    var rest := CutParts(crc, records, k);
    var kept, junk := WholePart(crc, run, tail, n, rest, snapshot);
    ReadUpto(crc, [], kept, junk, snapshot, 0, NOTHING);
    assert [] + (EncodeAll(crc, kept) + junk) == EncodeAll(crc, kept) + junk;
    KeepAllExact(crc, kept, snapshot);
  }

  /** What is accepted of a cut file, and what follows it there. */
  lemma WholePart(crc: Bytes -> nat, run: seq<Record>, tail: seq<Record>, n: nat, rest: Bytes, snapshot: nat)
    returns (kept: seq<Record>, junk: Bytes)
    requires n <= |run + tail| && Continues(run, 0, snapshot) && Stops(run, tail, snapshot)
    requires forall i :: 0 <= i < |tail| ==> Encodable(tail[i])
    requires if n == |run + tail| then rest == []
             else |rest| < |Encode(crc, (run + tail)[n])| && rest == Encode(crc, (run + tail)[n])[..|rest|]
    ensures kept == if n <= |run| then run[..n] else run
    ensures Continues(kept, 0, snapshot) && !ParseRecord(crc, junk, Before(kept, 0), snapshot).Whole?
    ensures EncodeAll(crc, (run + tail)[..n]) + rest == EncodeAll(crc, kept) + junk
  {
    hide Encode, EncodeAll, ParseRecord;
    kept := if n <= |run| then run[..n] else run;
    assert kept != [] ==> kept[0] == run[0];
    if n <= |run| {
      junk := rest;
      assert (run + tail)[..n] == kept;
      if n == |run + tail| {
        EmptyParse(crc, Before(kept, 0), snapshot);
      } else {
        assert Encodable((run + tail)[n]);
        ParseCut(crc, (run + tail)[n], |rest|, Before(kept, 0), snapshot);
      }
    } else {
      var more := tail[..n - |run|];
      assert (run + tail)[..n] == run + more;
      EncodeSplit(crc, run, more);
      EncodeFront(crc, more);
      junk := EncodeAll(crc, more) + rest;
      assert junk == Encode(crc, tail[0]) + (EncodeAll(crc, more[1..]) + rest);
      assert Encodable(tail[0]);
      ParseGap(crc, tail[0], EncodeAll(crc, more[1..]) + rest, Before(run, 0), snapshot);
    }
  }
}
