/** The bytes of an entry's data: a command as it is, a voter change as prefixed JSON. Every byte string is
    the data of exactly one payload, and what a leader writes reads back. */
module ConfigText {
  import opened RaftTypes
  import opened BigEndian

  function Ascii(text: string): (r: Bytes)
    ensures |r| == |text|
  {
    seq(|text|, i requires 0 <= i < |text| => (text[i] as int % 256) as byte)
  }

  const PREFIX: Bytes := [0] + Ascii("lsmdb-member-") + [1]
  const JOINT: Bytes := Ascii("{\"phase\":\"joint\",")
  const FINAL: Bytes := Ascii("{\"phase\":\"final\",")
  const OLD: Bytes := Ascii("\"old\":[")
  const NEW: Bytes := Ascii("\"new\":[")
  const NEXT: Bytes := Ascii("],")
  const END: Bytes := Ascii("]}")
  const COMMA: byte := 44
  const CLOSE: byte := 93
  const ZERO: byte := 48

  // ---- writing ---------------------------------------------------------

  function DigitsOf(n: nat): (r: Bytes)
    ensures |r| == DecimalDigits(n)
  {
    if n < 10 then [(48 + n) as byte] else DigitsOf(n / 10) + [(48 + n % 10) as byte]
  }

  function IdsText(ids: seq<nat>): (r: Bytes)
    ensures |r| == IdListBytes(ids)
  {
    if ids == [] then []
    else if |ids| == 1 then DigitsOf(ids[0])
    else DigitsOf(ids[0]) + [COMMA] + IdsText(ids[1..])
  }

  function NewText(ids: seq<nat>): Bytes { NEW + (IdsText(ids) + END) }

  function CommandText(c: ConfigCommand): Bytes {
    match c
    case Joint(oldVoters, newVoters) =>
      if oldVoters == [] then JOINT + NewText(newVoters)
      else JOINT + (OLD + (IdsText(oldVoters) + (NEXT + NewText(newVoters))))
    case Final(newVoters) => FINAL + NewText(newVoters)
  }

  /** Entry.Data */
  function PayloadText(p: Payload): Bytes {
    match p
    case Command(data) => data
    case Config(c) => PREFIX + CommandText(c)
    case BadConfig(rest) => PREFIX + rest
  }

  /** The membership of a snapshot file. */
  function MembershipText(m: Membership): Bytes {
    Ascii("{\"voters\":")
    + (if m.voters == [] then Ascii("null") else Ascii("[") + IdsText(m.voters) + Ascii("]"))
    + (if m.joint == [] then [] else Ascii(",\"joint_voters\":[") + IdsText(m.joint) + Ascii("]"))
    + (if m.index == 0 then [] else Ascii(",\"index\":") + DigitsOf(m.index))
    + Ascii("}")
  }

  // ---- reading ---------------------------------------------------------

  /** What follows `lead` in b. */
  function Skip(b: Bytes, lead: Bytes): Option<Bytes> { if lead <= b then Some(b[|lead|..]) else None }

  predicate IsDigit(x: byte) { 48 <= x < 58 }

  /** How many digits b starts with. */
  function DigitRun(b: Bytes): (k: nat)
    ensures k <= |b| && (forall i :: 0 <= i < k ==> IsDigit(b[i])) && (k < |b| ==> !IsDigit(b[k]))
  {
    if b == [] || !IsDigit(b[0]) then 0 else 1 + DigitRun(b[1..])
  }

  function ValueOf(digits: Bytes): nat
    requires forall i :: 0 <= i < |digits| ==> IsDigit(digits[i])
  {
    if digits == [] then 0
    else
      assert IsDigit(digits[|digits| - 1]);
      ValueOf(digits[..|digits| - 1]) * 10 + (digits[|digits| - 1] - 48) as nat
  }

  /** One or more ids and what follows them. */
  function ParseIds(b: Bytes): Option<(seq<nat>, Bytes)>
    decreases |b|
  {
    var k := DigitRun(b);
    if k == 0 || (k > 1 && b[0] == ZERO) || ValueOf(b[..k]) >= TWO_64 then None
    else MoreIds(ValueOf(b[..k]), b[k..])
  }

  /** The id n and those that follow it after a comma. */
  function MoreIds(n: nat, after: Bytes): Option<(seq<nat>, Bytes)>
    decreases |after|
  {
    if after == [] || after[0] != COMMA then Some(([n], after))
    else
      match ParseIds(after[1..])
      case None => None
      case Some((ids, rest)) => Some(([n] + ids, rest))
  }

  function ParseNew(b: Bytes): Option<seq<nat>> {
    match Skip(b, NEW)
    case None => None
    case Some(list) =>
      if list == END then Some([])
      else
        match ParseIds(list)
        case None => None
        case Some((ids, rest)) => if rest == END then Some(ids) else None
  }

  function ParseJoint(b: Bytes): Option<ConfigCommand> {
    match Skip(b, OLD)
    case None => (match ParseNew(b) case None => None case Some(ids) => Some(Joint([], ids)))
    case Some(list) =>
      match ParseIds(list)
      case None => None
      case Some((oldVoters, rest)) =>
        match Skip(rest, NEXT)
        case None => None
        case Some(more) => match ParseNew(more) case None => None case Some(ids) => Some(Joint(oldVoters, ids))
  }

  function ParseCommand(b: Bytes): Option<ConfigCommand> {
    match Skip(b, JOINT)
    case Some(rest) => ParseJoint(rest)
    case None =>
      match Skip(b, FINAL)
      case None => None
      case Some(rest) => match ParseNew(rest) case None => None case Some(ids) => Some(Final(ids))
  }

  function PayloadOf(data: Bytes): Payload {
    match Skip(data, PREFIX)
    case None => Command(data)
    case Some(rest) => match ParseCommand(rest) case None => BadConfig(rest) case Some(c) => Config(c)
  }

  // ---- lengths ---------------------------------------------------------

  /** The accounted sizes are the lengths of the texts. */
  lemma TextLengths(p: Payload, m: Membership)
    ensures |PayloadText(p)| == DataBytes(p) && |MembershipText(m)| == MembershipBytes(m)
  {
  }

  // ---- round trips -----------------------------------------------------

  lemma SkipSame(lead: Bytes, rest: Bytes)
    ensures Skip(lead + rest, lead) == Some(rest)
  {
    assert (lead + rest)[|lead|..] == rest;
  }

  lemma SkipOther(lead: Bytes, b: Bytes, i: nat)
    requires i < |lead| && i < |b| && lead[i] != b[i]
    ensures Skip(b, lead) == None
  {
  }

  lemma SkipSound(b: Bytes, lead: Bytes)
    ensures Skip(b, lead).Some? ==> b == lead + Skip(b, lead).value
  {
  }

  lemma {:induction false} DigitsValue(n: nat)
    ensures var d := DigitsOf(n); forall i :: 0 <= i < |d| ==> IsDigit(d[i])
    ensures ValueOf(DigitsOf(n)) == n && (n >= 10 ==> DigitsOf(n)[0] != ZERO)
    ensures n > 0 ==> DigitsOf(n)[0] != ZERO
  {
    if n >= 10 {
      DigitsValue(n / 10);
      var d := DigitsOf(n);
      assert d[..|d| - 1] == DigitsOf(n / 10);
    } else {
      assert DigitsOf(n)[..0] == [];
    }
  }

  lemma {:induction false} ValueDigits(digits: Bytes)
    requires digits != [] && (forall i :: 0 <= i < |digits| ==> IsDigit(digits[i]))
    requires |digits| > 1 ==> digits[0] != ZERO
    ensures DigitsOf(ValueOf(digits)) == digits && (digits[0] != ZERO ==> ValueOf(digits) > 0)
  {
    var n := |digits| - 1;
    if n > 0 {
      ValueDigits(digits[..n]);
      assert digits == digits[..n] + [digits[n]];
      var v, x := ValueOf(digits[..n]), digits[n] as nat - 48;
      assert ValueOf(digits) == v * 10 + x && (v * 10 + x) / 10 == v && (v * 10 + x) % 10 == x;
    } else {
      assert digits[..0] == [];
      assert digits == [digits[0]];
    }
  }

  lemma {:induction false} RunExact(digits: Bytes, rest: Bytes)
    requires forall i :: 0 <= i < |digits| ==> IsDigit(digits[i])
    requires rest == [] || !IsDigit(rest[0])
    ensures DigitRun(digits + rest) == |digits|
  {
    if digits == [] {
      assert digits + rest == rest;
    } else {
      assert (digits + rest)[1..] == digits[1..] + rest;
      RunExact(digits[1..], rest);
    }
  }

  predicate InRange(ids: seq<nat>) { forall i :: 0 <= i < |ids| ==> ids[i] < TWO_64 }

  lemma FirstId(n: nat, after: Bytes)
    requires n < TWO_64 && (after == [] || !IsDigit(after[0]))
    ensures ParseIds(DigitsOf(n) + after) == MoreIds(n, after)
  {
    var d, b := DigitsOf(n), DigitsOf(n) + after;
    DigitsValue(n);
    RunExact(d, after);
    hide DigitsOf, ValueOf, DigitRun, MoreIds;
    assert b[..|d|] == d && b[|d|..] == after;
  }

  lemma IdsFront(ids: seq<nat>)
    requires ids != []
    ensures ids == [ids[0]] + ids[1..]
    ensures IdsText(ids) == if |ids| == 1 then DigitsOf(ids[0]) else DigitsOf(ids[0]) + [COMMA] + IdsText(ids[1..])
  {
  }

  lemma Regroup(a: Bytes, x: byte, b: Bytes, rest: Bytes)
    ensures (a + [x] + b) + rest == a + ([x] + (b + rest))
  {
  }

  /** A list that is followed by its closing bracket reads back. */
  lemma {:induction false} IdsBack(ids: seq<nat>, rest: Bytes)
    requires ids != [] && InRange(ids) && rest != [] && rest[0] == CLOSE
    ensures ParseIds(IdsText(ids) + rest) == Some((ids, rest))
    decreases |ids|
  {
    IdsFront(ids);
    hide ParseIds, DigitsOf, IdsText;
    if |ids| == 1 {
      FirstId(ids[0], rest);
      assert ids == [ids[0]];
    } else {
      var more := IdsText(ids[1..]) + rest;
      Regroup(DigitsOf(ids[0]), COMMA, IdsText(ids[1..]), rest);
      FirstId(ids[0], [COMMA] + more);
      IdsBack(ids[1..], rest);
      assert ([COMMA] + more)[1..] == more;
    }
  }

  lemma FirstSound(b: Bytes)
    requires ParseIds(b).Some?
    ensures var k := DigitRun(b); var n := ValueOf(b[..k]);
      b == DigitsOf(n) + b[k..] && n < TWO_64 && ParseIds(b) == MoreIds(n, b[k..])
  {
    hide DigitsOf, ValueOf, DigitRun, MoreIds;
    var k := DigitRun(b);
    ValueDigits(b[..k]);
    assert b == b[..k] + b[k..];
  }

  /** What is read as ids is their text. */
  lemma {:induction false} IdsSound(b: Bytes)
    ensures var r := ParseIds(b);
      r.Some? ==> r.value.0 != [] && InRange(r.value.0) && b == IdsText(r.value.0) + r.value.1
    decreases |b|
  {
    if ParseIds(b).Some? {
      FirstSound(b);
      hide ParseIds, DigitsOf, ValueOf, DigitRun;
      var after := b[DigitRun(b)..];
      var (ids, rest) := ParseIds(b).value;
      hide IdsText;
      IdsFront(ids);
      if after != [] && after[0] == COMMA {
        IdsSound(after[1..]);
        assert ids[1..] == ParseIds(after[1..]).value.0;
        assert after == [COMMA] + after[1..];
        Regroup(DigitsOf(ids[0]), COMMA, IdsText(ids[1..]), rest);
      }
    }
  }

  lemma NewBack(ids: seq<nat>)
    requires InRange(ids)
    ensures ParseNew(NewText(ids)) == Some(ids)
  {
    SkipSame(NEW, IdsText(ids) + END);
    if ids == [] {
      assert IdsText(ids) + END == END;
    } else {
      IdsBack(ids, END);
      DigitsValue(ids[0]);
      assert (IdsText(ids) + END)[0] == IdsText(ids)[0] == DigitsOf(ids[0])[0];
    }
  }

  lemma NewSound(b: Bytes)
    ensures ParseNew(b).Some? ==> InRange(ParseNew(b).value) && b == NewText(ParseNew(b).value)
  {
    SkipSound(b, NEW);
    if Skip(b, NEW).Some? {
      IdsSound(Skip(b, NEW).value);
      assert [] + END == END;
    }
  }

  predicate InRangeCommand(c: ConfigCommand) { InRange(c.newVoters) && (c.Joint? ==> InRange(c.oldVoters)) }

  lemma CommandBack(c: ConfigCommand)
    requires InRangeCommand(c)
    ensures ParseCommand(CommandText(c)) == Some(c)
  {
    hide ParseIds, IdsText, ParseNew;
    NewBack(c.newVoters);
    match c
    case Joint(oldVoters, newVoters) =>
      if oldVoters == [] {
        SkipSame(JOINT, NewText(newVoters));
        SkipOther(OLD, NewText(newVoters), 1);
      } else {
        var after := NEXT + NewText(newVoters);
        SkipSame(JOINT, OLD + (IdsText(oldVoters) + after));
        SkipSame(OLD, IdsText(oldVoters) + after);
        IdsBack(oldVoters, after);
        SkipSame(NEXT, NewText(newVoters));
      }
    case Final(newVoters) =>
      SkipOther(JOINT, CommandText(c), 10);
      SkipSame(FINAL, NewText(newVoters));
  }

  lemma JointSound(b: Bytes)
    ensures var r := ParseJoint(b);
      r.Some? ==> r.value.Joint? && InRangeCommand(r.value) && JOINT + b == CommandText(r.value)
  {
    hide ParseIds, IdsText, ParseNew, NewText;
    SkipSound(b, OLD);
    match Skip(b, OLD)
    case None => NewSound(b);
    case Some(list) =>
      IdsSound(list);
      if ParseIds(list).Some? {
        var rest := ParseIds(list).value.1;
        SkipSound(rest, NEXT);
        if Skip(rest, NEXT).Some? { NewSound(Skip(rest, NEXT).value); }
      }
  }

  lemma CommandSound(b: Bytes)
    ensures var r := ParseCommand(b); r.Some? ==> InRangeCommand(r.value) && b == CommandText(r.value)
  {
    hide ParseJoint, ParseNew, NewText;
    SkipSound(b, JOINT);
    SkipSound(b, FINAL);
    match Skip(b, JOINT)
    case Some(rest) => JointSound(rest);
    case None => if Skip(b, FINAL).Some? { NewSound(Skip(b, FINAL).value); }
  }

  /** A payload that some data stands for: a command does not start like a voter change, a bad voter change
      does not read as a good one, and ids are 64-bit. */
  predicate Genuine(p: Payload) {
    match p
    case Command(data) => !(PREFIX <= data)
    case Config(c) => InRangeCommand(c)
    case BadConfig(rest) => ParseCommand(rest).None?
  }

  /** Exactly the genuine payloads read back from their data. */
  lemma PayloadBack(p: Payload)
    ensures PayloadOf(PayloadText(p)) == p <==> Genuine(p)
  {
    hide ParseCommand, CommandText;
    match p
    case Command(data) => {}
    case Config(c) =>
      SkipSame(PREFIX, CommandText(c));
      if InRangeCommand(c) { CommandBack(c); } else { CommandSound(CommandText(c)); }
    case BadConfig(rest) => SkipSame(PREFIX, rest);
  }

  /** Any data is the data of the payload it reads as, and that payload is genuine. */
  lemma DataBack(data: Bytes)
    ensures Genuine(PayloadOf(data)) && PayloadText(PayloadOf(data)) == data
  {
    hide ParseCommand, CommandText;
    SkipSound(data, PREFIX);
    if Skip(data, PREFIX).Some? { CommandSound(Skip(data, PREFIX).value); }
  }
}
