/** Fixed-width big-endian numbers. */
module BigEndian {
  import opened RaftTypes

  const TWO_32: nat := 0x1_0000_0000
  const TWO_64: nat := 0x1_0000_0000_0000_0000

  function Power256(width: nat): (r: nat)
    ensures r > 0
  {
    if width == 0 then 1 else 256 * Power256(width - 1)
  }

  function PutBig(n: nat, width: nat): (r: Bytes)
    ensures |r| == width
  {
    if width == 0 then [] else PutBig(n / 256, width - 1) + [(n % 256) as byte]
  }

  function GetBig(b: Bytes): nat {
    if b == [] then 0 else GetBig(b[..|b| - 1]) * 256 + b[|b| - 1] as nat
  }

  lemma {:induction false} BigRoundTrip(n: nat, width: nat)
    requires n < Power256(width)
    ensures GetBig(PutBig(n, width)) == n
  {
    if width > 0 {
      BigRoundTrip(n / 256, width - 1);
      assert PutBig(n, width)[..width - 1] == PutBig(n / 256, width - 1);
    }
  }

  lemma Widths()
    ensures Power256(8) == TWO_64 && Power256(4) == TWO_32
  {
    assert Power256(2) == 256 * Power256(1) == 65536;
    assert Power256(4) == 256 * Power256(3) == 256 * (256 * Power256(2));
    assert Power256(6) == 256 * Power256(5) == 256 * (256 * Power256(4));
    assert Power256(8) == 256 * Power256(7) == 256 * (256 * Power256(6));
  }

  lemma FrontSlice(a: Bytes, b: Bytes, from: nat, to: nat)
    requires from <= to <= |a|
    ensures (a + b)[from..to] == a[from..to]
  {
  }
}
