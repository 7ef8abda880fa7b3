/** The HTU31D's CRC-8 (components/htu31d/htu31d.cpp, crc8): polynomial 0x31,
    register starting at 0x00, bytes fed most significant bit first, no
    reflection and no final XOR. */
module Htu31dCrc {

  type byte = bv8

  const POLY: byte := 0x31

  /** Bits per byte: the inner loop's count. */
  const BITS: nat := 8

  /** One step of the inner loop: shift left, and XOR the polynomial in when
      the bit shifted out was set. */
  function Shift(crc: byte): byte {
    if crc & 0x80 != 0 then (crc << 1) ^ POLY else crc << 1
  }

  /** n steps of the inner loop. */
  function ShiftN(crc: byte, n: nat): byte {
    if n == 0 then crc else Shift(ShiftN(crc, n - 1))
  }

  /** What the outer loop does with one byte: XOR it into the register, then
      shift eight times. */
  function Absorb(crc: byte, b: byte): byte {
    ShiftN(crc ^ b, BITS)
  }

  /** The CRC of a byte string, fed front to back into a register that starts at 0. */
  function Crc8(data: seq<byte>): byte {
    if |data| == 0 then 0 else Absorb(Crc8(data[..|data| - 1]), data[|data| - 1])
  }

  /** The source's loop: `crc8(data, len)` reads the first `len` bytes through an
      advancing read position, counting `len` down to zero, and runs eight shifts per byte. */
  method ComputeCrc8(data: seq<byte>, len: nat) returns (crc: byte)
    requires len <= |data|
    ensures crc == Crc8(data[..len])
  {
    crc := 0x00;
    var p := 0;
    var j := len;
    while j != 0
      invariant 0 <= j <= len && p == len - j
      invariant crc == Crc8(data[..p])
    {
      crc := crc ^ data[p];
      ghost var mixed := crc;
      p := p + 1;
      var i := BITS;
      while i != 0
        invariant 0 <= i <= BITS
        invariant crc == ShiftN(mixed, BITS - i)
      {
        crc := if crc & 0x80 != 0 then (crc << 1) ^ POLY else crc << 1;
        i := i - 1;
      }
      assert data[..p][..p - 1] == data[..p - 1];
      j := j - 1;
    }
  }

  /** Shift loses no information: the polynomial's lowest bit records the bit
      shifted out. */
  lemma ShiftInjective(a: byte, b: byte)
    ensures Shift(a) == Shift(b) ==> a == b
  {
  }

  lemma {:induction false} ShiftNInjective(a: byte, b: byte, n: nat)
    ensures ShiftN(a, n) == ShiftN(b, n) ==> a == b
  {
    if n > 0 {
      ShiftInjective(ShiftN(a, n - 1), ShiftN(b, n - 1));
      ShiftNInjective(a, b, n - 1);
    }
  }

  lemma {:induction false} ShiftNZero(n: nat)
    ensures ShiftN(0, n) == 0
  {
    if n > 0 {
      ShiftNZero(n - 1);
    }
  }

  /** With no initial value and no final XOR, a string of zero bytes of any
      length has CRC 0. */
  lemma {:induction false} CrcOfZeros(n: nat)
    ensures Crc8(seq(n, _ => 0 as byte)) == 0
  {
    if n > 0 {
      var z := seq(n, _ => 0 as byte);
      assert z[..n - 1] == seq(n - 1, _ => 0 as byte);
      CrcOfZeros(n - 1);
      ShiftNZero(BITS);
    }
  }

  /** The receiver's test `block[n] == crc8(block, n)` accepts a block exactly
      when the CRC of the whole block, check byte included, is 0: appending
      the CRC is the one way to make a block the check accepts. */
  lemma CheckByteIff(data: seq<byte>, check: byte)
    ensures Crc8(data + [check]) == 0 <==> check == Crc8(data)
  {
    assert (data + [check])[..|data|] == data;
    ShiftNZero(BITS);
    ShiftNInjective(Crc8(data) ^ check, 0, BITS);
  }

  /** Fixed check values: the triplets 0x80 0x00 0x23 and 0x40 0x00 0x89
      pass the receiver's test. */
  lemma CheckValue8000()
    ensures Crc8([0x80, 0x00]) == 0x23
  {
    var d: seq<byte> := [0x80, 0x00];
    assert d[..1][..0] == [];
    assert ShiftN(0x80, 1) == 0x31;
    assert ShiftN(0x80, 2) == 0x62;
    assert ShiftN(0x80, 3) == 0xc4;
    assert ShiftN(0x80, 4) == 0xb9;
    assert ShiftN(0x80, 5) == 0x43;
    assert ShiftN(0x80, 6) == 0x86;
    assert ShiftN(0x80, 7) == 0x3d;
    assert Crc8(d[..1]) == ShiftN(0x80, 8) == 0x7a;
    assert ShiftN(0x7a, 1) == 0xf4;
    assert ShiftN(0x7a, 2) == 0xd9;
    assert ShiftN(0x7a, 3) == 0x83;
    assert ShiftN(0x7a, 4) == 0x37;
    assert ShiftN(0x7a, 5) == 0x6e;
    assert ShiftN(0x7a, 6) == 0xdc;
    assert ShiftN(0x7a, 7) == 0x89;
    assert Crc8(d) == ShiftN(0x7a, 8) == 0x23;
  }

  lemma CheckValue4000()
    ensures Crc8([0x40, 0x00]) == 0x89
  {
    var d: seq<byte> := [0x40, 0x00];
    assert d[..1][..0] == [];
    assert ShiftN(0x40, 1) == 0x80;
    assert ShiftN(0x40, 2) == 0x31;
    assert ShiftN(0x40, 3) == 0x62;
    assert ShiftN(0x40, 4) == 0xc4;
    assert ShiftN(0x40, 5) == 0xb9;
    assert ShiftN(0x40, 6) == 0x43;
    assert ShiftN(0x40, 7) == 0x86;
    assert Crc8(d[..1]) == ShiftN(0x40, 8) == 0x3d;
    assert ShiftN(0x3d, 1) == 0x7a;
    assert ShiftN(0x3d, 2) == 0xf4;
    assert ShiftN(0x3d, 3) == 0xd9;
    assert ShiftN(0x3d, 4) == 0x83;
    assert ShiftN(0x3d, 5) == 0x37;
    assert ShiftN(0x3d, 6) == 0x6e;
    assert ShiftN(0x3d, 7) == 0xdc;
    assert Crc8(d) == ShiftN(0x3d, 8) == 0x89;
  }
}
