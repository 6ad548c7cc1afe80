/**
  The CRC-8 of ground/gcs/src/libs/utils/crc.cpp: a table of 256 entries, one step per byte, against
  bit-by-bit division by the polynomial 0x07.
 */
module Crc8 {
  import opened Checksums

  type Byte = bv8

  const POLYNOMIAL: Byte := 0x07

  function Xor(a: Byte, b: Byte): Byte {
    a ^ b
  }

  function Shift(r: Byte): Byte {
    if r & 0x80 != 0 then (r << 1) ^ POLYNOMIAL else r << 1
  }

  function Double(r: Byte): Byte {
    r << 1
  }

  predicate High(r: Byte) {
    r & 0x80 != 0
  }

  function Shift8(r: Byte): Byte {
    Times8(Shift, r)
  }

  function Checksum(crc: Byte, data: seq<Byte>): Byte {
    Fold(Xor, Shift8, crc, data)
  }

  // ------------------------------------------------------------------ the table

  /** crc_table */
  function CrcTable(i: bv8): bv8 {
    if i < 0x10 then Row0(i)
    else if i < 0x20 then Row1(i)
    else if i < 0x30 then Row2(i)
    else if i < 0x40 then Row3(i)
    else if i < 0x50 then Row4(i)
    else if i < 0x60 then Row5(i)
    else if i < 0x70 then Row6(i)
    else if i < 0x80 then Row7(i)
    else if i < 0x90 then Row8(i)
    else if i < 0xa0 then Row9(i)
    else if i < 0xb0 then Rowa(i)
    else if i < 0xc0 then Rowb(i)
    else if i < 0xd0 then Rowc(i)
    else if i < 0xe0 then Rowd(i)
    else if i < 0xf0 then Rowe(i)
    else Rowf(i)
  }

  function Row0(i: bv8): bv8 {
    if i == 0x00 then 0x00 else if i == 0x01 then 0x07 else if i == 0x02 then 0x0e else if i == 0x03 then 0x09
    else if i == 0x04 then 0x1c else if i == 0x05 then 0x1b else if i == 0x06 then 0x12 else if i == 0x07 then 0x15
    else if i == 0x08 then 0x38 else if i == 0x09 then 0x3f else if i == 0x0a then 0x36 else if i == 0x0b then 0x31
    else if i == 0x0c then 0x24 else if i == 0x0d then 0x23 else if i == 0x0e then 0x2a else 0x2d
  }

  function Row1(i: bv8): bv8 {
    if i == 0x10 then 0x70 else if i == 0x11 then 0x77 else if i == 0x12 then 0x7e else if i == 0x13 then 0x79
    else if i == 0x14 then 0x6c else if i == 0x15 then 0x6b else if i == 0x16 then 0x62 else if i == 0x17 then 0x65
    else if i == 0x18 then 0x48 else if i == 0x19 then 0x4f else if i == 0x1a then 0x46 else if i == 0x1b then 0x41
    else if i == 0x1c then 0x54 else if i == 0x1d then 0x53 else if i == 0x1e then 0x5a else 0x5d
  }

  function Row2(i: bv8): bv8 {
    if i == 0x20 then 0xe0 else if i == 0x21 then 0xe7 else if i == 0x22 then 0xee else if i == 0x23 then 0xe9
    else if i == 0x24 then 0xfc else if i == 0x25 then 0xfb else if i == 0x26 then 0xf2 else if i == 0x27 then 0xf5
    else if i == 0x28 then 0xd8 else if i == 0x29 then 0xdf else if i == 0x2a then 0xd6 else if i == 0x2b then 0xd1
    else if i == 0x2c then 0xc4 else if i == 0x2d then 0xc3 else if i == 0x2e then 0xca else 0xcd
  }

  function Row3(i: bv8): bv8 {
    if i == 0x30 then 0x90 else if i == 0x31 then 0x97 else if i == 0x32 then 0x9e else if i == 0x33 then 0x99
    else if i == 0x34 then 0x8c else if i == 0x35 then 0x8b else if i == 0x36 then 0x82 else if i == 0x37 then 0x85
    else if i == 0x38 then 0xa8 else if i == 0x39 then 0xaf else if i == 0x3a then 0xa6 else if i == 0x3b then 0xa1
    else if i == 0x3c then 0xb4 else if i == 0x3d then 0xb3 else if i == 0x3e then 0xba else 0xbd
  }

  function Row4(i: bv8): bv8 {
    if i == 0x40 then 0xc7 else if i == 0x41 then 0xc0 else if i == 0x42 then 0xc9 else if i == 0x43 then 0xce
    else if i == 0x44 then 0xdb else if i == 0x45 then 0xdc else if i == 0x46 then 0xd5 else if i == 0x47 then 0xd2
    else if i == 0x48 then 0xff else if i == 0x49 then 0xf8 else if i == 0x4a then 0xf1 else if i == 0x4b then 0xf6
    else if i == 0x4c then 0xe3 else if i == 0x4d then 0xe4 else if i == 0x4e then 0xed else 0xea
  }

  function Row5(i: bv8): bv8 {
    if i == 0x50 then 0xb7 else if i == 0x51 then 0xb0 else if i == 0x52 then 0xb9 else if i == 0x53 then 0xbe
    else if i == 0x54 then 0xab else if i == 0x55 then 0xac else if i == 0x56 then 0xa5 else if i == 0x57 then 0xa2
    else if i == 0x58 then 0x8f else if i == 0x59 then 0x88 else if i == 0x5a then 0x81 else if i == 0x5b then 0x86
    else if i == 0x5c then 0x93 else if i == 0x5d then 0x94 else if i == 0x5e then 0x9d else 0x9a
  }

  function Row6(i: bv8): bv8 {
    if i == 0x60 then 0x27 else if i == 0x61 then 0x20 else if i == 0x62 then 0x29 else if i == 0x63 then 0x2e
    else if i == 0x64 then 0x3b else if i == 0x65 then 0x3c else if i == 0x66 then 0x35 else if i == 0x67 then 0x32
    else if i == 0x68 then 0x1f else if i == 0x69 then 0x18 else if i == 0x6a then 0x11 else if i == 0x6b then 0x16
    else if i == 0x6c then 0x03 else if i == 0x6d then 0x04 else if i == 0x6e then 0x0d else 0x0a
  }

  function Row7(i: bv8): bv8 {
    if i == 0x70 then 0x57 else if i == 0x71 then 0x50 else if i == 0x72 then 0x59 else if i == 0x73 then 0x5e
    else if i == 0x74 then 0x4b else if i == 0x75 then 0x4c else if i == 0x76 then 0x45 else if i == 0x77 then 0x42
    else if i == 0x78 then 0x6f else if i == 0x79 then 0x68 else if i == 0x7a then 0x61 else if i == 0x7b then 0x66
    else if i == 0x7c then 0x73 else if i == 0x7d then 0x74 else if i == 0x7e then 0x7d else 0x7a
  }

  function Row8(i: bv8): bv8 {
    if i == 0x80 then 0x89 else if i == 0x81 then 0x8e else if i == 0x82 then 0x87 else if i == 0x83 then 0x80
    else if i == 0x84 then 0x95 else if i == 0x85 then 0x92 else if i == 0x86 then 0x9b else if i == 0x87 then 0x9c
    else if i == 0x88 then 0xb1 else if i == 0x89 then 0xb6 else if i == 0x8a then 0xbf else if i == 0x8b then 0xb8
    else if i == 0x8c then 0xad else if i == 0x8d then 0xaa else if i == 0x8e then 0xa3 else 0xa4
  }

  function Row9(i: bv8): bv8 {
    if i == 0x90 then 0xf9 else if i == 0x91 then 0xfe else if i == 0x92 then 0xf7 else if i == 0x93 then 0xf0
    else if i == 0x94 then 0xe5 else if i == 0x95 then 0xe2 else if i == 0x96 then 0xeb else if i == 0x97 then 0xec
    else if i == 0x98 then 0xc1 else if i == 0x99 then 0xc6 else if i == 0x9a then 0xcf else if i == 0x9b then 0xc8
    else if i == 0x9c then 0xdd else if i == 0x9d then 0xda else if i == 0x9e then 0xd3 else 0xd4
  }

  function Rowa(i: bv8): bv8 {
    if i == 0xa0 then 0x69 else if i == 0xa1 then 0x6e else if i == 0xa2 then 0x67 else if i == 0xa3 then 0x60
    else if i == 0xa4 then 0x75 else if i == 0xa5 then 0x72 else if i == 0xa6 then 0x7b else if i == 0xa7 then 0x7c
    else if i == 0xa8 then 0x51 else if i == 0xa9 then 0x56 else if i == 0xaa then 0x5f else if i == 0xab then 0x58
    else if i == 0xac then 0x4d else if i == 0xad then 0x4a else if i == 0xae then 0x43 else 0x44
  }

  function Rowb(i: bv8): bv8 {
    if i == 0xb0 then 0x19 else if i == 0xb1 then 0x1e else if i == 0xb2 then 0x17 else if i == 0xb3 then 0x10
    else if i == 0xb4 then 0x05 else if i == 0xb5 then 0x02 else if i == 0xb6 then 0x0b else if i == 0xb7 then 0x0c
    else if i == 0xb8 then 0x21 else if i == 0xb9 then 0x26 else if i == 0xba then 0x2f else if i == 0xbb then 0x28
    else if i == 0xbc then 0x3d else if i == 0xbd then 0x3a else if i == 0xbe then 0x33 else 0x34
  }

  function Rowc(i: bv8): bv8 {
    if i == 0xc0 then 0x4e else if i == 0xc1 then 0x49 else if i == 0xc2 then 0x40 else if i == 0xc3 then 0x47
    else if i == 0xc4 then 0x52 else if i == 0xc5 then 0x55 else if i == 0xc6 then 0x5c else if i == 0xc7 then 0x5b
    else if i == 0xc8 then 0x76 else if i == 0xc9 then 0x71 else if i == 0xca then 0x78 else if i == 0xcb then 0x7f
    else if i == 0xcc then 0x6a else if i == 0xcd then 0x6d else if i == 0xce then 0x64 else 0x63
  }

  function Rowd(i: bv8): bv8 {
    if i == 0xd0 then 0x3e else if i == 0xd1 then 0x39 else if i == 0xd2 then 0x30 else if i == 0xd3 then 0x37
    else if i == 0xd4 then 0x22 else if i == 0xd5 then 0x25 else if i == 0xd6 then 0x2c else if i == 0xd7 then 0x2b
    else if i == 0xd8 then 0x06 else if i == 0xd9 then 0x01 else if i == 0xda then 0x08 else if i == 0xdb then 0x0f
    else if i == 0xdc then 0x1a else if i == 0xdd then 0x1d else if i == 0xde then 0x14 else 0x13
  }

  function Rowe(i: bv8): bv8 {
    if i == 0xe0 then 0xae else if i == 0xe1 then 0xa9 else if i == 0xe2 then 0xa0 else if i == 0xe3 then 0xa7
    else if i == 0xe4 then 0xb2 else if i == 0xe5 then 0xb5 else if i == 0xe6 then 0xbc else if i == 0xe7 then 0xbb
    else if i == 0xe8 then 0x96 else if i == 0xe9 then 0x91 else if i == 0xea then 0x98 else if i == 0xeb then 0x9f
    else if i == 0xec then 0x8a else if i == 0xed then 0x8d else if i == 0xee then 0x84 else 0x83
  }

  function Rowf(i: bv8): bv8 {
    if i == 0xf0 then 0xde else if i == 0xf1 then 0xd9 else if i == 0xf2 then 0xd0 else if i == 0xf3 then 0xd7
    else if i == 0xf4 then 0xc2 else if i == 0xf5 then 0xc5 else if i == 0xf6 then 0xcc else if i == 0xf7 then 0xcb
    else if i == 0xf8 then 0xe6 else if i == 0xf9 then 0xe1 else if i == 0xfa then 0xe8 else if i == 0xfb then 0xef
    else if i == 0xfc then 0xfa else if i == 0xfd then 0xfd else if i == 0xfe then 0xf4 else 0xf3
  }

  // ------------------------------------------------------------------ the table is eight shifts

  lemma Row0IsShift(i: Byte)
    requires 0x00 <= i <= 0x0f
    ensures Row0(i) == Shift8(i)
  {
  }

  lemma Row1IsShift(i: Byte)
    requires 0x10 <= i <= 0x1f
    ensures Row1(i) == Shift8(i)
  {
  }

  lemma Row2IsShift(i: Byte)
    requires 0x20 <= i <= 0x2f
    ensures Row2(i) == Shift8(i)
  {
  }

  lemma Row3IsShift(i: Byte)
    requires 0x30 <= i <= 0x3f
    ensures Row3(i) == Shift8(i)
  {
  }

  lemma Row4IsShift(i: Byte)
    requires 0x40 <= i <= 0x4f
    ensures Row4(i) == Shift8(i)
  {
  }

  lemma Row5IsShift(i: Byte)
    requires 0x50 <= i <= 0x5f
    ensures Row5(i) == Shift8(i)
  {
  }

  lemma Row6IsShift(i: Byte)
    requires 0x60 <= i <= 0x6f
    ensures Row6(i) == Shift8(i)
  {
  }

  lemma Row7IsShift(i: Byte)
    requires 0x70 <= i <= 0x7f
    ensures Row7(i) == Shift8(i)
  {
  }

  lemma Row8IsShift(i: Byte)
    requires 0x80 <= i <= 0x8f
    ensures Row8(i) == Shift8(i)
  {
  }

  lemma Row9IsShift(i: Byte)
    requires 0x90 <= i <= 0x9f
    ensures Row9(i) == Shift8(i)
  {
  }

  lemma RowaIsShift(i: Byte)
    requires 0xa0 <= i <= 0xaf
    ensures Rowa(i) == Shift8(i)
  {
  }

  lemma RowbIsShift(i: Byte)
    requires 0xb0 <= i <= 0xbf
    ensures Rowb(i) == Shift8(i)
  {
  }

  lemma RowcIsShift(i: Byte)
    requires 0xc0 <= i <= 0xcf
    ensures Rowc(i) == Shift8(i)
  {
  }

  lemma RowdIsShift(i: Byte)
    requires 0xd0 <= i <= 0xdf
    ensures Rowd(i) == Shift8(i)
  {
  }

  lemma RoweIsShift(i: Byte)
    requires 0xe0 <= i <= 0xef
    ensures Rowe(i) == Shift8(i)
  {
  }

  lemma RowfIsShift(i: Byte)
    requires 0xf0 <= i <= 0xff
    ensures Rowf(i) == Shift8(i)
  {
  }

  /** Every entry of the table is the byte shifted eight times through the division. */
  lemma TableIsShift(i: Byte)
    ensures CrcTable(i) == Shift8(i)
  {
    if i < 0x10 {
      Row0IsShift(i);
    } else if i < 0x20 {
      Row1IsShift(i);
    } else if i < 0x30 {
      Row2IsShift(i);
    } else if i < 0x40 {
      Row3IsShift(i);
    } else if i < 0x50 {
      Row4IsShift(i);
    } else if i < 0x60 {
      Row5IsShift(i);
    } else if i < 0x70 {
      Row6IsShift(i);
    } else if i < 0x80 {
      Row7IsShift(i);
    } else if i < 0x90 {
      Row8IsShift(i);
    } else if i < 0xa0 {
      Row9IsShift(i);
    } else if i < 0xb0 {
      RowaIsShift(i);
    } else if i < 0xc0 {
      RowbIsShift(i);
    } else if i < 0xd0 {
      RowcIsShift(i);
    } else if i < 0xe0 {
      RowdIsShift(i);
    } else if i < 0xf0 {
      RoweIsShift(i);
    } else {
      RowfIsShift(i);
    }
  }

  /** updateCRC for one byte. */
  function UpdateByte(crc: Byte, data: Byte): (r: Byte)
    ensures r == Shift8(Xor(crc, data))
  {
    TableIsShift(crc ^ data);
    CrcTable(crc ^ data)
  }

  /** updateCRC for a buffer. */
  method UpdateCRC(crc: Byte, data: array<Byte>, length: nat) returns (r: Byte)
    requires length <= data.Length
    ensures r == Checksum(crc, data[..length])
  {
    r := crc;
    assert data[..0] == [];
    for i := 0 to length
      invariant r == Fold(Xor, Shift8, crc, data[..i])
    {
      FoldStep(Xor, Shift8, crc, data[..], i);
      assert data[..][..i] == data[..i] && data[..][..i + 1] == data[..i + 1];
      r := UpdateByte(r, data[i]);
    }
  }

  // ------------------------------------------------------------------ what the checksum detects

  function Unshift(r: Byte): Byte {
    if r & 1 != 0 then ((r ^ POLYNOMIAL) >> 1) | 0x80 else r >> 1
  }

  function Unshift8(r: Byte): Byte {
    Times8(Unshift, r)
  }

  lemma UnshiftShift(r: Byte)
    ensures Unshift(Shift(r)) == r
  {
  }

  lemma XorLaws(a: Byte, b: Byte, c: Byte)
    ensures Xor(Xor(a, b), c) == Xor(a, Xor(b, c)) && Xor(a, b) == Xor(b, a) && Xor(a, Xor(a, b)) == b
  {
  }

  lemma Xors()
    ensures IsSum(Xor)
  {
    forall a, b, c
      ensures Xor(Xor(a, b), c) == Xor(a, Xor(b, c)) && Xor(a, b) == Xor(b, a) && Xor(a, Xor(a, b)) == b
    {
      XorLaws(a, b, c);
    }
  }

  lemma DoubleLinear(a: Byte, b: Byte)
    ensures (a ^ b) << 1 == (a << 1) ^ (b << 1)
  {
  }

  lemma HighOfSum(a: Byte, b: Byte)
    ensures ((a ^ b) & 0x80 != 0) == ((a & 0x80 != 0) != (b & 0x80 != 0))
  {
  }

  lemma DoubleIsLinear()
    ensures Linear(Xor, Double)
  {
    forall a, b
      ensures Double(Xor(a, b)) == Xor(Double(a), Double(b))
    {
      DoubleLinear(a, b);
    }
  }

  lemma HighIsHigh()
    ensures HighBit(Xor, High)
  {
    forall a, b
      ensures High(Xor(a, b)) == (High(a) != High(b))
    {
      HighOfSum(a, b);
    }
  }

  lemma ShiftDivides()
    ensures IsDivision(Xor, Double, High, POLYNOMIAL, Shift)
  {
  }

  lemma Linear1()
    ensures Linear(Xor, Shift)
  {
    Xors();
    DoubleIsLinear();
    HighIsHigh();
    ShiftDivides();
    DivisionLinear(Xor, Double, High, POLYNOMIAL, Shift);
  }

  lemma Inverse1()
    ensures Inverse(Shift, Unshift)
  {
    forall a
      ensures Unshift(Shift(a)) == a
    {
      UnshiftShift(a);
    }
  }

  /** The checksum of the XOR of two messages is the XOR of the checksums. */
  lemma ChecksumLinear(a: Byte, b: Byte, m: seq<Byte>, n: seq<Byte>)
    requires |m| == |n|
    ensures Checksum(a ^ b, Sums(Xor, m, n)) == Checksum(a, m) ^ Checksum(b, n)
  {
    Xors();
    Linear1();
    Linear8(Xor, Shift, Shift8);
    FoldLinear(Xor, Shift8, a, b, m, n);
  }

  /** Two messages that differ in exactly one byte never have the same checksum. */
  lemma ChangedByteDetected(crc: Byte, m: seq<Byte>, i: nat, w: Byte)
    requires i < |m| && w != m[i]
    ensures Checksum(crc, m[i := w]) != Checksum(crc, m)
  {
    Xors();
    Inverse1();
    Inverse8(Shift, Unshift, Shift8, Unshift8);
    OneWordDetected(Xor, Shift8, Unshift8, crc, m, i, w);
  }

  /** A message followed by its own checksum has the checksum zero. */
  lemma OwnChecksum(crc: Byte, m: seq<Byte>)
    ensures Checksum(crc, m + [Checksum(crc, m)]) == 0
  {
    FoldOwn(Xor, Shift8, crc, m);
    NothingShifted(Checksum(crc, m));
  }

  lemma NothingShifted(c: Byte)
    ensures Shift8(Xor(c, c)) == 0
  {
    assert Xor(c, c) == 0;
  }

  /** The byte 1 stands for x^8, whose remainder is the polynomial without its leading term. */
  lemma PolynomialIs()
    ensures Checksum(0, [1]) == 0x07
  {
    assert [1 as Byte][..0] == [];
    assert Xor(0, 1) == 1;
  }

  // ------------------------------------------------------------------ one bit at a time

  function Top(u: Byte): Byte {
    u & 0x80
  }

  lemma TopBit(u: Byte)
    ensures (u & 0x80) & 0x80 == u & 0x80 && (u & 0x80) << 1 == 0
  {
  }

  lemma ShiftsOut1()
    ensures ShiftsOut(Xor, Shift, Double, Top)
  {
    Xors();
    SumRegroups(Xor);
    DoubleIsLinear();
    HighIsHigh();
    ShiftDivides();
    forall u
      ensures High(Top(u)) == High(u) && Double(Top(u)) == 0
    {
      TopBit(u);
    }
    forall x
      ensures Xor(x, 0) == x
    {
      XorZero(x);
    }
    DivisionShiftsOut(Xor, Double, High, POLYNOMIAL, Shift, Top, 0);
  }

  lemma NothingLeft(u: Byte)
    ensures Times8(Double, u) == 0
  {
  }

  lemma XorZero(a: Byte)
    ensures Xor(a, 0) == a
  {
  }

  /** A byte step is the same as taking in the byte bit by bit, the highest bit first. */
  lemma ByteIsSerial(c: Byte, u: Byte)
    ensures Shift8(Xor(c, u)) == Serial(Xor, Shift, Double, Top, c, u, 8)
  {
    ShiftsOut1();
    SerialIsShifted(Xor, Shift, Double, Top, c, u, 8);
    Repeat8(Double, u);
    NothingLeft(u);
    XorZero(Serial(Xor, Shift, Double, Top, c, u, 8));
    Repeat8(Shift, Xor(c, u));
  }
}
