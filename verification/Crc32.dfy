/**
  The CRC-32 of the firmware uploader (ground/gcs/src/experimental/USB_UPLOAD_TOOL/op_dfu.cpp): a
  table of sixteen entries and eight rounds per word, against bit-by-bit division by the polynomial.
 */
module Crc32 {

  import opened Checksums

  type Word = bv32

  const POLYNOMIAL: Word := 0x04C11DB7

  // ------------------------------------------------------------------ the reference: division

  function Xor(a: Word, b: Word): Word {
    a ^ b
  }

  /** Shift the remainder by one bit, subtracting the polynomial when a one leaves the register. */
  function Shift(r: Word): Word {
    if r & 0x80000000 != 0 then (r << 1) ^ POLYNOMIAL else r << 1
  }

  function Double(r: Word): Word {
    r << 1
  }

  predicate High(r: Word) {
    r & 0x80000000 != 0
  }

  function Shift4(r: Word): Word {
    Times4(Shift, r)
  }

  function Shift32(r: Word): Word {
    Times8(Shift4, r)
  }

  /** The checksum of a message: add each word and divide by the polynomial, most significant bit first,
      without reflection or final inversion. */
  function Checksum(crc: Word, words: seq<Word>): Word {
    Fold(Xor, Shift32, crc, words)
  }

  // ------------------------------------------------------------------ the program

  /** CrcTable, indexed by a nibble. */
  function CrcTable(nibble: Word): Word {
    if nibble == 0 then 0x00000000 else if nibble == 1 then 0x04C11DB7
    else if nibble == 2 then 0x09823B6E else if nibble == 3 then 0x0D4326D9
    else if nibble == 4 then 0x130476DC else if nibble == 5 then 0x17C56B6B
    else if nibble == 6 then 0x1A864DB2 else if nibble == 7 then 0x1E475005
    else if nibble == 8 then 0x2608EDB8 else if nibble == 9 then 0x22C9F00F
    else if nibble == 10 then 0x2F8AD6D6 else if nibble == 11 then 0x2B4BCB61
    else if nibble == 12 then 0x350C9B64 else if nibble == 13 then 0x31CD86D3
    else if nibble == 14 then 0x3C8EA00A else 0x384FBDBD
  }

  /** One round by the table is four shifts. */
  lemma TableRound(crc: Word)
    ensures (crc << 4) ^ CrcTable(crc >> 28) == Shift4(crc)
  {
    if High(crc) {
      TableRoundHigh(crc);
    } else {
      TableRoundLow(crc);
    }
  }

  lemma TableRoundHigh(crc: Word)
    requires High(crc)
    ensures (crc << 4) ^ CrcTable(crc >> 28) == Shift4(crc)
  {
  }

  lemma TableRoundLow(crc: Word)
    requires !High(crc)
    ensures (crc << 4) ^ CrcTable(crc >> 28) == Shift4(crc)
  {
  }

  method CRC32WideFast(crc: Word, buffer: array<Word>) returns (r: Word)
    ensures r == Checksum(crc, buffer[..])
  {
    r := crc;
    assert buffer[..0] == [];
    for i := 0 to buffer.Length
      invariant r == Fold(Xor, Shift32, crc, buffer[..i])
    {
      FoldStep(Xor, Shift32, crc, buffer[..], i);
      assert buffer[..][..i] == buffer[..i] && buffer[..][..i + 1] == buffer[..i + 1];
      r := Rounds(Xor(r, buffer[i]));
    }
    assert buffer[..buffer.Length] == buffer[..];
  }

  /** Process 32 bits, four at a time. */
  method Rounds(start: Word) returns (r: Word)
    ensures r == Shift32(start)
  {
    r := start;
    TableRound(r);
    r := (r << 4) ^ CrcTable(r >> 28);
    TableRound(r);
    r := (r << 4) ^ CrcTable(r >> 28);
    TableRound(r);
    r := (r << 4) ^ CrcTable(r >> 28);
    TableRound(r);
    r := (r << 4) ^ CrcTable(r >> 28);
    TableRound(r);
    r := (r << 4) ^ CrcTable(r >> 28);
    TableRound(r);
    r := (r << 4) ^ CrcTable(r >> 28);
    TableRound(r);
    r := (r << 4) ^ CrcTable(r >> 28);
    TableRound(r);
    r := (r << 4) ^ CrcTable(r >> 28);
  }

  // ------------------------------------------------------------------ linearity and inverses

  /** The shift backwards: the polynomial is odd, so its lowest bit tells whether it was subtracted. */
  function Unshift(r: Word): Word {
    if r & 1 != 0 then ((r ^ POLYNOMIAL) >> 1) | 0x80000000 else r >> 1
  }

  lemma UnshiftShift(r: Word)
    ensures Unshift(Shift(r)) == r
  {
    if r & 0x80000000 != 0 {
      UnshiftOdd(r, (r << 1) ^ POLYNOMIAL);
    } else {
      UnshiftEven(r, r << 1);
    }
  }

  lemma UnshiftOdd(r: Word, s: Word)
    requires r & 0x80000000 != 0 && s == (r << 1) ^ POLYNOMIAL
    ensures s & 1 != 0
    ensures ((s ^ POLYNOMIAL) >> 1) | 0x80000000 == r
  {
    OddBit(r);
    BackAndForth(r);
  }

  lemma OddBit(r: Word)
    ensures ((r << 1) ^ 0x04C11DB7) & 1 == 1
  {
  }

  lemma BackAndForth(r: Word)
    requires r & 0x80000000 != 0
    ensures ((((r << 1) ^ 0x04C11DB7) ^ 0x04C11DB7) >> 1) | 0x80000000 == r
  {
  }

  lemma UnshiftEven(r: Word, s: Word)
    requires r & 0x80000000 == 0 && s == r << 1
    ensures s & 1 == 0 && s >> 1 == r
  {
  }

  function Unshift4(r: Word): Word {
    Times4(Unshift, r)
  }

  function Unshift32(r: Word): Word {
    Times8(Unshift4, r)
  }

  lemma XorAssociative(a: Word, b: Word, c: Word)
    ensures (a ^ b) ^ c == a ^ (b ^ c)
  {
  }

  lemma XorCommutative(a: Word, b: Word)
    ensures a ^ b == b ^ a
  {
  }

  lemma XorCancels(a: Word, b: Word)
    ensures a ^ (a ^ b) == b
  {
  }

  lemma Associates()
    ensures Associative(Xor)
  {
    forall a, b, c
      ensures Xor(Xor(a, b), c) == Xor(a, Xor(b, c))
    {
      XorAssociative(a, b, c);
    }
  }

  lemma Commutes()
    ensures Commutative(Xor)
  {
    forall a, b
      ensures Xor(a, b) == Xor(b, a)
    {
      XorCommutative(a, b);
    }
  }

  lemma XorUndone()
    ensures Cancels(Xor)
  {
    forall a, b
      ensures Xor(a, Xor(a, b)) == b
    {
      XorCancels(a, b);
    }
  }

  lemma Xors()
    ensures IsSum(Xor)
  {
    Associates();
    Commutes();
    XorUndone();
  }

  lemma DoubleLinear(a: Word, b: Word)
    ensures (a ^ b) << 1 == (a << 1) ^ (b << 1)
  {
  }

  lemma HighOfSum(a: Word, b: Word)
    ensures ((a ^ b) & 0x80000000 != 0) == ((a & 0x80000000 != 0) != (b & 0x80000000 != 0))
  {
  }

  lemma DoubleIsLinear()
    ensures Linear(Xor, Double)
  {
    forall a, b
      ensures Double(Xor(a, b)) == Xor(Double(a), Double(b))
    {
      DoubleLinear(a, b);
    }
  }

  lemma HighIsHigh()
    ensures HighBit(Xor, High)
  {
    forall a, b
      ensures High(Xor(a, b)) == (High(a) != High(b))
    {
      HighOfSum(a, b);
    }
  }

  lemma ShiftDivides()
    ensures IsDivision(Xor, Double, High, POLYNOMIAL, Shift)
  {
  }

  lemma Linear1()
    ensures Linear(Xor, Shift)
  {
    Xors();
    DoubleIsLinear();
    HighIsHigh();
    ShiftDivides();
    DivisionLinear(Xor, Double, High, POLYNOMIAL, Shift);
  }

  lemma Linear32()
    ensures Linear(Xor, Shift32)
  {
    Linear1();
    Linear4(Xor, Shift, Shift4);
    Linear8(Xor, Shift4, Shift32);
  }

  lemma Inverse1()
    ensures Inverse(Shift, Unshift)
  {
    forall a
      ensures Unshift(Shift(a)) == a
    {
      UnshiftShift(a);
    }
  }

  lemma Inverse32()
    ensures Inverse(Shift32, Unshift32)
  {
    Inverse1();
    Inverse4(Shift, Unshift, Shift4, Unshift4);
    Inverse8(Shift4, Unshift4, Shift32, Unshift32);
  }

  /** The checksum of the XOR of two messages is the XOR of the checksums. */
  lemma ChecksumLinear(a: Word, b: Word, m: seq<Word>, n: seq<Word>)
    requires |m| == |n|
    ensures Checksum(a ^ b, Sums(Xor, m, n)) == Checksum(a, m) ^ Checksum(b, n)
  {
    Xors();
    Linear32();
    FoldLinear(Xor, Shift32, a, b, m, n);
  }

  /** Two messages that differ in exactly one word never have the same checksum. */
  lemma ChangedWordDetected(crc: Word, m: seq<Word>, i: nat, w: Word)
    requires i < |m| && w != m[i]
    ensures Checksum(crc, m[i := w]) != Checksum(crc, m)
  {
    Xors();
    Inverse32();
    OneWordDetected(Xor, Shift32, Unshift32, crc, m, i, w);
  }

  /** A message followed by its own checksum has the checksum zero. */
  lemma OwnChecksum(crc: Word, m: seq<Word>)
    ensures Checksum(crc, m + [Checksum(crc, m)]) == 0
  {
    FoldOwn(Xor, Shift32, crc, m);
    NothingShifted(Checksum(crc, m));
  }

  lemma NothingShifted(c: Word)
    ensures Shift32(Xor(c, c)) == 0
  {
    assert Xor(c, c) == 0 && Shift4(0) == 0;
  }

  /** The word 1 stands for x^32, whose remainder is the polynomial without its leading term. */
  lemma PolynomialIs()
    ensures Checksum(0, [1]) == 0x04C11DB7
  {
    assert [1 as Word][..0] == [];
    assert Shift4(0x1) == 0x10 && Shift4(0x10) == 0x100 && Shift4(0x100) == 0x1000 && Shift4(0x1000) == 0x10000;
    assert Shift4(0x10000) == 0x100000 && Shift4(0x100000) == 0x1000000 && Shift4(0x1000000) == 0x10000000;
    assert Shift4(0x10000000) == 0x04C11DB7;
    assert Xor(0, 1) == 1;
  }

  // ------------------------------------------------------------------ one bit at a time

  function Top(u: Word): Word {
    u & 0x80000000
  }

  lemma TopBit(u: Word)
    ensures (u & 0x80000000) & 0x80000000 == u & 0x80000000 && (u & 0x80000000) << 1 == 0
  {
  }

  function Double4(u: Word): Word {
    u << 4
  }

  lemma DoubledAway(u: Word)
    ensures Times8(Double4, u) == 0
  {
  }

  lemma FourDoubles(u: Word)
    ensures Double4(u) == Times4(Double, u)
  {
  }

  lemma ShiftsOut1()
    ensures ShiftsOut(Xor, Shift, Double, Top)
  {
    Xors();
    SumRegroups(Xor);
    DoubleIsLinear();
    HighIsHigh();
    ShiftDivides();
    forall u
      ensures High(Top(u)) == High(u) && Double(Top(u)) == 0
    {
      TopBit(u);
    }
    forall x
      ensures Xor(x, 0) == x
    {
      XorZero(x);
    }
    DivisionShiftsOut(Xor, Double, High, POLYNOMIAL, Shift, Top, 0);
  }

  lemma NothingLeft(u: Word)
    ensures Repeat(Double, 32, u) == 0
  {
    forall a
      ensures Double4(a) == Times4(Double, a)
    {
      FourDoubles(a);
    }
    Repeat32(Double, Double4, u);
    DoubledAway(u);
  }

  lemma XorZero(a: Word)
    ensures Xor(a, 0) == a
  {
  }

  /** A word step is the same as taking in the word bit by bit, the highest bit first. */
  lemma WordIsSerial(c: Word, u: Word)
    ensures Shift32(Xor(c, u)) == Serial(Xor, Shift, Double, Top, c, u, 32)
  {
    ShiftsOut1();
    SerialIsShifted(Xor, Shift, Double, Top, c, u, 32);
    NothingLeft(u);
    XorZero(Serial(Xor, Shift, Double, Top, c, u, 32));
    Repeat32(Shift, Shift4, Xor(c, u));
  }

  // ------------------------------------------------------------------ the checksum of an image

  type Byte = bv8

  /** Four bytes, the lowest first. */
  function WordOf(b0: Byte, b1: Byte, b2: Byte, b3: Byte): Word {
    ((((((b3 as Word) << 8) + (b2 as Word)) << 8) + (b1 as Word)) << 8) + (b0 as Word)
  }

  /** The words of an image that is padded with 0xFF to the given size; an incomplete word at the end is
      left out. */
  function ImageWords(image: seq<Byte>, size: nat): (w: seq<Word>)
    ensures |w| == size / 4
    ensures forall x :: 0 <= x < |w| ==>
      w[x] == WordOf(Padded(image, 4 * x), Padded(image, 4 * x + 1), Padded(image, 4 * x + 2), Padded(image, 4 * x + 3))
  {
    seq(size / 4, x requires 0 <= x < size / 4 =>
      WordOf(Padded(image, 4 * x), Padded(image, 4 * x + 1), Padded(image, 4 * x + 2), Padded(image, 4 * x + 3)))
  }

  function Padded(image: seq<Byte>, k: nat): Byte {
    if k < |image| then image[k] else 0xFF
  }

  lemma BytesOfWord(b0: Byte, b1: Byte, b2: Byte, b3: Byte)
    ensures var w := WordOf(b0, b1, b2, b3);
            && w & 0xFF == b0 as Word && (w >> 8) & 0xFF == b1 as Word
            && (w >> 16) & 0xFF == b2 as Word && (w >> 24) & 0xFF == b3 as Word
  {
  }

  /** Byte i of the image, or of the padding behind it. */
  function ByteValue(image: seq<Byte>, i: nat): Word {
    if i < |image| then image[i] as Word else 0xFF
  }

  /** The bytes of w, from the lowest to the highest, are those of the image from position i on. */
  predicate HoldsBytes(w: Word, image: seq<Byte>, i: nat) {
    && w & 0xFF == ByteValue(image, i) && (w >> 8) & 0xFF == ByteValue(image, i + 1)
    && (w >> 16) & 0xFF == ByteValue(image, i + 2) && (w >> 24) & 0xFF == ByteValue(image, i + 3)
  }

  /** The words hold the image, padded with 0xFF. */
  ghost predicate HoldImage(w: seq<Word>, image: seq<Byte>, size: nat) {
    |w| == size / 4 && forall x :: 0 <= x < |w| ==> HoldsBytes(w[x], image, 4 * x)
  }

  lemma ImageBytes(image: seq<Byte>, size: nat)
    ensures HoldImage(ImageWords(image, size), image, size)
  {
    var w := ImageWords(image, size);
    forall x | 0 <= x < |w|
      ensures HoldsBytes(w[x], image, 4 * x)
    {
      BytesOfWord(Padded(image, 4 * x), Padded(image, 4 * x + 1), Padded(image, 4 * x + 2), Padded(image, 4 * x + 3));
    }
  }

  /** The image may not have more complete words than the array; a negative number of padding bytes is none. */
  method CRCFromQBArray(image: seq<Byte>, size: nat) returns (crc: Word)
    requires |image| / 4 <= size / 4
    ensures crc == Checksum(0xFFFFFFFF, ImageWords(image, size)) && HoldImage(ImageWords(image, size), image, size)
  {
    ImageBytes(image, size);
    var pad := if |image| < size then size - |image| else 0;
    var array_ := image + seq(pad, i => 0xFF as Byte);
    var t := new Word[size / 4];
    for x := 0 to |array_| / 4
      invariant t[..x] == ImageWords(image, size)[..x]
    {
      t[x] := AuxWord(array_, x);
      assert t[..x + 1] == t[..x] + [t[x]];
    }
    assert t[..] == ImageWords(image, size);
    crc := CRC32WideFast(0xFFFFFFFF, t);
  }

  function AuxWord(a: seq<Byte>, x: nat): Word
    requires 4 * x + 3 < |a|
  {
    WordOf(a[4 * x], a[4 * x + 1], a[4 * x + 2], a[4 * x + 3])
  }

  lemma WordOfInjective(a0: Byte, a1: Byte, a2: Byte, a3: Byte, b0: Byte, b1: Byte, b2: Byte, b3: Byte)
    requires WordOf(a0, a1, a2, a3) == WordOf(b0, b1, b2, b3)
    ensures a0 == b0 && a1 == b1 && a2 == b2 && a3 == b3
  {
  }

  lemma WordOfDiffers(a0: Byte, a1: Byte, a2: Byte, a3: Byte, b0: Byte, b1: Byte, b2: Byte, b3: Byte)
    requires a0 != b0 || a1 != b1 || a2 != b2 || a3 != b3
    ensures WordOf(a0, a1, a2, a3) != WordOf(b0, b1, b2, b3)
  {
    if WordOf(a0, a1, a2, a3) == WordOf(b0, b1, b2, b3) {
      WordOfInjective(a0, a1, a2, a3, b0, b1, b2, b3);
    }
  }

  lemma ByteShows(a: seq<Byte>, b: seq<Byte>, size: nat, k: nat, i: nat)
    requires Padded(a, k) != Padded(b, k) && k / 4 == i < size / 4
    ensures ImageWords(a, size)[i] != ImageWords(b, size)[i]
  {
    assert k == 4 * i || k == 4 * i + 1 || k == 4 * i + 2 || k == 4 * i + 3;
    WordOfDiffers(Padded(a, 4 * i), Padded(a, 4 * i + 1), Padded(a, 4 * i + 2), Padded(a, 4 * i + 3),
                  Padded(b, 4 * i), Padded(b, 4 * i + 1), Padded(b, 4 * i + 2), Padded(b, 4 * i + 3));
  }

  lemma ChangedWord(image: seq<Byte>, size: nat, k: nat, b: Byte)
    requires k < |image| && k < size / 4 * 4 && b != image[k]
    ensures ImageWords(image[k := b], size)[k / 4] != ImageWords(image, size)[k / 4]
  {
    assert Padded(image[k := b], k) == b && Padded(image, k) == image[k];
    ByteShows(image[k := b], image, size, k, k / 4);
  }

  /** A changed byte is always detected, unless it lies in the incomplete word at the end. */
  lemma ChangedByteDetected(image: seq<Byte>, size: nat, k: nat, b: Byte)
    requires k < |image| && b != image[k]
    ensures k < size / 4 * 4 ==>
              Checksum(0xFFFFFFFF, ImageWords(image[k := b], size)) != Checksum(0xFFFFFFFF, ImageWords(image, size))
    ensures k >= size / 4 * 4 ==>
              Checksum(0xFFFFFFFF, ImageWords(image[k := b], size)) == Checksum(0xFFFFFFFF, ImageWords(image, size))
  {
    var m, n, i := ImageWords(image, size), ImageWords(image[k := b], size), k / 4;
    forall x | 0 <= x < |m| && x != i
      ensures n[x] == m[x]
    {
    }
    if k < size / 4 * 4 {
      assert n == m[i := n[i]];
      ChangedWord(image, size, k, b);
      ChangedWordDetected(0xFFFFFFFF, m, i, n[i]);
    } else {
      assert n == m;
    }
  }

  /** Two images have the same words exactly when their padded bytes agree up to the last complete word. */
  lemma SameWordsIff(a: seq<Byte>, b: seq<Byte>, size: nat)
    ensures ImageWords(a, size) == ImageWords(b, size) <==>
            forall k: nat :: k < size / 4 * 4 ==> Padded(a, k) == Padded(b, k)
  {
    if ImageWords(a, size) == ImageWords(b, size) {
      forall k: nat | k < size / 4 * 4
        ensures Padded(a, k) == Padded(b, k)
      {
        if Padded(a, k) != Padded(b, k) {
          ByteShows(a, b, size, k, k / 4);
        }
      }
    }
  }

  /** Trailing bytes cannot be told from padding exactly when those in complete words are 0xFF. */
  lemma PaddingInvisible(image: seq<Byte>, tail: seq<Byte>, size: nat)
    ensures ImageWords(image + tail, size) == ImageWords(image, size) <==>
            forall k: nat {:trigger tail[k]} :: k < |tail| && |image| + k < size / 4 * 4 ==> tail[k] == 0xFF
  {
    SameWordsIff(image + tail, image, size);
    forall k: nat | k < |tail|
      ensures Padded(image + tail, |image| + k) == tail[k] && Padded(image, |image| + k) == 0xFF
    {
    }
    forall k: nat | k < size / 4 * 4 && !(|image| <= k < |image| + |tail|)
      ensures Padded(image + tail, k) == Padded(image, k)
    {
    }
    forall k: nat | |image| <= k < |image| + |tail|
      ensures Padded(image + tail, k) == tail[k - |image|]
    {
    }
  }
}
