/**
  Words of 32 bits and the operations of the hash of object definitions (ground/uavobjgenerator).
 */
module WordBits {
  type Word = bv32

  function Plus(a: Word, b: Word): Word {
    a + b
  }

  function Xor(a: Word, b: Word): Word {
    a ^ b
  }

  /** The lowest bit is left to the metadata object. */
  function EvenPart(hash: Word): Word {
    hash & 0xFFFFFFFE
  }

  function OddPart(a: Word): Word {
    a | 1
  }

  function Low(a: Word, mask: Word): Word {
    a & mask
  }

  lemma XorCancels(h: Word, a: Word, b: Word)
    ensures Xor(h, a) == Xor(h, b) <==> a == b
  {
  }

  lemma LowByte(c: Word, v: Word, w: Word)
    requires Low(Plus(c, v), 0xFF) == Low(Plus(c, w), 0xFF)
    ensures Low(v, 0xFF) == Low(w, 0xFF)
  {
  }

  lemma LowHalf(c: Word, v: Word, w: Word)
    requires Low(v, 0xFF) == Low(w, 0xFF) && Low(Plus(c, v), 0xFFFF) == Low(Plus(c, w), 0xFFFF)
    ensures Low(v, 0xFFFF) == Low(w, 0xFFFF)
  {
  }

  /** Values that differ in the lower half have different sums with c. */
  lemma PlusShows(c: Word, v: Word, w: Word)
    requires Low(v, 0xFFFF) != Low(w, 0xFFFF)
    ensures Plus(c, v) != Plus(c, w)
  {
    if Plus(c, v) == Plus(c, w) {
      LowByte(c, v, w);
      LowHalf(c, v, w);
    }
  }

  lemma EvenXorIff(h: Word, a: Word, b: Word)
    ensures EvenPart(Xor(h, a)) == EvenPart(Xor(h, b)) <==> OddPart(a) == OddPart(b)
  {
    if OddPart(a) == OddPart(b) {
      EvenOfXors(Xor(h, a), Xor(h, b), h, a, b);
    } else {
      EvenXorShows(h, a, b);
    }
  }

  lemma EvenOfXors(p: Word, q: Word, h: Word, a: Word, b: Word)
    requires p == h ^ a && q == h ^ b && OddPart(a) == OddPart(b)
    ensures EvenPart(p) == EvenPart(q)
  {
  }

  lemma EvenXorShows(h: Word, a: Word, b: Word)
    ensures EvenPart(Xor(h, a)) == EvenPart(Xor(h, b)) ==> OddPart(a) == OddPart(b)
  {
  }

  /** Two small values have the same sum with c up to the lowest bit exactly when they are neighbours and the lower
      sum is even. */
  lemma Neighbours(c: Word, v: Word, w: Word)
    requires v < w < 8
    ensures OddPart(Plus(c, w)) == OddPart(Plus(c, v)) <==> w == v + 1 && Plus(c, v) & 1 == 0
  {
    NeighbouringSums(c, v, w, Plus(c, v), Plus(c, w));
  }

  lemma NeighbouringSums(c: Word, v: Word, w: Word, p: Word, q: Word)
    requires v < w < 8 && p == c + v && q == c + w
    ensures OddPart(q) == OddPart(p) <==> w == v + 1 && p & 1 == 0
  {
  }
}
