/**
  What the hash of an object definition tells apart: the value taken in last always, an earlier one not always.
  The ID of an object drops the lowest bit of the hash, so that it can miss even the last value.
 */
module UavHashes {
  import opened UavObjects
  import opened WordBits

  /** The codes and sizes of the field types. */
  lemma FieldTypes(f: Field)
    ensures f.kind == Int8 ==> KindValue(f.kind) == 0 && f.NumBytes() == 1
    ensures f.kind == Int16 ==> KindValue(f.kind) == 1 && f.NumBytes() == 2
    ensures f.kind == Int32 ==> KindValue(f.kind) == 2 && f.NumBytes() == 4
    ensures f.kind == UInt8 ==> KindValue(f.kind) == 3 && f.NumBytes() == 1
    ensures f.kind == UInt16 ==> KindValue(f.kind) == 4 && f.NumBytes() == 2
    ensures f.kind == UInt32 ==> KindValue(f.kind) == 5 && f.NumBytes() == 4
    ensures f.kind == Float32 ==> KindValue(f.kind) == 6 && f.NumBytes() == 4
    ensures f.kind == Enum ==> KindValue(f.kind) == 7 && f.NumBytes() == 1
  {
  }

  /** Values that differ in the lower half lead to different hashes. */
  lemma ValueShows(v: Word, w: Word, hash: Word)
    requires Low(v, 0xFFFF) != Low(w, 0xFFFF)
    ensures UpdateHash(v, hash) != UpdateHash(w, hash)
  {
    XorCancels(hash, Plus(Mixed(hash), v), Plus(Mixed(hash), w));
    PlusShows(Mixed(hash), v, w);
  }

  lemma KindsDiffer(k: FieldType, l: FieldType)
    ensures k != l ==> Low(KindValue(k), 0xFFFF) != Low(KindValue(l), 0xFFFF)
  {
  }

  /** The hash of a field before its type is taken in. */
  function BeforeKind(f: Field, hash: Word): Word {
    UpdateHash(CountValue(f.numElements), HashText(f.name, hash))
  }

  /** A changed type of a field that is no enumeration changes the field's hash. */
  lemma KindShows(f: Field, kind: FieldType, hash: Word)
    requires f.kind != Enum && kind != Enum && kind != f.kind
    ensures HashField(f.(kind := kind), hash) != HashField(f, hash)
  {
    KindsDiffer(f.kind, kind);
    ValueShows(KindValue(f.kind), KindValue(kind), BeforeKind(f, hash));
  }

  /** A changed count, or a changed last byte of a name, changes the hash up to that point. */
  lemma CountShows(f: Field, n: int, hash: Word)
    requires Low(CountValue(n), 0xFFFF) != Low(CountValue(f.numElements), 0xFFFF)
    ensures BeforeKind(f.(numElements := n), hash) != BeforeKind(f, hash)
  {
    ValueShows(CountValue(n), CountValue(f.numElements), HashText(f.name, hash));
  }

  lemma LastByteShows(name: Latin, a: bv8, b: bv8, hash: Word)
    requires a != b
    ensures HashText(name + [a], hash) != HashText(name + [b], hash)
  {
    assert (name + [a])[..|name|] == name && (name + [b])[..|name|] == name;
    CharsDiffer(a, b);
    ValueShows(CharValue(a), CharValue(b), HashText(name, hash));
  }

  lemma CharsDiffer(a: bv8, b: bv8)
    ensures a != b ==> Low(CharValue(a), 0xFFFF) != Low(CharValue(b), 0xFFFF)
  {
  }

  // ------------------------------------------------------------------ the ID

  /** The ID misses a change of the last value exactly when the sums differ in the lowest bit only. */
  lemma LastValueIff(v: Word, w: Word, hash: Word)
    ensures EvenPart(UpdateHash(v, hash)) == EvenPart(UpdateHash(w, hash)) <==>
            OddPart(Plus(Mixed(hash), v)) == OddPart(Plus(Mixed(hash), w))
  {
    EvenXorIff(hash, Plus(Mixed(hash), v), Plus(Mixed(hash), w));
  }

  lemma HashAppend(fields: seq<Field>, f: Field, start: Word)
    ensures HashFields(fields + [f], start) == HashField(f, HashFields(fields, start))
  {
    assert (fields + [f])[..|fields|] == fields;
  }

  lemma HashPlain(f: Field, hash: Word)
    requires f.kind != Enum
    ensures HashField(f, hash) == UpdateHash(KindValue(f.kind), BeforeKind(f, hash))
  {
  }

  /** Two objects that differ only in the type of the last field, which is no enumeration, have the same ID exactly
      when the codes are neighbours, and the lower one is even together with the mixed hash, or odd together with
      it. */
  lemma LastKindIff(fields: seq<Field>, f: Field, g: Field, start: Word, h: Word)
    requires f.kind != Enum && g.kind != Enum && KindValue(f.kind) < KindValue(g.kind)
    requires f.name == g.name && f.numElements == g.numElements && h == BeforeKind(f, HashFields(fields, start))
    ensures EvenPart(HashFields(fields + [g], start)) == EvenPart(HashFields(fields + [f], start)) <==>
            KindValue(g.kind) == KindValue(f.kind) + 1 && Plus(Mixed(h), KindValue(f.kind)) & 1 == 0
  {
    HashAppend(fields, f, start);
    HashAppend(fields, g, start);
    HashPlain(f, HashFields(fields, start));
    HashPlain(g, HashFields(fields, start));
    LastKind(KindValue(f.kind), KindValue(g.kind), h);
  }

  lemma LastKind(v: Word, w: Word, h: Word)
    requires v < w < 8
    ensures EvenPart(UpdateHash(w, h)) == EvenPart(UpdateHash(v, h)) <==> w == v + 1 && Plus(Mixed(h), v) & 1 == 0
  {
    LastValueIff(w, v, h);
    Neighbours(Mixed(h), v, w);
  }

  // ------------------------------------------------------------------ definitions with the same ID

  const X: Field := Field([0x78], "", "", Int16, 1, [], [], "")
  const E: Field := Field([0x65], "", "", Int8, 30, [], [], "")

  /** The object A with the single field x of one element has the same ID with the type int16 and with int32. */
  lemma TypeUnseen()
    ensures ObjectID(ObjectInfo([0x41], false, true, [X.(kind := Int32)])) ==
            ObjectID(ObjectInfo([0x41], false, true, [X])) == 0x8BE499FA
  {
    StepsA();
    CountOne();
    HeaderOf(0x41, 0x41, 0x871, 0x1184C);
    FieldOf(X, 0x78, 0x1184C, 0x224847, 0x473D2B5, 0x8BE499FB);
    FieldOf(X.(kind := Int32), 0x78, 0x1184C, 0x224847, 0x473D2B5, 0x8BE499FA);
  }

  lemma StepsA()
    ensures UpdateHash(0x41, 0) == 0x41 && UpdateHash(0, 0x41) == 0x871 && UpdateHash(1, 0x871) == 0x1184C
    ensures UpdateHash(0x78, 0x1184C) == 0x224847 && UpdateHash(1, 0x224847) == 0x473D2B5
    ensures UpdateHash(1, 0x473D2B5) == 0x8BE499FB && UpdateHash(2, 0x473D2B5) == 0x8BE499FA
    ensures EvenPart(0x8BE499FB) == 0x8BE499FA && EvenPart(0x8BE499FA) == 0x8BE499FA
    ensures CharValue(0x41) == 0x41 && CharValue(0x78) == 0x78
  {
  }

  lemma CountOne()
    ensures CountValue(1) == 1
  {
    assert 1 % 0x1_0000_0000 == 1;
  }

  lemma CountThirty()
    ensures CountValue(30) == 30
  {
    assert 30 % 0x1_0000_0000 == 30;
  }

  lemma CountThirtyFive()
    ensures CountValue(35) == 35
  {
    assert 35 % 0x1_0000_0000 == 35;
  }

  /** The object E with the single int8 field e has the same ID with 30 and with 35 elements. */
  lemma CountUnseen()
    ensures ObjectID(ObjectInfo([0x45], false, true, [E.(numElements := 35)])) ==
            ObjectID(ObjectInfo([0x45], false, true, [E])) == 0x9C770410
  {
    StepsE();
    CountThirty();
    CountThirtyFive();
    HeaderOf(0x45, 0x45, 0x8F4, 0x1284A);
    FieldOf(E, 0x65, 0x1284A, 0x247BFD, 0x4BCE540, 0x9C770410);
    FieldOf(E.(numElements := 35), 0x65, 0x1284A, 0x247BFD, 0x4BCE53F, 0x9C770410);
  }

  lemma StepsE()
    ensures UpdateHash(0x45, 0) == 0x45 && UpdateHash(0, 0x45) == 0x8F4 && UpdateHash(1, 0x8F4) == 0x1284A
    ensures UpdateHash(0x65, 0x1284A) == 0x247BFD
    ensures UpdateHash(30, 0x247BFD) == 0x4BCE540 && UpdateHash(35, 0x247BFD) == 0x4BCE53F
    ensures UpdateHash(0, 0x4BCE540) == 0x9C770410 && UpdateHash(0, 0x4BCE53F) == 0x9C770410
    ensures EvenPart(0x9C770410) == 0x9C770410 && CharValue(0x45) == 0x45 && CharValue(0x65) == 0x65
  {
  }

  lemma HeaderOf(c: bv8, h1: Word, h2: Word, h3: Word)
    requires UpdateHash(CharValue(c), 0) == h1 && UpdateHash(0, h1) == h2 && UpdateHash(1, h2) == h3
    ensures HeaderHash([c], false, true) == h3
  {
    TextOfOne(c, 0);
  }

  lemma FieldOf(f: Field, c: bv8, h: Word, h1: Word, h2: Word, h3: Word)
    requires f.name == [c] && f.kind != Enum && UpdateHash(CharValue(c), h) == h1
    requires UpdateHash(CountValue(f.numElements), h1) == h2 && UpdateHash(KindValue(f.kind), h2) == h3
    ensures HashFields([f], h) == h3
  {
    TextOfOne(c, h);
    assert [f][..0] == [];
  }

  lemma TextOfOne(c: bv8, hash: Word)
    ensures HashText([c], hash) == UpdateHash(CharValue(c), hash)
  {
    assert [c][..0] == [];
  }
}
