/**
  UAV object definitions (ground/uavobjgenerator): the order and layout of the fields, the object ID, and
  the check for ID collisions.
 */
module UavObjects {
  import opened WordBits

  datatype FieldType = Int8 | Int16 | Int32 | UInt8 | UInt16 | UInt32 | Float32 | Enum

  /** Text as its Latin-1 bytes. */
  type Latin = seq<bv8>

  datatype Field = Field(name: Latin, description: string, units: string, kind: FieldType, numElements: int,
                         options: seq<Latin>, defaults: seq<string>, limits: string)
  {
    /** fieldTypeNumBytes */
    function NumBytes(): (n: int)
      ensures n == 1 || n == 2 || n == 4
    {
      match kind
      case Int8 => 1
      case Int16 => 2
      case Int32 => 4
      case UInt8 => 1
      case UInt16 => 2
      case UInt32 => 4
      case Float32 => 4
      case Enum => 1
    }
  }

  // ------------------------------------------------------------------ the order of the fields

  predicate FieldTypeLessThan(f: Field, g: Field) {
    f.NumBytes() > g.NumBytes()
  }

  /** qStableSort: a field goes in front of the first field that is not less than it. */
  function StableSort(fields: seq<Field>): seq<Field> {
    if fields == [] then [] else Insert(fields[0], StableSort(fields[1..]))
  }

  function Insert(f: Field, sorted: seq<Field>): seq<Field> {
    if sorted == [] || !FieldTypeLessThan(sorted[0], f) then [f] + sorted else [sorted[0]] + Insert(f, sorted[1..])
  }

  /** The fields of one size, in their order. */
  function OfSize(fields: seq<Field>, size: int): seq<Field> {
    if fields == [] then []
    else (if fields[0].NumBytes() == size then [fields[0]] else []) + OfSize(fields[1..], size)
  }

  ghost predicate AllOfSize(fields: seq<Field>, size: int) {
    forall i :: 0 <= i < |fields| ==> fields[i].NumBytes() == size
  }

  lemma {:induction false} OfSizeAll(fields: seq<Field>, size: int)
    ensures AllOfSize(OfSize(fields, size), size)
  {
    if fields != [] {
      OfSizeAll(fields[1..], size);
    }
  }

  /** Inserting in front of larger fields moves past them. */
  lemma {:induction false} InsertPast(f: Field, larger: seq<Field>, rest: seq<Field>)
    requires forall i :: 0 <= i < |larger| ==> FieldTypeLessThan(larger[i], f)
    requires rest == [] || !FieldTypeLessThan(rest[0], f)
    ensures Insert(f, larger + rest) == larger + [f] + rest
  {
    if larger == [] {
      assert larger + rest == rest;
    } else {
      InsertPast(f, larger[1..], rest);
      assert (larger + rest)[1..] == larger[1..] + rest;
      assert larger == [larger[0]] + larger[1..];
    }
  }

  lemma InsertFour(f: Field, a: seq<Field>, b: seq<Field>, c: seq<Field>)
    requires f.NumBytes() == 4
    ensures Insert(f, a + b + c) == ([f] + a) + b + c
  {
    var s := a + b + c;
    assert Insert(f, s) == [f] + s;
    assert [f] + s == ([f] + a) + b + c;
  }

  lemma InsertTwo(f: Field, a: seq<Field>, b: seq<Field>, c: seq<Field>)
    requires f.NumBytes() == 2 && AllOfSize(a, 4) && AllOfSize(b, 2) && AllOfSize(c, 1)
    ensures Insert(f, a + b + c) == a + ([f] + b) + c
  {
    var rest := b + c;
    assert rest != [] ==> rest[0] == if b != [] then b[0] else c[0];
    InsertPast(f, a, rest);
    assert a + b + c == a + rest;
    assert a + [f] + rest == a + ([f] + b) + c;
  }

  lemma InsertOne(f: Field, a: seq<Field>, b: seq<Field>, c: seq<Field>)
    requires f.NumBytes() == 1 && AllOfSize(a, 4) && AllOfSize(b, 2) && AllOfSize(c, 1)
    ensures Insert(f, a + b + c) == a + b + ([f] + c)
  {
    var larger := a + b;
    forall i | 0 <= i < |larger|
      ensures FieldTypeLessThan(larger[i], f)
    {
      assert larger[i] == if i < |a| then a[i] else b[i - |a|];
    }
    InsertPast(f, larger, c);
    assert larger + [f] + c == larger + ([f] + c);
  }

  /** The sorted list is the four-byte fields, the two-byte fields and the one-byte fields, each in their
      original order. */
  lemma {:induction false} SortedBySize(fields: seq<Field>)
    ensures StableSort(fields) == OfSize(fields, 4) + OfSize(fields, 2) + OfSize(fields, 1)
  {
    if fields != [] {
      var f, rest := fields[0], fields[1..];
      SortedBySize(rest);
      var a, b, c := OfSize(rest, 4), OfSize(rest, 2), OfSize(rest, 1);
      OfSizeAll(rest, 4);
      OfSizeAll(rest, 2);
      OfSizeAll(rest, 1);
      SizeStep(fields, 4);
      SizeStep(fields, 2);
      SizeStep(fields, 1);
      if f.NumBytes() == 4 {
        InsertFour(f, a, b, c);
      } else if f.NumBytes() == 2 {
        InsertTwo(f, a, b, c);
      } else {
        InsertOne(f, a, b, c);
      }
    }
  }

  /** Sorting only reorders. */
  lemma {:induction false} SortedPermutes(fields: seq<Field>)
    ensures multiset(StableSort(fields)) == multiset(fields)
  {
    if fields != [] {
      SortedPermutes(fields[1..]);
      InsertAdds(fields[0], StableSort(fields[1..]));
      assert fields == [fields[0]] + fields[1..];
    }
  }

  lemma {:induction false} InsertAdds(f: Field, sorted: seq<Field>)
    ensures multiset(Insert(f, sorted)) == multiset(sorted) + multiset{f}
  {
    if sorted != [] && FieldTypeLessThan(sorted[0], f) {
      InsertAdds(f, sorted[1..]);
      assert sorted == [sorted[0]] + sorted[1..];
    }
  }

  lemma SizeStep(fields: seq<Field>, size: int)
    requires fields != []
    ensures OfSize(fields, size) ==
            if fields[0].NumBytes() == size then [fields[0]] + OfSize(fields[1..], size) else OfSize(fields[1..], size)
  {
  }

  // ------------------------------------------------------------------ the layout

  /** The byte offset of field k. */
  function Offset(fields: seq<Field>, k: nat): int
    requires k <= |fields|
  {
    if k == 0 then 0 else Offset(fields, k - 1) + fields[k - 1].NumBytes() * fields[k - 1].numElements
  }

  method GetNumBytes(fields: seq<Field>) returns (numBytes: int)
    ensures numBytes == Offset(fields, |fields|)
  {
    numBytes := 0;
    for n := 0 to |fields|
      invariant numBytes == Offset(fields, n)
    {
      numBytes := numBytes + fields[n].NumBytes() * fields[n].numElements;
    }
  }

  /** Sizes never increase from one field to the next. */
  ghost predicate Descending(fields: seq<Field>) {
    forall i, j :: 0 <= i <= j < |fields| ==> fields[i].NumBytes() >= fields[j].NumBytes()
  }

  lemma SortedDescending(fields: seq<Field>)
    ensures Descending(StableSort(fields))
  {
    SortedBySize(fields);
    OfSizeAll(fields, 4);
    OfSizeAll(fields, 2);
    OfSizeAll(fields, 1);
  }

  lemma {:induction false} OffsetMultiple(fields: seq<Field>, k: nat, size: int)
    requires k <= |fields| && Descending(fields)
    requires size == 1 || size == 2 || size == 4
    requires forall i :: 0 <= i < k ==> fields[i].NumBytes() >= size
    ensures Offset(fields, k) % size == 0
  {
    if k > 0 {
      OffsetMultiple(fields, k - 1, size);
      var n := fields[k - 1].NumBytes();
      if n == size {
        Multiple(n, fields[k - 1].numElements, 1, size);
      } else if n == 2 * size {
        Multiple(n, fields[k - 1].numElements, 2, size);
      } else {
        Multiple(n, fields[k - 1].numElements, 4, size);
      }
      SumMultiple(Offset(fields, k - 1), n * fields[k - 1].numElements, size);
    }
  }

  lemma Multiple(n: int, m: int, q: int, size: int)
    requires n == q * size && (size == 1 || size == 2 || size == 4) && (q == 1 || q == 2 || q == 4)
    ensures (n * m) % size == 0
  {
    if size == 2 {
      assert n * m == 2 * (q * m);
    } else if size == 4 {
      assert n * m == 4 * (q * m);
    }
  }

  lemma SumMultiple(a: int, b: int, size: int)
    requires (size == 1 || size == 2 || size == 4) && a % size == 0 && b % size == 0
    ensures (a + b) % size == 0
  {
  }

  /** After the sort every field is aligned to its element size. */
  lemma FieldsAligned(fields: seq<Field>, k: nat)
    requires k < |StableSort(fields)|
    ensures Offset(StableSort(fields), k) % StableSort(fields)[k].NumBytes() == 0
  {
    SortedDescending(fields);
    OffsetMultiple(StableSort(fields), k, StableSort(fields)[k].NumBytes());
  }

  /** The byte range of a field in the generated code, both ends included. */
  datatype Range = Range(first: int, last: int)

  /** The ranges that the Matlab generator writes. */
  method EmitRanges(fields: seq<Field>) returns (ranges: seq<Range>, currentIdx: int)
    ensures |ranges| == |fields| && currentIdx == Offset(fields, |fields|)
    ensures forall k :: 0 <= k < |fields| ==> ranges[k] == EmittedRange(fields, k)
  {
    currentIdx, ranges := 0, [];
    for n := 0 to |fields|
      invariant |ranges| == n && currentIdx == Offset(fields, n)
      invariant forall k :: 0 <= k < n ==> ranges[k] == EmittedRange(fields, k)
    {
      var size := fields[n].NumBytes();
      if fields[n].numElements > 1 {
        ranges := ranges + [Range(currentIdx, currentIdx + size * fields[n].numElements - 1)];
      } else {
        ranges := ranges + [Range(currentIdx, currentIdx + size - 1)];
      }
      currentIdx := currentIdx + size * fields[n].numElements;
    }
  }

  function EmittedRange(fields: seq<Field>, k: nat): Range
    requires k < |fields|
  {
    Range(Offset(fields, k),
          Offset(fields, k) - 1 + if fields[k].numElements > 1 then fields[k].NumBytes() * fields[k].numElements
            else fields[k].NumBytes())
  }

  /** A range ends right before the next field starts exactly when the field has elements. */
  lemma RangeContiguous(fields: seq<Field>, k: nat)
    requires k < |fields|
    ensures EmittedRange(fields, k).last + 1 == Offset(fields, k + 1) <==> fields[k].numElements >= 1
  {
    var n, m := fields[k].NumBytes(), fields[k].numElements;
    if m <= 0 {
      assert n * m <= 0;
    } else if m == 1 {
      assert n * m == n;
    }
  }

  /** The ranges of two neighbours, and the first range. */
  lemma RangesMeet(fields: seq<Field>, k: nat)
    requires k + 1 < |fields|
    ensures EmittedRange(fields, 0).first == 0
    ensures EmittedRange(fields, k).last + 1 == EmittedRange(fields, k + 1).first <==> fields[k].numElements >= 1
  {
    RangeContiguous(fields, k);
  }

  /** The size of an object is the sum over its fields, and sorting does not change it. */
  lemma {:induction false} SizeAdds(a: seq<Field>, b: seq<Field>)
    ensures Offset(a + b, |a + b|) == Offset(a, |a|) + Offset(b, |b|)
    decreases |b|
  {
    if b == [] {
      assert a + b == a;
    } else {
      var most, last := b[..|b| - 1], b[|b| - 1];
      SizeAdds(a, most);
      assert a + b == (a + most) + [last];
      SizeLast(a + most, last);
      assert b == most + [last];
      SizeLast(most, last);
    }
  }

  lemma SizeLast(fields: seq<Field>, f: Field)
    ensures Offset(fields + [f], |fields| + 1) == Offset(fields, |fields|) + f.NumBytes() * f.numElements
  {
    OffsetPrefix(fields, [f], |fields|);
  }

  lemma {:induction false} OffsetPrefix(a: seq<Field>, b: seq<Field>, k: nat)
    requires k <= |a|
    ensures Offset(a + b, k) == Offset(a, k)
  {
    if k > 0 {
      OffsetPrefix(a, b, k - 1);
    }
  }

  lemma SizeOfOne(f: Field)
    ensures Offset([f], 1) == f.NumBytes() * f.numElements
  {
    assert Offset([f], 0) == 0;
  }

  lemma {:induction false} InsertSize(f: Field, t: seq<Field>)
    ensures Offset(Insert(f, t), |Insert(f, t)|) == f.NumBytes() * f.numElements + Offset(t, |t|)
  {
    SizeOfOne(f);
    if t == [] || !FieldTypeLessThan(t[0], f) {
      SizeAdds([f], t);
    } else {
      InsertSize(f, t[1..]);
      SizeAdds([t[0]], Insert(f, t[1..]));
      SizeAdds([t[0]], t[1..]);
      assert t == [t[0]] + t[1..];
    }
  }

  lemma {:induction false} SortedSize(fields: seq<Field>)
    ensures Offset(StableSort(fields), |StableSort(fields)|) == Offset(fields, |fields|)
  {
    if fields != [] {
      SortedSize(fields[1..]);
      InsertSize(fields[0], StableSort(fields[1..]));
      SizeOfOne(fields[0]);
      SizeAdds([fields[0]], fields[1..]);
      assert fields == [fields[0]] + fields[1..];
    }
  }

  /** With positive element counts the ranges are disjoint, in order, and tile the object's bytes. */
  lemma {:induction false} RangesTile(fields: seq<Field>, j: nat, k: nat)
    requires j < k <= |fields| && forall i :: 0 <= i < |fields| ==> fields[i].numElements >= 1
    ensures 0 <= EmittedRange(fields, j).first <= EmittedRange(fields, j).last < Offset(fields, k)
    ensures k < |fields| ==> EmittedRange(fields, j).last < EmittedRange(fields, k).first
    ensures k == |fields| ==> EmittedRange(fields, k - 1).last == Offset(fields, |fields|) - 1
  {
    RangeContiguous(fields, k - 1);
    OffsetGrows(fields, j);
    assert fields[k - 1].NumBytes() * fields[k - 1].numElements >= 1;
    if j < k - 1 {
      RangesTile(fields, j, k - 1);
    } else {
      assert fields[j].NumBytes() * fields[j].numElements >= 1;
    }
  }

  lemma {:induction false} OffsetGrows(fields: seq<Field>, k: nat)
    requires k <= |fields| && forall i :: 0 <= i < |fields| ==> fields[i].numElements >= 1
    ensures Offset(fields, k) >= 0
  {
    if k > 0 {
      OffsetGrows(fields, k - 1);
      assert fields[k - 1].NumBytes() * fields[k - 1].numElements >= 1;
    }
  }

  // ------------------------------------------------------------------ the ID

  /** What is added to the value. */
  function Mixed(hash: Word): Word {
    Plus(hash << 5, hash >> 2)
  }

  /** updateHash: shift, add, XOR. */
  function UpdateHash(value: Word, hash: Word): Word {
    Xor(hash, Plus(Mixed(hash), value))
  }

  /** A byte as a signed char converts to a word. */
  function CharValue(c: bv8): Word {
    if c & 0x80 != 0 then (c as Word) | 0xFFFFFF00 else c as Word
  }

  function HashText(text: Latin, hash: Word): Word {
    if text == [] then hash else UpdateHash(CharValue(text[|text| - 1]), HashText(text[..|text| - 1], hash))
  }

  method UpdateHashText(text: Latin, hash: Word) returns (hashout: Word)
    ensures hashout == HashText(text, hash)
  {
    hashout := hash;
    assert text[..0] == [];
    for n := 0 to |text|
      invariant hashout == HashText(text[..n], hash)
    {
      assert text[..n + 1][..n] == text[..n];
      hashout := UpdateHash(CharValue(text[n]), hashout);
    }
    assert text[..|text|] == text;
  }

  function HashTexts(texts: seq<Latin>, hash: Word): Word {
    if texts == [] then hash else HashText(texts[|texts| - 1], HashTexts(texts[..|texts| - 1], hash))
  }

  /** A count converted to an unsigned word. */
  function CountValue(n: int): Word {
    (n % 0x1_0000_0000) as Word
  }

  function KindValue(k: FieldType): Word {
    match k
    case Int8 => 0
    case Int16 => 1
    case Int32 => 2
    case UInt8 => 3
    case UInt16 => 4
    case UInt32 => 5
    case Float32 => 6
    case Enum => 7
  }

  function HashField(f: Field, hash: Word): Word {
    var h := UpdateHash(KindValue(f.kind), UpdateHash(CountValue(f.numElements), HashText(f.name, hash)));
    if f.kind == Enum then HashTexts(f.options, h) else h
  }

  function HashFields(fields: seq<Field>, hash: Word): Word {
    if fields == [] then hash else HashField(fields[|fields| - 1], HashFields(fields[..|fields| - 1], hash))
  }

  datatype ObjectInfo = ObjectInfo(name: Latin, isSettings: bool, isSingleInst: bool, fields: seq<Field>)

  function BoolValue(b: bool): Word {
    if b then 1 else 0
  }

  /** The ID of an object whose fields have been sorted. */
  function ObjectID(info: ObjectInfo): Word {
    IDOf(info.name, info.isSettings, info.isSingleInst, info.fields)
  }

  function IDOf(name: Latin, isSettings: bool, isSingleInst: bool, fields: seq<Field>): Word {
    EvenPart(HashFields(fields, HeaderHash(name, isSettings, isSingleInst)))
  }

  /** The hash of everything but the fields. */
  function HeaderHash(name: Latin, isSettings: bool, isSingleInst: bool): Word {
    UpdateHash(BoolValue(isSingleInst), UpdateHash(BoolValue(isSettings), HashText(name, 0)))
  }

  /** What the parser does with an object: sort the fields and compute the ID. */
  function ParsedID(info: ObjectInfo): Word {
    ObjectID(info.(fields := StableSort(info.fields)))
  }

  method CalculateID(info: ObjectInfo) returns (id: Word)
    ensures id == ObjectID(info)
  {
    var hash := UpdateHashText(info.name, 0);
    hash := UpdateHash(BoolValue(info.isSettings), hash);
    hash := UpdateHash(BoolValue(info.isSingleInst), hash);
    ghost var start := hash;
    assert info.fields[..0] == [];
    for n := 0 to |info.fields|
      invariant hash == HashFields(info.fields[..n], start)
    {
      var f := info.fields[n];
      assert info.fields[..n + 1][..n] == info.fields[..n];
      hash := UpdateHashText(f.name, hash);
      hash := UpdateHash(CountValue(f.numElements), hash);
      hash := UpdateHash(KindValue(f.kind), hash);
      if f.kind == Enum {
        hash := HashOptions(f.options, hash);
      }
    }
    assert info.fields[..|info.fields|] == info.fields;
    id := EvenPart(hash);
  }

  method HashOptions(options: seq<Latin>, hash: Word) returns (hashout: Word)
    ensures hashout == HashTexts(options, hash)
  {
    hashout := hash;
    assert options[..0] == [];
    for m := 0 to |options|
      invariant hashout == HashTexts(options[..m], hash)
    {
      assert options[..m + 1][..m] == options[..m];
      hashout := UpdateHashText(options[m], hashout);
    }
    assert options[..|options|] == options;
  }

  /** What the ID sees of a field. */
  function Relevant(f: Field): Field {
    Field(f.name, "", "", f.kind, f.numElements, if f.kind == Enum then f.options else [], [], "")
  }

  function AllRelevant(fields: seq<Field>): (r: seq<Field>)
    ensures |r| == |fields| && forall i :: 0 <= i < |r| ==> r[i] == Relevant(fields[i])
  {
    seq(|fields|, i requires 0 <= i < |fields| => Relevant(fields[i]))
  }

  lemma {:induction false} HashRelevant(fields: seq<Field>, hash: Word)
    ensures HashFields(AllRelevant(fields), hash) == HashFields(fields, hash)
  {
    if fields != [] {
      var k := |fields| - 1;
      HashRelevant(fields[..k], hash);
      assert AllRelevant(fields)[..k] == AllRelevant(fields[..k]);
    }
  }

  lemma {:induction false} OfSizeRelevant(fields: seq<Field>, size: int)
    ensures OfSize(AllRelevant(fields), size) == AllRelevant(OfSize(fields, size))
  {
    if fields != [] {
      OfSizeRelevant(fields[1..], size);
      assert AllRelevant(fields)[1..] == AllRelevant(fields[1..]);
      var f, rest := fields[0], OfSize(fields[1..], size);
      if f.NumBytes() == size {
        assert AllRelevant([f] + rest) == [Relevant(f)] + AllRelevant(rest);
        assert OfSize(fields, size) == [f] + rest;
      } else {
        assert OfSize(fields, size) == rest;
      }
    }
  }

  /** Two field lists with the same relevant attributes within each size class, however the classes are
      interleaved. */
  ghost predicate SameClasses(a: seq<Field>, b: seq<Field>) {
    forall size :: size == 1 || size == 2 || size == 4 ==> AllRelevant(OfSize(a, size)) == AllRelevant(OfSize(b, size))
  }

  lemma SortRelevant(fields: seq<Field>)
    ensures AllRelevant(StableSort(fields)) ==
            AllRelevant(OfSize(fields, 4)) + AllRelevant(OfSize(fields, 2)) + AllRelevant(OfSize(fields, 1))
  {
    SortedBySize(fields);
    var a, b, c := OfSize(fields, 4), OfSize(fields, 2), OfSize(fields, 1);
    assert AllRelevant(a + b + c) == AllRelevant(a) + AllRelevant(b) + AllRelevant(c);
  }

  lemma SameForm(a: seq<Field>, b: seq<Field>)
    requires SameClasses(a, b)
    ensures AllRelevant(StableSort(a)) == AllRelevant(StableSort(b))
  {
    SortRelevant(a);
    SortRelevant(b);
  }

  lemma SameHash(a: seq<Field>, b: seq<Field>, hash: Word)
    requires AllRelevant(a) == AllRelevant(b)
    ensures HashFields(a, hash) == HashFields(b, hash)
  {
    HashRelevant(a, hash);
    HashRelevant(b, hash);
  }

  /** The ID depends only on the canonical form: the order between fields of different sizes, descriptions,
      units, default values and limits do not matter. */
  lemma IDCanonical(info: ObjectInfo, other: seq<Field>)
    requires SameClasses(info.fields, other)
    ensures ParsedID(info.(fields := other)) == ParsedID(info)
  {
    SameForm(info.fields, other);
    SameID(info.name, info.isSettings, info.isSingleInst, StableSort(info.fields), StableSort(other));
  }

  lemma SameID(name: Latin, isSettings: bool, isSingleInst: bool, a: seq<Field>, b: seq<Field>)
    requires AllRelevant(a) == AllRelevant(b)
    ensures IDOf(name, isSettings, isSingleInst, a) == IDOf(name, isSettings, isSingleInst, b)
  {
    SameHash(a, b, HeaderHash(name, isSettings, isSingleInst));
  }

  /** Sorting an already sorted list changes nothing, so the ID of the written form is the ID. */
  lemma SortIdempotent(fields: seq<Field>)
    ensures StableSort(StableSort(fields)) == StableSort(fields)
  {
    SortedBySize(fields);
    SortedBySize(StableSort(fields));
    var a, b, c := OfSize(fields, 4), OfSize(fields, 2), OfSize(fields, 1);
    OfSizeAll(fields, 4);
    OfSizeAll(fields, 2);
    OfSizeAll(fields, 1);
    OfSizeParts(a, b, c, 4);
    OfSizeParts(a, b, c, 2);
    OfSizeParts(a, b, c, 1);
  }

  lemma OfSizeParts(a: seq<Field>, b: seq<Field>, c: seq<Field>, size: int)
    requires AllOfSize(a, 4) && AllOfSize(b, 2) && AllOfSize(c, 1)
    ensures OfSize(a + b + c, size) == if size == 4 then a else if size == 2 then b else if size == 1 then c else []
  {
    OfSizeAppend(a + b, c, size);
    OfSizeAppend(a, b, size);
    OfSizeUniform(a, 4, size);
    OfSizeUniform(b, 2, size);
    OfSizeUniform(c, 1, size);
  }

  lemma OfSizeUniform(a: seq<Field>, size: int, other: int)
    requires AllOfSize(a, size)
    ensures OfSize(a, other) == if other == size then a else []
  {
    OfSizeSame(a, size);
    OfSizeOther(a, size);
  }

  lemma OfSizeCons(f: Field, rest: seq<Field>, size: int)
    ensures OfSize([f] + rest, size) == (if f.NumBytes() == size then [f] else []) + OfSize(rest, size)
  {
    assert ([f] + rest)[1..] == rest;
  }

  lemma {:induction false} OfSizeAppend(a: seq<Field>, b: seq<Field>, size: int)
    ensures OfSize(a + b, size) == OfSize(a, size) + OfSize(b, size)
  {
    if a == [] {
      assert a + b == b;
    } else {
      OfSizeAppend(a[1..], b, size);
      OfSizeAppendCons(a[0], a[1..], b, size);
      assert a == [a[0]] + a[1..] && a + b == [a[0]] + (a[1..] + b);
    }
  }

  lemma OfSizeAppendCons(f: Field, a: seq<Field>, b: seq<Field>, size: int)
    requires OfSize(a + b, size) == OfSize(a, size) + OfSize(b, size)
    ensures OfSize([f] + (a + b), size) == OfSize([f] + a, size) + OfSize(b, size)
  {
    OfSizeCons(f, a, size);
    OfSizeCons(f, a + b, size);
    Associate(if f.NumBytes() == size then [f] else [], OfSize(a, size), OfSize(b, size));
  }

  lemma Associate(a: seq<Field>, b: seq<Field>, c: seq<Field>)
    ensures a + (b + c) == (a + b) + c
  {
  }

  lemma {:induction false} OfSizeSame(a: seq<Field>, size: int)
    requires AllOfSize(a, size)
    ensures OfSize(a, size) == a
  {
    if a != [] {
      OfSizeSame(a[1..], size);
    }
  }

  lemma {:induction false} OfSizeOther(a: seq<Field>, size: int)
    requires AllOfSize(a, size)
    ensures forall other :: other != size ==> OfSize(a, other) == []
  {
    if a != [] {
      OfSizeOther(a[1..], size);
    }
  }

  // ------------------------------------------------------------------ collisions

  /** The check of the main program. */
  method CheckIDs(ids: seq<Word>) returns (ok: bool)
    ensures ok <==>
            (forall i :: 0 <= i < |ids| ==> ids[i] != 0) && forall i, j :: 0 <= i < j < |ids| ==> ids[i] != ids[j]
  {
    var objIDList: seq<Word> := [];
    for objidx := 0 to |ids|
      invariant objIDList == ids[..objidx]
      invariant forall i :: 0 <= i < objidx ==> ids[i] != 0
      invariant forall i, j :: 0 <= i < j < objidx ==> ids[i] != ids[j]
    {
      var id := ids[objidx];
      if id in objIDList || id == 0 {
        if id in objIDList {
          var i :| 0 <= i < objidx && objIDList[i] == id;
          assert ids[i] == ids[objidx];
        }
        return false;
      }
      forall i | 0 <= i < objidx
        ensures ids[i] != id
      {
        assert objIDList[i] == ids[i] && ids[i] in objIDList;
      }
      objIDList := objIDList + [id];
    }
    return true;
  }

  lemma IDEven(info: ObjectInfo)
    ensures ParsedID(info) & 1 == 0
  {
    LowBit(HashFields(StableSort(info.fields), HeaderHash(info.name, info.isSettings, info.isSingleInst)));
  }

  lemma LowBit(h: Word)
    ensures (h & 0xFFFFFFFE) & 1 == 0
  {
  }

  lemma EvenOdd(a: Word, b: Word)
    requires a & 1 == 0 && b & 1 == 0
    ensures a != b + 1 && (a + 1 == b + 1 ==> a == b) && a + 1 != 0
  {
  }

  /** When the check passes, all object IDs and all metadata IDs, each one above its object's, differ. */
  lemma AllIDsDistinct(infos: seq<ObjectInfo>, ids: seq<Word>, i: nat, j: nat)
    requires |ids| == |infos| && forall k :: 0 <= k < |ids| ==> ids[k] == ParsedID(infos[k])
    requires forall k, l :: 0 <= k < l < |ids| ==> ids[k] != ids[l]
    requires i < |ids| && j < |ids|
    ensures i != j ==> ids[i] != ids[j] && ids[i] + 1 != ids[j] + 1
    ensures ids[i] != ids[j] + 1
  {
    IDEven(infos[i]);
    IDEven(infos[j]);
    EvenOdd(ids[i], ids[j]);
    assert i < j || j < i || i == j;
  }
}
