/** The configuration-independent half of the size computation: one
    depth-first pass over a field list that sorts each field's contribution
    into nine accumulators (src/Pytolith/Definitions/Layout.py,
    `__caclulate_partials_length`). */
module Partials {
  import opened Wrappers
  import opened Errors
  import opened Fields

  /** The nine accumulators.  `structs` holds one layout id per embedded
      structure instance, in the order the walk meets them. */
  datatype Partials = Partials(
    baseLength: nat,
    pointerCount: nat,
    tagDataCount: nat,
    tagBlockCount: nat,
    tagReferenceCount: nat,
    vertexBufferCount: nat,
    oldStringIdCount: nat,
    uselessPadLength: nat,
    structs: seq<string>)

  const Zero := Partials(0, 0, 0, 0, 0, 0, 0, 0, [])

  /** `[id] * n` */
  function Repeat(id: string, n: nat): seq<string>
  {
    seq(n, _ => id)
  }

  /** What one field adds to `acc` when it stands `count` times.  An `Array`
      walks its entries with its own `count` as the multiplier, whatever
      multiplier the array itself stands under. */
  function Visit(f: Field, count: nat, acc: Partials): (r: Result<Partials, Error>)
    ensures r.Ok? ==> forall s :: s in r.value.structs ==> s in acc.structs || s in FieldStructRefs(f)
    decreases f
  {
    match f.kind
    case OldStringId => Ok(acc.(oldStringIdCount := acc.oldStringIdCount + count))
    case TagReference => Ok(acc.(tagReferenceCount := acc.tagReferenceCount + count))
    case Block => Ok(acc.(tagBlockCount := acc.tagBlockCount + count))
    case Data => Ok(acc.(tagDataCount := acc.tagDataCount + count))
    case UselessPad(length) => Ok(acc.(uselessPadLength := acc.uselessPadLength + length * count))
    case Pad(length) => Ok(acc.(baseLength := acc.baseLength + length * count))
    case Skip(length) => Ok(acc.(baseLength := acc.baseLength + length * count))
    case Ptr => Ok(acc.(pointerCount := acc.pointerCount + count))
    case VertexBuffer => Ok(acc.(vertexBufferCount := acc.vertexBufferCount + count))
    case Struct(id) => Ok(acc.(structs := acc.structs + Repeat(id, count)))
    case Array(n, entries) => Walk(entries, n, acc)
    case Primitive(t) =>
      match FieldLength(t)
      case None => Err(UnknownFieldType(t))
      case Some(len) => Ok(acc.(baseLength := acc.baseLength + len * count))
  }

  /** The accumulators after visiting `fields` in order, starting from `acc`;
      the first unknown primitive type aborts the walk.  Every deferred
      structure is one that `fields` refers to. */
  function Walk(fields: seq<Field>, count: nat, acc: Partials): (r: Result<Partials, Error>)
    ensures r.Ok? ==> forall s :: s in r.value.structs ==> s in acc.structs || s in StructRefs(fields)
    decreases fields
  {
    if fields == [] then Ok(acc)
    else
      match Visit(fields[0], count, acc)
      case Err(e) => Err(e)
      case Ok(next) => Walk(fields[1..], count, next)
  }

  /** The nested `calculate_fields_lengths` helper: a loop over `fields` that
      updates the accumulators and recurses into the entries of arrays. */
  method CalculateFieldsLengths(fields: seq<Field>, count: nat, acc: Partials)
    returns (r: Result<Partials, Error>)
    ensures r == Walk(fields, count, acc)
    decreases fields
  {
    var cur := acc;
    for i := 0 to |fields|
      invariant Walk(fields[i..], count, cur) == Walk(fields, count, acc)
    {
      assert fields[i..][1..] == fields[i + 1..];
      var next := CalculateFieldLength(fields[i], count, cur);
      if next.Err? {
        return next;
      }
      cur := next.value;
    }
    return Ok(cur);
  }

  /** The body of that loop for one field: the `match` on its type. */
  method CalculateFieldLength(f: Field, count: nat, acc: Partials) returns (r: Result<Partials, Error>)
    ensures r == Visit(f, count, acc)
    decreases f
  {
    r := Ok(acc);
    match f.kind {
      case OldStringId =>
        r := Ok(acc.(oldStringIdCount := acc.oldStringIdCount + count));
      case TagReference =>
        r := Ok(acc.(tagReferenceCount := acc.tagReferenceCount + count));
      case Block =>
        r := Ok(acc.(tagBlockCount := acc.tagBlockCount + count));
      case Data =>
        r := Ok(acc.(tagDataCount := acc.tagDataCount + count));
      case UselessPad(length) =>
        r := Ok(acc.(uselessPadLength := acc.uselessPadLength + length * count));
      case Pad(length) =>
        r := Ok(acc.(baseLength := acc.baseLength + length * count));
      case Skip(length) =>
        r := Ok(acc.(baseLength := acc.baseLength + length * count));
      case Ptr =>
        r := Ok(acc.(pointerCount := acc.pointerCount + count));
      case VertexBuffer =>
        r := Ok(acc.(vertexBufferCount := acc.vertexBufferCount + count));
      case Struct(id) =>
        r := Ok(acc.(structs := acc.structs + Repeat(id, count)));
      case Array(n, entries) =>
        r := CalculateFieldsLengths(entries, n, acc);
      case Primitive(t) =>
        var len := FieldLength(t);
        if len.None? {
          return Err(UnknownFieldType(t));
        }
        r := Ok(acc.(baseLength := acc.baseLength + len.value * count));
    }
  }

  // ---------------------------------------------------------------------
  // Algebra of the accumulators

  /** Accumulator-wise sum; deferred structures are concatenated. */
  function Add(p: Partials, q: Partials): Partials
  {
    Partials(
      p.baseLength + q.baseLength,
      p.pointerCount + q.pointerCount,
      p.tagDataCount + q.tagDataCount,
      p.tagBlockCount + q.tagBlockCount,
      p.tagReferenceCount + q.tagReferenceCount,
      p.vertexBufferCount + q.vertexBufferCount,
      p.oldStringIdCount + q.oldStringIdCount,
      p.uselessPadLength + q.uselessPadLength,
      p.structs + q.structs)
  }

  /** `acc` added in front of a successful result; errors pass through. */
  function Shift(acc: Partials, r: Result<Partials, Error>): Result<Partials, Error>
  {
    match r
    case Err(e) => Err(e)
    case Ok(p) => Ok(Add(acc, p))
  }

  /** Each deferred structure repeated `n` times in place. */
  function RepeatEach(structs: seq<string>, n: nat): seq<string>
  {
    if structs == [] then [] else Repeat(structs[0], n) + RepeatEach(structs[1..], n)
  }

  /** Every accumulator multiplied by `n`. */
  function Scale(p: Partials, n: nat): Partials
  {
    Partials(
      p.baseLength * n,
      p.pointerCount * n,
      p.tagDataCount * n,
      p.tagBlockCount * n,
      p.tagReferenceCount * n,
      p.vertexBufferCount * n,
      p.oldStringIdCount * n,
      p.uselessPadLength * n,
      RepeatEach(p.structs, n))
  }

  function ScaleResult(r: Result<Partials, Error>, n: nat): Result<Partials, Error>
  {
    match r
    case Err(e) => Err(e)
    case Ok(p) => Ok(Scale(p, n))
  }

  /** The partials of a field list on their own, from fresh accumulators and
      multiplier 1, as `calculate_fields_lengths(self.merged_fields, 1)`. */
  function PartialsOf(fields: seq<Field>): (r: Result<Partials, Error>)
    ensures r.Ok? ==> forall s :: s in r.value.structs ==> s in StructRefs(fields)
  {
    Walk(fields, 1, Zero)
  }

  lemma AddAssociative(a: Partials, b: Partials, c: Partials)
    ensures Add(Add(a, b), c) == Add(a, Add(b, c))
  {
    assert (a.structs + b.structs) + c.structs == a.structs + (b.structs + c.structs);
  }

  /** A field's contribution does not depend on what was accumulated before
      it: visiting from `acc` is visiting from nothing and adding `acc`. */
  lemma {:induction false} VisitShift(f: Field, count: nat, acc: Partials)
    ensures Visit(f, count, acc) == Shift(acc, Visit(f, count, Zero))
    decreases f
  {
    assert acc.structs + [] == acc.structs;
    match f.kind
    case Array(n, entries) => WalkShift(entries, n, acc);
    case Struct(id) => assert Zero.structs + Repeat(id, count) == Repeat(id, count);
    case Primitive(t) =>
    case OldStringId =>
    case TagReference =>
    case Block =>
    case Data =>
    case UselessPad(_) =>
    case Pad(_) =>
    case Skip(_) =>
    case Ptr =>
    case VertexBuffer =>
  }

  /** The same for a whole field list. */
  lemma {:induction false} WalkShift(fields: seq<Field>, count: nat, acc: Partials)
    ensures Walk(fields, count, acc) == Shift(acc, Walk(fields, count, Zero))
    decreases fields
  {
    if fields == [] {
      assert acc.structs + [] == acc.structs;
    } else {
      VisitShift(fields[0], count, acc);
      var v := Visit(fields[0], count, Zero);
      if v.Ok? {
        assert Walk(fields, count, Zero) == Walk(fields[1..], count, v.value);
        assert Walk(fields, count, acc) == Walk(fields[1..], count, Add(acc, v.value));
        WalkShift(fields[1..], count, Add(acc, v.value));
        WalkShift(fields[1..], count, v.value);
        match Walk(fields[1..], count, Zero)
        case Err(_) =>
        case Ok(w) => AddAssociative(acc, v.value, w);
      }
    }
  }

  /** Walking a concatenation walks the first list, then the second from
      where the first left off. */
  lemma {:induction false} WalkAppend(a: seq<Field>, b: seq<Field>, count: nat, acc: Partials)
    ensures Walk(a + b, count, acc) ==
      match Walk(a, count, acc)
      case Err(e) => Err(e)
      case Ok(p) => Walk(b, count, p)
    decreases a
  {
    if a == [] {
      assert a + b == b;
    } else {
      assert (a + b)[0] == a[0];
      assert (a + b)[1..] == a[1..] + b;
      match Visit(a[0], count, acc)
      case Err(_) =>
      case Ok(next) => WalkAppend(a[1..], b, count, next);
    }
  }

  /** The partials of a concatenation are the sums of the partials of its
      parts, and it fails exactly when one of the parts does. */
  lemma PartialsOfAppend(a: seq<Field>, b: seq<Field>)
    ensures PartialsOf(a + b).Ok? <==> PartialsOf(a).Ok? && PartialsOf(b).Ok?
    ensures PartialsOf(a + b).Ok? ==>
      PartialsOf(a + b).value == Add(PartialsOf(a).value, PartialsOf(b).value)
  {
    WalkAppend(a, b, 1, Zero);
    if PartialsOf(a).Ok? {
      WalkShift(b, 1, PartialsOf(a).value);
    }
  }

  lemma RepeatEachAppend(s: seq<string>, t: seq<string>, n: nat)
    ensures RepeatEach(s + t, n) == RepeatEach(s, n) + RepeatEach(t, n)
  {
    if s == [] {
      assert s + t == t;
    } else {
      assert (s + t)[1..] == s[1..] + t;
      RepeatEachAppend(s[1..], t, n);
    }
  }

  lemma ScaleAdd(p: Partials, q: Partials, n: nat)
    ensures Scale(Add(p, q), n) == Add(Scale(p, n), Scale(q, n))
  {
    RepeatEachAppend(p.structs, q.structs, n);
    Distribute(p.baseLength, q.baseLength, n);
    Distribute(p.pointerCount, q.pointerCount, n);
    Distribute(p.tagDataCount, q.tagDataCount, n);
    Distribute(p.tagBlockCount, q.tagBlockCount, n);
    Distribute(p.tagReferenceCount, q.tagReferenceCount, n);
    Distribute(p.vertexBufferCount, q.vertexBufferCount, n);
    Distribute(p.oldStringIdCount, q.oldStringIdCount, n);
    Distribute(p.uselessPadLength, q.uselessPadLength, n);
  }

  lemma Distribute(a: nat, b: nat, n: nat)
    ensures (a + b) * n == a * n + b * n
  {
  }

  /** Outside arrays, the multiplier multiplies every accumulator: a field
      that is not an array, standing `n` times, adds `n` times what it adds
      once. */
  lemma VisitScale(f: Field, n: nat)
    requires !f.kind.Array?
    ensures Visit(f, n, Zero) == ScaleResult(Visit(f, 1, Zero), n)
  {
    match f.kind
    case Struct(id) =>
      assert Zero.structs + Repeat(id, 1) == [id];
      assert Zero.structs + Repeat(id, n) == Repeat(id, n);
      assert [id][1..] == [];
      assert RepeatEach([id], n) == Repeat(id, n) + RepeatEach([], n);
      assert Repeat(id, n) + [] == Repeat(id, n);
    case _ =>
  }

  /** A list without array fields, walked `n` times, accumulates `n` times
      what it accumulates once; `n = 0` accumulates nothing. */
  lemma {:induction false} WalkScaleFlat(fields: seq<Field>, n: nat)
    requires Flat(fields)
    ensures Walk(fields, n, Zero) == ScaleResult(Walk(fields, 1, Zero), n)
    decreases fields
  {
    if fields != [] {
      VisitScale(fields[0], n);
      match Visit(fields[0], 1, Zero)
      case Err(_) =>
      case Ok(v) =>
        WalkShift(fields[1..], n, Scale(v, n));
        WalkShift(fields[1..], 1, v);
        WalkScaleFlat(fields[1..], n);
        match Walk(fields[1..], 1, Zero)
        case Err(_) =>
        case Ok(w) => ScaleAdd(v, w, n);
    }
  }

  /** An `Array` of `n` repetitions of entries without nested arrays adds
      `n` times what its entries add once, whatever multiplier the array
      itself stands under; with `n = 0` it adds nothing (the entries are
      still looked up, so an unknown type still fails). */
  lemma ArrayContribution(n: nat, entries: seq<Field>, count: nat, acc: Partials)
    requires Flat(entries)
    ensures Visit(Field(Array(n, entries), None, None), count, acc)
         == Shift(acc, ScaleResult(PartialsOf(entries), n))
    ensures n == 0 && PartialsOf(entries).Ok? ==>
      Visit(Field(Array(n, entries), None, None), count, acc) == Ok(acc)
  {
    WalkShift(entries, n, acc);
    WalkScaleFlat(entries, n);
    if n == 0 && PartialsOf(entries).Ok? {
      var p := PartialsOf(entries).value;
      assert RepeatEach(p.structs, 0) == [] by { RepeatEachZero(p.structs); }
      assert Add(acc, Scale(p, 0)) == acc;
    }
  }

  lemma {:induction false} RepeatEachZero(s: seq<string>)
    ensures RepeatEach(s, 0) == []
  {
    if s != [] {
      RepeatEachZero(s[1..]);
    }
  }

  /** An array of three `LongInteger`s adds 12 bytes of base length and
      nothing else. */
  lemma ArrayOfThreeLongIntegers()
    ensures PartialsOf([Field(Array(3, [Field(Primitive("LongInteger"), None, None)]), None, None)])
         == Ok(Zero.(baseLength := 12))
  {
    var entry := Field(Primitive("LongInteger"), None, None);
    assert Walk([entry], 3, Zero) == Ok(Zero.(baseLength := 12)) by {
      assert [entry][1..] == [];
    }
    var arr := Field(Array(3, [entry]), None, None);
    assert [arr][1..] == [];
  }

  /** An array nested in an array is walked with its own count only: wrapping
      the 3 x `LongInteger` array in an array of count 2 still gives 12 bytes,
      not 24. */
  lemma NestedArrayIgnoresOuterCount()
    ensures PartialsOf([Field(Array(2, [Field(Array(3, [Field(Primitive("LongInteger"), None, None)]), None, None)]),
                              None, None)])
         == Ok(Zero.(baseLength := 12))
  {
    var entry := Field(Primitive("LongInteger"), None, None);
    assert Walk([entry], 3, Zero) == Ok(Zero.(baseLength := 12)) by {
      assert [entry][1..] == [];
    }
    var inner := Field(Array(3, [entry]), None, None);
    assert Walk([inner], 2, Zero) == Ok(Zero.(baseLength := 12)) by {
      assert [inner][1..] == [];
    }
    var outer := Field(Array(2, [inner]), None, None);
    assert [outer][1..] == [];
  }

  /** Every primitive type name in `fields`, at any depth, is in the length
      table. */
  predicate KnownTypes(fields: seq<Field>)
    decreases fields
  {
    fields != [] ==> FieldKnownTypes(fields[0]) && KnownTypes(fields[1..])
  }

  predicate FieldKnownTypes(f: Field)
    decreases f
  {
    match f.kind
    case Primitive(t) => FieldLength(t).Some?
    case Array(_, entries) => KnownTypes(entries)
    case _ => true
  }

  /** A walk fails exactly when some primitive field, at any depth, has a
      type name the length table lacks; neither the multiplier nor the
      accumulators matter. */
  lemma {:induction false} VisitSucceeds(f: Field, count: nat, acc: Partials)
    ensures Visit(f, count, acc).Ok? <==> FieldKnownTypes(f)
    decreases f
  {
    match f.kind
    case Array(n, entries) => WalkSucceeds(entries, n, acc);
    case _ =>
  }

  lemma {:induction false} WalkSucceeds(fields: seq<Field>, count: nat, acc: Partials)
    ensures Walk(fields, count, acc).Ok? <==> KnownTypes(fields)
    decreases fields
  {
    if fields != [] {
      VisitSucceeds(fields[0], count, acc);
      match Visit(fields[0], count, acc)
      case Err(_) =>
      case Ok(next) => WalkSucceeds(fields[1..], count, next);
    }
  }

  /** The example field set: `Pad(2)`, `LongInteger`, `Ptr`, `TagReference`,
      whatever their names. */
  predicate IsExample(fields: seq<Field>)
  {
    && |fields| == 4
    && fields[0].kind == Pad(2)
    && fields[1].kind == Primitive("LongInteger")
    && fields[2].kind == Ptr
    && fields[3].kind == TagReference
  }

  lemma LongIntegerLength()
    ensures FieldLength("LongInteger") == Some(4)
  {
  }

  /** The four example fields add 6 bytes of base length, one pointer and one
      tag reference, and defer no structure. */
  lemma ExamplePartials(fields: seq<Field>)
    requires IsExample(fields)
    ensures PartialsOf(fields) == Ok(Zero.(baseLength := 6, pointerCount := 1, tagReferenceCount := 1))
  {
    LongIntegerLength();
    var p1 := Zero.(baseLength := 2);
    var p2 := Zero.(baseLength := 6);
    var p3 := p2.(pointerCount := 1);
    var p4 := p3.(tagReferenceCount := 1);
    assert Visit(fields[0], 1, Zero) == Ok(p1);
    assert Visit(fields[1], 1, p1) == Ok(p2);
    assert Visit(fields[2], 1, p2) == Ok(p3);
    assert Visit(fields[3], 1, p3) == Ok(p4);
    assert Walk(fields[3..], 1, p3) == Ok(p4) by {
      assert fields[3..][0] == fields[3];
      assert fields[3..][1..] == [];
    }
    assert Walk(fields[2..], 1, p2) == Ok(p4) by {
      assert fields[2..][0] == fields[2];
      assert fields[2..][1..] == fields[3..];
    }
    assert Walk(fields[1..], 1, p1) == Ok(p4) by {
      assert fields[1..][0] == fields[1];
      assert fields[1..][1..] == fields[2..];
    }
  }

  /** A list with neither `Struct` nor `Array` fields embeds nothing. */
  lemma {:induction false} NoStructRefs(fields: seq<Field>)
    requires forall i :: 0 <= i < |fields| ==> !fields[i].kind.Struct? && !fields[i].kind.Array?
    ensures StructRefs(fields) == {}
  {
    if fields != [] {
      NoStructRefs(fields[1..]);
    }
  }
}
