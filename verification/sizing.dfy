/** Byte size of a field list under a configuration, with embedded
    structures resolved through the layout namespace
    (src/Pytolith/Definitions/Layout.py, `sizeof_for_config` and
    `__caclulate_size_for_config`). */
module Sizing {
  import opened Wrappers
  import opened Errors
  import opened Fields
  import opened Partials

  /** The two flags of `sizeof_for_config`; the source memoises one size per
      pair. */
  datatype Config = Config(includeUselessPad: bool, useOldStringId: bool)

  /** `__caclulate_size_for_config`: the size of the field list itself, in
      the unpacked representation, without its embedded structures.  Only an
      old string id's width (32 or 4 bytes) and the useless padding depend on
      the configuration. */
  function ConfigSize(p: Partials, cfg: Config): nat
  {
    var baseLength := p.baseLength + p.pointerCount * 4 + p.tagDataCount * 20
      + p.tagBlockCount * 12 + p.tagReferenceCount * 16 + p.vertexBufferCount * 0x20;
    var oldStringIdLength := if cfg.useOldStringId then 32 else 4;
    var length := baseLength + p.oldStringIdCount * oldStringIdLength;
    if cfg.includeUselessPad then length + p.uselessPadLength else length
  }

  /** The layout namespace a `Struct` field resolves through: for each
      layout's unique id, the (merged) field list of each of its versions. */
  type Registry = map<string, seq<seq<Field>>>

  /** Every layout of `ids` that the namespace holds ranks below `bound`. */
  ghost predicate IdsBelow(reg: Registry, rank: map<string, nat>, ids: set<string>, bound: nat)
  {
    forall id :: id in ids && id in reg ==> id in rank && rank[id] < bound
  }

  /** The namespace is acyclic where size resolution goes: version 0 of a
      layout only embeds layouts of smaller rank.  The source has no such
      check and would recurse forever on a cycle. */
  ghost predicate Ranked(reg: Registry, rank: map<string, nat>)
  {
    forall id :: id in reg ==>
      id in rank && (|reg[id]| > 0 ==> IdsBelow(reg, rank, StructRefs(reg[id][0]), rank[id]))
  }

  /** `sizeof_for_config` of a field set whose (merged) fields are `fields`:
      its own size plus, for every deferred structure instance, the size of
      version 0 of that structure's layout. */
  function FieldsSize(reg: Registry, ghost rank: map<string, nat>, fields: seq<Field>, cfg: Config,
                      ghost bound: nat): Result<nat, Error>
    requires Ranked(reg, rank) && IdsBelow(reg, rank, StructRefs(fields), bound)
    decreases bound, 2, 0
  {
    match PartialsOf(fields)
    case Err(e) => Err(e)
    case Ok(p) =>
      match ChildrenSize(reg, rank, p.structs, cfg, bound)
      case Err(e) => Err(e)
      case Ok(children) => Ok(ConfigSize(p, cfg) + children)
  }

  /** The sizes of the deferred structures, added in order. */
  function ChildrenSize(reg: Registry, ghost rank: map<string, nat>, structs: seq<string>, cfg: Config,
                        ghost bound: nat): Result<nat, Error>
    requires Ranked(reg, rank) && IdsBelow(reg, rank, (set s | s in structs), bound)
    decreases bound, 1, |structs|
  {
    if structs == [] then Ok(0)
    else
      match ChildSize(reg, rank, structs[0], cfg, bound)
      case Err(e) => Err(e)
      case Ok(first) =>
        match ChildrenSize(reg, rank, structs[1..], cfg, bound)
        case Err(e) => Err(e)
        case Ok(rest) => Ok(first + rest)
  }

  /** `child_struct.layout.versions[0].sizeof_for_config(...)`. */
  function ChildSize(reg: Registry, ghost rank: map<string, nat>, id: string, cfg: Config,
                     ghost bound: nat): Result<nat, Error>
    requires Ranked(reg, rank) && (id in reg ==> id in rank && rank[id] < bound)
    decreases bound, 0, 0
  {
    if id !in reg then Err(UnknownLayout(id))
    else if |reg[id]| == 0 then Err(NoVersions(id))
    else FieldsSize(reg, rank, reg[id][0], cfg, rank[id])
  }

  /** A field list's size is its own size offset by its deferred
      structures' sizes, and every deferred structure ranks below the bound. */
  lemma FieldsSizeParts(reg: Registry, rank: map<string, nat>, fields: seq<Field>, cfg: Config, bound: nat)
    requires Ranked(reg, rank) && IdsBelow(reg, rank, StructRefs(fields), bound)
    requires PartialsOf(fields).Ok?
    ensures IdsBelow(reg, rank, (set s | s in PartialsOf(fields).value.structs), bound)
    ensures FieldsSize(reg, rank, fields, cfg, bound)
         == Offset(ChildrenSize(reg, rank, PartialsOf(fields).value.structs, cfg, bound),
                   ConfigSize(PartialsOf(fields).value, cfg))
  {
  }

  /** Peeling the first deferred structure off: its error is the list's
      error, otherwise its size moves into the running total. */
  lemma ChildrenSizeStep(reg: Registry, rank: map<string, nat>, structs: seq<string>, cfg: Config,
                         bound: nat, k: nat)
    requires Ranked(reg, rank) && IdsBelow(reg, rank, (set s | s in structs), bound)
    requires structs != []
    ensures IdsBelow(reg, rank, (set s | s in structs[1..]), bound)
    ensures ChildSize(reg, rank, structs[0], cfg, bound).Err? ==>
      ChildrenSize(reg, rank, structs, cfg, bound) == Err(ChildSize(reg, rank, structs[0], cfg, bound).error)
    ensures ChildSize(reg, rank, structs[0], cfg, bound).Ok? ==>
      Offset(ChildrenSize(reg, rank, structs, cfg, bound), k)
      == Offset(ChildrenSize(reg, rank, structs[1..], cfg, bound), k + ChildSize(reg, rank, structs[0], cfg, bound).value)
  {
    assert forall s :: s in structs[1..] ==> s in structs;
  }

  // ---------------------------------------------------------------------
  // The two configuration flags

  /** The two configuration-sensitive quantities. */
  datatype Counter = OldStringIds | UselessPadBytes

  /** The flag that switches `counter` on. */
  predicate FlagOn(cfg: Config, counter: Counter)
  {
    match counter
    case OldStringIds => cfg.useOldStringId
    case UselessPadBytes => cfg.includeUselessPad
  }

  function Raise(cfg: Config, counter: Counter): Config
  {
    match counter
    case OldStringIds => cfg.(useOldStringId := true)
    case UselessPadBytes => cfg.(includeUselessPad := true)
  }

  /** Bytes each unit of `counter` gains when its flag is switched on: an old
      string id grows from 4 to 32 bytes, a useless pad byte from 0 to 1. */
  function Gain(counter: Counter): nat
  {
    match counter
    case OldStringIds => 28
    case UselessPadBytes => 1
  }

  function Own(p: Partials, counter: Counter): nat
  {
    match counter
    case OldStringIds => p.oldStringIdCount
    case UselessPadBytes => p.uselessPadLength
  }

  function Offset(r: Result<nat, Error>, k: nat): Result<nat, Error>
  {
    match r
    case Err(e) => Err(e)
    case Ok(n) => Ok(n + k)
  }

  /** How many old string ids (or useless pad bytes) a field list holds,
      counting those of its embedded structures, resolved as for its size. */
  function FieldsTally(reg: Registry, ghost rank: map<string, nat>, fields: seq<Field>,
                       counter: Counter, ghost bound: nat): nat
    requires Ranked(reg, rank) && IdsBelow(reg, rank, StructRefs(fields), bound)
    decreases bound, 2, 0
  {
    match PartialsOf(fields)
    case Err(_) => 0
    case Ok(p) => Own(p, counter) + ChildrenTally(reg, rank, p.structs, counter, bound)
  }

  function ChildrenTally(reg: Registry, ghost rank: map<string, nat>, structs: seq<string>,
                         counter: Counter, ghost bound: nat): nat
    requires Ranked(reg, rank) && IdsBelow(reg, rank, (set s | s in structs), bound)
    decreases bound, 1, |structs|
  {
    if structs == [] then 0
    else
      ChildTally(reg, rank, structs[0], counter, bound)
      + ChildrenTally(reg, rank, structs[1..], counter, bound)
  }

  function ChildTally(reg: Registry, ghost rank: map<string, nat>, id: string, counter: Counter,
                      ghost bound: nat): nat
    requires Ranked(reg, rank) && (id in reg ==> id in rank && rank[id] < bound)
    decreases bound, 0, 0
  {
    if id !in reg || |reg[id]| == 0 then 0
    else FieldsTally(reg, rank, reg[id][0], counter, rank[id])
  }

  /** The own-size formula: switching `use_old_string_id` on adds exactly 28
      bytes per old string id, switching `include_useless_pad` on adds
      exactly the useless pad length. */
  lemma ConfigSizeFlag(p: Partials, cfg: Config, counter: Counter)
    requires !FlagOn(cfg, counter)
    ensures ConfigSize(p, Raise(cfg, counter)) == ConfigSize(p, cfg) + Gain(counter) * Own(p, counter)
  {
  }

  /** Switching a flag on adds exactly its gain times the tally of the
      quantity, embedded structures included; whether the size resolves at
      all does not depend on the configuration. */
  lemma {:induction false} FieldsSizeFlag(reg: Registry, rank: map<string, nat>, fields: seq<Field>,
                                          cfg: Config, counter: Counter, bound: nat)
    requires Ranked(reg, rank) && IdsBelow(reg, rank, StructRefs(fields), bound)
    requires !FlagOn(cfg, counter)
    ensures FieldsSize(reg, rank, fields, Raise(cfg, counter), bound)
         == Offset(FieldsSize(reg, rank, fields, cfg, bound),
                   Gain(counter) * FieldsTally(reg, rank, fields, counter, bound))
    decreases bound, 2, 0
  {
    match PartialsOf(fields)
    case Err(_) =>
    case Ok(p) =>
      FieldsSizeParts(reg, rank, fields, cfg, bound);
      var t := ChildrenTally(reg, rank, p.structs, counter, bound);
      assert FieldsTally(reg, rank, fields, counter, bound) == Own(p, counter) + t;
      ChildrenSizeFlag(reg, rank, p.structs, cfg, counter, bound);
      ConfigSizeFlag(p, cfg, counter);
      Distribute(Own(p, counter), t, Gain(counter));
      FieldsSizeParts(reg, rank, fields, Raise(cfg, counter), bound);
  }

  lemma {:induction false} ChildrenSizeFlag(reg: Registry, rank: map<string, nat>, structs: seq<string>,
                                            cfg: Config, counter: Counter, bound: nat)
    requires Ranked(reg, rank) && IdsBelow(reg, rank, (set s | s in structs), bound)
    requires !FlagOn(cfg, counter)
    ensures ChildrenSize(reg, rank, structs, Raise(cfg, counter), bound)
         == Offset(ChildrenSize(reg, rank, structs, cfg, bound),
                   Gain(counter) * ChildrenTally(reg, rank, structs, counter, bound))
    decreases bound, 1, |structs|
  {
    if structs != [] {
      var rest := structs[1..];
      assert IdsBelow(reg, rank, (set s | s in rest), bound) by {
        assert forall s :: s in rest ==> s in structs;
      }
      var a := ChildTally(reg, rank, structs[0], counter, bound);
      var b := ChildrenTally(reg, rank, rest, counter, bound);
      ChildSizeFlag(reg, rank, structs[0], cfg, counter, bound);
      ChildrenSizeFlag(reg, rank, rest, cfg, counter, bound);
      Distribute(a, b, Gain(counter));
    }
  }

  lemma {:induction false} ChildSizeFlag(reg: Registry, rank: map<string, nat>, id: string,
                                         cfg: Config, counter: Counter, bound: nat)
    requires Ranked(reg, rank) && (id in reg ==> id in rank && rank[id] < bound)
    requires !FlagOn(cfg, counter)
    ensures ChildSize(reg, rank, id, Raise(cfg, counter), bound)
         == Offset(ChildSize(reg, rank, id, cfg, bound),
                   Gain(counter) * ChildTally(reg, rank, id, counter, bound))
    decreases bound, 0, 0
  {
    if id in reg && |reg[id]| > 0 {
      FieldsSizeFlag(reg, rank, reg[id][0], cfg, counter, rank[id]);
    }
  }

  /** Configurations ordered by their flags. */
  predicate ConfigLe(lo: Config, hi: Config)
  {
    (lo.includeUselessPad ==> hi.includeUselessPad) && (lo.useOldStringId ==> hi.useOldStringId)
  }

  /** Neither flag can shrink a size, and neither decides whether a size
      resolves. */
  lemma FlagsNeverShrink(reg: Registry, rank: map<string, nat>, fields: seq<Field>,
                         lo: Config, hi: Config, bound: nat)
    requires Ranked(reg, rank) && IdsBelow(reg, rank, StructRefs(fields), bound)
    requires ConfigLe(lo, hi)
    ensures FieldsSize(reg, rank, fields, lo, bound).Ok? <==> FieldsSize(reg, rank, fields, hi, bound).Ok?
    ensures FieldsSize(reg, rank, fields, lo, bound).Ok? ==>
      FieldsSize(reg, rank, fields, lo, bound).value <= FieldsSize(reg, rank, fields, hi, bound).value
  {
    var mid := lo.(includeUselessPad := hi.includeUselessPad);
    var a := FieldsSize(reg, rank, fields, lo, bound);
    var b := FieldsSize(reg, rank, fields, mid, bound);
    var c := FieldsSize(reg, rank, fields, hi, bound);
    assert (a.Ok? <==> b.Ok?) && (a.Ok? ==> a.value <= b.value) by {
      if lo != mid {
        FieldsSizeFlag(reg, rank, fields, lo, UselessPadBytes, bound);
      }
    }
    assert (b.Ok? <==> c.Ok?) && (b.Ok? ==> b.value <= c.value) by {
      if mid != hi {
        FieldsSizeFlag(reg, rank, fields, mid, OldStringIds, bound);
      }
    }
  }

  // ---------------------------------------------------------------------
  // Sizes of particular field lists

  /** A field whose size is its own fixed length: a primitive, `Pad` or
      `Skip`. */
  predicate PlainField(f: Field)
  {
    f.kind.Primitive? || f.kind.Pad? || f.kind.Skip?
  }

  predicate AllPlain(fields: seq<Field>)
  {
    forall i :: 0 <= i < |fields| ==> PlainField(fields[i])
  }

  /** The sum of the fixed lengths of plain fields; `None` when a primitive's
      type name has no length. */
  function PlainLength(fields: seq<Field>): Option<nat>
    requires AllPlain(fields)
  {
    if fields == [] then Some(0)
    else
      var own: Option<nat> :=
        match fields[0].kind
        case Primitive(t) => FieldLength(t)
        case Pad(length) => Some(length)
        case Skip(length) => Some(length)
        case _ => Some(0);
      match own
      case None => None
      case Some(n) =>
        match PlainLength(fields[1..])
        case None => None
        case Some(rest) => Some(n + rest)
  }

  lemma {:induction false} PlainWalk(fields: seq<Field>, acc: Partials)
    requires AllPlain(fields)
    ensures Walk(fields, 1, acc).Ok? <==> PlainLength(fields).Some?
    ensures Walk(fields, 1, acc).Ok? ==>
      Walk(fields, 1, acc).value == acc.(baseLength := acc.baseLength + PlainLength(fields).value)
  {
    if fields != [] {
      match Visit(fields[0], 1, acc)
      case Err(_) =>
      case Ok(next) => PlainWalk(fields[1..], next);
    }
  }

  /** A field set made only of primitives, `Pad` and `Skip` is the sum of its
      fields' lengths, in every configuration. */
  lemma PlainSize(reg: Registry, rank: map<string, nat>, fields: seq<Field>, cfg: Config, bound: nat)
    requires Ranked(reg, rank) && IdsBelow(reg, rank, StructRefs(fields), bound)
    requires AllPlain(fields)
    ensures FieldsSize(reg, rank, fields, cfg, bound).Ok? <==> PlainLength(fields).Some?
    ensures FieldsSize(reg, rank, fields, cfg, bound).Ok? ==>
      FieldsSize(reg, rank, fields, cfg, bound).value == PlainLength(fields).value
  {
    PlainWalk(fields, Zero);
  }

  /** The example field set, `Pad(2)`, `LongInteger`, `Ptr`, `TagReference`,
      embeds nothing and takes 2 + 4 + 4 + 16 = 26 bytes; with no old string
      id and no useless padding, the flags change nothing. */
  lemma ExampleFieldSetSize(reg: Registry, rank: map<string, nat>, fields: seq<Field>, bound: nat)
    requires Ranked(reg, rank) && IsExample(fields)
    ensures StructRefs(fields) == {}
    ensures FieldsSize(reg, rank, fields, Config(false, false), bound) == Ok(26)
    ensures FieldsSize(reg, rank, fields, Config(true, true), bound) == Ok(26)
  {
    NoStructRefs(fields);
    ExamplePartials(fields);
    SizeWithoutChildren(reg, rank, fields, Config(false, false), bound);
    SizeWithoutChildren(reg, rank, fields, Config(true, true), bound);
  }

  /** A field list that embeds no structure is its own size. */
  lemma SizeWithoutChildren(reg: Registry, rank: map<string, nat>, fields: seq<Field>, cfg: Config,
                            bound: nat)
    requires Ranked(reg, rank) && IdsBelow(reg, rank, StructRefs(fields), bound)
    requires PartialsOf(fields).Ok? && PartialsOf(fields).value.structs == []
    ensures FieldsSize(reg, rank, fields, cfg, bound) == Ok(ConfigSize(PartialsOf(fields).value, cfg))
  {
  }

  function ScaleSize(r: Result<nat, Error>, n: nat): Result<nat, Error>
  {
    match r
    case Err(e) => Err(e)
    case Ok(k) => Ok(n * k)
  }

  /** `n` instances of one structure take `n` times the size of version 0 of
      its layout; no instance takes nothing, even for an unresolvable
      layout. */
  lemma {:induction false} RepeatedChildrenSize(reg: Registry, rank: map<string, nat>, id: string,
                                                n: nat, cfg: Config, bound: nat)
    requires Ranked(reg, rank) && (id in reg ==> id in rank && rank[id] < bound)
    ensures IdsBelow(reg, rank, (set s | s in Repeat(id, n)), bound)
    ensures ChildrenSize(reg, rank, Repeat(id, n), cfg, bound)
         == if n == 0 then Ok(0) else ScaleSize(ChildSize(reg, rank, id, cfg, bound), n)
  {
    assert forall x :: x in Repeat(id, n) ==> x == id;
    if n > 0 {
      assert Repeat(id, n)[0] == id;
      assert Repeat(id, n)[1..] == Repeat(id, n - 1);
      RepeatedChildrenSize(reg, rank, id, n - 1, cfg, bound);
      match ChildSize(reg, rank, id, cfg, bound)
      case Err(_) =>
      case Ok(k) => Distribute(1, n - 1, k);
    }
  }

  /** An array of `n` copies of one structure: the structure is not walked
      into, and each copy adds version 0 of its layout's size under the same
      configuration. */
  lemma StructArraySize(reg: Registry, rank: map<string, nat>, id: string, n: nat, cfg: Config,
                        bound: nat)
    requires Ranked(reg, rank) && (id in reg ==> id in rank && rank[id] < bound)
    ensures var fields := [Field(Array(n, [Field(Struct(id), None, None)]), None, None)];
      IdsBelow(reg, rank, StructRefs(fields), bound) &&
      FieldsSize(reg, rank, fields, cfg, bound)
        == if n == 0 then Ok(0) else ScaleSize(ChildSize(reg, rank, id, cfg, bound), n)
  {
    var entry := Field(Struct(id), None, None);
    var fields := [Field(Array(n, [entry]), None, None)];
    assert [entry][1..] == [];
    assert fields[1..] == [];
    assert StructRefs([entry]) == {id};
    assert StructRefs(fields) == {id};
    var p := Zero.(structs := Repeat(id, n));
    assert Zero.structs + Repeat(id, n) == Repeat(id, n);
    assert Visit(entry, n, Zero) == Ok(p);
    assert Walk([entry], n, Zero) == Ok(p);
    assert Visit(fields[0], 1, Zero) == Ok(p);
    assert Walk(fields[1..], 1, p) == Ok(p);
    assert Walk(fields, 1, Zero) == Walk(fields[1..], 1, p);
    assert PartialsOf(fields) == Ok(p);
    RepeatedChildrenSize(reg, rank, id, n, cfg, bound);
  }

  lemma {:induction false} ChildrenSizeAppend(reg: Registry, rank: map<string, nat>,
                                              s: seq<string>, t: seq<string>, cfg: Config, bound: nat)
    requires Ranked(reg, rank)
    requires IdsBelow(reg, rank, (set x | x in s), bound) && IdsBelow(reg, rank, (set x | x in t), bound)
    ensures IdsBelow(reg, rank, (set x | x in s + t), bound)
    ensures ChildrenSize(reg, rank, s + t, cfg, bound).Ok?
        <==> ChildrenSize(reg, rank, s, cfg, bound).Ok? && ChildrenSize(reg, rank, t, cfg, bound).Ok?
    ensures ChildrenSize(reg, rank, s + t, cfg, bound).Ok? ==>
      ChildrenSize(reg, rank, s + t, cfg, bound).value
        == ChildrenSize(reg, rank, s, cfg, bound).value + ChildrenSize(reg, rank, t, cfg, bound).value
  {
    if s == [] {
      assert s + t == t;
    } else {
      assert (s + t)[0] == s[0];
      assert (s + t)[1..] == s[1..] + t;
      ChildrenSizeAppend(reg, rank, s[1..], t, cfg, bound);
    }
  }

  /** Laying one field list after another, as inheritance merging does, adds
      their sizes; the result resolves exactly when both parts do. */
  lemma FieldsSizeAppend(reg: Registry, rank: map<string, nat>, a: seq<Field>, b: seq<Field>,
                         cfg: Config, bound: nat)
    requires Ranked(reg, rank)
    requires IdsBelow(reg, rank, StructRefs(a), bound) && IdsBelow(reg, rank, StructRefs(b), bound)
    ensures StructRefs(a + b) == StructRefs(a) + StructRefs(b)
    ensures FieldsSize(reg, rank, a + b, cfg, bound).Ok?
        <==> FieldsSize(reg, rank, a, cfg, bound).Ok? && FieldsSize(reg, rank, b, cfg, bound).Ok?
    ensures FieldsSize(reg, rank, a + b, cfg, bound).Ok? ==>
      FieldsSize(reg, rank, a + b, cfg, bound).value
        == FieldsSize(reg, rank, a, cfg, bound).value + FieldsSize(reg, rank, b, cfg, bound).value
  {
    StructRefsAppend(a, b);
    PartialsOfAppend(a, b);
    if PartialsOf(a).Ok? && PartialsOf(b).Ok? {
      var pa, pb := PartialsOf(a).value, PartialsOf(b).value;
      ChildrenSizeAppend(reg, rank, pa.structs, pb.structs, cfg, bound);
    }
  }
}
