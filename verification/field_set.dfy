/** One version of a block's or structure's fields, with its memoised
    partials and sizes, its write-once merged field list and its name-to-index
    maps (src/Pytolith/Definitions/Layout.py, `FieldSetDef`). */
module FieldSets {
  import opened Wrappers
  import opened Errors
  import opened Fields
  import opened Partials
  import opened Sizing

  /** Every entry of `index` points at a field carrying that name. */
  ghost predicate IndexSound(index: map<string, nat>, fields: seq<Field>, style: NameStyle)
  {
    forall n :: n in index ==> n != "" && index[n] < |fields| && Key(fields[index[n]], style) == n
  }

  /** Both name maps point only at fields carrying their names. */
  ghost predicate NameMapsSound(cIndex: map<string, nat>, pascalIndex: map<string, nat>, fields: seq<Field>)
  {
    IndexSound(cIndex, fields, CStyle) && IndexSound(pascalIndex, fields, PascalStyle)
  }

  /** Every name carried by one of the first `k` fields is in `index`, and
      `index` points at nothing beyond them. */
  ghost predicate IndexesPrefix(index: map<string, nat>, fields: seq<Field>, style: NameStyle, k: nat)
  {
    && k <= |fields|
    && (forall n :: n in index ==> n != "" && index[n] < k && Key(fields[index[n]], style) == n)
    && (forall i :: 0 <= i < k && Key(fields[i], style) != "" ==> Key(fields[i], style) in index)
  }

  /** No two of the first `k` fields carry the same name in `style`. */
  ghost predicate UniqueNames(fields: seq<Field>, style: NameStyle, k: nat)
  {
    forall i, j :: 0 <= i < j < k && j < |fields| && Key(fields[i], style) != "" ==>
      Key(fields[i], style) != Key(fields[j], style)
  }

  /** No two fields carry the same C name, nor the same Pascal name. */
  ghost predicate NamesUnique(fields: seq<Field>)
  {
    UniqueNames(fields, CStyle, |fields|) && UniqueNames(fields, PascalStyle, |fields|)
  }

  /** Two fields of `fields` carry the name `n` in `style`. */
  ghost predicate Duplicated(fields: seq<Field>, style: NameStyle, n: string)
  {
    n != "" && exists i, j :: 0 <= i < j < |fields| && Key(fields[i], style) == n && Key(fields[j], style) == n
  }

  /** `e` reports a name that two fields of `fields` carry. */
  ghost predicate ReportsRepeat(fields: seq<Field>, e: Error)
  {
    match e
    case DuplicateCName(n) => Duplicated(fields, CStyle, n)
    case DuplicatePascalName(n) => Duplicated(fields, PascalStyle, n)
    case _ => false
  }

  /** `index[n] == i` exactly when field `i` carries the name `n`. */
  ghost predicate ExactIndex(index: map<string, nat>, fields: seq<Field>, style: NameStyle)
  {
    && IndexSound(index, fields, style)
    && (forall i :: 0 <= i < |fields| && Key(fields[i], style) != "" ==>
          Key(fields[i], style) in index && index[Key(fields[i], style)] == i)
  }

  /** Both name maps index their names exactly. */
  ghost predicate NameMapsExact(cIndex: map<string, nat>, pascalIndex: map<string, nat>, fields: seq<Field>)
  {
    ExactIndex(cIndex, fields, CStyle) && ExactIndex(pascalIndex, fields, PascalStyle)
  }

  /** The map the scan has built after the first `k` fields: each name
      carried among them, mapped to the (last) field carrying it. */
  ghost function Scanned(fields: seq<Field>, style: NameStyle, k: nat): map<string, nat>
    requires k <= |fields|
  {
    if k == 0 then map[]
    else
      var n := Key(fields[k - 1], style);
      if n == "" then Scanned(fields, style, k - 1) else Scanned(fields, style, k - 1)[n := k - 1]
  }

  /** The scan of the first `k` fields met no name twice. */
  ghost predicate ScanClean(fields: seq<Field>, style: NameStyle, k: nat)
    requires k <= |fields|
  {
    k == 0 || (ScanClean(fields, style, k - 1)
               && (Key(fields[k - 1], style) == "" || Key(fields[k - 1], style) !in Scanned(fields, style, k - 1)))
  }

  /** The scan indexes exactly the names of the fields scanned so far. */
  lemma {:induction false} ScannedIndexesPrefix(fields: seq<Field>, style: NameStyle, k: nat)
    requires k <= |fields|
    ensures IndexesPrefix(Scanned(fields, style, k), fields, style, k)
  {
    if k > 0 {
      ScannedIndexesPrefix(fields, style, k - 1);
    }
  }

  /** A scan is clean exactly when the fields scanned carry no name twice. */
  lemma {:induction false} ScanCleanUnique(fields: seq<Field>, style: NameStyle, k: nat)
    requires k <= |fields|
    ensures ScanClean(fields, style, k) <==> UniqueNames(fields, style, k)
  {
    if k > 0 {
      ScanCleanUnique(fields, style, k - 1);
      ScannedIndexesPrefix(fields, style, k - 1);
      var n := Key(fields[k - 1], style);
      if n != "" && n in Scanned(fields, style, k - 1) {
        var j := Scanned(fields, style, k - 1)[n];
        assert j < k - 1 && Key(fields[j], style) == n;
      }
    }
  }

  /** A clean scan was clean all along. */
  lemma {:induction false} ScanCleanPrefix(fields: seq<Field>, style: NameStyle, k: nat, m: nat)
    requires k <= m <= |fields| && ScanClean(fields, style, m)
    ensures ScanClean(fields, style, k)
    decreases m
  {
    if k < m {
      ScanCleanPrefix(fields, style, k, m - 1);
    }
  }

  /** Field `k`, carrying a name `n` the scan has already met, is a repeat:
      the fields do not carry unique names, and the error naming `n`
      reports it. */
  lemma RepeatFound(fields: seq<Field>, style: NameStyle, k: nat, n: string)
    requires k < |fields| && n != "" && Key(fields[k], style) == n && n in Scanned(fields, style, k)
    ensures !ScanClean(fields, style, |fields|)
    ensures ReportsRepeat(fields, if style == CStyle then DuplicateCName(n) else DuplicatePascalName(n))
  {
    ScannedIndexesPrefix(fields, style, k);
    var j := Scanned(fields, style, k)[n];
    assert j < k && Key(fields[j], style) == n;
    assert Duplicated(fields, style, n);
    if ScanClean(fields, style, |fields|) {
      ScanCleanPrefix(fields, style, k + 1, |fields|);
    }
  }

  /** Whatever the scan has reached, its maps point only at fields carrying
      their names. */
  lemma ScannedSound(fields: seq<Field>, kc: nat, kp: nat, cIndex: map<string, nat>, pascalIndex: map<string, nat>)
    requires kc <= |fields| && kp <= |fields|
    requires cIndex == Scanned(fields, CStyle, kc) && pascalIndex == Scanned(fields, PascalStyle, kp)
    ensures NameMapsSound(cIndex, pascalIndex, fields)
  {
    ScannedIndexesPrefix(fields, CStyle, kc);
    ScannedIndexesPrefix(fields, PascalStyle, kp);
  }

  /** A finished clean scan indexes every name exactly. */
  lemma ScanComplete(fields: seq<Field>, cIndex: map<string, nat>, pascalIndex: map<string, nat>)
    requires ScanClean(fields, CStyle, |fields|) && ScanClean(fields, PascalStyle, |fields|)
    requires cIndex == Scanned(fields, CStyle, |fields|) && pascalIndex == Scanned(fields, PascalStyle, |fields|)
    ensures NamesUnique(fields)
    ensures NameMapsExact(cIndex, pascalIndex, fields) && NameMapsSound(cIndex, pascalIndex, fields)
  {
    ScanCleanUnique(fields, CStyle, |fields|);
    ScanCleanUnique(fields, PascalStyle, |fields|);
    ScannedIndexesPrefix(fields, CStyle, |fields|);
    ScannedIndexesPrefix(fields, PascalStyle, |fields|);
    IndexComplete(Scanned(fields, CStyle, |fields|), fields, CStyle);
    IndexComplete(Scanned(fields, PascalStyle, |fields|), fields, PascalStyle);
  }

  lemma IndexComplete(index: map<string, nat>, fields: seq<Field>, style: NameStyle)
    requires IndexesPrefix(index, fields, style, |fields|) && UniqueNames(fields, style, |fields|)
    ensures ExactIndex(index, fields, style)
  {
    forall i | 0 <= i < |fields| && Key(fields[i], style) != ""
      ensures Key(fields[i], style) in index && index[Key(fields[i], style)] == i
    {
      var j := index[Key(fields[i], style)];
      assert Key(fields[j], style) == Key(fields[i], style);
    }
  }

  /** The scan of `__generate_mapping` over a field list: each field's C
      name, then its Pascal name, is indexed by position, and the scan stops
      at the first name met twice.  The maps built so far are returned either
      way. */
  method ScanNames(fields: seq<Field>) returns (cIndex: map<string, nat>, pascalIndex: map<string, nat>,
                                               r: Result<(), Error>)
    ensures NameMapsSound(cIndex, pascalIndex, fields)
    ensures r.Ok? <==> (ScanClean(fields, CStyle, |fields|) && ScanClean(fields, PascalStyle, |fields|))
    ensures r.Ok? ==> cIndex == Scanned(fields, CStyle, |fields|) && pascalIndex == Scanned(fields, PascalStyle, |fields|)
    ensures r.Err? ==> ReportsRepeat(fields, r.error)
  {
    cIndex, pascalIndex := map[], map[];
    for i := 0 to |fields|
      invariant cIndex == Scanned(fields, CStyle, i) && ScanClean(fields, CStyle, i)
      invariant pascalIndex == Scanned(fields, PascalStyle, i) && ScanClean(fields, PascalStyle, i)
    {
      var field := fields[i];
      if field.cName.Some? && field.cName.value != "" {
        var n := field.cName.value;
        if n in cIndex {
          RepeatFound(fields, CStyle, i, n);
          ScannedSound(fields, i, i, cIndex, pascalIndex);
          return cIndex, pascalIndex, Err(DuplicateCName(n));
        }
        cIndex := cIndex[n := i];
      }
      if field.pascalName.Some? && field.pascalName.value != "" {
        var n := field.pascalName.value;
        if n in pascalIndex {
          RepeatFound(fields, PascalStyle, i, n);
          ScannedSound(fields, i + 1, i, cIndex, pascalIndex);
          return cIndex, pascalIndex, Err(DuplicatePascalName(n));
        }
        pascalIndex := pascalIndex[n := i];
      }
    }
    ScannedSound(fields, |fields|, |fields|, cIndex, pascalIndex);
    r := Ok(());
  }

  /** The loop of `sizeof_for_config` over the deferred structures: adds the
      size of version 0 of each one's layout to `length`, stopping at the
      first that does not resolve. */
  method AddChildSizes(layouts: Registry, ghost rank: map<string, nat>, structs: seq<string>, cfg: Config,
                       ghost bound: nat, length: nat) returns (r: Result<nat, Error>)
    requires Ranked(layouts, rank) && IdsBelow(layouts, rank, (set s | s in structs), bound)
    ensures r == Offset(ChildrenSize(layouts, rank, structs, cfg, bound), length)
  {
    var total := length;
    for i := 0 to |structs|
      invariant IdsBelow(layouts, rank, (set s | s in structs[i..]), bound)
      invariant Offset(ChildrenSize(layouts, rank, structs[i..], cfg, bound), total)
             == Offset(ChildrenSize(layouts, rank, structs, cfg, bound), length)
    {
      assert structs[i..][1..] == structs[i + 1..];
      var child := ChildSize(layouts, rank, structs[i], cfg, bound);
      ChildrenSizeStep(layouts, rank, structs[i..], cfg, bound, total);
      if child.Err? {
        return Err(child.error);
      }
      total := total + child.value;
    }
    assert structs[|structs|..] == [];
    return Ok(total);
  }

  /** `merged_fields`: the merged fields once a non-empty list has been set,
      the own fields otherwise. */
  function EffectiveFields(fields: seq<Field>, merged: Option<seq<Field>>): (r: seq<Field>)
    ensures merged.Some? && merged.value != [] ==> r == merged.value
    ensures merged.None? || merged.value == [] ==> r == fields
  {
    if merged.Some? && merged.value != [] then merged.value else fields
  }

  /** Every embedded layout resolves, and both caches hold what they would
      recompute from the effective fields. */
  ghost predicate CachesAgree(layouts: Registry, rank: map<string, nat>, bound: nat, fields: seq<Field>,
                              merged: Option<seq<Field>>, partialCache: Option<Partials>,
                              sizeCache: map<Config, nat>)
  {
    && Ranked(layouts, rank)
    && IdsBelow(layouts, rank, StructRefs(fields), bound)
    && (merged.Some? ==> IdsBelow(layouts, rank, StructRefs(merged.value), bound))
    && (partialCache.Some? ==> PartialsOf(EffectiveFields(fields, merged)) == Ok(partialCache.value))
    && (forall cfg :: cfg in sizeCache ==>
          FieldsSize(layouts, rank, EffectiveFields(fields, merged), cfg, bound) == Ok(sizeCache[cfg]))
  }

  /** The name maps are empty until the merged fields are set, and every
      entry points at a field carrying its name. */
  ghost predicate IndexesAgree(fields: seq<Field>, merged: Option<seq<Field>>,
                               cIndex: map<string, nat>, pascalIndex: map<string, nat>)
  {
    && (merged.None? ==> cIndex == map[] && pascalIndex == map[])
    && NameMapsSound(cIndex, pascalIndex, EffectiveFields(fields, merged))
  }

  class FieldSetDef {
    const version: int
    /** Informational only: the size recorded by the build the definitions
        come from. */
    const sizeofValue: int
    const alignment: int
    /** Which version of the parent layout the loader merges with. */
    const parentVersion: Option<int>
    const sizeofOverride: Option<int>
    const sizeofSource: Option<string>
    /** The field set's own fields. */
    const fields: seq<Field>
    /** The layouts this field set's `Struct` fields refer to. */
    const layouts: Registry
    ghost const rank: map<string, nat>
    /** Every layout these fields embed ranks below `bound`. */
    ghost const bound: nat

    /** The merged fields, once the loader has set them. */
    var merged: Option<seq<Field>>
    var partialCache: Option<Partials>
    var sizeCache: map<Config, nat>
    var cNameToFieldIndex: map<string, nat>
    var pascalNameToFieldIndex: map<string, nat>

    ghost predicate Valid()
      reads this
    {
      CachesValid() && IndexesValid()
    }

    /** Every embedded layout resolves, and both caches hold what they would
        recompute. */
    ghost predicate CachesValid()
      reads this`merged, this`partialCache, this`sizeCache
    {
      CachesAgree(layouts, rank, bound, fields, merged, partialCache, sizeCache)
    }

    /** The name maps are empty until the merged fields are set, and every
        entry points at a field carrying its name. */
    ghost predicate IndexesValid()
      reads this`merged, this`cNameToFieldIndex, this`pascalNameToFieldIndex
    {
      IndexesAgree(fields, merged, cNameToFieldIndex, pascalNameToFieldIndex)
    }

    constructor(version: int, sizeofValue: int, alignment: int := 0, parentVersion: Option<int> := None,
                sizeofOverride: Option<int> := None, fields: seq<Field> := [],
                sizeofSource: Option<string> := None,
                layouts: Registry, ghost rank: map<string, nat>, ghost bound: nat)
      requires Ranked(layouts, rank) && IdsBelow(layouts, rank, StructRefs(fields), bound)
      ensures Valid()
      ensures this.version == version && this.sizeofValue == sizeofValue && this.alignment == alignment
      ensures this.parentVersion == parentVersion && this.sizeofOverride == sizeofOverride
      ensures this.fields == fields && this.sizeofSource == sizeofSource && this.layouts == layouts
      ensures merged.None? && partialCache.None? && sizeCache == map[]
      ensures cNameToFieldIndex == map[] && pascalNameToFieldIndex == map[]
    {
      this.version := version;
      this.sizeofValue := sizeofValue;
      this.alignment := alignment;
      this.parentVersion := parentVersion;
      this.sizeofOverride := sizeofOverride;
      this.fields := fields;
      this.sizeofSource := sizeofSource;
      this.layouts := layouts;
      this.rank := rank;
      this.bound := bound;
      merged := None;
      partialCache := None;
      sizeCache := map[];
      cNameToFieldIndex := map[];
      pascalNameToFieldIndex := map[];
    }

    /** `merged_fields`: the merged fields once a non-empty list has been
        set, the field set's own fields otherwise; an empty merged list never
        hides the own fields. */
    function MergedFields(): seq<Field>
      reads this`merged
    {
      EffectiveFields(fields, merged)
    }

    /** `_loader_merge_fields_set`: whether the loader has set the merged
        fields; until it has, `merged_fields`, the partials and the sizes
        work on the own fields, and the name maps stay empty. */
    function LoaderMergeFieldsSet(): (r: bool)
      reads this`merged
      ensures !r ==> MergedFields() == fields
    {
      merged.Some?
    }

    /** `__caclulate_partials_length`: the partials of the merged fields,
        computed once and then served from the cache; a failed computation
        leaves the cache empty. */
    method CalculatePartialsLength() returns (r: Result<Partials, Error>)
      requires Valid()
      modifies this`partialCache
      ensures Valid()
      ensures r == PartialsOf(MergedFields())
      ensures partialCache == if r.Ok? then Some(r.value) else None
    {
      if partialCache.None? {
        var computed := CalculateFieldsLengths(MergedFields(), 1, Zero);
        if computed.Err? {
          return computed;
        }
        partialCache := Some(computed.value);
      }
      return Ok(partialCache.value);
    }

    /** `__caclulate_size_for_config`: the size of the merged fields
        themselves under `cfg`, embedded structures left out. */
    method CalculateSizeForConfig(cfg: Config) returns (r: Result<nat, Error>)
      requires Valid()
      modifies this`partialCache
      ensures Valid()
      ensures PartialsOf(MergedFields()).Err? ==> r == Err(PartialsOf(MergedFields()).error)
      ensures PartialsOf(MergedFields()).Ok? ==> r == Ok(ConfigSize(PartialsOf(MergedFields()).value, cfg))
      ensures partialCache == if r.Ok? then Some(PartialsOf(MergedFields()).value) else None
    {
      var partials := CalculatePartialsLength();
      if partials.Err? {
        return Err(partials.error);
      }
      var p := partials.value;
      var baseLength := p.baseLength + p.pointerCount * 4 + p.tagDataCount * 20
        + p.tagBlockCount * 12 + p.tagReferenceCount * 16 + p.vertexBufferCount * 0x20;
      var oldStringIdLength := if cfg.useOldStringId then 32 else 4;
      var length := baseLength + p.oldStringIdCount * oldStringIdLength;
      if cfg.includeUselessPad {
        length := length + p.uselessPadLength;
      }
      return Ok(length);
    }

    /** `child_structs`: the layout ids of the embedded structure
        instances, each one the merged fields refer to. */
    method ChildStructs() returns (r: Result<seq<string>, Error>)
      requires Valid()
      modifies this`partialCache
      ensures Valid()
      ensures PartialsOf(MergedFields()).Err? ==> r == Err(PartialsOf(MergedFields()).error)
      ensures PartialsOf(MergedFields()).Ok? ==> r == Ok(PartialsOf(MergedFields()).value.structs)
      ensures r.Ok? ==> forall s :: s in r.value ==> s in StructRefs(MergedFields())
      ensures partialCache == if r.Ok? then Some(PartialsOf(MergedFields()).value) else None
    {
      var partials := CalculatePartialsLength();
      if partials.Err? {
        return Err(partials.error);
      }
      return Ok(partials.value.structs);
    }

    /** `sizeof_for_config`: the size under `cfg`, embedded structures
        included (each as version 0 of its layout), memoised per
        configuration. */
    method SizeofForConfig(cfg: Config) returns (r: Result<nat, Error>)
      requires Valid()
      modifies this`partialCache, this`sizeCache
      ensures Valid()
      ensures r == FieldsSize(layouts, rank, MergedFields(), cfg, bound)
      ensures sizeCache == if r.Ok? then old(sizeCache)[cfg := r.value] else old(sizeCache)
      ensures cfg in old(sizeCache) ==> partialCache == old(partialCache)
      ensures cfg !in old(sizeCache) ==>
        partialCache == if PartialsOf(MergedFields()).Ok? then Some(PartialsOf(MergedFields()).value) else None
    {
      if cfg !in sizeCache {
        var own := CalculateSizeForConfig(cfg);
        if own.Err? {
          return Err(own.error);
        }
        var children := ChildStructs();
        var structs := children.value;
        FieldsSizeParts(layouts, rank, MergedFields(), cfg, bound);
        // version 0 of every embedded structure, as the source does
        var length := AddChildSizes(layouts, rank, structs, cfg, bound, own.value);
        if length.Err? {
          return length;
        }
        sizeCache := sizeCache[cfg := length.value];
      }
      return Ok(sizeCache[cfg]);
    }

    /** `__generate_mapping`: rebuilds both name maps from the merged fields
        in one pass, aborting at the first repeated name.  Whatever the
        outcome, every entry points at a field carrying its name. */
    method GenerateMapping() returns (r: Result<(), Error>)
      requires CachesValid() && merged.Some?
      modifies this`cNameToFieldIndex, this`pascalNameToFieldIndex
      ensures Valid()
      ensures r.Ok? <==> NamesUnique(MergedFields())
      ensures r.Ok? ==> NameMapsExact(cNameToFieldIndex, pascalNameToFieldIndex, MergedFields())
      ensures r.Err? ==> ReportsRepeat(MergedFields(), r.error)
    {
      cNameToFieldIndex, pascalNameToFieldIndex, r := ScanNames(MergedFields());
      if r.Ok? {
        ScanComplete(MergedFields(), cNameToFieldIndex, pascalNameToFieldIndex);
      } else {
        ScanCleanUnique(MergedFields(), CStyle, |MergedFields()|);
        ScanCleanUnique(MergedFields(), PascalStyle, |MergedFields()|);
      }
    }

    /** `_loader_set_merged_fields`: the one write of the merged fields.
        Setting nothing, or setting twice, fails before anything changes;
        otherwise the merged fields are stored, both caches are emptied and
        the name maps are rebuilt, which fails on a repeated name (the merged
        fields then stay set). */
    method LoaderSetMergedFields(newValue: Option<seq<Field>>) returns (r: Result<(), Error>)
      requires Valid()
      requires newValue.Some? ==> IdsBelow(layouts, rank, StructRefs(newValue.value), bound)
      modifies this`merged, this`partialCache, this`sizeCache, this`cNameToFieldIndex,
               this`pascalNameToFieldIndex
      ensures Valid()
      ensures newValue.None? ==> r == Err(MergedFieldsMissing) && unchanged(this)
      ensures newValue.Some? && old(merged).Some? ==> r == Err(MergedFieldsAlreadySet) && unchanged(this)
      ensures newValue.Some? && old(merged).None? ==>
        && merged == newValue && LoaderMergeFieldsSet()
        && partialCache.None? && sizeCache == map[]
        && (r.Ok? <==> NamesUnique(MergedFields()))
        && (r.Ok? ==> NameMapsExact(cNameToFieldIndex, pascalNameToFieldIndex, MergedFields()))
        && (r.Err? ==> ReportsRepeat(MergedFields(), r.error))
    {
      if newValue.None? {
        return Err(MergedFieldsMissing);
      }
      if merged.Some? {
        return Err(MergedFieldsAlreadySet);
      }
      merged := newValue;
      partialCache := None;
      sizeCache := map[];
      cNameToFieldIndex := map[];
      pascalNameToFieldIndex := map[];
      r := GenerateMapping();
    }
  }
}
