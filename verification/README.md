# Pytolith field sets: sizes, merged fields and name maps

Pytolith describes the tag layouts of a game engine's data files. A layout
(`LayoutDef`) is a tag block or a structure. It has a list of versioned field
sets (`FieldSetDef`). Each field set is a list of declarative fields. This
project models the engine in `src/Pytolith/Definitions/Layout.py` that turns
those fields into numbers and indexes:

- **Partials.** One depth-first pass over the merged fields sorts every
  field into nine accumulators: base length, pointers, tag data, tag blocks,
  tag references, vertex buffers, old string ids, useless padding, and the
  embedded structures. Array entries are walked with the array's own count
  as the multiplier. Primitive types are sized from the `FIELD_LENGTHS`
  table.
- **Sizes.** `sizeof_for_config` gives the size of a field set under the two
  flags `include_useless_pad` and `use_old_string_id`. It is the unpacked
  formula over the partials plus, for every embedded structure instance, the
  size of version 0 of that structure's layout. Results are memoised per
  configuration.
- **Merged fields.** The loader sets the inherited (merged) field list once.
  Setting it clears both caches and rebuilds the C-name and Pascal-name
  indexes; a repeated name aborts the rebuild.
- **Header tag.** `tag_block_field_header_tag` is a structure's own tag,
  falling back to `"tbfd"`.

Module layout:

- `fields.dfy` (`Fields`): the field datatype and the length table.
- `partials.dfy` (`Partials`): the accumulator walk, as a function and as
  the source's loop.
- `sizing.dfy` (`Sizing`): the size formula and recursive structure
  resolution.
- `field_set.dfy` (`FieldSets`): the `FieldSetDef` class with its caches and
  name maps.
- `layout.dfy` (`Layouts`): `LayoutDef` and `TagGroup`.
- `errors.dfy` and `wrappers.dfy`: the error values and `Option`/`Result`.

The exceptions the source raises on acyclic layouts are `Error` values
here. `UnknownLayout` has no counterpart in the source: there a `Struct`
field holds its layout object, while here it holds an id that may be missing
from the registry. The `RecursionError` of a cyclic layout is excluded by the
rank (see "Left out").

| Error | Source exception |
|---|---|
| `UnknownFieldType` | `KeyError` from the length table |
| `UnknownLayout` | none; a structure id missing from the registry |
| `NoVersions` | `IndexError` on `versions[0]` |
| `MergedFieldsMissing`, `MergedFieldsAlreadySet` | the merge guards |
| `DuplicateCName`, `DuplicatePascalName` | the assertions of the name-map rebuild |

## Model

| member | source | states |
|---|---|---|
| Fields.FieldLength | src/Pytolith/Definitions/Layout.py:86-137 | The length table: no primitive is longer than 0x100 bytes. Exactly `Explanation` and `Custom` have length 0. |
| Fields.StructRefsAppend | src/Pytolith/Definitions/Layout.py:179-182 | The structures a concatenated field list embeds, at any array depth, are those of its two parts. |
| Partials.Visit | src/Pytolith/Definitions/Layout.py:162-184 | One field's contribution. Every structure it defers is one that the field refers to. |
| Partials.Walk | src/Pytolith/Definitions/Layout.py:151-184 | The walk over a field list. Every deferred structure is one the list refers to. |
| Partials.CalculateFieldsLengths | src/Pytolith/Definitions/Layout.py:151-184 | The accumulator loop of `calculate_fields_lengths` yields exactly `Walk`. The first unknown type aborts both with the same error. |
| Partials.CalculateFieldLength | src/Pytolith/Definitions/Layout.py:162-184 | One iteration of that loop, the `match` on the field's type, including the recursive call for arrays, yields exactly `Visit`. |
| Partials.PartialsOf | src/Pytolith/Definitions/Layout.py:186 | The partials of the merged fields are the walk from fresh accumulators with multiplier 1. Every structure they defer is one the fields refer to. |
| Partials.VisitShift | src/Pytolith/Definitions/Layout.py:162-184 | A field's contribution is independent of what was accumulated before it. |
| Partials.WalkShift | src/Pytolith/Definitions/Layout.py:161-184 | A list's contribution is independent of the starting accumulators. |
| Partials.WalkAppend | src/Pytolith/Definitions/Layout.py:161 | Walking `a + b` walks `a`, then walks `b` from where `a` ended. An error in `a` stops the walk. |
| Partials.PartialsOfAppend | src/Pytolith/Definitions/Layout.py:186 | The partials of a concatenation are the sums of its parts' partials. The concatenation fails exactly when one part fails. |
| Partials.RepeatEachAppend | src/Pytolith/Definitions/Layout.py:180 | Repeating each deferred structure `n` times distributes over concatenation. |
| Partials.ScaleAdd | src/Pytolith/Definitions/Layout.py:164-180 | Scaling distributes over accumulator sums. |
| Partials.VisitScale | src/Pytolith/Definitions/Layout.py:163-184 | A non-array field standing `n` times adds `n` times what it adds once, to every accumulator. This includes the `[field]*count` structure copies. |
| Partials.WalkScaleFlat | src/Pytolith/Definitions/Layout.py:161-184 | A list without arrays, walked with multiplier `n`, accumulates `n` times its single-walk partials. |
| Partials.ArrayContribution | src/Pytolith/Definitions/Layout.py:181-182 | An `Array` of count `n` over flat entries adds `n` times its entries' partials, whatever multiplier the array itself stands under. With `n = 0` it adds nothing. |
| Partials.RepeatEachZero | src/Pytolith/Definitions/Layout.py:180 | Zero copies of each structure is no structure. |
| Partials.ArrayOfThreeLongIntegers | src/Pytolith/Definitions/Layout.py:181-182 | `Array(3, [LongInteger])` adds 12 bytes of base length and nothing else. |
| Partials.NestedArrayIgnoresOuterCount | src/Pytolith/Definitions/Layout.py:181-182 | An array of count 2 wrapping that 3-element array still adds 12 bytes, not 24. The inner call takes `field.count`, not `count * field.count`. |
| Partials.VisitSucceeds | src/Pytolith/Definitions/Layout.py:183-184 | A field fails exactly when a primitive in it, at any depth, is missing from the length table. |
| Partials.WalkSucceeds | src/Pytolith/Definitions/Layout.py:183-184 | The walk fails exactly on an unknown primitive type. The multiplier and the accumulators do not matter. |
| Partials.ExamplePartials | src/Pytolith/Definitions/Layout.py:173-184 | `Pad(2), LongInteger, Ptr, TagReference` give base length 6, one pointer, one tag reference and no structures. |
| Sizing.ConfigSize | src/Pytolith/Definitions/Layout.py:69-79 | The reference definition of `__caclulate_size_for_config`: the unpacked sizes of pointers (4), tag data (20), tag blocks (12), tag references (16), vertex buffers (0x20) and old string ids (4, or 32 with `use_old_string_id`), plus the useless padding when `include_useless_pad` is set. Its flag behaviour is stated in `Sizing.ConfigSizeFlag`. |
| Sizing.FieldsSize | src/Pytolith/Definitions/Layout.py:56-67 | The reference definition of `sizeof_for_config` without the cache: the own size plus every deferred structure's size, or the first error. `FieldSets.FieldSetDef.SizeofForConfig` is proved to return it. |
| Sizing.ChildrenSize | src/Pytolith/Definitions/Layout.py:60-65 | The reference definition of the child loop: the sum of the children's sizes in order, stopping at the first error. `FieldSets.AddChildSizes` is proved to compute it. |
| Sizing.ChildSize | src/Pytolith/Definitions/Layout.py:64 | The reference definition of one child's size: version 0 of its layout under the same configuration. A missing layout or one without versions is an error. |
| Sizing.ConfigSizeFlag | src/Pytolith/Definitions/Layout.py:69-79 | In the own-size formula, `use_old_string_id` adds exactly 28 bytes per old string id (32 instead of 4). `include_useless_pad` adds exactly the useless pad length. |
| Sizing.FieldsSizeFlag | src/Pytolith/Definitions/Layout.py:56-79 | Switching a flag on adds its gain times the tally of that quantity, embedded structures included. Whether a size resolves does not depend on the configuration. |
| Sizing.ChildrenSizeFlag | src/Pytolith/Definitions/Layout.py:60-65 | The same as `FieldsSizeFlag`, for the children's total. |
| Sizing.ChildSizeFlag | src/Pytolith/Definitions/Layout.py:64 | The same as `FieldsSizeFlag`, for version 0 of one structure. |
| Sizing.FlagsNeverShrink | src/Pytolith/Definitions/Layout.py:56-79 | Turning either flag on never shrinks a size, and never changes whether it resolves. |
| Sizing.PlainWalk | src/Pytolith/Definitions/Layout.py:173-184 | Primitives, `Pad` and `Skip` only add to base length, each its own length. |
| Sizing.PlainSize | src/Pytolith/Definitions/Layout.py:56-79 | A field set of primitives, `Pad` and `Skip` only has the sum of their lengths as its size, in every configuration. |
| Sizing.ExampleFieldSetSize | src/Pytolith/Definitions/Layout.py:56-79 | The fields `Pad(2), LongInteger, Ptr, TagReference` embed no structure and take 2 + 4 + 4 + 16 = 26 bytes with both flags off. With no old string id and no useless padding, both flags on still give 26. |
| Sizing.RepeatedChildrenSize | src/Pytolith/Definitions/Layout.py:60-65 | `n` instances of one structure take `n` times the size of version 0 of its layout. Zero instances take 0, even for a layout that does not resolve. |
| Sizing.StructArraySize | src/Pytolith/Definitions/Layout.py:179-182 | An array of `n` copies of a structure adds `n` version-0 sizes under the same configuration. Count 0 adds nothing. |
| Sizing.ChildrenSizeAppend | src/Pytolith/Definitions/Layout.py:60-65 | Children sizes add over concatenation, and a concatenation resolves exactly when both parts do. |
| Sizing.FieldsSizeAppend | src/Pytolith/Definitions/Layout.py:56-79 | Laying one field list after another, as inheritance merging does, adds their sizes. The result resolves exactly when both parts do. |
| FieldSets.ScannedIndexesPrefix | src/Pytolith/Definitions/Layout.py:34-41 | After `k` scan steps, each map entry points at a field among the first `k` carrying that name. |
| FieldSets.ScanCleanUnique | src/Pytolith/Definitions/Layout.py:36-41 | The scan meets no repeated name exactly when the non-empty names of that style are pairwise distinct. |
| FieldSets.ScanCleanPrefix | src/Pytolith/Definitions/Layout.py:34-41 | A scan that is clean up to `m` is clean up to every `k <= m`. |
| FieldSets.RepeatFound | src/Pytolith/Definitions/Layout.py:36-41 | A name found already in the map is a real duplicate. The scan cannot complete, and the error names that name. |
| FieldSets.ScannedSound | src/Pytolith/Definitions/Layout.py:36-41 | Every entry of a partly built map points at a field carrying that name. |
| FieldSets.ScanComplete | src/Pytolith/Definitions/Layout.py:34-41 | A completed scan yields names that are unique in both styles, and maps that index exactly the named fields. |
| FieldSets.IndexComplete | src/Pytolith/Definitions/Layout.py:36-41 | When names are unique, the last-writer map holds every named field at its own position. |
| FieldSets.ScanNames | src/Pytolith/Definitions/Layout.py:34-41 | The rebuild loop succeeds iff no non-empty name repeats in either style. On success the maps are the full scan. On failure the error names a real duplicate. Every entry points at a field carrying its name either way. |
| FieldSets.AddChildSizes | src/Pytolith/Definitions/Layout.py:59-65 | The child loop returns the own length plus every child's version-0 size. It stops at the first child that does not resolve, with that child's error. |
| FieldSets.EffectiveFields | src/Pytolith/Definitions/Layout.py:48-51 | `merged_fields` is the merged list when one is set and non-empty, and the own fields otherwise (unset, or set to an empty list). |
| FieldSets.FieldSetDef.MergedFields | src/Pytolith/Definitions/Layout.py:48-51 | The `merged_fields` property of the object: `EffectiveFields` of its own fields and its merged-field store. |
| FieldSets.FieldSetDef.constructor | src/Pytolith/Definitions/Layout.py:11-45 | A new field set stores its declared attributes, with the dataclass defaults (`alignment` 0, no parent version, no size override, no fields, no size source). It has no merged fields, empty caches and empty name maps. |
| FieldSets.FieldSetDef.LoaderMergeFieldsSet | src/Pytolith/Definitions/Layout.py:208-210 | Until the merged fields are set, `merged_fields` is the own field list. Then the partials and sizes are those of the own fields. The name maps stay empty until the merge (the class invariant). |
| FieldSets.FieldSetDef.CalculatePartialsLength | src/Pytolith/Definitions/Layout.py:139-192 | Returns the partials of the merged fields, computed once and served from the cache. A failed computation leaves the cache empty. |
| FieldSets.FieldSetDef.CalculateSizeForConfig | src/Pytolith/Definitions/Layout.py:69-79 | The own size of the merged fields under the configuration, or the partials' error. |
| FieldSets.FieldSetDef.ChildStructs | src/Pytolith/Definitions/Layout.py:81-84 | The deferred structure instances of the merged fields, in walk order. Each is one the merged fields refer to. |
| FieldSets.FieldSetDef.SizeofForConfig | src/Pytolith/Definitions/Layout.py:56-67 | Returns the full recursive size of the merged fields, and the cache stays consistent. Only a successful size is memoised, under its configuration. A size-cache hit leaves the partials cache alone. A miss leaves it holding the merged fields' partials when they resolve, and empty otherwise. |
| FieldSets.FieldSetDef.GenerateMapping | src/Pytolith/Definitions/Layout.py:30-41 | Succeeds iff merged-field names are unique in both styles, and then the maps index exactly the named fields. A failure reports a real duplicate. |
| FieldSets.FieldSetDef.LoaderSetMergedFields | src/Pytolith/Definitions/Layout.py:195-206 | See the list below the table. |
| Layouts.TagBlockFieldHeaderTag | src/Pytolith/Definitions/Layout.py:240-245 | A block always gets `"tbfd"`. A structure with a tag gets that tag, `""` included. The result is `"tbfd"` exactly when the layout is a block, has no tag, or has tag `"tbfd"`. |

`FieldSets.FieldSetDef.LoaderSetMergedFields` states:

- Setting `None` fails and changes nothing.
- Setting a second time fails and changes nothing.
- Otherwise it stores the value, so the merge counts as done.
- It empties both caches.
- It succeeds iff names are unique, and then the maps are exact.
- Otherwise it reports a real duplicate.

## Left out

- Embedded-structure sizes are computed from a value snapshot, the registry
  of layout ids to the effective field lists of their versions, fixed when
  a field set is constructed. The model does not update a child field set's
  own size cache, as the source's recursive call does. The sizes agree with
  the source's only when every merge happens before any size query. In the
  source, `_loader_set_merged_fields` clears only its own caches
  (src/Pytolith/Definitions/Layout.py:203-204). A parent whose size was
  memoised before a descendant got its merged fields keeps the stale size.
  The model does not capture that stale size.
- Layout cycles are excluded by a ghost rank on the registry. The source
  has no such check and would recurse without end on a structure that
  embeds itself. The rank is stricter than that: it rules out every
  reference cycle, including one that no size query follows, such as a
  layout that refers to itself only inside an `Array` of count 0 (whose
  `[field]*0` defers nothing).
- A `Struct` field holds its layout's unique id rather than the field
  object with its layout. `Array` fields hold their count and entry fields.
  Other field attributes (flags, options, tag-reference groups) are not part
  of this model, because the computations here never read them.
- The source's assertions are modelled as `Error` results. Under
  `python -O` they would be stripped, and duplicates would silently
  overwrite; that mode is not modelled.
- `FIELD_LENGTHS` lists `"RealBounds"` twice with the same value 8. A Python
  dict keeps one entry, and so does `Fields.FieldLength`.
- Frozen dataclass machinery, `__slots__`, the `object.__setattr__` bypass,
  and `dict(locals())` are left out. The model stores the partials as a
  record and sets the merged fields directly.
- `sizeof_value`, `alignment`, `parent_version`, `sizeof_override` and
  `sizeof_source` are stored but never used. The source never uses them in
  these computations.
- The definition loader that calls the `_loader_*` methods, and the field
  classes in `Fields.py`, are not part of this model.
- The loops of `sizeof_for_config` and `__generate_mapping` are written as
  the module-level methods `FieldSets.AddChildSizes` and
  `FieldSets.ScanNames`, which the class methods call. The body of the loop
  in `calculate_fields_lengths` is the method
  `Partials.CalculateFieldLength`. Its accumulators are passed in and
  returned, rather than held as `nonlocal` variables. The name maps are
  built in locals and then stored, not cleared and filled in place. The
  final state is the same, including the partial maps left behind by a
  duplicate.
- Nested arrays follow the code: the recursive call passes `field.count`
  (src/Pytolith/Definitions/Layout.py:182), so an inner array is walked with
  its own count only, and the outer array's count is never multiplied in
  (see `Partials.NestedArrayIgnoresOuterCount`).
- `TagGroup` and `LayoutDef` are data only. They have no operations besides
  the header tag.
- Integers are unbounded, as Python's are. No width is modelled. Lengths
  and counts are `nat`, so the model has no negative pad length or array
  count.
- A `Primitive` field whose type name is one the source dispatches to its
  own branch (`"Ptr"`, `"TagReference"`, `"Struct"`, `"Array"` and the other
  special names) gives `UnknownFieldType` here. The source would take that
  name's own branch, for example counting a pointer. Well-formed inputs use
  the dedicated `FieldKind` constructors for those names.
