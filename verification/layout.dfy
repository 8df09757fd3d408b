/** Block and structure layouts and tag groups
    (src/Pytolith/Definitions/Layout.py, `LayoutDef` and `TagGroup`). */
module Layouts {
  import opened Wrappers
  import opened FieldSets

  /** The tag of the field-data header of a tag block ("tag block field
      data"), which structures without a tag of their own share. */
  const DefaultHeaderTag: string := "tbfd"

  /** A block (`is_structure` false) or a structure: its identity, naming and
      versioned field sets.  `structureTag` only matters for structures. */
  datatype LayoutDef = LayoutDef(
    uniqueId: string,
    internalName: string,
    displayName: Option<string>,
    isStructure: bool,
    structureTag: Option<string>,
    sourceXmlFile: string,
    versions: seq<FieldSetDef>)

  /** `tag_block_field_header_tag`: a structure's own tag when it has one,
      the default tag otherwise.  Only a missing tag falls back; a present
      tag, even the empty string, is returned unchanged. */
  function TagBlockFieldHeaderTag(layout: LayoutDef): (r: string)
    ensures !layout.isStructure ==> r == DefaultHeaderTag
    ensures layout.isStructure && layout.structureTag.Some? ==> r == layout.structureTag.value
    ensures r == DefaultHeaderTag
        <==> !layout.isStructure || layout.structureTag.None? || layout.structureTag == Some(DefaultHeaderTag)
  {
    var value := if layout.isStructure then layout.structureTag else None;
    if value.None? then DefaultHeaderTag else value.value
  }

  /** A tag group: its four-character group tag, name, optional parent group,
      version and root layout. */
  datatype TagGroup = TagGroup(
    group: string,
    name: string,
    parent: Option<string>,
    version: int,
    layout: LayoutDef,
    sourceXmlFile: string)
}
