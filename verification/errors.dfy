/** The ways the field-set engine can fail.  In the source every one of them
    is an exception (a `KeyError`, an `IndexError`, an `AssertionError` or a
    `RuntimeError`); here each is a value the caller receives. */
module Errors {

  datatype Error =
      /** `FIELD_LENGTHS[field.type]` found no entry for this type name. */
    | UnknownFieldType(typeName: string)
      /** A `Struct` field names a layout that the namespace does not hold. */
    | UnknownLayout(layoutId: string)
      /** `layout.versions[0]` on a layout without versions. */
    | NoVersions(layoutId: string)
      /** `_loader_set_merged_fields(None)`. */
    | MergedFieldsMissing
      /** A second `_loader_set_merged_fields` on the same field set. */
    | MergedFieldsAlreadySet
      /** Two merged fields share a non-empty C-style name. */
    | DuplicateCName(name: string)
      /** Two merged fields share a non-empty Pascal-style name. */
    | DuplicatePascalName(name: string)
}
