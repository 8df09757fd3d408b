/** The declarative field descriptions a field set is made of, and the table
    of fixed lengths of the primitive field types
    (src/Pytolith/Definitions/Layout.py, `FIELD_LENGTHS`). */
module Fields {
  import opened Wrappers

  /** What a field is.  The source dispatches on the string `field.type`; the
      type names it treats specially get a constructor each, and every other
      type name is a `Primitive` whose length comes from `FieldLengths`. */
  datatype FieldKind =
    | Primitive(typeName: string)
    | Pad(length: nat)
    | Skip(length: nat)
    | UselessPad(length: nat)
    | Ptr
    | OldStringId
    | TagReference
    | Block
    | Data
    | VertexBuffer
      /** An embedded structure, referring to its layout by unique id. */
    | Struct(layoutId: string)
      /** `count` repetitions of the `entries`. */
    | Array(count: nat, entries: seq<Field>)

  /** A field with its optional C-style and Pascal-style names. */
  datatype Field = Field(kind: FieldKind, cName: Option<string>, pascalName: Option<string>)

  /** The two name maps a field set builds. */
  datatype NameStyle = CStyle | PascalStyle

  function NameOf(f: Field, style: NameStyle): Option<string>
  {
    match style
    case CStyle => f.cName
    case PascalStyle => f.pascalName
  }

  /** The name `f` is indexed under in `style`; `""` when it has none.  Like
      the truth test on the name in the source, a missing name and an empty
      one are both skipped. */
  function Key(f: Field, style: NameStyle): string
  {
    match NameOf(f, style)
    case Some(n) => n
    case None => ""
  }

  /** `FIELD_LENGTHS[typeName]`: the byte length of a primitive field type,
      or `None` where the source raises `KeyError`.  No primitive is longer
      than a `LongString`, and only the two documentation entries,
      `Explanation` and `Custom`, have length 0. */
  function FieldLength(typeName: string): (r: Option<nat>)
    ensures r.Some? ==> r.value <= 0x100
    ensures r == Some(0) <==> typeName == "Explanation" || typeName == "Custom"
  {
    match typeName
    case "String" => Some(0x20)
    case "LongString" => Some(0x100)
    case "StringId" => Some(0x4)
    case "CharInteger" => Some(1)
    case "ShortInteger" => Some(2)
    case "LongInteger" => Some(4)
    case "Angle" => Some(4)
    case "Real" => Some(4)
    case "RealFraction" => Some(4)
    case "Tag" => Some(4)
    case "CharEnum" => Some(1)
    case "ByteFlags" => Some(1)
    case "ByteBlockFlags" => Some(1)
    case "ShortEnum" => Some(2)
    case "WordFlags" => Some(2)
    case "WordBlockFlags" => Some(2)
    case "LongEnum" => Some(4)
    case "LongFlags" => Some(4)
    case "LongBlockFlags" => Some(4)
    case "Point2D" => Some(4)
    case "Rectangle2D" => Some(4)
    case "RgbColor" => Some(4)
    case "AgbColor" => Some(4)
    case "RealPoint2D" => Some(8)
    case "RealVector2D" => Some(8)
    case "RealBounds" => Some(8)
    case "RealFractionBounds" => Some(8)
    case "AngleBounds" => Some(8)
    case "RealPoint3D" => Some(12)
    case "RealVector3D" => Some(12)
    case "RealRgbColor" => Some(12)
    case "RealHsvColor" => Some(12)
    case "RealQuaternion" => Some(16)
    case "RealArgbColor" => Some(16)
    case "RealAhsvColor" => Some(16)
    case "RealEulerAngles2D" => Some(8)
    case "RealEulerAngles3D" => Some(12)
    case "RealPlane2D" => Some(12)
    case "RealPlane3D" => Some(16)
    case "ShortBounds" => Some(4)
    case "CharBlockIndex" => Some(1)
    case "CustomCharBlockIndex" => Some(1)
    case "ShortBlockIndex" => Some(2)
    case "CustomShortBlockIndex" => Some(2)
    case "LongBlockIndex" => Some(4)
    case "CustomLongBlockIndex" => Some(4)
    case "Explanation" => Some(0)
    case "Custom" => Some(0)
    case _ => None
  }

  /** The layout ids of every `Struct` field in `fields`, at any depth of
      `Array` nesting. */
  function StructRefs(fields: seq<Field>): set<string>
    decreases fields
  {
    if fields == [] then {} else FieldStructRefs(fields[0]) + StructRefs(fields[1..])
  }

  function FieldStructRefs(f: Field): set<string>
    decreases f
  {
    match f.kind
    case Struct(id) => {id}
    case Array(_, entries) => StructRefs(entries)
    case _ => {}
  }

  /** No field of `fields` is an `Array`. */
  predicate Flat(fields: seq<Field>)
  {
    forall i :: 0 <= i < |fields| ==> !fields[i].kind.Array?
  }

  /** The structures a concatenation refers to are those of its parts. */
  lemma {:induction false} StructRefsAppend(a: seq<Field>, b: seq<Field>)
    ensures StructRefs(a + b) == StructRefs(a) + StructRefs(b)
  {
    if a == [] {
      assert a + b == b;
    } else {
      assert (a + b)[0] == a[0];
      assert (a + b)[1..] == a[1..] + b;
      StructRefsAppend(a[1..], b);
    }
  }
}
