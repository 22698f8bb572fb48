/** Turning one attribute of the design into one protobuf message field:
    the type table (`convertTypeString`, `repeatable`), the enum values
    (`enumValues`) and the field record (`Param`, `newParam`). */
module Fields {
  import opened Wrappers
  import opened Design

  /** A message field. `enum` is empty when the attribute declares no
      usable enum (Go's nil and empty slices behave alike for every
      reader of this field). */
  datatype Param = Param(
    name: string,
    camelCaseName: string,
    kind: string,
    description: string,
    enum: seq<string>,
    repeat: bool)

  /** The labels the kind table can produce. */
  const TableLabels: set<string> :=
    {"bool", "int32", "number", "string", "datetime", "any", "array", "object", "hash"}

  /** The kind table of `convertTypeString`. It is closed, and a kind it
      does not list falls back to "any". */
  function KindLabel(k: Kind): (r: string)
    ensures r in TableLabels
    ensures k.OtherKind? || k.UserTypeKind? || k.MediaTypeKind? ==> r == "any"
  {
    match k
    case BooleanKind => "bool"
    case IntegerKind => "int32"
    case NumberKind => "number"
    case StringKind => "string"
    case DateTimeKind => "datetime"
    case UUIDKind => "string"
    case AnyKind => "any"
    case ArrayKind => "array"
    case ObjectKind => "object"
    case HashKind => "hash"
    case UserTypeKind => "any"
    case MediaTypeKind => "any"
    case OtherKind(_) => "any"
  }

  /** `repeatable`: the kinds whose fields are marked repeated. Every kind
      the table labels "array" is repeatable, and a repeatable kind's table
      label is "any" or "array". A type override changes a field's `Kind`
      but not its `Repeat`. */
  predicate Repeatable(k: Kind)
    ensures Repeatable(k) ==> KindLabel(k) == "any" || KindLabel(k) == "array"
    ensures KindLabel(k) == "array" ==> Repeatable(k)
  {
    k.AnyKind? || k.ArrayKind?
  }

  /** `convertTypeString`: a type override in the metadata wins whatever the
      kind; otherwise the kind table decides. */
  function ConvertTypeString(att: Attribute): (r: string)
    requires AttributeOk(att)
    ensures GrpcTypeKey in att.metadata ==> r == att.metadata[GrpcTypeKey][0]
    ensures GrpcTypeKey !in att.metadata ==> r == KindLabel(att.kind) && r in TableLabels
  {
    if GrpcTypeKey in att.metadata then att.metadata[GrpcTypeKey][0]
    else KindLabel(att.kind)
  }

  /** `enumValues`: a string list is kept in its declared order, any other
      value yields no enum. */
  function EnumValues(v: ValidationValues): (r: seq<string>)
    ensures v.StringList? ==> r == v.items
    ensures v.OtherList? ==> r == []
  {
    match v
    case StringList(items) => items
    case OtherList => []
  }

  /** The attribute declares an enum (validation and values both non-nil). */
  predicate HasEnum(att: Attribute)
  {
    att.validation.Some? && att.validation.value.values.Some?
  }

  /** `newParam`: the field for attribute `att` named `a`. */
  function NewParam(nm: Naming, a: string, att: Attribute): (p: Param)
    requires AttributeOk(att)
    ensures p.name == nm.goify(a, false) && p.camelCaseName == nm.goify(a, true)
    ensures p.kind == ConvertTypeString(att)
    ensures p.repeat <==> att.kind.AnyKind? || att.kind.ArrayKind?
    ensures p.description == att.description
    ensures HasEnum(att) && att.validation.value.values.value.StringList? ==>
              p.enum == att.validation.value.values.value.items
    ensures !HasEnum(att) || att.validation.value.values.value.OtherList? ==> p.enum == []
  {
    var p := Param(nm.goify(a, false), nm.goify(a, true), ConvertTypeString(att),
                   att.description, [], Repeatable(att.kind));
    if HasEnum(att) then p.(enum := EnumValues(att.validation.value.values.value)) else p
  }

  /** The field `parseMediaTypes` builds for a view attribute: the field
      `newParam` would build, without its enum and never repeated. */
  function MediaTypeParam(nm: Naming, name: string, att: Attribute): (p: Param)
    requires AttributeOk(att)
    ensures p == NewParam(nm, name, att).(enum := [], repeat := false)
  {
    Param(nm.goify(name, false), nm.goify(name, true), ConvertTypeString(att),
          att.description, [], false)
  }
}
