/**
  The part of Go's run-time type information that the schema engine reads:
  the kind of a type, its element type, and the fields of a struct with their
  `json` and `caddy` tags. `isMatchNot` marks the one struct type the engine
  treats as a root module loader (caddyhttp.MatchNot).
 */
module Reflection {
  import opened Wrappers
  import opened GoStrings

  /** A `caddy` struct tag. The engine reads its first token, so it has one. */
  type CaddyTag = s: string | HasToken(s) witness "namespace="

  datatype TypeDesc =
    | Ptr(elem: TypeDesc)
    | Slice(elem: TypeDesc)
    | Map(elem: TypeDesc)   // keys are always strings
    | Struct(fields: seq<StructField>, isMatchNot: bool)
    | Scalar(kind: string)  // any other kind, by its reflect.Kind name

  datatype StructField = StructField(
    name: string,
    anonymous: bool,
    jsonTag: Option<string>,
    caddyTag: Option<CaddyTag>,
    typ: TypeDesc)

  /** reflect.Kind.String() */
  function KindName(t: TypeDesc): string {
    match t
    case Ptr(_) => "ptr"
    case Slice(_) => "slice"
    case Map(_) => "map"
    case Struct(_, _) => "struct"
    case Scalar(k) => k
  }

  /** A size measure: every field type is smaller than its struct. */
  function Size(t: TypeDesc): (n: nat)
    ensures n > 0
  {
    match t
    case Ptr(e) => 1 + Size(e)
    case Slice(e) => 1 + Size(e)
    case Map(e) => 1 + Size(e)
    case Struct(fs, _) => 1 + FieldsSize(fs)
    case Scalar(_) => 1
  }

  function FieldsSize(fs: seq<StructField>): (n: nat)
    ensures forall ff :: ff in fs ==> Size(ff.typ) < n
  {
    if fs == [] then 0
    else
      assert fs == fs[..|fs| - 1] + [fs[|fs| - 1]];
      FieldsSize(fs[..|fs| - 1]) + 1 + Size(fs[|fs| - 1].typ)
  }

  /** One level of pointer dereference, as `if t.Kind() == reflect.Ptr { t = t.Elem() }`. */
  function Deref(t: TypeDesc): (r: TypeDesc)
    ensures Size(r) <= Size(t)
    ensures !t.Ptr? ==> r == t
  {
    if t.Ptr? then t.elem else t
  }
}
