/**
  The JSON Schema node and its leaf helpers: the type-name table, `$ref`
  formatting and the description, markdown and godoc-link strings.
 */
module JsonSchema {
  import opened Wrappers
  import opened GoStrings

  /**
    One JSON Schema node. The Go struct keeps its children behind pointers;
    here they are values. `goPkg`, `baseDescription` and
    `baseMarkdownDescription` are the struct's unexported documentation fields.
   */
  datatype Schema = Schema(
    title: string,
    description: string,
    markdownDescription: string,
    jsonType: string,
    ref: string,
    items: Option<Schema>,
    definitions: map<string, Schema>,
    properties: map<string, Schema>,
    additionalProperties: Option<Schema>,
    required: seq<string>,
    enum: seq<string>,
    additionalItems: bool,
    allOf: seq<Schema>,
    anyOf: seq<Schema>,
    oneOf: seq<Schema>,
    ifSchema: Option<Schema>,
    thenSchema: Option<Schema>,
    elseSchema: Option<Schema>,
    constValue: string,
    goPkg: string,
    baseDescription: string,
    baseMarkdownDescription: string)

  /** NewSchema: empty Definitions and Properties maps, every other field zero. */
  function NewSchema(): (s: Schema)
    ensures s.definitions == map[] && s.properties == map[]
    ensures s.jsonType == "" && s.ref == "" && s.constValue == ""
    ensures s.items.None? && s.additionalProperties.None?
    ensures s.ifSchema.None? && s.thenSchema.None? && s.elseSchema.None?
    ensures s.allOf == [] && s.required == [] && s.enum == []
    ensures s.title == "" && s.description == "" && s.markdownDescription == ""
    ensures !s.additionalItems && s.anyOf == [] && s.oneOf == []
    ensures s.goPkg == "" && s.baseDescription == "" && s.baseMarkdownDescription == ""
  {
    Schema("", "", "", "", "", None, map[], map[], None, [], [], false, [], [], [], None, None, None, "", "", "", "")
  }

  const IntegerKinds: set<string> :=
    {"int", "int8", "int16", "int32", "int64", "uint", "uint8", "uint16", "uint32", "uint64"}

  /** The JSON Schema types the engine emits; the empty string means "no type". */
  const JsonTypes: set<string> := {"boolean", "number", "array", "", "string", "object"}

  /** getType: Go kind name to JSON Schema type name. */
  function GetType(typ: string): (r: string)
    ensures r in JsonTypes
  {
    if typ == "bool" then "boolean"
    else if typ in IntegerKinds then "number"
    else if typ == "slice" then "array"
    else if typ == "any" || typ == "" then ""
    else if typ == "string" || typ == "array" then typ
    else "object"
  }

  /** The whole getType table. */
  lemma GetTypeTable(typ: string)
    ensures typ == "bool" ==> GetType(typ) == "boolean"
    ensures typ in IntegerKinds ==> GetType(typ) == "number"
    ensures typ == "slice" || typ == "array" ==> GetType(typ) == "array"
    ensures typ == "string" ==> GetType(typ) == "string"
    ensures typ == "any" || typ == "" ==> GetType(typ) == ""
    ensures typ !in IntegerKinds + {"bool", "slice", "array", "string", "any", ""} ==> GetType(typ) == "object"
  {
  }

  /**
    getType is not idempotent: its own outputs "boolean" and "number" are not
    kind names and map to "object"; every other output maps to itself.
   */
  lemma GetTypeFixedPoints(typ: string)
    ensures GetType(GetType(typ)) == GetType(typ) <==> GetType(typ) !in {"boolean", "number"}
  {
  }

  /** setType: only Type changes, and it becomes getType(typ). */
  function SetType(s: Schema, typ: string): (r: Schema)
    ensures r.jsonType == GetType(typ)
    ensures r.(jsonType := s.jsonType) == s
  {
    s.(jsonType := GetType(typ))
  }

  const DefinitionsPrefix := "#/definitions/"

  /** setRef: only Ref changes, and it becomes "#/definitions/" + id. */
  function SetRef(s: Schema, moduleId: string): (r: Schema)
    ensures DefinitionsPrefix <= r.ref && r.ref[|DefinitionsPrefix|..] == moduleId
    ensures r.(ref := s.ref) == s
  {
    s.(ref := DefinitionsPrefix + moduleId)
  }

  const GodocBase := "https://pkg.go.dev/"

  /** The package path with its last "." turned into "#", as godocLink writes it. */
  function GodocAnchor(pkg: string): (r: string)
    ensures |r| == |pkg|
  {
    var i := LastIndex(pkg, '.');
    if i >= 0 then pkg[..i] + "#" + pkg[i + 1..] else pkg
  }

  /** godocLink: empty in, empty out; otherwise the anchored path behind the pkg.go.dev prefix. */
  function GodocLink(pkg: string): (r: string)
    ensures pkg == "" <==> r == ""
    ensures pkg != "" ==> r == GodocBase + GodocAnchor(pkg)
  {
    if pkg == "" then "" else GodocBase + GodocAnchor(pkg)
  }

  /**
    Only the LAST dot of the path becomes "#": putting the dot back gives the
    path again, and no dot is left after the anchor.
   */
  lemma GodocAnchorRoundTrip(pkg: string)
    ensures var r := GodocAnchor(pkg); var i := LastIndex(pkg, '.');
      && (i < 0 ==> r == pkg && '.' !in r)
      && (i >= 0 ==> r[i] == '#' && r[..i] + "." + r[i + 1..] == pkg && '.' !in r[i + 1..])
  {
    var i := LastIndex(pkg, '.');
    if i >= 0 {
      AnchorAt(pkg, i);
    } else {
      assert forall k :: 0 <= k < |pkg| ==> pkg[k] != '.';
    }
  }

  /** The anchored path, with "#" at the position of the last dot. */
  lemma AnchorAt(pkg: string, i: int)
    requires 0 <= i < |pkg| && pkg[i] == '.'
    requires forall j :: i < j < |pkg| ==> pkg[j] != '.'
    ensures var r := pkg[..i] + "#" + pkg[i + 1..];
      r[i] == '#' && r[..i] + "." + r[i + 1..] == pkg && '.' !in r[i + 1..]
  {
    var r := pkg[..i] + "#" + pkg[i + 1..];
    assert r[..i] == pkg[..i];
    assert r[i + 1..] == pkg[i + 1..];
    assert pkg == pkg[..i] + "." + pkg[i + 1..];
  }

  /** markdownLink: "" for no link, else "[title](link)". */
  function MarkdownLink(title: string, link: string): (r: string)
    ensures link == "" <==> r == ""
    ensures link != "" ==>
      && |r| == |title| + |link| + 4
      && r[..|title| + 1] == "[" + title
      && r[|title| + 1..|title| + 3] == "]("
      && r[|title| + 3..] == link + ")"
  {
    if link == "" then "" else "[" + title + "](" + link + ")"
  }

  /** The type as the descriptions show it: an empty type reads "any". */
  function TypeLabel(fieldType: string): (r: string)
    ensures r != ""
    ensures fieldType != "" ==> r == fieldType
  {
    if fieldType == "" then "any" else fieldType
  }

  /** description: "name: type", plus "\nModule: m" when the module is known. */
  function Description(typeName: string, fieldType: string, moduleId: string): (r: string)
    ensures typeName + ": " + TypeLabel(fieldType) <= r
    ensures moduleId == "" ==> r == typeName + ": " + TypeLabel(fieldType)
  {
    if moduleId == "" then typeName + ": " + TypeLabel(fieldType)
    else typeName + ": " + TypeLabel(fieldType) + "\nModule: " + moduleId
  }

  /** markdownDescription: the same text with the type and module in code spans. */
  function MarkdownDescription(typeName: string, fieldType: string, moduleId: string): (r: string)
    ensures typeName + ": `" + TypeLabel(fieldType) + "`" <= r
    ensures moduleId == "" ==> r == typeName + ": `" + TypeLabel(fieldType) + "`"
  {
    if moduleId == "" then typeName + ": `" + TypeLabel(fieldType) + "`"
    else typeName + ": `" + TypeLabel(fieldType) + "`  \nModule: `" + moduleId + "`"
  }

  /** A known module only appends a line to either description. */
  lemma DescriptionModuleLine(typeName: string, fieldType: string, moduleId: string)
    requires moduleId != ""
    ensures Description(typeName, fieldType, moduleId) == Description(typeName, fieldType, "") + "\nModule: " + moduleId
    ensures MarkdownDescription(typeName, fieldType, moduleId)
      == MarkdownDescription(typeName, fieldType, "") + "  \nModule: `" + moduleId + "`"
  {
  }

  /** An empty type is described exactly as the type "any". */
  lemma DescriptionUntyped(typeName: string, moduleId: string)
    ensures Description(typeName, "", moduleId) == Description(typeName, "any", moduleId)
    ensures MarkdownDescription(typeName, "", moduleId) == MarkdownDescription(typeName, "any", moduleId)
  {
  }
}
