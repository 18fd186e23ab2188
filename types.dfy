/**
  The older copy of the schema node and its type table. Its Schema has no
  documentation fields, and its getType has no "no type" answer: the empty
  kind and "any" both become "object".
 */
module LegacyTypes {
  import opened Wrappers
  import JsonSchema

  datatype Schema = Schema(
    title: string,
    description: string,
    markdownDescription: string,
    jsonType: string,
    ref: string,
    items: Option<Schema>,
    definitions: map<string, Schema>,
    properties: map<string, Schema>,
    additionalProperties: Option<Schema>,
    required: seq<string>,
    enum: seq<string>,
    additionalItems: bool,
    allOf: seq<Schema>,
    anyOf: seq<Schema>,
    oneOf: seq<Schema>,
    ifSchema: Option<Schema>,
    thenSchema: Option<Schema>,
    elseSchema: Option<Schema>,
    constValue: string)

  /** NewSchema: empty Definitions and Properties maps, every other field zero. */
  function NewSchema(): (s: Schema)
    ensures s.definitions == map[] && s.properties == map[]
    ensures s.jsonType == "" && s.ref == "" && s.constValue == ""
    ensures s.items.None? && s.additionalProperties.None?
    ensures s.ifSchema.None? && s.thenSchema.None? && s.elseSchema.None?
    ensures s.allOf == [] && s.required == [] && s.enum == []
    ensures s.title == "" && s.description == "" && s.markdownDescription == ""
    ensures !s.additionalItems && s.anyOf == [] && s.oneOf == []
  {
    Schema("", "", "", "", "", None, map[], map[], None, [], [], false, [], [], [], None, None, None, "")
  }

  const TypeNames: set<string> := {"boolean", "number", "string", "array", "object"}

  /** getType: every answer is a JSON Schema type; there is no empty one. */
  function GetType(typ: string): (r: string)
    ensures r in TypeNames
  {
    if typ == "bool" then "boolean"
    else if typ in JsonSchema.IntegerKinds then "number"
    else if typ == "string" then "string"
    else if typ == "slice" || typ == "array" then "array"
    else "object"
  }

  /** The whole table, including the fall-through for "" and "any". */
  lemma GetTypeTable(typ: string)
    ensures typ == "bool" ==> GetType(typ) == "boolean"
    ensures typ in JsonSchema.IntegerKinds ==> GetType(typ) == "number"
    ensures typ == "string" ==> GetType(typ) == "string"
    ensures typ == "slice" || typ == "array" ==> GetType(typ) == "array"
    ensures typ !in JsonSchema.IntegerKinds + {"bool", "string", "slice", "array"} ==> GetType(typ) == "object"
    ensures GetType("") == "object" && GetType("any") == "object"
  {
  }

  /** The two tables agree on every kind name except "" and "any". */
  lemma GetTypeAgainstCurrent(typ: string)
    ensures GetType(typ) == JsonSchema.GetType(typ) <==> typ != "" && typ != "any"
    ensures typ == "" || typ == "any" ==> JsonSchema.GetType(typ) == "" && GetType(typ) == "object"
  {
  }

  /** setType: only Type changes, and it becomes getType(typ). */
  function SetType(s: Schema, typ: string): (r: Schema)
    ensures r.jsonType == GetType(typ)
    ensures r.(jsonType := s.jsonType) == s
  {
    s.(jsonType := GetType(typ))
  }

  /** setRef: only Ref changes, and it becomes "#/definitions/" + id. */
  function SetRef(s: Schema, moduleId: string): (r: Schema)
    ensures JsonSchema.DefinitionsPrefix <= r.ref && r.ref[|JsonSchema.DefinitionsPrefix|..] == moduleId
    ensures r.(ref := s.ref) == s
  {
    s.(ref := JsonSchema.DefinitionsPrefix + moduleId)
  }
}
