/**
  Compiling the intermediate tree into a JSON Schema node: toSchema and the
  module-loader schema builder (build, buildWithInlineKey, apply) of
  interface.go.
 */
module InterfaceSchema {
  import opened Wrappers
  import opened GoStrings
  import opened Reflection
  import opened JsonSchema
  import opened InterfaceBuild

  // ------------------------------------------------------------ short names

  /** The last element of strings.Split(path, "."). */
  function LastSegment(path: string): (r: string)
    ensures '.' !in r
  {
    path[LastIndex(path, '.') + 1..]
  }

  /** The short name of a registered module is its own name, as long as it has no dot. */
  lemma ModulePathLastSegment(namespace: string, name: string)
    requires '.' !in name
    ensures LastSegment(ModulePath(namespace, name)) == name
  {
    var path := ModulePath(namespace, name);
    if namespace != "" {
      assert path == namespace + "." + name;
      var i := LastIndex(path, '.');
      assert path[|namespace|] == '.';
      assert i >= |namespace|;
      assert path[|namespace| + 1..] == name;
    }
  }

  // ------------------------------------------------------------------ build

  /** A schema whose only set field is `$ref` = "#/definitions/" + path. */
  function RefSchema(path: string): (r: Schema)
    ensures r == NewSchema().(ref := DefinitionsPrefix + path)
  {
    SetRef(NewSchema(), path)
  }

  /** The Properties that build fills: short name to $ref, later paths overwriting earlier ones. */
  function RefProperties(paths: seq<string>): map<string, Schema> {
    if paths == [] then map[]
    else
      var last := paths[|paths| - 1];
      RefProperties(paths[..|paths| - 1])[LastSegment(last) := RefSchema(last)]
  }

  function RefMapSchema(paths: seq<string>): Schema {
    NewSchema().(properties := RefProperties(paths))
  }

  /** No later path has the same short name. */
  predicate LastWithSegment(paths: seq<string>, j: int)
    requires 0 <= j < |paths|
  {
    forall k :: j < k < |paths| ==> LastSegment(paths[k]) != LastSegment(paths[j])
  }

  /** build without an inline key has one property per short name, and no other. */
  lemma {:induction false} RefPropertiesKeys(paths: seq<string>)
    ensures forall j :: 0 <= j < |paths| ==> LastSegment(paths[j]) in RefProperties(paths)
    ensures forall n :: n in RefProperties(paths) ==> exists j :: 0 <= j < |paths| && LastSegment(paths[j]) == n
    decreases |paths|
  {
    if paths != [] {
      var front := paths[..|paths| - 1];
      var last := paths[|paths| - 1];
      RefPropertiesKeys(front);
      forall j | 0 <= j < |paths| - 1 ensures LastSegment(paths[j]) in RefProperties(paths) {
        assert paths[j] == front[j];
      }
      forall n | n in RefProperties(paths) ensures exists j :: 0 <= j < |paths| && LastSegment(paths[j]) == n {
        if n != LastSegment(last) {
          var j :| 0 <= j < |front| && LastSegment(front[j]) == n;
          assert paths[j] == front[j];
        }
      }
    }
  }

  /** Under each short name, build puts the $ref of the last path with that short name. */
  lemma {:induction false} RefPropertiesValues(paths: seq<string>)
    ensures forall j :: 0 <= j < |paths| && LastWithSegment(paths, j) ==>
      LastSegment(paths[j]) in RefProperties(paths) && RefProperties(paths)[LastSegment(paths[j])] == RefSchema(paths[j])
    decreases |paths|
  {
    if paths != [] {
      var front := paths[..|paths| - 1];
      var last := paths[|paths| - 1];
      RefPropertiesValues(front);
      forall j | 0 <= j < |paths| && LastWithSegment(paths, j)
        ensures LastSegment(paths[j]) in RefProperties(paths)
        ensures RefProperties(paths)[LastSegment(paths[j])] == RefSchema(paths[j])
      {
        if j < |paths| - 1 {
          assert LastSegment(paths[j]) != LastSegment(last);
          assert front[j] == paths[j];
          assert LastWithSegment(front, j) by {
            forall k | j < k < |front| ensures LastSegment(front[k]) != LastSegment(front[j]) {
              assert front[k] == paths[k];
            }
          }
        }
      }
    }
  }

  // ---------------------------------------------------------- buildWithInlineKey

  /** {if: {properties: {key: {const: short name}}}, then: {$ref: path}} */
  function IfThenClause(path: string, key: string): Schema {
    var tmp := NewSchema().(constValue := LastSegment(path));
    var sif := NewSchema().(properties := map[key := tmp]);
    NewSchema().(ifSchema := Some(sif), thenSchema := Some(RefSchema(path)))
  }

  function IfThenClauses(paths: seq<string>, key: string): (r: seq<Schema>)
    ensures |r| == |paths|
  {
    seq(|paths|, k requires 0 <= k < |paths| => IfThenClause(paths[k], key))
  }

  function ShortNames(paths: seq<string>): (r: seq<string>)
    ensures |r| == |paths|
  {
    seq(|paths|, k requires 0 <= k < |paths| => LastSegment(paths[k]))
  }

  function KeyDescription(name: string, key: string, moduleId: string): string {
    "key to identify " + name + " module.\n" + key + ": string\nModule: " + moduleId
  }

  function KeyMarkdownDescription(name: string, key: string, moduleId: string): string {
    "key to identify `" + name + "` module.  \n" + key + ": `string`  \nModule: `" + moduleId + "`"
  }

  /** The last allOf entry: the key is a string, one of the short names. */
  function KeyClause(f: Interface, names: seq<string>): Schema {
    var tmp := SetType(NewSchema(), "string").(
      enum := names,
      description := KeyDescription(f.name, f.loaderKey, f.moduleId),
      markdownDescription := KeyMarkdownDescription(f.name, f.loaderKey, f.moduleId));
    NewSchema().(properties := map[f.loaderKey := tmp])
  }

  /**
    buildWithInlineKey: one if/then clause per loader path, in order, whose
    `if` fixes the key to the path's short name and whose `then` refers to the
    path; then one clause making the key a string among the short names; and
    the key is required.
   */
  function InlineKeySchema(f: Interface): (r: Schema)
    ensures |r.allOf| == |f.loader| + 1
    ensures forall k :: 0 <= k < |f.loader| ==>
      && r.allOf[k].ifSchema.Some? && r.allOf[k].thenSchema.Some?
      && r.allOf[k].ifSchema.value.properties.Keys == {f.loaderKey}
      && r.allOf[k].ifSchema.value.properties[f.loaderKey].constValue == LastSegment(f.loader[k])
      && r.allOf[k].thenSchema.value.ref == DefinitionsPrefix + f.loader[k]
    ensures var keyClause := r.allOf[|f.loader|];
      && keyClause.properties.Keys == {f.loaderKey}
      && keyClause.properties[f.loaderKey].jsonType == "string"
      && |keyClause.properties[f.loaderKey].enum| == |f.loader|
      && (forall k :: 0 <= k < |f.loader| ==> keyClause.properties[f.loaderKey].enum[k] == LastSegment(f.loader[k]))
    ensures r.required == [f.loaderKey]
    ensures r.items.None? && r.additionalProperties.None? && r.properties == map[]
  {
    var names := ShortNames(f.loader);
    NewSchema().(allOf := IfThenClauses(f.loader, f.loaderKey) + [KeyClause(f, names)], required := [f.loaderKey])
  }

  /** What build leaves in the builder's schema. */
  function LoaderSchema(f: Interface): (r: Schema)
    ensures r.items.None? && r.additionalProperties.None?
  {
    if f.loaderKey != "" then InlineKeySchema(f) else RefMapSchema(f.loader)
  }

  // ------------------------------------------------------------------ apply

  /** The number of items / additionalProperties levels, items first: apply's counting loop. */
  function SchemaDepth(s: Schema): nat {
    if s.items.Some? then 1 + SchemaDepth(s.items.value)
    else if s.additionalProperties.Some? then 1 + SchemaDepth(s.additionalProperties.value)
    else 0
  }

  predicate NoChildren(s: Schema) {
    s.items.None? && s.additionalProperties.None?
  }

  /** How deep the parent ends up when both it and the loader schema have no children. */
  function ShapeDepth(nest: int, key: string): nat {
    if nest == 3 || (nest == 2 && key != "") then 1 else 0
  }

  /**
    apply's switch over the counted depth. `built` is the schema build made
    from the loader's module paths. Nest 1, or 2 without a key, replaces the
    parent by `built` typed "object"; nest 2 with a key, or 3, makes the parent
    an array of `built`; anything else leaves the parent as it is.
   */
  function ApplyShape(parent: Schema, built: Schema, nest: int, key: string): (r: Schema)
    ensures (nest == 1 || (nest == 2 && key == "")) ==> r == built.(jsonType := "object")
    ensures ((nest == 2 && key != "") || nest == 3) ==>
      r == parent.(jsonType := "array", items := Some(built))
    ensures (nest < 1 || nest > 3) ==> r == parent
    ensures NoChildren(parent) && NoChildren(built) ==> SchemaDepth(r) == ShapeDepth(nest, key)
  {
    if nest == 1 || (nest == 2 && key == "") then SetType(built, "object")
    else if nest == 2 || nest == 3 then SetType(parent, "array").(items := Some(built))
    else parent
  }

  /**
    The depth apply counts for a loader type, computed from the type alone:
    slices and maps count one level each; a root-loader struct counts what its
    own loader makes of it; anything else counts none.
   */
  function LoaderDepth(reg: Registry, t: TypeDesc): nat
    decreases Size(t)
  {
    match t
    case Ptr(e) => LoaderDepth(reg, e)
    case Struct(_, isMatchNot) =>
      var flat := FlatFields(t);
      FlatFieldsBound(t);
      if isMatchNot && |flat| > 0 && flat[0].caddyTag.Some? then
        var tag := flat[0].caddyTag.value;
        if |RegisteredModules(reg, TagNamespace(tag))| > 0
        then ShapeDepth(LoaderDepth(reg, flat[0].typ), TagInlineKey(tag))
        else 0
      else 0
    case _ => NestDepth(t)
  }

  /** The loader depth of a node; a node without a loader type counts none. */
  function LoaderDepthOf(reg: Registry, f: Interface): nat {
    match f.loaderType
    case None => 0
    case Some(t) => LoaderDepth(reg, t)
  }

  // --------------------------------------------------------------- toSchema

  /** toSchema */
  function ToSchema(reg: Registry, f: Interface): Schema
    decreases f, 4
  {
    var typed := SetType(NewSchema(), f.typeName);
    var loaded :=
      if |f.loader| > 0 then ApplyShape(typed, LoaderSchema(f), LoaderDepthOf(reg, f), f.loaderKey)
      else typed;
    var withFields := loaded.(properties := FieldProperties(reg, f, 0, loaded.properties));
    Describe(reg, f, FillNest(reg, withFields, f))
  }

  /** `props[field.Name] = field.toSchema()` for the fields from i on. */
  function FieldProperties(reg: Registry, f: Interface, i: nat, acc: map<string, Schema>): map<string, Schema>
    requires i <= |f.fields|
    decreases f, 3, |f.fields| - i
  {
    if i == |f.fields| then acc
    else FieldProperties(reg, f, i + 1, acc[f.fields[i].name := ToSchema(reg, f.fields[i])])
  }

  /**
    The walk down the nest chain from `outer`, adding to `cs`: an array link
    types cs "array" and gives it typed items, a map link types it "object" and
    gives it untyped additionalProperties, each new level holding the fields
    of the nested node.
   */
  function FillNest(reg: Registry, cs: Schema, outer: Interface): (r: Schema)
    ensures r.properties == cs.properties
    ensures outer.nest.None? ==> r == cs
    ensures outer.nest.Some? && outer.isArray ==> r.jsonType == "array"
    ensures outer.nest.Some? && outer.isMap && !outer.isArray ==> r.jsonType == "object"
    decreases outer, 2
  {
    match outer.nest
    case None => cs
    case Some(nest) =>
      var props := FieldProperties(reg, nest, 0, map[]);
      if outer.isArray then
        var items := SetType(NewSchema(), nest.typeName).(properties := props);
        SetType(cs, "array").(items := Some(MapLink(reg, items, outer, nest, props)))
      else MapLink(reg, cs, outer, nest, props)
  }

  /** The map half of one link, then the rest of the chain. */
  function MapLink(reg: Registry, cs: Schema, outer: Interface, nest: Interface, props: map<string, Schema>): (r: Schema)
    requires outer.nest == Some(nest)
    ensures r.properties == cs.properties
    ensures outer.isMap ==> r.jsonType == "object"
    decreases outer, 1
  {
    if outer.isMap then
      SetType(cs, "object").(additionalProperties := Some(FillNest(reg, NewSchema().(properties := props), nest)))
    else FillNest(reg, cs, nest)
  }

  /**
    The documentation step of toSchema: the plain and markdown descriptions
    name the schema's final type; the godoc link is added after them only when
    the module has a godoc package, and otherwise they are used as they are.
   */
  function Describe(reg: Registry, f: Interface, s: Schema): (r: Schema)
    ensures r.goPkg == reg.goPkg(f.moduleId)
    ensures r.baseDescription == Description(f.name, s.jsonType, f.moduleId)
    ensures r.baseMarkdownDescription == MarkdownDescription(f.name, s.jsonType, f.moduleId)
    ensures r.goPkg == "" ==>
      r.description == r.baseDescription && r.markdownDescription == r.baseMarkdownDescription
    ensures r.goPkg != "" ==>
      && r.description == r.baseDescription + "\n" + GodocLink(r.goPkg)
      && r.markdownDescription == r.baseMarkdownDescription + "  \n" + MarkdownLink("godoc", GodocLink(r.goPkg))
      && GodocLink(r.goPkg) != ""
    ensures r.(description := s.description, markdownDescription := s.markdownDescription, goPkg := s.goPkg,
               baseDescription := s.baseDescription, baseMarkdownDescription := s.baseMarkdownDescription) == s
  {
    var d := Description(f.name, s.jsonType, f.moduleId);
    var md := MarkdownDescription(f.name, s.jsonType, f.moduleId);
    var pkg := reg.goPkg(f.moduleId);
    s.(baseDescription := d, baseMarkdownDescription := md, goPkg := pkg,
       description := if pkg == "" then d else d + "\n" + GodocLink(pkg),
       markdownDescription := if pkg == "" then md else md + "  \n" + MarkdownLink("godoc", GodocLink(pkg)))
  }

  // ------------------------------------------------------- what toSchema promises

  /**
    Every compiled node is documented with its own name, JSON type and module,
    and carries the package of its module; a plain node without loader or nest
    has the JSON type of its Go kind.
   */
  lemma ToSchemaDocumented(reg: Registry, f: Interface)
    ensures var r := ToSchema(reg, f);
      && r.goPkg == reg.goPkg(f.moduleId)
      && r.baseDescription == Description(f.name, r.jsonType, f.moduleId)
      && r.baseMarkdownDescription == MarkdownDescription(f.name, r.jsonType, f.moduleId)
      && (f.loader == [] && f.nest.None? ==> r.jsonType == GetType(f.typeName))
  {
  }

  /** No later field has the same name. */
  predicate LastWithName(fields: seq<Interface>, j: int)
    requires 0 <= j < |fields|
  {
    forall k :: j < k < |fields| ==> fields[k].name != fields[j].name
  }

  /** The property names are the accumulated ones plus the names of the remaining fields. */
  lemma {:induction false} FieldPropertiesKeys(reg: Registry, f: Interface, i: nat, acc: map<string, Schema>)
    requires i <= |f.fields|
    ensures forall n :: n in acc ==> n in FieldProperties(reg, f, i, acc)
    ensures forall j :: i <= j < |f.fields| ==> f.fields[j].name in FieldProperties(reg, f, i, acc)
    ensures forall n :: n in FieldProperties(reg, f, i, acc) ==>
      n in acc || exists j :: i <= j < |f.fields| && f.fields[j].name == n
    decreases |f.fields| - i
  {
    if i < |f.fields| {
      var field := f.fields[i];
      FieldPropertiesKeys(reg, f, i + 1, acc[field.name := ToSchema(reg, field)]);
    }
  }

  /** An accumulated property no remaining field is named after is kept. */
  lemma {:induction false} FieldPropertiesKeep(reg: Registry, f: Interface, i: nat, acc: map<string, Schema>, n: string)
    requires i <= |f.fields|
    requires n in acc
    requires forall k :: i <= k < |f.fields| ==> f.fields[k].name != n
    ensures n in FieldProperties(reg, f, i, acc) && FieldProperties(reg, f, i, acc)[n] == acc[n]
    decreases |f.fields| - i
  {
    if i < |f.fields| {
      FieldPropertiesKeep(reg, f, i + 1, acc[f.fields[i].name := ToSchema(reg, f.fields[i])], n);
    }
  }

  /** Each remaining field that is the last of its name gives its own schema. */
  lemma {:induction false} FieldPropertiesValues(reg: Registry, f: Interface, i: nat, acc: map<string, Schema>)
    requires i <= |f.fields|
    ensures forall j :: i <= j < |f.fields| && LastWithName(f.fields, j) ==>
      f.fields[j].name in FieldProperties(reg, f, i, acc)
      && FieldProperties(reg, f, i, acc)[f.fields[j].name] == ToSchema(reg, f.fields[j])
    decreases |f.fields| - i
  {
    if i < |f.fields| {
      var field := f.fields[i];
      var acc' := acc[field.name := ToSchema(reg, field)];
      FieldPropertiesValues(reg, f, i + 1, acc');
      if LastWithName(f.fields, i) {
        FieldPropertiesKeep(reg, f, i + 1, acc', field.name);
      }
    }
  }

  /**
    Fields become properties: every field of a node without a loader appears
    under its name, holding the schema of the last field with that name, and
    nothing else does.
   */
  lemma ToSchemaProperties(reg: Registry, f: Interface)
    requires f.loader == []
    ensures var s := ToSchema(reg, f);
      && (forall j :: 0 <= j < |f.fields| ==> f.fields[j].name in s.properties)
      && (forall n :: n in s.properties ==> exists j :: 0 <= j < |f.fields| && f.fields[j].name == n)
      && (forall j :: 0 <= j < |f.fields| && LastWithName(f.fields, j) ==>
           s.properties[f.fields[j].name] == ToSchema(reg, f.fields[j]))
  {
    FieldPropertiesKeys(reg, f, 0, map[]);
    FieldPropertiesValues(reg, f, 0, map[]);
  }

  /**
    The first nest link: an array gives type "array" and items holding the
    nested node's fields (typed by the nested node's type when the chain ends
    there); a map gives type "object" and untyped additionalProperties holding
    them.
   */
  lemma NestLevelShape(reg: Registry, f: Interface)
    requires f.nest.Some? && f.isArray != f.isMap
    ensures var s := ToSchema(reg, f); var n := f.nest.value; var props := FieldProperties(reg, n, 0, map[]);
      && (f.isArray ==>
            && s.jsonType == "array" && s.items.Some? && s.items.value.properties == props
            && (n.nest.None? ==> s.items.value.jsonType == GetType(n.typeName)))
      && (f.isMap ==>
            && s.jsonType == "object" && s.additionalProperties.Some? && s.additionalProperties.value.properties == props
            && (n.nest.None? ==> s.additionalProperties.value.jsonType == ""))
  {
    var n := f.nest.value;
    var props := FieldProperties(reg, n, 0, map[]);
    var typed := SetType(NewSchema(), f.typeName);
    var loaded :=
      if |f.loader| > 0 then ApplyShape(typed, LoaderSchema(f), LoaderDepthOf(reg, f), f.loaderKey)
      else typed;
    var withFields := loaded.(properties := FieldProperties(reg, f, 0, loaded.properties));
    var filled := FillNest(reg, withFields, f);
    var s := Describe(reg, f, filled);
    assert ToSchema(reg, f) == s;
    assert s.jsonType == filled.jsonType && s.items == filled.items
      && s.additionalProperties == filled.additionalProperties;
    if f.isArray {
      var items := SetType(NewSchema(), n.typeName).(properties := props);
      assert filled.items == Some(MapLink(reg, items, f, n, props));
      assert MapLink(reg, items, f, n, props) == FillNest(reg, items, n);
    } else {
      assert filled == MapLink(reg, withFields, f, n, props);
    }
  }

  // ------------------------------------------------------- depth of the result

  lemma {:induction false} FillNestDepth(reg: Registry, cs: Schema, outer: Interface)
    requires NoChildren(cs)
    ensures SchemaDepth(FillNest(reg, cs, outer)) == NestLen(outer)
    decreases outer, 1
  {
    match outer.nest
    case None =>
    case Some(nest) =>
      var props := FieldProperties(reg, nest, 0, map[]);
      if outer.isArray {
        var items := SetType(NewSchema(), nest.typeName).(properties := props);
        MapLinkDepth(reg, items, outer, nest, props);
      } else {
        MapLinkDepth(reg, cs, outer, nest, props);
      }
  }

  lemma {:induction false} MapLinkDepth(reg: Registry, cs: Schema, outer: Interface, nest: Interface, props: map<string, Schema>)
    requires outer.nest == Some(nest)
    requires NoChildren(cs)
    ensures SchemaDepth(MapLink(reg, cs, outer, nest, props)) == (if outer.isMap then 1 else 0) + NestLen(nest)
    decreases outer, 0
  {
    if outer.isMap {
      FillNestDepth(reg, NewSchema().(properties := props), nest);
    } else {
      FillNestDepth(reg, cs, nest);
    }
  }

  /** The depth of a compiled node: its nest chain, or what its loader makes of it. */
  lemma ToSchemaDepthOfNode(reg: Registry, r: Interface)
    requires r.loader == [] || r.nest.None?
    ensures SchemaDepth(ToSchema(reg, r))
      == if r.loader == [] then NestLen(r) else ShapeDepth(LoaderDepthOf(reg, r), r.loaderKey)
  {
    var typed := SetType(NewSchema(), r.typeName);
    var loaded :=
      if |r.loader| > 0 then ApplyShape(typed, LoaderSchema(r), LoaderDepthOf(reg, r), r.loaderKey)
      else typed;
    var withFields := loaded.(properties := FieldProperties(reg, r, 0, loaded.properties));
    var filled := FillNest(reg, withFields, r);
    if r.loader == [] {
      FillNestDepth(reg, withFields, r);
    }
    assert SchemaDepth(Describe(reg, r, filled)) == SchemaDepth(filled);
  }

  /**
    apply's counting loop measures, on the schema of a freshly populated
    loader type, exactly the depth LoaderDepth computes from the type.
   */
  lemma {:induction false} ToSchemaDepth(reg: Registry, f: Interface, t: TypeDesc)
    requires Blank(f)
    ensures SchemaDepth(ToSchema(reg, Populated(reg, f, t))) == LoaderDepth(reg, t)
    decreases Size(t)
  {
    var r := Populated(reg, f, t);
    match t
    case Ptr(e) =>
      ToSchemaDepth(reg, f, e);
    case Struct(_, isMatchNot) =>
      var flat := FlatFields(t);
      FlatFieldsBound(t);
      if isMatchNot && |flat| > 0 && flat[0].caddyTag.Some? {
        RootLoaderDecides(reg, f, t);
        ToSchemaDepthOfNode(reg, r);
      } else {
        StructFieldsKept(reg, f, t);
        PopulatedNest(reg, f, t);
        ToSchemaDepthOfNode(reg, r);
      }
    case Slice(_) =>
      PopulatedNest(reg, f, t);
      ToSchemaDepthOfNode(reg, r);
    case Map(_) =>
      PopulatedNest(reg, f, t);
      ToSchemaDepthOfNode(reg, r);
    case Scalar(_) =>
      PopulatedNest(reg, f, t);
      ToSchemaDepthOfNode(reg, r);
  }

  // ------------------------------------------------- moduleLoaderSchemaBuilder

  /** moduleLoaderSchemaBuilder: the loader node and the schema being built for it. */
  class LoaderSchemaBuilder {
    const f: Interface
    var s: Schema

    constructor (f: Interface, s: Schema)
      ensures this.f == f && this.s == s
    {
      this.f := f;
      this.s := s;
    }

    /** build: a map of $refs by short name, or the inline-key form when there is a key. */
    method Build()
      modifies this
      ensures s == LoaderSchema(f)
    {
      if f.loaderKey != "" {
        BuildWithInlineKey();
        return;
      }
      s := NewSchema();
      var i := 0;
      while i < |f.loader|
        invariant 0 <= i <= |f.loader|
        invariant s == RefMapSchema(f.loader[..i])
      {
        var l := f.loader[i];
        var ref := NewSchema();
        ref := SetRef(ref, l);
        assert f.loader[..i + 1][..i] == f.loader[..i];
        s := s.(properties := s.properties[LastSegment(l) := ref]);
        i := i + 1;
      }
      assert f.loader[..i] == f.loader;
    }

    /** buildWithInlineKey */
    method BuildWithInlineKey()
      modifies this
      ensures s == InlineKeySchema(f)
    {
      s := NewSchema();
      var names: seq<string> := [];
      var i := 0;
      while i < |f.loader|
        invariant 0 <= i <= |f.loader|
        invariant s == NewSchema().(allOf := IfThenClauses(f.loader[..i], f.loaderKey))
        invariant names == ShortNames(f.loader[..i])
      {
        var l := f.loader[i];
        var name := LastSegment(l);
        var tmp := NewSchema().(constValue := name);
        names := names + [name];
        var sif := NewSchema().(properties := map[f.loaderKey := tmp]);
        var sthen := SetRef(NewSchema(), l);
        var sub := NewSchema().(ifSchema := Some(sif), thenSchema := Some(sthen));
        s := s.(allOf := s.allOf + [sub]);
        i := i + 1;
        assert IfThenClauses(f.loader[..i], f.loaderKey) == IfThenClauses(f.loader[..i - 1], f.loaderKey) + [sub];
        assert ShortNames(f.loader[..i]) == ShortNames(f.loader[..i - 1]) + [name];
      }
      assert f.loader[..i] == f.loader;
      var tmp := SetType(NewSchema(), "string").(
        enum := names,
        description := KeyDescription(f.name, f.loaderKey, f.moduleId),
        markdownDescription := KeyMarkdownDescription(f.name, f.loaderKey, f.moduleId));
      var inline := NewSchema().(properties := map[f.loaderKey := tmp]);
      s := s.(allOf := s.allOf + [inline]);
      s := s.(required := [f.loaderKey]);
    }

    /**
      apply: populate and compile the loader type, count its levels, and shape
      the parent accordingly. The count is the one LoaderDepth computes.
     */
    method Apply(reg: Registry, parent: Schema) returns (p: Schema)
      requires f.loaderType.Some?
      ensures p == ApplyShape(parent, s, LoaderDepth(reg, f.loaderType.value), f.loaderKey)
    {
      var tmp := Populate(reg, Fresh("", ""), f.loaderType.value);
      var loaderSchema := ToSchema(reg, tmp);
      var nest := 0;
      var cs := loaderSchema;
      while cs.items.Some? || cs.additionalProperties.Some?
        invariant nest + SchemaDepth(cs) == SchemaDepth(loaderSchema)
        decreases cs
      {
        if cs.items.Some? {
          cs := cs.items.value;
        } else if cs.additionalProperties.Some? {
          cs := cs.additionalProperties.value;
        }
        nest := nest + 1;
      }
      ToSchemaDepth(reg, Fresh("", ""), f.loaderType.value);
      if nest == 1 {
        p := SetType(s, "object");
      } else if nest == 2 {
        if f.loaderKey == "" {
          p := SetType(s, "object");
        } else {
          p := SetType(parent, "array");
          p := p.(items := Some(s));
        }
      } else if nest == 3 {
        p := SetType(parent, "array");
        p := p.(items := Some(s));
      } else {
        p := parent;
      }
    }
  }
}
