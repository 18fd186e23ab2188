/**
  The intermediate tree (`Interface`) and how it is filled from a type:
  allFields, isPublic, populate and populateStruct of interface.go.

  Each Go operation that loops or mutates its receiver is a method here,
  proved equal to a specification function; the properties the engine
  promises are proved about those functions.
 */
module InterfaceBuild {
  import opened Wrappers
  import opened GoStrings
  import opened Reflection
  import opened JsonSchema

  /**
    What the engine looks up about registered modules: the names registered
    in each namespace (in a fixed order standing for Go's map order) and the
    godoc package path of a module id.
   */
  datatype Registry = Registry(modules: map<string, seq<string>>, goPkg: string -> string)

  /** A Caddy module structure or one of its properties. */
  datatype Interface = Interface(
    moduleId: string,
    name: string,
    fields: seq<Interface>,
    typeName: string,
    isArray: bool,
    isMap: bool,
    nest: Option<Interface>,
    loader: seq<string>,
    loaderKey: string,
    loaderType: Option<TypeDesc>)

  /** `Interface{Module: m, Name: n}` */
  function Fresh(moduleId: string, name: string): Interface {
    Interface(moduleId, name, [], "", false, false, None, [], "", None)
  }

  /** A node nothing has been populated into yet, as far as the nest chain and loaders go. */
  predicate Blank(f: Interface) {
    f.nest.None? && !f.isArray && !f.isMap && f.loader == []
  }

  // ---------------------------------------------------------------- isPublic

  /** The first byte of a character's UTF-8 encoding. */
  function FirstByte(c: char): (b: int)
    ensures 0 <= b < 0x100
    ensures c as int < 0x80 ==> b == c as int
  {
    var n := c as int;
    if n < 0x80 then n
    else if n < 0x800 then 0xC0 + n / 0x40
    else if n < 0x10000 then 0xE0 + n / 0x1000
    else 0xF0 + n / 0x40000
  }

  /** unicode.IsUpper and unicode.IsLetter of a rune below 0x100. */
  predicate UpperLatin1Letter(b: int) {
    'A' as int <= b <= 'Z' as int || 0xC0 <= b <= 0xD6 || 0xD8 <= b <= 0xDE
  }

  /**
    isPublic: the first BYTE of the name, read as a rune, is an upper-case
    letter.
   */
  predicate IsPublic(fieldName: string) {
    fieldName != "" && UpperLatin1Letter(FirstByte(fieldName[0]))
  }

  /**
    For ASCII names isPublic is "starts with A..Z". A name starting with a
    character in U+0080..U+05BF or U+0600..U+07BF has a lead byte that reads
    as a Latin-1 capital (À..Ö or Ø..Þ), so it counts as public whatever its
    case or script; one starting in U+05C0..U+05FF (lead byte ×), or at
    U+07C0 or above, never does.
   */
  lemma IsPublicCases(fieldName: string)
    requires fieldName != ""
    ensures fieldName[0] as int < 0x80 ==> (IsPublic(fieldName) <==> 'A' <= fieldName[0] <= 'Z')
    ensures 0x80 <= fieldName[0] as int < 0x5C0 ==> IsPublic(fieldName)
    ensures 0x5C0 <= fieldName[0] as int < 0x600 ==> !IsPublic(fieldName)
    ensures 0x600 <= fieldName[0] as int < 0x7C0 ==> IsPublic(fieldName)
    ensures 0x7C0 <= fieldName[0] as int ==> !IsPublic(fieldName)
  {
  }

  // --------------------------------------------------------------- allFields

  /** allFields: the fields of a (pointer to a) struct, embedded structs spliced in place. */
  function FlatFields(t: TypeDesc): seq<StructField>
    decreases Size(t), 1
  {
    var u := Deref(t);
    if u.Struct? then FlatFieldList(u.fields) else []
  }

  function FlatFieldList(fs: seq<StructField>): seq<StructField>
    decreases FieldsSize(fs), 0
  {
    if fs == [] then []
    else
      var last := fs[|fs| - 1];
      FlatFieldList(fs[..|fs| - 1]) + (if last.anonymous then FlatFields(last.typ) else [last])
  }

  /** Every field of the list has a type smaller than the bound. */
  predicate Below(fs: seq<StructField>, bound: int) {
    forall k :: 0 <= k < |fs| ==> Size(fs[k].typ) < bound
  }

  /** allFields never returns an embedded field, and each field it returns is smaller than the type. */
  lemma {:induction false} FlatFieldsBound(t: TypeDesc)
    ensures Below(FlatFields(t), Size(t))
    ensures forall ff :: ff in FlatFields(t) ==> !ff.anonymous
    decreases Size(t), 1
  {
    var u := Deref(t);
    if u.Struct? {
      FlatFieldListBound(u.fields);
    }
  }

  lemma {:induction false} FlatFieldListBound(fs: seq<StructField>)
    ensures Below(FlatFieldList(fs), FieldsSize(fs))
    ensures forall ff :: ff in FlatFieldList(fs) ==> !ff.anonymous
    decreases FieldsSize(fs), 0
  {
    if fs != [] {
      var last := fs[|fs| - 1];
      FlatFieldListBound(fs[..|fs| - 1]);
      if last.anonymous {
        FlatFieldsBound(last.typ);
      }
    }
  }

  lemma {:induction false} FlatFieldListSplice(a: seq<StructField>, b: seq<StructField>)
    ensures FlatFieldList(a + b) == FlatFieldList(a) + FlatFieldList(b)
    decreases |b|
  {
    if b == [] {
      assert a + b == a;
    } else {
      var c := a + b;
      var front := b[..|b| - 1];
      var last := b[|b| - 1];
      var step := if last.anonymous then FlatFields(last.typ) else [last];
      assert c[..|c| - 1] == a + front;
      assert c[|c| - 1] == last;
      FlatFieldListSplice(a, front);
      calc {
        FlatFieldList(c);
        FlatFieldList(a + front) + step;
        (FlatFieldList(a) + FlatFieldList(front)) + step;
        FlatFieldList(a) + (FlatFieldList(front) + step);
        FlatFieldList(a) + FlatFieldList(b);
      }
    }
  }

  /**
    Field order: an anonymous field is replaced, at its own position, by the
    flattened fields of its type; the fields around it keep their order.
   */
  lemma AllFieldsEmbedding(before: seq<StructField>, embedded: StructField, after: seq<StructField>, isMatchNot: bool)
    requires embedded.anonymous
    ensures FlatFields(Struct(before + [embedded] + after, isMatchNot))
      == FlatFieldList(before) + FlatFields(embedded.typ) + FlatFieldList(after)
  {
    FlatFieldListSplice(before + [embedded], after);
    FlatFieldListSplice(before, [embedded]);
    assert [embedded][..0] == [];
  }

  /** A struct without embedded fields is its own field list. */
  lemma {:induction false} AllFieldsPlain(fs: seq<StructField>)
    requires forall ff :: ff in fs ==> !ff.anonymous
    ensures FlatFieldList(fs) == fs
    decreases |fs|
  {
    if fs != [] {
      assert fs == fs[..|fs| - 1] + [fs[|fs| - 1]];
      AllFieldsPlain(fs[..|fs| - 1]);
    }
  }

  /** Exactly one pointer level is looked through; anything else that is not a struct has no fields. */
  lemma AllFieldsDeref(fs: seq<StructField>, isMatchNot: bool, t: TypeDesc)
    ensures FlatFields(Ptr(Struct(fs, isMatchNot))) == FlatFields(Struct(fs, isMatchNot))
    ensures !Deref(t).Struct? ==> FlatFields(t) == []
    ensures FlatFields(Ptr(Ptr(t))) == []
  {
  }

  /** allFields: a loop over the struct's fields that appends, recursing into embedded fields. */
  method AllFields(t: TypeDesc) returns (fields: seq<StructField>)
    ensures fields == FlatFields(t)
    decreases Size(t)
  {
    var u := Deref(t);
    if !u.Struct? {
      return [];
    }
    fields := [];
    var i := 0;
    while i < |u.fields|
      invariant 0 <= i <= |u.fields|
      invariant fields == FlatFieldList(u.fields[..i])
    {
      var f := u.fields[i];
      assert u.fields[..i + 1][..i] == u.fields[..i];
      if f.anonymous {
        assert Size(f.typ) < FieldsSize(u.fields);
        var embedded := AllFields(f.typ);
        fields := fields + embedded;
      } else {
        fields := fields + [f];
      }
      i := i + 1;
    }
    assert u.fields[..i] == u.fields;
  }

  // ------------------------------------------------------------- caddy tags

  /** The namespace of a caddy tag: its first token without "namespace=". */
  function TagNamespace(tag: CaddyTag): string {
    FieldsNonEmpty(tag);
    TrimPrefix(Fields(tag)[0], "namespace=")
  }

  /** The inline key of a caddy tag: its second token without "inline_key=", or "". */
  function TagInlineKey(tag: CaddyTag): string {
    var split := Fields(tag);
    if |split| > 1 then TrimPrefix(split[1], "inline_key=") else ""
  }

  lemma TagWordsNoSpace()
    ensures NoSpace("namespace=") && NoSpace("inline_key=")
  {
  }

  /** A tag written as the engine's callers write it is read back as written. */
  lemma CaddyTagRoundTrip(namespace: string, key: string)
    requires NoSpace(namespace) && NoSpace(key)
    ensures var tag := "namespace=" + namespace;
      HasToken(tag) && TagNamespace(tag) == namespace && TagInlineKey(tag) == ""
    ensures var tag := "namespace=" + namespace + " inline_key=" + key;
      HasToken(tag) && TagNamespace(tag) == namespace && TagInlineKey(tag) == key
  {
    var first := "namespace=" + namespace;
    var second := "inline_key=" + key;
    TagWordsNoSpace();
    NoSpaceConcat("namespace=", namespace);
    NoSpaceConcat("inline_key=", key);
    FieldsOfTwoTokens(first, second);
    FieldsNonEmpty(first);
    FieldsNonEmpty(first + " " + second);
    assert first + " " + second == "namespace=" + namespace + " inline_key=" + key;
  }

  // ------------------------------------------------------------ module loaders

  /** A module's full id: "namespace.name", or just the name in the root namespace. */
  function ModulePath(namespace: string, name: string): string {
    if namespace != "" then namespace + "." + name else name
  }

  function RegisteredModules(reg: Registry, namespace: string): seq<string> {
    if namespace in reg.modules then reg.modules[namespace] else []
  }

  function ModulePaths(namespace: string, names: seq<string>): (r: seq<string>)
    ensures |r| == |names|
  {
    seq(|names|, k requires 0 <= k < |names| => ModulePath(namespace, names[k]))
  }

  /** The loop that lists the modules of a namespace. */
  method LoaderPaths(reg: Registry, namespace: string) returns (paths: seq<string>)
    ensures |paths| == |RegisteredModules(reg, namespace)|
    ensures forall k :: 0 <= k < |paths| ==> paths[k] == ModulePath(namespace, RegisteredModules(reg, namespace)[k])
  {
    var names := RegisteredModules(reg, namespace);
    paths := [];
    var i := 0;
    while i < |names|
      invariant 0 <= i <= |names|
      invariant paths == ModulePaths(namespace, names[..i])
    {
      var modulePath := names[i];
      if namespace != "" {
        modulePath := namespace + "." + names[i];
      }
      paths := paths + [modulePath];
      i := i + 1;
    }
  }

  /**
    The node a caddy-tagged field becomes: its module is the tag's namespace,
    its key the tag's inline key, its loader type the field's type, and its
    loader one path per module registered in the namespace, in order.
   */
  function LoaderField(reg: Registry, name: string, tag: CaddyTag, typ: TypeDesc): (r: Interface)
    ensures r.moduleId == TagNamespace(tag) && r.name == name
    ensures r.loaderKey == TagInlineKey(tag) && r.loaderType == Some(typ)
    ensures |r.loader| == |RegisteredModules(reg, r.moduleId)|
    ensures forall k :: 0 <= k < |r.loader| ==> r.loader[k] == ModulePath(r.moduleId, RegisteredModules(reg, r.moduleId)[k])
    ensures r.fields == [] && r.typeName == "" && r.nest.None? && !r.isArray && !r.isMap
  {
    var namespace := TagNamespace(tag);
    Fresh(namespace, name).(
      loaderKey := TagInlineKey(tag),
      loaderType := Some(typ),
      loader := ModulePaths(namespace, RegisteredModules(reg, namespace)))
  }

  /** The module-loader block of populateStruct's field loop. */
  method LoaderFieldOf(reg: Registry, name: string, tag: CaddyTag, typ: TypeDesc) returns (field: Interface)
    ensures field == LoaderField(reg, name, tag, typ)
  {
    var namespace := TagNamespace(tag);
    field := Fresh(namespace, name).(loaderKey := TagInlineKey(tag), loaderType := Some(typ));
    var paths := LoaderPaths(reg, namespace);
    field := field.(loader := paths);
  }

  // ------------------------------------------------------ populate (specification)

  /** The property name of a field: its json tag without ",omitempty" ("" when untagged). */
  function JsonName(ff: StructField): string {
    TrimSuffix(if ff.jsonTag.Some? then ff.jsonTag.value else "", ",omitempty")
  }

  /** A field without a json tag, or tagged "-", is skipped unless root-loader mode is on. */
  predicate Skipped(ff: StructField, rootLoader: bool) {
    (ff.jsonTag.None? || ff.jsonTag == Some("-")) && !rootLoader
  }

  /** populate: what `f.populate(zero value of t)` leaves in f. */
  function Populated(reg: Registry, f: Interface, t: TypeDesc): (r: Interface)
    ensures r.moduleId == f.moduleId && r.name == f.name
    ensures r.fields == f.fields || t.Struct? || t.Ptr?
    decreases Size(t), 3
  {
    match t
    case Ptr(e) => Populated(reg, f, e)
    case Slice(e) => f.(isArray := true, nest := Some(Populated(reg, Fresh(f.moduleId, f.name + ".nest"), e)))
    case Map(e) => f.(isMap := true, nest := Some(Populated(reg, Fresh(f.moduleId, f.name + ".nest"), e)))
    case Struct(_, _) => StructPopulated(reg, f, t)
    case Scalar(_) => StructPopulated(reg, f, t)
  }

  /** populateStruct: a non-struct records its kind name; a struct has its fields scanned. */
  function StructPopulated(reg: Registry, f: Interface, t: TypeDesc): (r: Interface)
    ensures r.moduleId == f.moduleId && r.name == f.name
    ensures r.isArray == f.isArray && r.isMap == f.isMap && r.nest == f.nest
    ensures !Deref(t).Struct? ==> r == f.(typeName := KindName(Deref(t)))
    decreases Size(t), 2
  {
    var u := Deref(t);
    if !u.Struct? then f.(typeName := KindName(u))
    else
      FlatFieldsBound(u);
      ScanFields(reg, f, FlatFields(u), 0, u.isMatchNot, [], Size(u))
  }

  /**
    The field loop of populateStruct from field i on, with the root-loader
    flag and the public fields seen so far.
   */
  function ScanFields(reg: Registry, f: Interface, fs: seq<StructField>, i: nat, rootLoader: bool,
                      publicFields: seq<StructField>, ghost bound: nat): (r: Interface)
    requires i <= |fs|
    requires Below(fs, bound)
    requires Below(publicFields, bound)
    ensures r.moduleId == f.moduleId && r.name == f.name
    ensures r.isArray == f.isArray && r.isMap == f.isMap && r.nest == f.nest
    ensures !rootLoader ==> r.loader == f.loader && r.loaderKey == f.loaderKey && r.loaderType == f.loaderType
    decreases bound, 1, |fs| - i
  {
    if i == |fs| then Completed(reg, f, publicFields, bound)
    else
      var ff := fs[i];
      var publics := if IsPublic(ff.name) then publicFields + [ff] else publicFields;
      var root := rootLoader && ff.caddyTag.Some?;
      if Skipped(ff, root) then ScanFields(reg, f, fs, i + 1, root, publics, bound)
      else match ff.caddyTag
        case None =>
          var field := Populated(reg, Fresh(f.moduleId, JsonName(ff)), ff.typ);
          ScanFields(reg, f.(fields := f.fields + [field]), fs, i + 1, root, publics, bound)
        case Some(tag) =>
          var field := LoaderField(reg, JsonName(ff), tag, ff.typ);
          if root then
            f.(fields := [], loader := field.loader, loaderKey := field.loaderKey, loaderType := field.loaderType)
          else ScanFields(reg, f.(fields := f.fields + [field]), fs, i + 1, root, publics, bound)
  }

  /**
    The end of populateStruct: the struct is an object, unless nothing was
    kept and it has exactly one public field, whose populated type it takes.
   */
  function Completed(reg: Registry, f: Interface, publicFields: seq<StructField>, ghost bound: nat): (r: Interface)
    requires Below(publicFields, bound)
    ensures r == f.(typeName := r.typeName)
    decreases bound, 0
  {
    if |f.fields| == 0 && |publicFields| == 1 then
      f.(typeName := Populated(reg, Fresh("", ""), publicFields[0].typ).typeName)
    else f.(typeName := GetType("object"))
  }

  // ------------------------------------------------------ populate (the methods)

  /** populate, as a method over the node it fills. */
  method Populate(reg: Registry, f: Interface, t: TypeDesc) returns (g: Interface)
    ensures g == Populated(reg, f, t)
    decreases Size(t), 3
  {
    match t {
      case Ptr(e) =>
        g := Populate(reg, f, e);
      case Slice(e) =>
        var nest := Populate(reg, Fresh(f.moduleId, f.name + ".nest"), e);
        g := f.(isArray := true, nest := Some(nest));
      case Map(e) =>
        var nest := Populate(reg, Fresh(f.moduleId, f.name + ".nest"), e);
        g := f.(isMap := true, nest := Some(nest));
      case Struct(_, _) =>
        g := PopulateStruct(reg, f, t);
      case Scalar(_) =>
        g := PopulateStruct(reg, f, t);
    }
  }

  /** populateStruct, with its field loop and the early return of root-loader mode. */
  method PopulateStruct(reg: Registry, f: Interface, t: TypeDesc) returns (g: Interface)
    ensures g == StructPopulated(reg, f, t)
    decreases Size(t), 2
  {
    var u := Deref(t);
    if !u.Struct? {
      return f.(typeName := KindName(u));
    }
    var rootLoader := u.isMatchNot;
    var publicFields: seq<StructField> := [];
    var all := AllFields(u);
    FlatFieldsBound(u);
    ghost var bound := Size(u);
    ghost var spec := ScanFields(reg, f, all, 0, rootLoader, [], bound);
    assert spec == StructPopulated(reg, f, t);
    g := f;
    var i := 0;
    while i < |all|
      invariant 0 <= i <= |all|
      invariant Below(publicFields, bound)
      invariant ScanFields(reg, g, all, i, rootLoader, publicFields, bound) == spec
    {
      var ff := all[i];
      assert Size(ff.typ) < bound;
      ghost var g0, root0, publics0 := g, rootLoader, publicFields;
      var done;
      g, rootLoader, publicFields, done := ScanField(reg, g, ff, rootLoader, publicFields);
      if done {
        ScanRootReturn(reg, g0, all, i, publics0, bound);
        return;
      }
      ScanAdvance(reg, all, i, bound, g0, root0, publics0, g, rootLoader, publicFields);
      i := i + 1;
    }
    g := Complete(reg, g, publicFields, bound);
  }

  /** The end of populateStruct, after the field loop. */
  method Complete(reg: Registry, f: Interface, publicFields: seq<StructField>, ghost bound: nat) returns (g: Interface)
    requires Below(publicFields, bound)
    ensures g == Completed(reg, f, publicFields, bound)
    decreases bound, 1
  {
    if |f.fields| == 0 && |publicFields| == 1 {
      var tmp := Populate(reg, Fresh("", ""), publicFields[0].typ);
      g := f.(typeName := tmp.typeName);
    } else {
      g := f.(typeName := GetType("object"));
    }
  }

  /**
    One pass of populateStruct's field loop. `done` is its early return in
    root-loader mode, where the node becomes the field's loader; otherwise the
    mode is over and the field contributes what it contributes outside it.
   */
  method ScanField(reg: Registry, g: Interface, ff: StructField, rootLoader: bool, publicFields: seq<StructField>)
    returns (g': Interface, rootLoader': bool, publicFields': seq<StructField>, done: bool)
    ensures publicFields' == publicFields + PublicOne(ff)
    ensures done <==> rootLoader && ff.caddyTag.Some?
    ensures done ==>
      var field := LoaderField(reg, JsonName(ff), ff.caddyTag.value, ff.typ);
      g' == g.(fields := [], loader := field.loader, loaderKey := field.loaderKey, loaderType := field.loaderType)
    ensures !done ==> !rootLoader' && g' == g.(fields := g.fields + KeptOne(reg, g.moduleId, ff))
    decreases Size(ff.typ), 4
  {
    g', rootLoader', publicFields', done := g, rootLoader, publicFields, false;
    if IsPublic(ff.name) {
      publicFields' := publicFields' + [ff];
    }
    if ff.caddyTag.None? {
      rootLoader' := false;
    }
    if Skipped(ff, rootLoader') {
      return;
    }
    var name := JsonName(ff);
    match ff.caddyTag {
      case None =>
        var field := Populate(reg, Fresh(g.moduleId, name), ff.typ);
        g' := g'.(fields := g'.fields + [field]);
      case Some(tag) =>
        var field := LoaderFieldOf(reg, name, tag, ff.typ);
        if rootLoader' {
          g' := g'.(fields := [], loader := field.loader, loaderKey := field.loaderKey, loaderType := field.loaderType);
          done := true;
          return;
        }
        g' := g'.(fields := g'.fields + [field]);
    }
  }

  // ------------------------------------------------------ what populate promises

  /** The node one field contributes when root-loader mode is off: none, a populated node or a loader. */
  function KeptOne(reg: Registry, moduleId: string, ff: StructField): (r: seq<Interface>)
    ensures |r| <= 1
  {
    if Skipped(ff, false) then []
    else match ff.caddyTag
      case None => [Populated(reg, Fresh(moduleId, JsonName(ff)), ff.typ)]
      case Some(tag) => [LoaderField(reg, JsonName(ff), tag, ff.typ)]
  }

  /** The nodes a field list contributes when root-loader mode is off. */
  function KeptFields(reg: Registry, moduleId: string, fs: seq<StructField>): (r: seq<Interface>)
    ensures |r| <= |fs|
  {
    if fs == [] then [] else KeptOne(reg, moduleId, fs[0]) + KeptFields(reg, moduleId, fs[1..])
  }

  /** The public fields of a list, in order. */
  function PublicOne(ff: StructField): seq<StructField> {
    if IsPublic(ff.name) then [ff] else []
  }

  function PublicFields(fs: seq<StructField>): (r: seq<StructField>)
    ensures |r| <= |fs|
  {
    if fs == [] then [] else PublicOne(fs[0]) + PublicFields(fs[1..])
  }

  /** The public fields are exactly the fields whose name isPublic accepts. */
  lemma {:induction false} PublicFieldsMembers(fs: seq<StructField>)
    ensures forall ff :: ff in PublicFields(fs) <==> ff in fs && IsPublic(ff.name)
  {
    if fs != [] {
      assert fs == [fs[0]] + fs[1..];
      PublicFieldsMembers(fs[1..]);
    }
  }

  /** One step of the scan outside root-loader mode. */
  lemma ScanStep(reg: Registry, f: Interface, fs: seq<StructField>, i: nat, publicFields: seq<StructField>, bound: nat)
    requires i < |fs|
    requires Below(fs, bound)
    requires Below(publicFields, bound)
    ensures Below(publicFields + PublicOne(fs[i]), bound)
    ensures ScanFields(reg, f, fs, i, false, publicFields, bound)
      == ScanFields(reg, f.(fields := f.fields + KeptOne(reg, f.moduleId, fs[i])), fs, i + 1, false,
                    publicFields + PublicOne(fs[i]), bound)
  {
    var ff := fs[i];
    if !IsPublic(ff.name) {
      assert publicFields + PublicOne(ff) == publicFields;
    }
    if Skipped(ff, false) {
      assert f.(fields := f.fields + KeptOne(reg, f.moduleId, ff)) == f;
    }
  }

  /** A pass of the field loop that does not return leaves the rest of the scan unchanged. */
  lemma ScanAdvance(reg: Registry, fs: seq<StructField>, i: nat, bound: nat,
                    f: Interface, rootLoader: bool, publicFields: seq<StructField>,
                    f': Interface, rootLoader': bool, publicFields': seq<StructField>)
    requires i < |fs| && Below(fs, bound) && Below(publicFields, bound)
    requires !(rootLoader && fs[i].caddyTag.Some?)
    requires publicFields' == publicFields + PublicOne(fs[i])
    requires !rootLoader' && f' == f.(fields := f.fields + KeptOne(reg, f.moduleId, fs[i]))
    ensures Below(publicFields', bound)
    ensures ScanFields(reg, f, fs, i, rootLoader, publicFields, bound)
      == ScanFields(reg, f', fs, i + 1, rootLoader', publicFields', bound)
  {
    if rootLoader {
      ScanRootOff(reg, f, fs, i, publicFields, bound);
    }
    ScanStep(reg, f, fs, i, publicFields, bound);
  }

  /** Without root-loader mode the scan keeps exactly the tagged fields and collects the public ones. */
  lemma {:induction false} ScanNonRoot(reg: Registry, f: Interface, fs: seq<StructField>, i: nat,
                                        publicFields: seq<StructField>, bound: nat)
    requires i <= |fs|
    requires Below(fs, bound)
    requires Below(publicFields, bound)
    ensures Below(publicFields + PublicFields(fs[i..]), bound)
    ensures ScanFields(reg, f, fs, i, false, publicFields, bound)
      == Completed(reg, f.(fields := f.fields + KeptFields(reg, f.moduleId, fs[i..])),
                   publicFields + PublicFields(fs[i..]), bound)
    decreases |fs| - i
  {
    if i == |fs| {
      assert fs[i..] == [];
      assert f.fields + [] == f.fields;
      assert publicFields + [] == publicFields;
    } else {
      var ff := fs[i];
      assert fs[i..][0] == ff && fs[i..][1..] == fs[i + 1..];
      var kept := KeptOne(reg, f.moduleId, ff);
      var publics := publicFields + PublicOne(ff);
      var g := f.(fields := f.fields + kept);
      ScanStep(reg, f, fs, i, publicFields, bound);
      ScanNonRoot(reg, g, fs, i + 1, publics, bound);
      AppendAssoc(f.fields, kept, KeptFields(reg, f.moduleId, fs[i + 1..]));
      AppendAssoc(publicFields, PublicOne(ff), PublicFields(fs[i + 1..]));
    }
  }

  lemma AppendAssoc<T>(a: seq<T>, b: seq<T>, c: seq<T>)
    ensures (a + b) + c == a + (b + c)
  {
  }

  /** In root-loader mode a field without a caddy tag switches the mode off before anything else. */
  lemma ScanRootOff(reg: Registry, f: Interface, fs: seq<StructField>, i: nat, publicFields: seq<StructField>, bound: nat)
    requires i < |fs| && fs[i].caddyTag.None?
    requires Below(fs, bound)
    requires Below(publicFields, bound)
    ensures ScanFields(reg, f, fs, i, true, publicFields, bound) == ScanFields(reg, f, fs, i, false, publicFields, bound)
  {
  }

  /** In root-loader mode a caddy-tagged field ends the scan: the node becomes that field's loader. */
  lemma ScanRootReturn(reg: Registry, f: Interface, fs: seq<StructField>, i: nat, publicFields: seq<StructField>, bound: nat)
    requires i < |fs| && fs[i].caddyTag.Some?
    requires Below(fs, bound)
    requires Below(publicFields, bound)
    ensures var ff := fs[i]; var field := LoaderField(reg, JsonName(ff), ff.caddyTag.value, ff.typ);
      ScanFields(reg, f, fs, i, true, publicFields, bound)
        == f.(fields := [], loader := field.loader, loaderKey := field.loaderKey, loaderType := field.loaderType)
  {
  }

  /** A first field without a caddy tag switches root-loader mode off for good. */
  lemma ScanRootCancelled(reg: Registry, f: Interface, fs: seq<StructField>, bound: nat)
    requires fs == [] || fs[0].caddyTag.None?
    requires Below(fs, bound)
    ensures ScanFields(reg, f, fs, 0, true, [], bound) == ScanFields(reg, f, fs, 0, false, [], bound)
  {
  }

  /**
    Root loader: for the flagged struct the first flattened field decides.
    With a caddy tag the node takes that field's loader and keeps no field;
    otherwise the struct is populated as an ordinary one.
   */
  lemma RootLoaderDecides(reg: Registry, f: Interface, t: TypeDesc)
    requires t.Struct? && t.isMatchNot
    ensures var flat := FlatFields(t);
      |flat| > 0 && flat[0].caddyTag.Some? ==>
        var field := LoaderField(reg, JsonName(flat[0]), flat[0].caddyTag.value, flat[0].typ);
        StructPopulated(reg, f, t)
          == f.(fields := [], loader := field.loader, loaderKey := field.loaderKey, loaderType := field.loaderType)
    ensures var flat := FlatFields(t);
      |flat| == 0 || flat[0].caddyTag.None? ==>
        StructPopulated(reg, f, t) == StructPopulated(reg, f, t.(isMatchNot := false))
  {
    var flat := FlatFields(t);
    FlatFieldsBound(t);
    if |flat| == 0 || flat[0].caddyTag.None? {
      ScanRootCancelled(reg, f, flat, Size(t));
    } else {
      ScanRootReturn(reg, f, flat, 0, [], Size(t));
    }
  }

  /**
    Field inclusion: outside root-loader mode a struct keeps, in flattened
    order, each field with a json tag other than "-", named by the tag without
    ",omitempty"; it is an object unless nothing was kept and it has exactly
    one public field, whose populated type it then takes.
   */
  lemma StructFieldsKept(reg: Registry, f: Interface, t: TypeDesc)
    requires Deref(t).Struct?
    requires var flat := FlatFields(t); !Deref(t).isMatchNot || flat == [] || flat[0].caddyTag.None?
    ensures var flat := FlatFields(t); var publics := PublicFields(flat); var r := StructPopulated(reg, f, t);
      && r.fields == f.fields + KeptFields(reg, f.moduleId, flat)
      && r.loader == f.loader && r.loaderKey == f.loaderKey && r.loaderType == f.loaderType
      && r.typeName == (if |r.fields| == 0 && |publics| == 1
                        then Populated(reg, Fresh("", ""), publics[0].typ).typeName
                        else "object")
  {
    var u := Deref(t);
    var flat := FlatFields(t);
    assert FlatFields(u) == flat;
    FlatFieldsBound(u);
    if u.isMatchNot {
      ScanRootCancelled(reg, f, flat, Size(u));
    }
    ScanNonRoot(reg, f, flat, 0, [], Size(u));
    assert flat[0..] == flat;
    assert [] + PublicFields(flat) == PublicFields(flat);
  }

  /** A non-struct (after one dereference) records its kind name and nothing else. */
  lemma PopulatedScalar(reg: Registry, f: Interface, kind: string)
    ensures Populated(reg, f, Scalar(kind)) == f.(typeName := kind)
    ensures Populated(reg, f, Ptr(Scalar(kind))) == f.(typeName := kind)
  {
  }

  // ------------------------------------------------------------- nest chains

  /** The number of slice and map levels of a type, looking through pointers. */
  function NestDepth(t: TypeDesc): nat {
    match t
    case Ptr(e) => NestDepth(e)
    case Slice(e) => 1 + NestDepth(e)
    case Map(e) => 1 + NestDepth(e)
    case Struct(_, _) => 0
    case Scalar(_) => 0
  }

  /** The number of array and map links along a node's nest chain. */
  function NestLen(f: Interface): nat {
    match f.nest
    case None => 0
    case Some(n) => (if f.isArray then 1 else 0) + (if f.isMap then 1 else 0) + NestLen(n)
  }

  /** Every link of the chain is exactly one of array or map, and the last has no flag. */
  predicate ChainOk(f: Interface) {
    match f.nest
    case None => !f.isArray && !f.isMap
    case Some(n) => f.isArray != f.isMap && ChainOk(n)
  }

  /**
    Slices and maps become a nest chain: one link per slice or map level of
    the type, each link an array or a map, each nested node named after its
    parent with ".nest" and in the same module.
   */
  lemma {:induction false} PopulatedNest(reg: Registry, f: Interface, t: TypeDesc)
    requires Blank(f)
    ensures var r := Populated(reg, f, t);
      && ChainOk(r) && NestLen(r) == NestDepth(t)
      && (r.nest.Some? ==> r.nest.value.moduleId == f.moduleId && r.nest.value.name == f.name + ".nest")
    decreases Size(t)
  {
    match t
    case Ptr(e) => PopulatedNest(reg, f, e);
    case Slice(e) => PopulatedNest(reg, Fresh(f.moduleId, f.name + ".nest"), e);
    case Map(e) => PopulatedNest(reg, Fresh(f.moduleId, f.name + ".nest"), e);
    case Struct(_, _) =>
    case Scalar(_) =>
  }
}
