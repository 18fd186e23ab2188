# caddy-json-schema, modelled in Dafny

caddy-json-schema builds a JSON Schema for Caddy's JSON configuration. It
walks the Go types of Caddy's modules into an intermediate tree
(`Interface`), compiles that tree into schema nodes, expands module-loader
fields into `$ref`s to every module of their namespace, and registers the
generated schema in a VS Code settings object.

This project models that engine and proves what it promises:

- `reflection.dfy` (`Reflection`): the part of Go's run-time type information
  the engine reads: pointer, slice, map, struct and scalar kinds, and struct
  fields with their `json` and `caddy` tags.
- `schema.dfy` (`JsonSchema`): the schema node and its leaf helpers: the type
  table, `$ref`, descriptions, markdown and godoc links.
- `types.dfy` (`LegacyTypes`): the older copy of the node and its type table.
- `interface_build.dfy` (`InterfaceBuild`): `isPublic`, `allFields`,
  `populate` and `populateStruct`. `isPublic` has no loop and is a predicate;
  the other three are methods with the Go code's loops and recursion, each
  proved equal to a specification function. The field-inclusion, root-loader,
  passthrough, field-order and nest-chain rules are proved about those
  functions.
- `interface_schema.dfy` (`InterfaceSchema`): `toSchema` and the
  module-loader builder (`build`, `buildWithInlineKey`, `apply`) as a class.
  The central result is `ToSchemaDepth`: the nesting depth that `apply`
  counts on the compiled loader schema equals a depth computed from the
  loader's type alone.
- `json_value.dfy` (`JsonValue`): the values `encoding/json` produces, plus
  the named map type `M`, and the effect of writing a value to disk and
  reading it back.
- `schema_writer.dfy` (`SchemaWriter`): `setJSONConfig`, `setYAMLConfig` and
  `setVsConfig` as methods of a writer class, each proved equal to a
  specification function.
- `filewriter.dfy` (`FileWriter`): the older writer, which appends without
  looking for an earlier registration.
- `go_strings.dfy` (`GoStrings`): the few `strings` and `unicode` functions
  the engine relies on.
- `wrappers.dfy` (`Wrappers`): `Option` and `Result`.

The registered modules and the godoc package of a module come from outside
the engine. They are a `Registry` value: each namespace maps to its module
names in a fixed order, and `goPkg` is an uninterpreted function.

Where the code differs from the engine's documented design, the model
follows the code:

- The nested node of a slice or map is named after its parent plus `.nest`.
- A map level gets an untyped `additionalProperties` holding only the nested
  node's properties. It is not the full schema of the element type.
- The single-public-field passthrough copies only the type name of that field.
  The field's properties are not copied.
- Root-loader status ends at the first flattened field without a `caddy` tag,
  whatever the fields after it hold. In effect, the first field decides
  (`RootLoaderDecides`).
- `isPublic` reads the first byte of the name's UTF-8 encoding as a rune. A
  name that begins with any character in U+0080..U+05BF or U+0600..U+07BF
  counts as public, lower-case letters and scripts without case (Arabic,
  Syriac, Thaana) included. `IsPublicCases` states this.

## Model

| member | source | states |
|---|---|---|
| GoStrings.Fields | interface.go:192 | strings.Fields: every token is non-empty and holds no white space |
| GoStrings.FieldsNonEmpty | interface.go:192-193 | the split has a first token exactly when the tag is not all white space, so `split[0]` exists exactly for a caddy tag that is not blank |
| GoStrings.FieldsOfSingle | interface.go:192 | a lone token is split into just itself |
| GoStrings.FieldsOfTwoTokens | interface.go:191-198 | two words joined by one space split into exactly those two words, so `split[0]` and `split[1]` are what the tag's writer put there |
| GoStrings.TrimPrefix | interface.go:194 | with the prefix present, prefix + result is the input; without it, the input is unchanged |
| GoStrings.TrimSuffix | interface.go:180 | with the suffix present, result + suffix is the input; without it, the input is unchanged |
| GoStrings.LastIndex | schema.go:61 | the result is -1 or an index holding the character, and no later index holds it |
| Reflection.Deref | interface.go:149-151 | only a pointer is looked through, one level, and the result is never larger |
| Reflection.KindName | interface.go:152-154 | reflect.Kind.String(); its use is stated by InterfaceBuild.StructPopulated and PopulatedScalar, which record it for a non-struct |
| JsonSchema.NewSchema | schema.go:14-19 | empty definitions and properties maps, and every other field zero: strings empty, children absent, lists empty, `additionalItems` false, and the three documentation fields empty |
| JsonSchema.GetType | schema.go:96-112 | every answer is one of the JSON Schema type names or "" (no type) |
| JsonSchema.GetTypeTable | schema.go:97-111 | bool → boolean; every integer kind → number; slice and array → array; string → string; any and "" → ""; anything else → object |
| JsonSchema.GetTypeFixedPoints | schema.go:96-112 | getType is not idempotent: applying it twice changes the result exactly when the first result is "boolean" or "number" |
| JsonSchema.SetType | schema.go:114-116 | Type becomes getType(typ) and no other field changes |
| JsonSchema.SetRef | schema.go:118-120 | Ref becomes "#/definitions/" + id and no other field changes |
| JsonSchema.GodocAnchor | schema.go:61-63 | replacing the last dot keeps the length |
| JsonSchema.GodocAnchorRoundTrip | schema.go:60-63 | only the last dot becomes "#": putting the dot back gives the path again, and no dot follows the "#" |
| JsonSchema.GodocLink | schema.go:55-65 | empty exactly for the empty package; otherwise the pkg.go.dev prefix followed by the anchored path |
| JsonSchema.MarkdownLink | schema.go:67-72 | empty exactly for the empty link; otherwise it is "[" title "](" link ")" |
| JsonSchema.Description | schema.go:74-83 | without a module it is exactly "name: type"; with one it starts with that; an empty type reads "any" |
| JsonSchema.TypeLabel | schema.go:75-77 | the shown type is never empty: a non-empty type is shown as itself, and DescriptionUntyped shows an empty one as "any" |
| JsonSchema.MarkdownDescription | schema.go:85-94 | without a module it is exactly "name: `type`"; with one it starts with that; an empty type reads "any" |
| JsonSchema.DescriptionModuleLine | schema.go:74-94 | a known module only appends the module line ("\nModule: m", or its code-span form) to the module-less description |
| JsonSchema.DescriptionUntyped | schema.go:74-94 | an empty field type is rendered exactly as the type "any" in both descriptions |
| LegacyTypes.NewSchema | types.go:70-75 | empty definitions and properties maps, and every other field zero: strings empty, children absent, lists empty and `additionalItems` false |
| LegacyTypes.GetType | types.go:43-57 | every answer is one of five JSON Schema type names; there is no empty answer |
| LegacyTypes.GetTypeTable | types.go:44-56 | bool → boolean; integer kinds → number; string → string; slice and array → array; everything else, "" and "any" included, → object |
| LegacyTypes.GetTypeAgainstCurrent | types.go:43-57 | the older table agrees with the current one exactly on kind names other than "" and "any" |
| LegacyTypes.SetType | types.go:59-61 | Type becomes getType(typ) and no other field changes |
| LegacyTypes.SetRef | types.go:63-65 | Ref becomes "#/definitions/" + id and no other field changes |
| InterfaceBuild.FirstByte | interface.go:243 | the rune is the first byte of the UTF-8 encoding; for ASCII it is the character itself |
| InterfaceBuild.IsPublic | interface.go:238-245 | isPublic; what it accepts is stated by IsPublicCases |
| InterfaceBuild.IsPublicCases | interface.go:238-245 | an ASCII name is public iff it starts with A..Z; a first character in U+0080..U+05BF or U+0600..U+07BF always counts as public; U+05C0..U+05FF and U+07C0 upward never do |
| InterfaceBuild.FlatFieldsBound | interface.go:248-271 | allFields returns no embedded field, and every field it returns has a smaller type than the struct |
| InterfaceBuild.FlatFields | interface.go:248-271 | allFields as a function; its order and splicing are stated by FlatFieldListSplice, AllFieldsEmbedding, AllFieldsPlain and AllFieldsDeref, and the method AllFields is proved equal to it |
| InterfaceBuild.FlatFieldListSplice | interface.go:260-269 | flattening a concatenation is the concatenation of the flattenings |
| InterfaceBuild.AllFieldsEmbedding | interface.go:260-268 | an embedded field is replaced, at its own position, by its type's flattened fields; the fields around it keep their order |
| InterfaceBuild.AllFieldsPlain | interface.go:260-269 | a struct without embedded fields yields its own fields, in order |
| InterfaceBuild.AllFieldsDeref | interface.go:249-256 | one pointer level is looked through; a non-struct, or a pointer to a pointer, has no fields |
| InterfaceBuild.AllFields | interface.go:248-271 | the source's loop returns exactly the flattened field list |
| InterfaceBuild.CaddyTagRoundTrip | interface.go:192-198 | "namespace=ns" reads back as namespace ns with no key; "namespace=ns inline_key=k" reads back as ns and k |
| InterfaceBuild.TagNamespace | interface.go:191-194 | the first word of the tag without "namespace="; CaddyTagRoundTrip reads back the namespace a tag was written with |
| InterfaceBuild.TagInlineKey | interface.go:196-198 | the second word without "inline_key=", or empty; CaddyTagRoundTrip reads back the key a tag was written with |
| InterfaceBuild.ModulePaths | interface.go:203-209 | one path per registered module |
| InterfaceBuild.ModulePath | interface.go:204-207 | one module's path: "namespace.name", or the bare name in the root namespace; stated by LoaderPaths and ModulePathLastSegment |
| InterfaceBuild.LoaderPaths | interface.go:203-209 | the loop yields, in registry order, "namespace.name" for each module, or just the name in the root namespace |
| InterfaceBuild.LoaderField | interface.go:178-209 | a caddy-tagged field becomes a node whose module is the namespace, whose key is the inline key, whose loader type is the field's type and whose loader lists every module of the namespace |
| InterfaceBuild.JsonName | interface.go:168-180 | a kept field's name is its json tag without ",omitempty" (empty when there is no json tag); stated by StructFieldsKept |
| InterfaceBuild.Skipped | interface.go:168-176 | a field without a json tag, or tagged "-", is skipped unless root-loader mode is on; stated by ScanStep and StructFieldsKept |
| InterfaceBuild.Populated | interface.go:113-146 | module and name are kept; own fields change only for a struct or pointer |
| InterfaceBuild.StructPopulated | interface.go:148-155 | the nest chain and the array/map flags are kept; a non-struct records only its kind name |
| InterfaceBuild.ScanFields | interface.go:162-222 | the field loop keeps module, name and nest chain, and outside root-loader mode it leaves the loader untouched |
| InterfaceBuild.Completed | interface.go:224-234 | the end of populateStruct changes only the type name |
| InterfaceBuild.Populate | interface.go:113-146 | the recursive method leaves exactly the specified node |
| InterfaceBuild.PopulateStruct | interface.go:148-236 | the field loop, with its early root-loader return, leaves exactly the specified node |
| InterfaceBuild.ScanField | interface.go:163-221 | one pass of the loop: a public field is collected; the pass returns early exactly when root-loader mode is on and the field is caddy-tagged, and the struct then takes that field's loader, key and type with no fields; otherwise root-loader mode is over and the field adds its node, if it is kept |
| InterfaceBuild.LoaderFieldOf | interface.go:179-209 | the loader node is built exactly as specified: namespace as module, inline key, field type, and the namespace's module paths |
| InterfaceBuild.Complete | interface.go:224-234 | the end of the method sets exactly the specified type name |
| InterfaceBuild.ScanAdvance | interface.go:163-221 | a pass that does not return leaves the result of the rest of the loop unchanged |
| InterfaceBuild.ScanRootOff | interface.go:170-172 | a field without a caddy tag switches root-loader mode off before the mode is read |
| InterfaceBuild.ScanRootReturn | interface.go:211-218 | in root-loader mode a caddy-tagged field decides the whole node: no fields, and its loader, key and type |
| InterfaceBuild.KeptFields | interface.go:174-188 | a field list contributes at most one node per field |
| InterfaceBuild.PublicFields | interface.go:164-166 | the public fields are at most all fields |
| InterfaceBuild.PublicFieldsMembers | interface.go:162-166 | the collected public fields are exactly the fields whose name isPublic accepts |
| InterfaceBuild.ScanStep | interface.go:163-222 | one non-root step appends that field's node, if any, and its public entry, if any |
| InterfaceBuild.ScanNonRoot | interface.go:163-234 | outside root-loader mode the loop keeps exactly the tagged fields' nodes, in order, and collects exactly the public fields |
| InterfaceBuild.ScanRootCancelled | interface.go:170-172 | a first field without a caddy tag switches root-loader mode off |
| InterfaceBuild.RootLoaderDecides | interface.go:157-218 | for the root-loader struct, a caddy-tagged first field makes the node that field's loader with no fields; otherwise the struct is populated as an ordinary one |
| InterfaceBuild.StructFieldsKept | interface.go:163-234 | a struct keeps, in flattened order, each field with a json tag other than "-", named without ",omitempty"; it is an object unless nothing was kept and exactly one field is public, in which case it takes that field's populated type |
| InterfaceBuild.PopulatedScalar | interface.go:148-155 | a scalar, or a pointer to one, records its kind name and nothing else |
| InterfaceBuild.PopulatedNest | interface.go:126-140 | there is one nest link per slice or map level; each link is exactly one of array or map; the nested node keeps the module and is named name + ".nest" |
| InterfaceSchema.LastSegment | interface.go:288-289 | the short name holds no dot |
| InterfaceSchema.ModulePathLastSegment | interface.go:204-207 | the short name of a module path is the module's own name when that name has no dot |
| InterfaceSchema.RefSchema | interface.go:291-292 | a fresh schema whose only set field is `$ref` |
| InterfaceSchema.RefProperties | interface.go:285-295 | the properties build fills; their keys are stated by RefPropertiesKeys and their values by RefPropertiesValues |
| InterfaceSchema.RefPropertiesKeys | interface.go:285-295 | without an inline key there is one property per short name of a loader path, and no other property |
| InterfaceSchema.RefPropertiesValues | interface.go:287-295 | each short name holds the $ref of the last path with that short name |
| InterfaceSchema.IfThenClauses | interface.go:303-326 | one clause per loader path |
| InterfaceSchema.IfThenClause | interface.go:304-325 | one loader's clause: if the key holds the module's short name, then its $ref; stated by IfThenClauses and InlineKeySchema |
| InterfaceSchema.ShortNames | interface.go:308-313 | one short name per loader path |
| InterfaceSchema.InlineKeySchema | interface.go:298-347 | one if/then clause per path, in order: the if fixes the key to the short name and the then refers to the path; then a clause making the key a string among the short names; the key is required |
| InterfaceSchema.KeyClause | interface.go:328-344 | the inline key as a required string property whose enum is the short names, with its fixed descriptions; stated by InlineKeySchema |
| InterfaceSchema.LoaderSchema | interface.go:279-296 | build produces no items or additionalProperties |
| InterfaceSchema.ApplyShape | interface.go:367-389 | depth 1, or 2 without a key: the schema build made, typed object, replaces the parent; 2 with a key, or 3: the parent becomes an array of it; any other depth leaves the parent as it is |
| InterfaceSchema.SchemaDepth | interface.go:358-365 | the count of apply's loop; LoaderSchemaBuilder.Apply is proved to count it and ToSchemaDepth ties it to the loader type |
| InterfaceSchema.LoaderDepth | interface.go:352-365 | the depth apply counts, computed from the loader type alone; ToSchemaDepth proves it equal to the counted depth |
| InterfaceSchema.FillNest | interface.go:71-94 | the walk keeps the properties; an array link types the node "array" and a map-only link types it "object"; without a nest nothing changes |
| InterfaceSchema.MapLink | interface.go:86-93 | a map link types the node "object" and keeps its properties |
| InterfaceSchema.Describe | interface.go:96-108 | the descriptions name the final type; a godoc link is appended only when the module has a godoc package; only documentation fields change |
| InterfaceSchema.FieldProperties | interface.go:65-68 | the field loop of toSchema; stated by FieldPropertiesKeys, FieldPropertiesKeep and FieldPropertiesValues |
| InterfaceSchema.ToSchema | interface.go:54-110 | toSchema; stated by ToSchemaDocumented, ToSchemaProperties, ToSchemaDepthOfNode and ToSchemaDepth |
| InterfaceSchema.ToSchemaDocumented | interface.go:54-56 | a compiled node is documented with its own name, JSON type and module and carries its module's package; a plain node has the JSON type of its Go kind |
| InterfaceSchema.FieldPropertiesKeys | interface.go:66-68 | the properties are the ones already there plus one per field name |
| InterfaceSchema.FieldPropertiesKeep | interface.go:66-68 | a property that no field is named after is kept |
| InterfaceSchema.FieldPropertiesValues | interface.go:66-68 | each field name holds the schema of the last field with that name |
| InterfaceSchema.ToSchemaProperties | interface.go:54-68 | a node without a loader has exactly one property per field name, holding the schema of the last field with that name |
| InterfaceSchema.NestLevelShape | interface.go:71-94 | an array link gives type array and items with the nested fields, typed by the nested node at the end of the chain; a map link gives type object and untyped additionalProperties with the nested fields |
| InterfaceSchema.FillNestDepth | interface.go:71-94 | the nest walk adds exactly one level per array or map link |
| InterfaceSchema.MapLinkDepth | interface.go:86-93 | a map link adds one level to the rest of the chain |
| InterfaceSchema.ToSchemaDepthOfNode | interface.go:54-94 | a compiled node is as deep as its nest chain, or as its loader's shape |
| InterfaceSchema.ToSchemaDepth | interface.go:352-365 | the depth apply counts on the compiled schema of a populated type equals the depth computed from the type alone |
| InterfaceSchema.LoaderSchemaBuilder.constructor | interface.go:274-277 | the builder holds the node and the schema it is given |
| InterfaceSchema.LoaderSchemaBuilder.Build | interface.go:279-296 | the loop leaves the $ref map by short name, or the inline-key form when there is a key |
| InterfaceSchema.LoaderSchemaBuilder.BuildWithInlineKey | interface.go:298-347 | the loop leaves exactly the inline-key schema |
| InterfaceSchema.LoaderSchemaBuilder.Apply | interface.go:349-390 | the counting loop finds the depth computed from the loader type, and the parent is shaped by it |
| JsonValue.Reload | schema_writer.go:124-130 | a written and re-read value has the same keys and length; an `M` becomes a plain object; nothing else changes |
| JsonValue.ReloadConfig | schema_writer.go:124-130 | the settings keep their keys across the round trip |
| JsonValue.ReloadDecoded | schema_writer.go:124-130 | what is read back holds no `M` anywhere |
| JsonValue.ReloadOfDecoded | schema_writer.go:124-130 | a decoded value survives the round trip unchanged |
| JsonValue.ReloadIdempotent | schema_writer.go:124-130 | a second round trip changes nothing |
| JsonValue.ReloadConfigDecoded | schema_writer.go:124-130 | settings read back hold no `M` |
| SchemaWriter.JsonEntry | schema_writer.go:150-153 | the appended registration is an `M` holding exactly fileMatch ["*caddy*.json"] and url |
| SchemaWriter.Registers | schema_writer.go:142-148 | an entry counts as a registration only when it is a plain map whose "url" is the file name as a string; stated by JsonEditCases, JsonEditRepeatsInMemory and ReloadedEntryRegisters |
| SchemaWriter.JsonEdit | schema_writer.go:132-157 | setJSONConfig as a function; stated by JsonEditCases, JsonEditAppends, JsonEditRepeatsInMemory and JsonEditSettlesAfterReload |
| SchemaWriter.YamlEdit | schema_writer.go:159-185 | setYAMLConfig as a function; stated by YamlEditCases, YamlEditAdds and YamlEditIdempotent |
| SchemaWriter.VsEdit | schema_writer.go:187-208 | setVsConfig as a function; stated by VsEditCases and VsEditSettlesAfterReload |
| SchemaWriter.JsonEditCases | schema_writer.go:132-148 | an error exactly when "json.schemas" is present, non-null and not a list; false exactly when a list entry already registers the file; in both cases the settings are unchanged |
| SchemaWriter.JsonEditAppends | schema_writer.go:150-156 | an edit appends exactly one entry after the old ones; an absent list becomes a one-entry list; no other key changes |
| SchemaWriter.YamlEditCases | schema_writer.go:159-173 | an error exactly when "yaml.schemas" is present, non-null and not an object; false exactly when the file is already a key; in both cases the settings are unchanged |
| SchemaWriter.YamlEditAdds | schema_writer.go:175-184 | an edit adds the file with the two yaml globs and keeps every other entry; no other key changes |
| SchemaWriter.YamlEditIdempotent | schema_writer.go:169-184 | running the YAML step again finds the file and changes nothing |
| SchemaWriter.JsonEditRepeatsInMemory | schema_writer.go:142-153 | within one process a second JSON step does not recognise the `M` entry and appends a second, equal one |
| SchemaWriter.ReloadedEntryRegisters | schema_writer.go:143-153 | read back from the file, the appended entry is recognised |
| SchemaWriter.JsonEditSettlesAfterReload | schema_writer.go:142-156 | after a round trip through the file, the JSON step finds its registration and changes nothing |
| SchemaWriter.VsEditCases | schema_writer.go:187-208 | a JSON error returns before the YAML step; a YAML error keeps the JSON edit; on success ignoreConfig is set exactly when neither step edited, and it is never cleared |
| SchemaWriter.VsEditSettlesAfterReload | schema_writer.go:187-208 | settings this writer produced, once read back, are left unchanged and marked to be ignored |
| SchemaWriter.VsEditJsonEntry | schema_writer.go:132-157 | after a successful setVsConfig the JSON list holds the file's entry, either the appended `M` or an entry that was already recognised |
| SchemaWriter.ReloadKeepsRegistration | schema_writer.go:143-153 | read back from the file, a list holding the file's entry registers the file |
| SchemaWriter.VsEditJsonRegistered | schema_writer.go:132-157 | after a successful setVsConfig and a read-back, the JSON step finds the file registered |
| SchemaWriter.VsEditYamlRegistered | schema_writer.go:159-185 | after a successful setVsConfig and a read-back, the YAML object holds the file name |
| SchemaWriter.VsCodeWriter.constructor | schema_writer.go:53-58 | the writer starts with the given settings and file name, and does not ignore the settings |
| SchemaWriter.VsCodeWriter.SetJSONConfig | schema_writer.go:132-157 | the scanning loop returns and leaves exactly what the JSON step specifies, and it keeps the ignore flag |
| SchemaWriter.VsCodeWriter.SetYAMLConfig | schema_writer.go:159-185 | the key loop, in any order, returns and leaves exactly what the YAML step specifies |
| SchemaWriter.VsCodeWriter.SetVsConfig | schema_writer.go:187-208 | the two steps and the flag update give exactly the specified outcome |
| FileWriter.LegacyJsonEditCases | filewriter.go:129-146 | an error exactly when "json.schemas" is present, non-null and not a list; otherwise one entry is appended after the old ones, an absent list becoming a one-entry list; no other key changes |
| FileWriter.LegacyJsonEdit | filewriter.go:129-146 | the older setVsConfig as a function; stated by LegacyJsonEditCases, LegacyJsonEditTwice, LegacyJsonEditNeverSettles and LegacyAgainstCurrent |
| FileWriter.LegacyJsonEditTwice | filewriter.go:139-144 | two calls leave two equal registrations after the old entries |
| FileWriter.LegacyJsonEditNeverSettles | filewriter.go:139-144 | even after a round trip through the file, the older writer appends again |
| FileWriter.LegacyAgainstCurrent | filewriter.go:129-146 | the two writers fail on the same settings; they agree whenever the current one edits; when the file is already registered, the older one still appends |
| FileWriter.LegacyVsCodeWriter.constructor | filewriter.go:52-55 | the writer starts with the given settings and file name |
| FileWriter.LegacyVsCodeWriter.SetVsConfig | filewriter.go:129-146 | it errors, leaving the settings untouched, exactly when the specification fails; otherwise the settings become the specified ones |

## Left out

- File and directory handling is not modelled: `prepareDirectory`, `prepareFiles`, `loadVsConfig`, `Write`, `jsonToFile`, `permOrDefault`, `writeToFile` and the logging. A round trip through the settings file is modelled only by `JsonValue.Reload`.
- A settings file holding `null` decodes to a nil map, which the source would then write into and panic. This happens in `loadVsConfig`, which is not modelled; the model's settings are always a map.
- JSON numbers are unbounded reals. Float64 precision is not modelled.
- The doc fetching, the JSON processing, the command line and the Caddy module registry itself are not modelled. The registry is a `Registry` value.
- Go reflection is an abstract `TypeDesc`. Struct identity with `caddyhttp.MatchNot` is a flag on the struct.
- `goPkg` is not modelled: it is an uninterpreted function of the module id, because it reads package paths by reflection.
- Go's map iteration order is a fixed sequence per namespace in the registry, and the YAML key scan visits keys in an arbitrary order.
- Schemas and `Interface` nodes are values, not pointers. The engine never shares a node between two live parents, so updating in place and building a new value agree. Aliasing is not modelled.
- `toSchema` is a function: its nest-cursor loop is the recursion `FillNest`/`MapLink`.
- InterfaceBuild.Populated: a field whose type is an interface type makes `populate` panic in the source, because it reflects on a nil interface. The model records the kind name instead.
- InterfaceSchema.LoaderDepthOf: a node with loader paths but no loader type makes `apply` panic in the source. The model counts depth 0. Nodes that `populate` builds never have this shape.
- The JSON encoding of a schema (the `omitempty` tags) is not modelled, because it belongs to `encoding/json`.
- InterfaceBuild.LoaderField: a caddy tag that is present but blank (`caddy:""` or only white space) makes `populateStruct` panic, because `strings.Fields` returns no words and `split[0]` is out of range (interface.go:192-193). The type `Reflection.CaddyTag` admits only tags with a word, so the model does not capture this panic.
- Self-referential Go types are not modelled. A struct that reaches itself through a pointer, slice or map cannot be written as the inductive `Reflection.TypeDesc`, and `populate`/`populateStruct` (interface.go:113-155) would recurse on it without end. Every termination argument and depth result (`FlatFieldsBound`, `Populate`, `ToSchemaDepth`) relies on types being finite trees.
