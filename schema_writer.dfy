/**
  The in-memory half of the VS Code writer: registering the generated schema
  in the editor's settings object under "json.schemas" (a list of
  registrations) and "yaml.schemas" (an object keyed by schema file), each
  only when it is not registered yet.
 */
module SchemaWriter {
  import opened Wrappers
  import opened JsonValue

  const JsonKey := "json.schemas"
  const YamlKey := "yaml.schemas"
  const JsonNotAList := "invalid vscode config, 'json.schemas' not a list"
  const YamlNotAnObject := "invalid vscode config, 'yaml.schemas' not an object"

  /** The registration setJSONConfig appends; it is built as an `M`. */
  function JsonEntry(filename: string): (e: Json)
    ensures e.Named? && e.fields.Keys == {"fileMatch", "url"}
    ensures e.fields["url"] == Str(filename)
    ensures e.fields["fileMatch"] == List([Str("*caddy*.json")])
  {
    Named(map["fileMatch" := List([Str("*caddy*.json")]), "url" := Str(filename)])
  }

  /** The file globs setYAMLConfig registers the schema for. */
  const YamlGlobs := List([Str("*caddy*.yaml"), Str("*caddy*.yml")])

  /**
    A list entry that already registers the file: it must pass the assertion
    to `map[string]interface{}` (so an `M` does not) and hold the file name
    as a string under "url".
   */
  predicate Registers(entry: Json, filename: string) {
    entry.Object? && "url" in entry.fields && entry.fields["url"] == Str(filename)
  }

  predicate AbsentOrNull(config: map<string, Json>, key: string) {
    key !in config || config[key].Null?
  }

  /** The registration list in the settings; absent or null reads as empty. */
  function JsonSchemasOf(config: map<string, Json>): seq<Json> {
    if AbsentOrNull(config, JsonKey) || !config[JsonKey].List? then [] else config[JsonKey].items
  }

  predicate Registered(schemas: seq<Json>, filename: string) {
    exists i :: 0 <= i < |schemas| && Registers(schemas[i], filename)
  }

  /** The YAML registrations in the settings; absent or null reads as empty. */
  function YamlSchemasOf(config: map<string, Json>): map<string, Json> {
    if AbsentOrNull(config, YamlKey) || !config[YamlKey].Object? then map[] else config[YamlKey].fields
  }

  /** What one of the two set*Config steps returns and leaves behind. */
  datatype Edit = Edit(outcome: Result<bool, string>, config: map<string, Json>)

  /** setJSONConfig, as a function of the settings object and the schema file name. */
  function JsonEdit(config: map<string, Json>, filename: string): Edit {
    if AbsentOrNull(config, JsonKey) || config[JsonKey].List? then
      var schemas := JsonSchemasOf(config);
      if Registered(schemas, filename) then
        Edit(Success(false), config)
      else
        Edit(Success(true), config[JsonKey := List(schemas + [JsonEntry(filename)])])
    else
      Edit(Failure(JsonNotAList), config)
  }

  /** setYAMLConfig, as a function of the settings object and the schema file name. */
  function YamlEdit(config: map<string, Json>, filename: string): Edit {
    if AbsentOrNull(config, YamlKey) || config[YamlKey].Object? then
      var schemas := YamlSchemasOf(config);
      if filename in schemas then
        Edit(Success(false), config)
      else
        Edit(Success(true), config[YamlKey := Object(schemas[filename := YamlGlobs])])
    else
      Edit(Failure(YamlNotAnObject), config)
  }

  /** What setVsConfig returns and leaves behind. */
  datatype VsOutcome = VsOutcome(err: Option<string>, config: map<string, Json>, ignoreConfig: bool)

  /** setVsConfig: the JSON step, then the YAML step, then the ignore flag. */
  function VsEdit(config: map<string, Json>, filename: string, ignoreConfig: bool): VsOutcome {
    var json := JsonEdit(config, filename);
    if json.outcome.Failure? then VsOutcome(Some(json.outcome.error), json.config, ignoreConfig)
    else
      var yaml := YamlEdit(json.config, filename);
      if yaml.outcome.Failure? then VsOutcome(Some(yaml.outcome.error), yaml.config, ignoreConfig)
      else VsOutcome(None, yaml.config, ignoreConfig || (!json.outcome.value && !yaml.outcome.value))
  }

  /** The settings object changes at `key` at most. */
  predicate OnlyKeyChanged(before: map<string, Json>, after: map<string, Json>, key: string) {
    && after.Keys - {key} == before.Keys - {key}
    && forall k :: k in before && k != key ==> k in after && after[k] == before[k]
  }

  /** setJSONConfig's three outcomes. */
  lemma JsonEditCases(config: map<string, Json>, filename: string)
    ensures var e := JsonEdit(config, filename);
      && (e.outcome.Failure? <==> !AbsentOrNull(config, JsonKey) && !config[JsonKey].List?)
      && (e.outcome.Failure? ==> e.outcome.error == JsonNotAList)
      && (e.outcome == Success(false) <==>
            !AbsentOrNull(config, JsonKey) && config[JsonKey].List? && Registered(config[JsonKey].items, filename))
      && (e.outcome != Success(true) ==> e.config == config)
  {
    if AbsentOrNull(config, JsonKey) {
      assert !Registered(JsonSchemasOf(config), filename);
    }
  }

  /**
    When setJSONConfig edits, the list gains exactly the one new entry after
    the old ones, an absent or null list counts as empty, and no other key
    changes.
   */
  lemma JsonEditAppends(config: map<string, Json>, filename: string)
    requires JsonEdit(config, filename).outcome == Success(true)
    ensures var after := JsonEdit(config, filename).config;
      && JsonKey in after
      && after[JsonKey] == List(JsonSchemasOf(config) + [JsonEntry(filename)])
      && (AbsentOrNull(config, JsonKey) ==> after[JsonKey] == List([JsonEntry(filename)]))
      && OnlyKeyChanged(config, after, JsonKey)
  {
  }

  /** setYAMLConfig's three outcomes. */
  lemma YamlEditCases(config: map<string, Json>, filename: string)
    ensures var e := YamlEdit(config, filename);
      && (e.outcome.Failure? <==> !AbsentOrNull(config, YamlKey) && !config[YamlKey].Object?)
      && (e.outcome.Failure? ==> e.outcome.error == YamlNotAnObject)
      && (e.outcome == Success(false) <==>
            !AbsentOrNull(config, YamlKey) && config[YamlKey].Object? && filename in config[YamlKey].fields)
      && (e.outcome != Success(true) ==> e.config == config)
  {
  }

  /**
    When setYAMLConfig edits, the object gains the file name with the two
    globs, keeps every other key it had, and no other settings key changes.
   */
  lemma YamlEditAdds(config: map<string, Json>, filename: string)
    requires YamlEdit(config, filename).outcome == Success(true)
    ensures var after := YamlEdit(config, filename).config;
      var before := YamlSchemasOf(config);
      && YamlKey in after && after[YamlKey].Object?
      && after[YamlKey].fields.Keys == before.Keys + {filename}
      && after[YamlKey].fields[filename] == YamlGlobs
      && (forall k :: k in before ==> after[YamlKey].fields[k] == before[k])
      && OnlyKeyChanged(config, after, YamlKey)
  {
  }

  /** The YAML step stores a plain object, so running it again finds the file. */
  lemma YamlEditIdempotent(config: map<string, Json>, filename: string)
    requires YamlEdit(config, filename).outcome.Success?
    ensures var after := YamlEdit(config, filename).config;
      YamlEdit(after, filename) == Edit(Success(false), after)
  {
  }

  /**
    The JSON step is not idempotent within one process: the entry it appends
    is an `M`, which the scan does not recognise, so a second call appends a
    second, equal entry.
   */
  lemma JsonEditRepeatsInMemory(config: map<string, Json>, filename: string)
    requires JsonEdit(config, filename).outcome == Success(true)
    ensures var once := JsonEdit(config, filename).config;
      var twice := JsonEdit(once, filename);
      && twice.outcome == Success(true)
      && twice.config[JsonKey] == List(JsonSchemasOf(config) + [JsonEntry(filename), JsonEntry(filename)])
  {
    var once := JsonEdit(config, filename).config;
    var prior := JsonSchemasOf(config);
    var schemas := prior + [JsonEntry(filename)];
    assert JsonSchemasOf(once) == schemas;
    forall i | 0 <= i < |schemas| ensures !Registers(schemas[i], filename) {
      if i < |prior| {
        assert schemas[i] == prior[i];
      }
    }
    assert schemas + [JsonEntry(filename)] == prior + [JsonEntry(filename), JsonEntry(filename)];
  }

  /** Read back from the file, the registration setJSONConfig appends is recognised. */
  lemma ReloadedEntryRegisters(filename: string)
    ensures Registers(Reload(JsonEntry(filename)), filename)
  {
    var e := Reload(JsonEntry(filename));
    assert e.fields["url"] == Reload(Str(filename));
  }

  /**
    Once written to the settings file and read back, the appended entry is a
    plain object and the JSON step finds it: nothing changes.
   */
  lemma JsonEditSettlesAfterReload(config: map<string, Json>, filename: string)
    requires JsonEdit(config, filename).outcome == Success(true)
    ensures var reloaded := ReloadConfig(JsonEdit(config, filename).config);
      JsonEdit(reloaded, filename) == Edit(Success(false), reloaded)
  {
    var once := JsonEdit(config, filename).config;
    var schemas := JsonSchemasOf(config) + [JsonEntry(filename)];
    var reloaded := ReloadConfig(once);
    assert reloaded[JsonKey] == Reload(List(schemas));
    var items := reloaded[JsonKey].items;
    assert items[|schemas| - 1] == Reload(JsonEntry(filename));
    ReloadedEntryRegisters(filename);
    assert Registers(items[|schemas| - 1], filename);
  }

  /**
    setVsConfig: a JSON error stops before the YAML step; a YAML error keeps
    the JSON edit; on success `ignoreConfig` is set exactly when neither step
    edited, and is never cleared.
   */
  lemma VsEditCases(config: map<string, Json>, filename: string, ignoreConfig: bool)
    ensures var r := VsEdit(config, filename, ignoreConfig);
      var json := JsonEdit(config, filename);
      && (json.outcome.Failure? ==> r == VsOutcome(Some(JsonNotAList), config, ignoreConfig))
      && (json.outcome.Success? && YamlEdit(json.config, filename).outcome.Failure? ==>
            r == VsOutcome(Some(YamlNotAnObject), json.config, ignoreConfig))
      && (r.err.None? <==> json.outcome.Success? && YamlEdit(json.config, filename).outcome.Success?)
      && (r.err.None? ==>
            && r.config == YamlEdit(json.config, filename).config
            && (r.ignoreConfig <==> ignoreConfig || (json.outcome == Success(false) && YamlEdit(json.config, filename).outcome == Success(false))))
      && (ignoreConfig ==> r.ignoreConfig)
  {
    JsonEditCases(config, filename);
    var json := JsonEdit(config, filename);
    if json.outcome.Success? {
      YamlEditCases(json.config, filename);
    }
  }

  /**
    A settings file this writer produced is left alone on the next run: read
    back, both registrations are found and the file is marked to be ignored.
   */
  lemma VsEditSettlesAfterReload(config: map<string, Json>, filename: string, ignoreConfig: bool)
    requires VsEdit(config, filename, ignoreConfig).err.None?
    ensures var reloaded := ReloadConfig(VsEdit(config, filename, ignoreConfig).config);
      VsEdit(reloaded, filename, false) == VsOutcome(None, reloaded, true)
  {
    var reloaded := ReloadConfig(VsEdit(config, filename, ignoreConfig).config);
    VsEditJsonRegistered(config, filename, ignoreConfig);
    VsEditYamlRegistered(config, filename, ignoreConfig);
    JsonEditCases(reloaded, filename);
    YamlEditCases(reloaded, filename);
  }

  /** After a successful setVsConfig and a round trip through the file, the JSON list registers the file. */
  lemma VsEditJsonRegistered(config: map<string, Json>, filename: string, ignoreConfig: bool)
    requires VsEdit(config, filename, ignoreConfig).err.None?
    ensures var reloaded := ReloadConfig(VsEdit(config, filename, ignoreConfig).config);
      JsonKey in reloaded && reloaded[JsonKey].List? && Registered(reloaded[JsonKey].items, filename)
  {
    var after := VsEdit(config, filename, ignoreConfig).config;
    VsEditJsonEntry(config, filename, ignoreConfig);
    var schemas := after[JsonKey].items;
    assert ReloadConfig(after)[JsonKey] == Reload(List(schemas));
    ReloadKeepsRegistration(schemas, filename);
  }

  /** A successful setVsConfig leaves the JSON list holding the file's entry, as an `M` or a plain object. */
  lemma VsEditJsonEntry(config: map<string, Json>, filename: string, ignoreConfig: bool)
    requires VsEdit(config, filename, ignoreConfig).err.None?
    ensures var after := VsEdit(config, filename, ignoreConfig).config;
      && JsonKey in after && after[JsonKey].List?
      && exists i :: 0 <= i < |after[JsonKey].items| && HoldsEntry(after[JsonKey].items[i], filename)
  {
    var json := JsonEdit(config, filename);
    var yaml := YamlEdit(json.config, filename);
    JsonEditCases(config, filename);
    YamlEditCases(json.config, filename);
    assert yaml.config[JsonKey] == json.config[JsonKey] by {
      if yaml.outcome == Success(true) { YamlEditAdds(json.config, filename); }
    }
    var schemas := json.config[JsonKey].items;
    if json.outcome == Success(true) {
      JsonEditAppends(config, filename);
      assert HoldsEntry(schemas[|schemas| - 1], filename);
    } else {
      var j :| 0 <= j < |config[JsonKey].items| && Registers(config[JsonKey].items[j], filename);
      assert schemas[j] == config[JsonKey].items[j];
      assert HoldsEntry(schemas[j], filename);
    }
  }

  /** The entry setJSONConfig appends, or one it recognises. */
  predicate HoldsEntry(entry: Json, filename: string) {
    entry == JsonEntry(filename) || Registers(entry, filename)
  }

  /** Read back from the file, a list holding the file's entry registers it. */
  lemma ReloadKeepsRegistration(schemas: seq<Json>, filename: string)
    requires exists i :: 0 <= i < |schemas| && HoldsEntry(schemas[i], filename)
    ensures Registered(Reload(List(schemas)).items, filename)
  {
    var i :| 0 <= i < |schemas| && HoldsEntry(schemas[i], filename);
    var items := Reload(List(schemas)).items;
    assert items[i] == Reload(schemas[i]);
    if schemas[i] == JsonEntry(filename) {
      ReloadedEntryRegisters(filename);
    } else {
      assert Reload(schemas[i]).fields["url"] == Reload(Str(filename));
    }
    assert Registers(items[i], filename);
  }

  /** After a successful setVsConfig and a round trip through the file, the YAML object holds the file. */
  lemma VsEditYamlRegistered(config: map<string, Json>, filename: string, ignoreConfig: bool)
    requires VsEdit(config, filename, ignoreConfig).err.None?
    ensures var reloaded := ReloadConfig(VsEdit(config, filename, ignoreConfig).config);
      YamlKey in reloaded && reloaded[YamlKey].Object? && filename in reloaded[YamlKey].fields
  {
    var json := JsonEdit(config, filename);
    var yaml := YamlEdit(json.config, filename);
    YamlEditCases(json.config, filename);
    if yaml.outcome == Success(true) {
      YamlEditAdds(json.config, filename);
    }
  }

  /**
    The writer's settings state. `schemaFilename` is where the schema is
    written; `ignoreConfig` tells the writer to leave the settings file alone.
   */
  class VsCodeWriter {
    var configJSON: map<string, Json>
    const schemaFilename: string
    var ignoreConfig: bool

    constructor(configJSON: map<string, Json>, schemaFilename: string)
      ensures this.configJSON == configJSON && this.schemaFilename == schemaFilename
      ensures !ignoreConfig
    {
      this.configJSON := configJSON;
      this.schemaFilename := schemaFilename;
      ignoreConfig := false;
    }

    /** setJSONConfig */
    method SetJSONConfig() returns (r: Result<bool, string>)
      modifies this
      ensures r == JsonEdit(old(configJSON), schemaFilename).outcome
      ensures configJSON == JsonEdit(old(configJSON), schemaFilename).config
      ensures ignoreConfig == old(ignoreConfig)
    {
      var schemas: seq<Json> := [];
      if JsonKey in configJSON && !configJSON[JsonKey].Null? {
        if !configJSON[JsonKey].List? {
          return Failure(JsonNotAList);
        }
        schemas := configJSON[JsonKey].items;
      }
      var i := 0;
      while i < |schemas|
        invariant 0 <= i <= |schemas|
        invariant forall j :: 0 <= j < i ==> !Registers(schemas[j], schemaFilename)
      {
        var s := schemas[i];
        if s.Object? && "url" in s.fields && s.fields["url"] == Str(schemaFilename) {
          return Success(false);
        }
        i := i + 1;
      }
      schemas := schemas + [JsonEntry(schemaFilename)];
      configJSON := configJSON[JsonKey := List(schemas)];
      return Success(true);
    }

    /** setYAMLConfig; the keys are visited in no particular order. */
    method SetYAMLConfig() returns (r: Result<bool, string>)
      modifies this
      ensures r == YamlEdit(old(configJSON), schemaFilename).outcome
      ensures configJSON == YamlEdit(old(configJSON), schemaFilename).config
      ensures ignoreConfig == old(ignoreConfig)
    {
      var schemas: map<string, Json> := map[];
      if YamlKey in configJSON && !configJSON[YamlKey].Null? {
        if !configJSON[YamlKey].Object? {
          return Failure(YamlNotAnObject);
        }
        schemas := configJSON[YamlKey].fields;
      }
      var unvisited := schemas.Keys;
      while unvisited != {}
        invariant unvisited <= schemas.Keys
        invariant schemaFilename in schemas ==> schemaFilename in unvisited
        decreases unvisited
      {
        var key :| key in unvisited;
        if key == schemaFilename {
          return Success(false);
        }
        unvisited := unvisited - {key};
      }
      schemas := schemas[schemaFilename := YamlGlobs];
      configJSON := configJSON[YamlKey := Object(schemas)];
      return Success(true);
    }

    /** setVsConfig; it reports the first error it meets. */
    method SetVsConfig() returns (err: Option<string>)
      modifies this
      ensures VsOutcome(err, configJSON, ignoreConfig) == VsEdit(old(configJSON), schemaFilename, old(ignoreConfig))
    {
      var json := SetJSONConfig();
      if json.Failure? {
        return Some(json.error);
      }
      var yaml := SetYAMLConfig();
      if yaml.Failure? {
        return Some(yaml.error);
      }
      if !json.value && !yaml.value {
        ignoreConfig := true;
      }
      return None;
    }
  }
}
