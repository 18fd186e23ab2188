/**
  The older VS Code writer: it registers the schema under "json.schemas"
  without looking for an earlier registration, and has no YAML step.
 */
module FileWriter {
  import opened Wrappers
  import opened JsonValue
  import SchemaWriter

  const JsonNotAnList := "invalid vscode config, 'json.schemas' not an list"

  /** setVsConfig: the new settings object, or the error. */
  function LegacyJsonEdit(config: map<string, Json>, filename: string): Result<map<string, Json>, string> {
    if SchemaWriter.AbsentOrNull(config, SchemaWriter.JsonKey) || config[SchemaWriter.JsonKey].List? then
      Success(config[SchemaWriter.JsonKey :=
        List(SchemaWriter.JsonSchemasOf(config) + [SchemaWriter.JsonEntry(filename)])])
    else
      Failure(JsonNotAnList)
  }

  /**
    It fails exactly on a present, non-null value that is not a list;
    otherwise the list gains one entry after the old ones, whatever they
    hold, and nothing else in the settings changes.
   */
  lemma LegacyJsonEditCases(config: map<string, Json>, filename: string)
    ensures var r := LegacyJsonEdit(config, filename);
      && (r.Failure? <==> !SchemaWriter.AbsentOrNull(config, SchemaWriter.JsonKey) && !config[SchemaWriter.JsonKey].List?)
      && (r.Failure? ==> r.error == JsonNotAnList)
      && (SchemaWriter.AbsentOrNull(config, SchemaWriter.JsonKey) ==>
            r.Success? && r.value[SchemaWriter.JsonKey] == List([SchemaWriter.JsonEntry(filename)]))
      && (r.Success? ==>
            && SchemaWriter.JsonKey in r.value
            && r.value[SchemaWriter.JsonKey]
                 == List(SchemaWriter.JsonSchemasOf(config) + [SchemaWriter.JsonEntry(filename)])
            && SchemaWriter.OnlyKeyChanged(config, r.value, SchemaWriter.JsonKey))
  {
  }

  /** Two calls leave two equal registrations behind the old entries. */
  lemma LegacyJsonEditTwice(config: map<string, Json>, filename: string)
    requires LegacyJsonEdit(config, filename).Success?
    ensures var once := LegacyJsonEdit(config, filename).value;
      && LegacyJsonEdit(once, filename).Success?
      && LegacyJsonEdit(once, filename).value[SchemaWriter.JsonKey]
           == List(SchemaWriter.JsonSchemasOf(config) + [SchemaWriter.JsonEntry(filename), SchemaWriter.JsonEntry(filename)])
  {
    var prior := SchemaWriter.JsonSchemasOf(config);
    assert prior + [SchemaWriter.JsonEntry(filename)] + [SchemaWriter.JsonEntry(filename)]
        == prior + [SchemaWriter.JsonEntry(filename), SchemaWriter.JsonEntry(filename)];
  }

  /** Unlike the current JSON step, it appends again even after a round trip through the file. */
  lemma LegacyJsonEditNeverSettles(config: map<string, Json>, filename: string)
    requires LegacyJsonEdit(config, filename).Success?
    ensures var reloaded := ReloadConfig(LegacyJsonEdit(config, filename).value);
      && LegacyJsonEdit(reloaded, filename).Success?
      && LegacyJsonEdit(reloaded, filename).value != reloaded
  {
    var reloaded := ReloadConfig(LegacyJsonEdit(config, filename).value);
    var after := LegacyJsonEdit(reloaded, filename).value;
    assert |after[SchemaWriter.JsonKey].items| == |reloaded[SchemaWriter.JsonKey].items| + 1;
  }

  /**
    Against the current JSON step: the two produce the same settings object
    whenever the current one edits, and differ only in the error text and in
    the case of an existing registration, which the older one duplicates.
   */
  lemma LegacyAgainstCurrent(config: map<string, Json>, filename: string)
    ensures var current := SchemaWriter.JsonEdit(config, filename);
      var legacy := LegacyJsonEdit(config, filename);
      && (legacy.Failure? <==> current.outcome.Failure?)
      && (current.outcome == Success(true) ==> legacy == Success(current.config))
      && (current.outcome == Success(false) ==> legacy.Success? && legacy.value != config)
  {
    SchemaWriter.JsonEditCases(config, filename);
    var legacy := LegacyJsonEdit(config, filename);
    if legacy.Success? {
      assert |legacy.value[SchemaWriter.JsonKey].items| == |SchemaWriter.JsonSchemasOf(config)| + 1;
    }
  }

  /** The older writer's settings state. */
  class LegacyVsCodeWriter {
    var configJSON: map<string, Json>
    const schemaFilename: string

    constructor(configJSON: map<string, Json>, schemaFilename: string)
      ensures this.configJSON == configJSON && this.schemaFilename == schemaFilename
    {
      this.configJSON := configJSON;
      this.schemaFilename := schemaFilename;
    }

    /** setVsConfig: on error the settings are untouched. */
    method SetVsConfig() returns (err: Option<string>)
      modifies this
      ensures var r := LegacyJsonEdit(old(configJSON), schemaFilename);
        && (err.None? <==> r.Success?)
        && (r.Failure? ==> err == Some(r.error) && configJSON == old(configJSON))
        && (r.Success? ==> configJSON == r.value)
    {
      var schemas: seq<Json> := [];
      if SchemaWriter.JsonKey in configJSON && !configJSON[SchemaWriter.JsonKey].Null? {
        if !configJSON[SchemaWriter.JsonKey].List? {
          return Some(JsonNotAnList);
        }
        schemas := configJSON[SchemaWriter.JsonKey].items;
      }
      schemas := schemas + [SchemaWriter.JsonEntry(schemaFilename)];
      configJSON := configJSON[SchemaWriter.JsonKey := List(schemas)];
      return None;
    }
  }
}
