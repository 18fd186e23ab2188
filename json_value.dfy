/**
  The values `encoding/json` decodes into an `interface{}`, plus the one value
  the writer builds in memory that decoding never produces: an object of the
  named map type `M`, which a type assertion to `map[string]interface{}` does
  not accept.
 */
module JsonValue {

  datatype Json =
    | Null
    | Bool(b: bool)
    | Number(n: real)
    | Str(s: string)
    | List(items: seq<Json>)               // []interface{}
    | Object(fields: map<string, Json>)    // map[string]interface{}
    | Named(fields: map<string, Json>)     // M, built in memory only

  /** A value as `json.Unmarshal` produces it: no `M` anywhere inside. */
  predicate Decoded(v: Json) {
    match v
    case List(items) => forall i :: 0 <= i < |items| ==> Decoded(items[i])
    case Object(m) => forall k :: k in m ==> Decoded(m[k])
    case Named(_) => false
    case _ => true
  }

  predicate DecodedConfig(config: map<string, Json>) {
    forall k :: k in config ==> Decoded(config[k])
  }

  /**
    Writing a value to the settings file and reading it back: every `M`
    becomes a plain object with the same keys; nothing else changes.
   */
  function Reload(v: Json): (r: Json)
    ensures v.Named? ==> r.Object? && r.fields.Keys == v.fields.Keys
    ensures v.Object? ==> r.Object? && r.fields.Keys == v.fields.Keys
    ensures v.List? ==> r.List? && |r.items| == |v.items|
    ensures !v.Named? && !v.Object? && !v.List? ==> r == v
  {
    match v
    case List(items) => List(seq(|items|, i requires 0 <= i < |items| => Reload(items[i])))
    case Object(m) => Object(map k | k in m :: Reload(m[k]))
    case Named(m) => Object(map k | k in m :: Reload(m[k]))
    case _ => v
  }

  function ReloadConfig(config: map<string, Json>): (r: map<string, Json>)
    ensures r.Keys == config.Keys
  {
    map k | k in config :: Reload(config[k])
  }

  /** What comes back from the file is decoded. */
  lemma {:induction false} ReloadDecoded(v: Json)
    ensures Decoded(Reload(v))
    decreases v
  {
    match v
    case List(items) =>
      forall i | 0 <= i < |items| ensures Decoded(Reload(v).items[i]) {
        ReloadDecoded(items[i]);
      }
    case Object(m) =>
      forall k | k in m ensures Decoded(Reload(v).fields[k]) {
        ReloadDecoded(m[k]);
      }
    case Named(m) =>
      forall k | k in m ensures Decoded(Reload(v).fields[k]) {
        ReloadDecoded(m[k]);
      }
    case _ =>
  }

  /** A decoded value survives the round trip unchanged. */
  lemma {:induction false} ReloadOfDecoded(v: Json)
    requires Decoded(v)
    ensures Reload(v) == v
    decreases v
  {
    match v
    case List(items) =>
      forall i | 0 <= i < |items| ensures Reload(v).items[i] == items[i] {
        ReloadOfDecoded(items[i]);
      }
    case Object(m) =>
      forall k | k in m ensures Reload(v).fields[k] == m[k] {
        ReloadOfDecoded(m[k]);
      }
    case _ =>
  }

  /** So a second round trip changes nothing. */
  lemma ReloadIdempotent(v: Json)
    ensures Reload(Reload(v)) == Reload(v)
  {
    ReloadDecoded(v);
    ReloadOfDecoded(Reload(v));
  }

  lemma ReloadConfigDecoded(config: map<string, Json>)
    ensures DecodedConfig(ReloadConfig(config))
  {
    forall k | k in config ensures Decoded(ReloadConfig(config)[k]) {
      ReloadDecoded(config[k]);
    }
  }
}
