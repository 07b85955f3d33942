/** The server's start-up configuration (server.js:27-60): the numeric
    settings read with `parseInt(…, 10) || default`, the list of models from
    `AVAILABLE_MODELS` with its validation and fallback, and the default model. */
module Config {
  import opened Wrappers
  import opened Text

  // ---------------------------------------------------------------------------
  // Numeric settings
  // ---------------------------------------------------------------------------

  /** `parseInt(value, 10) || fallback`: an unset variable, text without
      digits and zero all give the fallback. */
  function IntSetting(value: Option<string>, fallback: int): (r: int)
    ensures r == fallback || (value.Some? && ParseInt(value.value) == Some(r) && r != 0)
  {
    var parsed := if value.Some? then ParseInt(value.value) else None;
    if parsed.Some? && parsed.value != 0 then parsed.value else fallback
  }

  /** A setting written as a (possibly padded) integer is taken as written,
      except zero, which falls back. */
  lemma IntSettingReads(ws: string, i: int, fallback: int)
    requires AllSpace(ws)
    ensures IntSetting(Some(ws + IntToString(i)), fallback) == if i != 0 then i else fallback
  {
    ParseIntReads(ws, i, "");
    assert ws + IntToString(i) + "" == ws + IntToString(i);
  }

  const NumSourcesDefault := 3
  const DailyLimitDefault := 10

  /** `NUM_SOURCES_TO_PROCESS`, the number of hits `/search` keeps. */
  function NumSourcesToProcess(env: Option<string>): int {
    IntSetting(env, NumSourcesDefault)
  }

  /** `DAILY_REQUEST_LIMIT`. */
  function DailyRequestLimit(env: Option<string>): int {
    IntSetting(env, DailyLimitDefault)
  }

  // ---------------------------------------------------------------------------
  // Models
  // ---------------------------------------------------------------------------

  /** One entry of `AVAILABLE_MODELS`; fields that are absent are `None`, and
      a price is `Some` exactly when its `typeof` is `'number'`. */
  datatype ModelConfig = ModelConfig(id: Option<string>, name: Option<string>, provider: Option<string>,
                                     inputPrice: Option<real>, outputPrice: Option<real>, isDefault: bool)

  /** The structure check every configured model must pass. */
  predicate ValidModel(m: ModelConfig) {
    Filled(m.id) && Filled(m.name) && Filled(m.provider) && m.inputPrice.Some? && m.outputPrice.Some?
  }

  const FallbackModel := ModelConfig(Some("google/gemini-2.5-flash-preview-05-20:thinking"),
                                     Some("Gemini 2.5 Flash Thinking"), Some("Google"),
                                     Some(0.15), Some(0.60), true)

  /** The model list the server runs with, given what `JSON.parse` made of
      `AVAILABLE_MODELS || '[]'` (`None` when it threw or gave no array): the
      configured list when it is non-empty and every entry is valid, the
      single fallback model otherwise. */
  function AvailableModels(parsed: Option<seq<ModelConfig>>): (models: seq<ModelConfig>)
    ensures models != [] && forall i :: 0 <= i < |models| ==> ValidModel(models[i])
    ensures models == parsed.GetOr([]) <==> parsed.Some? && parsed.value != [] && forall i :: 0 <= i < |parsed.value| ==> ValidModel(parsed.value[i])
    ensures models != parsed.GetOr([]) ==> models == [FallbackModel]
  {
    if parsed.Some? && parsed.value != [] && forall i :: 0 <= i < |parsed.value| ==> ValidModel(parsed.value[i])
    then parsed.value
    else [FallbackModel]
  }

  /** The start-up block: the array check, then the loop that throws at the
      first invalid entry, the fallback in the `catch`. */
  method LoadAvailableModels(parsed: Option<seq<ModelConfig>>) returns (models: seq<ModelConfig>)
    ensures models == AvailableModels(parsed)
  {
    if parsed.None? || parsed.value == [] {
      return [FallbackModel];
    }
    models := parsed.value;
    for i := 0 to |models|
      invariant forall k :: 0 <= k < i ==> ValidModel(models[k])
    {
      if !ValidModel(models[i]) {
        return [FallbackModel];
      }
    }
  }

  /** `models.find(m => m.isDefault)`. */
  function FirstDefault(models: seq<ModelConfig>): (r: Option<ModelConfig>)
    ensures r.Some? ==> r.value.isDefault && exists i :: (0 <= i < |models| && models[i] == r.value
                                                          && forall j :: 0 <= j < i ==> !models[j].isDefault)
    ensures r.None? ==> forall i :: 0 <= i < |models| ==> !models[i].isDefault
  {
    if models == [] then None
    else if models[0].isDefault then Some(models[0])
    else
      var r := FirstDefault(models[1..]);
      assert forall i :: 0 < i < |models| ==> models[i] == models[1..][i - 1];
      if r.Some? then
        var i :| 0 <= i < |models[1..]| && models[1..][i] == r.value && forall j :: 0 <= j < i ==> !models[1..][j].isDefault;
        assert models[i + 1] == r.value;
        r
      else r
  }

  /** `DEFAULT_MODEL`: the variable when set, else the id of the first model
      marked as default, else the first model's id. */
  function DefaultModel(env: Option<string>, models: seq<ModelConfig>): (r: Option<string>)
    ensures Filled(env) ==> r == env
  {
    if Filled(env) then env
    else
      var marked := FirstDefault(models);
      if marked.Some? && Filled(marked.value.id) then marked.value.id
      else if models != [] then models[0].id
      else None
  }

  /** `models.find(m => m.id === id)`. */
  function FindModel(models: seq<ModelConfig>, id: Option<string>): (r: Option<ModelConfig>)
    ensures r.Some? ==> r.value.id == id && exists i :: 0 <= i < |models| && models[i] == r.value
    ensures r.None? <==> forall i :: 0 <= i < |models| ==> models[i].id != id
  {
    if models == [] then None
    else if models[0].id == id then Some(models[0])
    else
      var r := FindModel(models[1..], id);
      assert forall i :: 0 < i < |models| ==> models[i] == models[1..][i - 1];
      r
  }

  /** Without `DEFAULT_MODEL` the default is a configured model: the first one
      marked as default, or the first one when none is marked. */
  lemma {:induction false} DefaultModelIsConfigured(parsed: Option<seq<ModelConfig>>)
    ensures var models := AvailableModels(parsed);
      var d := DefaultModel(None, models);
      && Filled(d)
      && FindModel(models, d).Some?
      && (FirstDefault(models).Some? ==> d == FirstDefault(models).value.id)
      && (FirstDefault(models).None? ==> d == models[0].id)
  {
    var models := AvailableModels(parsed);
    var d := DefaultModel(None, models);
    var marked := FirstDefault(models);
    if marked.Some? {
      var i :| 0 <= i < |models| && models[i] == marked.value;
      assert ValidModel(models[i]);
      assert models[i].id == d;
    } else {
      assert ValidModel(models[0]);
      assert models[0].id == d;
    }
  }
}
