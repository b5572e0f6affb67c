/** ModelConfig: the connection and request parameters of one registered model. */
module Configs {
  import opened Wrappers

  const DEFAULT_MAX_TOKENS: int := 1000
  const DEFAULT_TEMPERATURE: real := 0.7

  /** The values of the nine fields of a ModelConfig. The temperature is a Java double that
      is only stored and copied, never computed with; its non-finite values are not represented. */
  datatype ModelSettings = ModelSettings(
    id: string, name: string, displayName: string, apiUrl: string, apiKey: string,
    modelName: string, maxTokens: int, temperature: real, enabled: bool)

  /** One registered model; every field has its own setter. */
  class ModelConfig {
    var id: string
    var name: string
    var displayName: string
    var apiUrl: string
    var apiKey: string
    var modelName: string
    var maxTokens: int
    var temperature: real
    var enabled: bool

    /** The current values of the fields. */
    function Settings(): ModelSettings
      reads this
    {
      ModelSettings(id, name, displayName, apiUrl, apiKey, modelName, maxTokens, temperature, enabled)
    }

    /** ModelConfig(): enabled, 1000 tokens, temperature 0.7; the strings are left unset. */
    constructor ()
      ensures Settings() == ModelSettings("", "", "", "", "", "", DEFAULT_MAX_TOKENS, DEFAULT_TEMPERATURE, true)
    {
      enabled := true;
      maxTokens := DEFAULT_MAX_TOKENS;
      temperature := DEFAULT_TEMPERATURE;
      id, name, displayName, apiUrl, apiKey, modelName := "", "", "", "", "", "";
    }

    /** ModelConfig(id, name, displayName, apiUrl, apiKey): the defaults above, the five
        values as given, and the model name sent to the endpoint set to `name`. */
    constructor Create(id: string, name: string, displayName: string, apiUrl: string, apiKey: string)
      ensures Settings() == ModelSettings(id, name, displayName, apiUrl, apiKey, name,
                                          DEFAULT_MAX_TOKENS, DEFAULT_TEMPERATURE, true)
    {
      enabled := true;
      maxTokens := DEFAULT_MAX_TOKENS;
      temperature := DEFAULT_TEMPERATURE;
      this.id := id;
      this.name := name;
      this.displayName := displayName;
      this.apiUrl := apiUrl;
      this.apiKey := apiKey;
      this.modelName := name;
    }

    method SetId(id: string)
      modifies this`id
      ensures this.id == id
    {
      this.id := id;
    }

    method SetName(name: string)
      modifies this`name
      ensures this.name == name
    {
      this.name := name;
    }

    method SetDisplayName(displayName: string)
      modifies this`displayName
      ensures this.displayName == displayName
    {
      this.displayName := displayName;
    }

    method SetApiUrl(apiUrl: string)
      modifies this`apiUrl
      ensures this.apiUrl == apiUrl
    {
      this.apiUrl := apiUrl;
    }

    method SetApiKey(apiKey: string)
      modifies this`apiKey
      ensures this.apiKey == apiKey
    {
      this.apiKey := apiKey;
    }

    method SetModelName(modelName: string)
      modifies this`modelName
      ensures this.modelName == modelName
    {
      this.modelName := modelName;
    }

    /** setMaxTokens: any value is stored as it is, without validation. */
    method SetMaxTokens(maxTokens: int)
      modifies this`maxTokens
      ensures this.maxTokens == maxTokens
    {
      this.maxTokens := maxTokens;
    }

    /** setTemperature: any value is stored as it is, without validation. */
    method SetTemperature(temperature: real)
      modifies this`temperature
      ensures this.temperature == temperature
    {
      this.temperature := temperature;
    }

    method SetEnabled(enabled: bool)
      modifies this`enabled
      ensures this.enabled == enabled
    {
      this.enabled := enabled;
    }
  }

  /** One entry of the persisted catalog, a list of objects with the nine field names; a
      field missing from the object is None. */
  datatype ModelRecord = ModelRecord(
    id: Option<string>, name: Option<string>, displayName: Option<string>,
    apiUrl: Option<string>, apiKey: Option<string>, modelName: Option<string>,
    maxTokens: Option<int>, temperature: Option<real>, enabled: Option<bool>)

  /** The field defaulting of parseModelsFromJson: a missing string is "", a missing
      maxTokens 1000, a missing temperature 0.7 and a missing enabled true. */
  function FromRecord(r: ModelRecord): (s: ModelSettings)
    ensures r.id.None? ==> s.id == ""
    ensures r.id.Some? ==> s.id == r.id.value
    ensures r.name.None? ==> s.name == ""
    ensures r.name.Some? ==> s.name == r.name.value
    ensures r.displayName.None? ==> s.displayName == ""
    ensures r.displayName.Some? ==> s.displayName == r.displayName.value
    ensures r.apiUrl.None? ==> s.apiUrl == ""
    ensures r.apiUrl.Some? ==> s.apiUrl == r.apiUrl.value
    ensures r.apiKey.None? ==> s.apiKey == ""
    ensures r.apiKey.Some? ==> s.apiKey == r.apiKey.value
    ensures r.modelName.None? ==> s.modelName == ""
    ensures r.modelName.Some? ==> s.modelName == r.modelName.value
    ensures r.maxTokens.None? ==> s.maxTokens == DEFAULT_MAX_TOKENS
    ensures r.maxTokens.Some? ==> s.maxTokens == r.maxTokens.value
    ensures r.temperature.None? ==> s.temperature == DEFAULT_TEMPERATURE
    ensures r.temperature.Some? ==> s.temperature == r.temperature.value
    ensures r.enabled.None? ==> s.enabled
    ensures r.enabled.Some? ==> s.enabled == r.enabled.value
  {
    ModelSettings(r.id.GetOr(""), r.name.GetOr(""), r.displayName.GetOr(""),
                  r.apiUrl.GetOr(""), r.apiKey.GetOr(""), r.modelName.GetOr(""),
                  r.maxTokens.GetOr(DEFAULT_MAX_TOKENS), r.temperature.GetOr(DEFAULT_TEMPERATURE),
                  r.enabled.GetOr(true))
  }

  /** The record saveModels writes for one model: every field present. */
  function ToRecord(s: ModelSettings): ModelRecord
  {
    ModelRecord(Some(s.id), Some(s.name), Some(s.displayName), Some(s.apiUrl), Some(s.apiKey),
                Some(s.modelName), Some(s.maxTokens), Some(s.temperature), Some(s.enabled))
  }

  /** A saved record is loaded back as the same values. */
  lemma RecordRoundTrip(s: ModelSettings)
    ensures FromRecord(ToRecord(s)) == s
  {
  }

  /** A record with no fields at all loads as the defaults of the no-argument constructor. */
  lemma EmptyRecordDefaults()
    ensures FromRecord(ModelRecord(None, None, None, None, None, None, None, None, None))
         == ModelSettings("", "", "", "", "", "", DEFAULT_MAX_TOKENS, DEFAULT_TEMPERATURE, true)
  {
  }
}
