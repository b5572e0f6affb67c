/** ModelConfigManager: the ordered list of registered models and its persisted catalog. */
module Registry {
  import opened Wrappers
  import opened Configs
  import opened History

  /** The id of the company's own endpoint, first in the default catalog. */
  const CUSTOM_MODEL_ID: string := "ki-assist-custom"

  /** The catalog entry of the preference store: absent (empty text), text the JSON library
      rejects, or a list of records. */
  datatype StoredCatalog = NoCatalog | Malformed | Parsed(records: seq<ModelRecord>)

  /** The six models installed when there is no usable catalog, as built by the five-argument
      constructor. */
  function DefaultCatalog(): seq<ModelSettings>
  {
    var api := "https://api.openai.com/v1/chat/completions";
    var anthropic := "https://api.anthropic.com/v1/messages";
    [ Default(CUSTOM_MODEL_ID, "ki-assist-custom", "KI Assist (커스텀)", "http://114.207.145.84:8000/chat", "API_KEY"),
      Default("gpt-3.5-turbo", "gpt-3.5-turbo", "GPT-3.5-turbo", api, ""),
      Default("gpt-4", "gpt-4", "GPT-4", api, ""),
      Default("claude-3-haiku", "claude-3-haiku-20240307", "Claude-3-haiku", anthropic, ""),
      Default("claude-3-sonnet", "claude-3-sonnet-20240229", "Claude-3-sonnet", anthropic, ""),
      Default("gemini-pro", "gemini-pro", "Gemini-Pro",
              "https://generativelanguage.googleapis.com/v1/models/gemini-pro:generateContent", "") ]
  }

  /** The default catalog has six entries with distinct ids, the custom endpoint first, each
      as the five-argument constructor builds it. */
  lemma DefaultCatalogShape()
    ensures var r := DefaultCatalog();
      && |r| == 6
      && r[0].id == CUSTOM_MODEL_ID
      && (forall i, j :: 0 <= i < j < |r| ==> r[i].id != r[j].id)
      && (forall i :: 0 <= i < |r| ==> r[i] == Default(r[i].id, r[i].name, r[i].displayName, r[i].apiUrl, r[i].apiKey))
  {
  }

  /** The settings the five-argument ModelConfig constructor produces. */
  function Default(id: string, name: string, displayName: string, apiUrl: string, apiKey: string): ModelSettings
  {
    ModelSettings(id, name, displayName, apiUrl, apiKey, name, DEFAULT_MAX_TOKENS, DEFAULT_TEMPERATURE, true)
  }

  /** The current settings of each model, in list order. */
  function Snapshots(ms: seq<ModelConfig>): (r: seq<ModelSettings>)
    reads ms
    ensures |r| == |ms|
    ensures forall i :: 0 <= i < |ms| ==> r[i] == ms[i].Settings()
  {
    if ms == [] then [] else Snapshots(ms[..|ms| - 1]) + [ms[|ms| - 1].Settings()]
  }

  /** The snapshots of a six-model list, element by element. */
  lemma SnapshotsOfSix(ms: seq<ModelConfig>, ss: seq<ModelSettings>)
    requires |ms| == |ss| == 6
    requires ms[0].Settings() == ss[0] && ms[1].Settings() == ss[1] && ms[2].Settings() == ss[2]
    requires ms[3].Settings() == ss[3] && ms[4].Settings() == ss[4] && ms[5].Settings() == ss[5]
    ensures Snapshots(ms) == ss
  {
  }

  /** The records saveModels writes, one per model, in list order. */
  function ToRecords(ss: seq<ModelSettings>): (r: seq<ModelRecord>)
    ensures |r| == |ss|
    ensures forall i :: 0 <= i < |ss| ==> r[i] == ToRecord(ss[i])
  {
    if ss == [] then [] else ToRecords(ss[..|ss| - 1]) + [ToRecord(ss[|ss| - 1])]
  }

  /** The settings parseModelsFromJson builds, one per record, in catalog order. */
  function FromRecords(rs: seq<ModelRecord>): (r: seq<ModelSettings>)
    ensures |r| == |rs|
    ensures forall i :: 0 <= i < |rs| ==> r[i] == FromRecord(rs[i])
  {
    if rs == [] then [] else FromRecords(rs[..|rs| - 1]) + [FromRecord(rs[|rs| - 1])]
  }

  /** What is saved loads back as the same settings, model by model. */
  lemma SaveLoadRoundTrip(ss: seq<ModelSettings>)
    ensures FromRecords(ToRecords(ss)) == ss
  {
    var back := FromRecords(ToRecords(ss));
    forall i | 0 <= i < |ss|
      ensures back[i] == ss[i]
    {
      RecordRoundTrip(ss[i]);
    }
  }

  /** The field a lookup compares. */
  datatype LookupKey = ById | ByDisplayName

  function KeyOf(c: ModelConfig, key: LookupKey): string
    reads c
  {
    match key
    case ById => c.id
    case ByDisplayName => c.displayName
  }

  /** The index of the first model whose `key` field equals `value`, or -1 when none does. */
  function FirstIndex(ms: seq<ModelConfig>, key: LookupKey, value: string): (r: int)
    reads ms
    ensures -1 <= r < |ms|
    ensures r == -1 ==> forall i :: 0 <= i < |ms| ==> KeyOf(ms[i], key) != value
    ensures 0 <= r ==> KeyOf(ms[r], key) == value
    ensures 0 <= r ==> forall i :: 0 <= i < r ==> KeyOf(ms[i], key) != value
  {
    if ms == [] then -1
    else if KeyOf(ms[0], key) == value then 0
    else
      var t := FirstIndex(ms[1..], key, value);
      if t == -1 then -1 else t + 1
  }

  /** The index where a scan stops is the first match. */
  lemma FirstIndexAt(ms: seq<ModelConfig>, key: LookupKey, value: string, i: int)
    requires 0 <= i < |ms| && KeyOf(ms[i], key) == value
    requires forall k :: 0 <= k < i ==> KeyOf(ms[k], key) != value
    ensures FirstIndex(ms, key, value) == i
  {
  }

  /** The enabled models, in list order. */
  function EnabledOf(ms: seq<ModelConfig>): (r: seq<ModelConfig>)
    reads ms
    ensures forall i :: 0 <= i < |r| ==> r[i].enabled
    ensures forall i :: 0 <= i < |ms| && ms[i].enabled ==> ms[i] in r
    ensures forall i :: 0 <= i < |r| ==> r[i] in ms
    ensures |r| <= |ms|
  {
    if ms == [] then []
    else
      var init := EnabledOf(ms[..|ms| - 1]);
      var last := ms[|ms| - 1];
      assert forall i :: 0 <= i < |ms| - 1 ==> ms[..|ms| - 1][i] == ms[i];
      if last.enabled then init + [last] else init
  }

  /** Skipping a disabled model and keeping an enabled one, in order. */
  lemma EnabledOfAppend(ms: seq<ModelConfig>, m: ModelConfig)
    ensures EnabledOf(ms + [m]) == if m.enabled then EnabledOf(ms) + [m] else EnabledOf(ms)
  {
    assert (ms + [m])[..|ms|] == ms;
  }

  /** The enabled filter keeps the list order: it is the list with the disabled models
      deleted. */
  lemma {:induction false} EnabledOfOrdered(ms: seq<ModelConfig>)
    ensures Subsequence(EnabledOf(ms), ms)
  {
    if ms != [] {
      var init, last := ms[..|ms| - 1], ms[|ms| - 1];
      EnabledOfOrdered(init);
      assert ms == init + [last];
      if last.enabled {
        SubsequenceSnoc(EnabledOf(init), init, last);
      } else {
        SubsequenceExtend(EnabledOf(init), init, last);
      }
    }
  }

  /** The filter keeps one model per enabled position of the list. */
  lemma {:induction false} EnabledOfCount(ms: seq<ModelConfig>)
    ensures |EnabledOf(ms)| == |set i | 0 <= i < |ms| && ms[i].enabled|
  {
    var here := set i | 0 <= i < |ms| && ms[i].enabled;
    if ms == [] {
      assert here == {};
    } else {
      var init, last := ms[..|ms| - 1], ms[|ms| - 1];
      EnabledOfCount(init);
      var before := set i | 0 <= i < |init| && init[i].enabled;
      if last.enabled {
        assert here == before + {|ms| - 1};
      } else {
        assert here == before;
      }
    }
  }

  /** The display names of `ms`, in order. */
  function DisplayNames(ms: seq<ModelConfig>): (r: seq<string>)
    reads ms
    ensures |r| == |ms|
    ensures forall i :: 0 <= i < |ms| ==> r[i] == ms[i].displayName
  {
    if ms == [] then [] else DisplayNames(ms[..|ms| - 1]) + [ms[|ms| - 1].displayName]
  }

  /** No two models share an id. */
  predicate UniqueIds(ms: seq<ModelConfig>)
    reads ms
  {
    forall i, j :: 0 <= i < j < |ms| ==> ms[i].id != ms[j].id
  }

  /** With unique ids, deleting the first model with `id` leaves none with that id. */
  lemma RemovedIdAbsent(ms: seq<ModelConfig>, id: string)
    requires UniqueIds(ms)
    ensures var i := FirstIndex(ms, ById, id);
            0 <= i ==> FirstIndex(ms[..i] + ms[i + 1..], ById, id) == -1
  {
    var i := FirstIndex(ms, ById, id);
    if 0 <= i {
      var rest := ms[..i] + ms[i + 1..];
      forall k | 0 <= k < |rest|
        ensures rest[k].id != id
      {
        if k < i {
          assert rest[k] == ms[k];
        } else {
          assert rest[k] == ms[k + 1];
          assert ms[i].id != ms[k + 1].id;
        }
      }
    }
  }

  /** ModelConfigManager, constructed explicitly; `stored` stands for the catalog entry of the
      preference store, which saveModels rewrites. */
  class ModelRegistry {
    var models: seq<ModelConfig>
    var stored: StoredCatalog

    /** The catalog as saveModels writes it for the current list. */
    predicate Saved()
      reads this, models
    {
      stored == Parsed(ToRecords(Snapshots(models)))
    }

    /** The constructor with loadModels: an absent catalog or one that fails to parse installs
        and saves the defaults; a parsed catalog is loaded with field defaulting and not saved. */
    constructor (catalog: StoredCatalog)
      ensures catalog.Parsed? ==> Snapshots(models) == FromRecords(catalog.records) && stored == catalog
      ensures !catalog.Parsed? ==> Snapshots(models) == DefaultCatalog() && Saved()
    {
      models := [];
      stored := catalog;
      new;
      if catalog.Parsed? {
        ParseModels(catalog.records);
      } else {
        InitializeDefaultModels();
      }
    }

    /** initializeDefaultModels: the list becomes the six default models, then it is saved. */
    method InitializeDefaultModels()
      modifies this
      ensures Snapshots(models) == DefaultCatalog()
      ensures Saved()
    {
      models := NewDefaults();
      SaveModels();
    }

    /** The six default models, each built with the five-argument constructor. */
    static method NewDefaults() returns (models: seq<ModelConfig>)
      ensures Snapshots(models) == DefaultCatalog()
      ensures forall i :: 0 <= i < |models| ==> fresh(models[i])
    {
      var custom := new ModelConfig.Create(CUSTOM_MODEL_ID, "ki-assist-custom", "KI Assist (커스텀)",
        "http://114.207.145.84:8000/chat", "API_KEY");
      var gpt35 := new ModelConfig.Create("gpt-3.5-turbo", "gpt-3.5-turbo", "GPT-3.5-turbo",
        "https://api.openai.com/v1/chat/completions", "");
      var gpt4 := new ModelConfig.Create("gpt-4", "gpt-4", "GPT-4",
        "https://api.openai.com/v1/chat/completions", "");
      var haiku := new ModelConfig.Create("claude-3-haiku", "claude-3-haiku-20240307", "Claude-3-haiku",
        "https://api.anthropic.com/v1/messages", "");
      var sonnet := new ModelConfig.Create("claude-3-sonnet", "claude-3-sonnet-20240229", "Claude-3-sonnet",
        "https://api.anthropic.com/v1/messages", "");
      var gemini := new ModelConfig.Create("gemini-pro", "gemini-pro", "Gemini-Pro",
        "https://generativelanguage.googleapis.com/v1/models/gemini-pro:generateContent", "");
      var ms := [custom, gpt35, gpt4, haiku, sonnet, gemini];
      assert forall i :: 0 <= i < |ms| ==> fresh(ms[i]);
      SnapshotsOfSix(ms, DefaultCatalog());
      models := ms;
    }

    /** parseModelsFromJson over well-formed records: one new model per record, each field
        taken from the record or defaulted. The catalog is not rewritten. */
    method ParseModels(records: seq<ModelRecord>)
      modifies this
      ensures Snapshots(models) == FromRecords(records)
      ensures stored == old(stored)
      ensures forall i :: 0 <= i < |models| ==> fresh(models[i])
    {
      models := [];
      for i := 0 to |records|
        invariant |models| == i
        invariant forall k :: 0 <= k < i ==> fresh(models[k]) && models[k].Settings() == FromRecord(records[k])
        invariant stored == old(stored)
      {
        var model := ParseModel(records[i]);
        models := models + [model];
      }
    }

    /** The body of the parse loop: a no-argument ModelConfig, then each setter with the
        record's value or its default. */
    static method ParseModel(r: ModelRecord) returns (model: ModelConfig)
      ensures fresh(model)
      ensures model.Settings() == FromRecord(r)
    {
      model := new ModelConfig();
      model.SetId(r.id.GetOr(""));
      model.SetName(r.name.GetOr(""));
      model.SetDisplayName(r.displayName.GetOr(""));
      model.SetApiUrl(r.apiUrl.GetOr(""));
      model.SetApiKey(r.apiKey.GetOr(""));
      model.SetModelName(r.modelName.GetOr(""));
      model.SetMaxTokens(r.maxTokens.GetOr(DEFAULT_MAX_TOKENS));
      model.SetTemperature(r.temperature.GetOr(DEFAULT_TEMPERATURE));
      model.SetEnabled(r.enabled.GetOr(true));
    }

    /** saveModels: one record per model with every field, in list order. */
    method SaveModels()
      modifies this`stored
      ensures Saved()
    {
      var records := RecordsOf(models);
      stored := Parsed(records);
    }

    /** The record of each model, in list order. */
    static method RecordsOf(ms: seq<ModelConfig>) returns (records: seq<ModelRecord>)
      ensures records == ToRecords(Snapshots(ms))
    {
      ghost var saved := ToRecords(Snapshots(ms));
      records := [];
      for i := 0 to |ms|
        invariant |records| == i
        invariant forall k :: 0 <= k < i ==> records[k] == saved[k]
      {
        records := records + [ToRecord(ms[i].Settings())];
      }
      assert records == saved;
    }

    /** getAllModels: a new list with the same models in the same order. */
    method GetAllModels() returns (all: seq<ModelConfig>)
      ensures all == models
    {
      all := models;
    }

    /** getEnabledModels: the enabled models, in list order. */
    method GetEnabledModels() returns (enabled: seq<ModelConfig>)
      ensures enabled == EnabledOf(models)
    {
      enabled := [];
      for i := 0 to |models|
        invariant enabled == EnabledOf(models[..i])
      {
        assert models[..i + 1] == models[..i] + [models[i]];
        EnabledOfAppend(models[..i], models[i]);
        if models[i].enabled {
          enabled := enabled + [models[i]];
        }
      }
      assert models[..|models|] == models;
    }

    /** getModelById: the first model with this id, or none. */
    method GetModelById(id: string) returns (found: Option<ModelConfig>)
      ensures var i := FirstIndex(models, ById, id);
              found == if i < 0 then None else Some(models[i])
    {
      found := Find(ById, id);
    }

    /** getModelByDisplayName: the first model with this display name, or none. */
    method GetModelByDisplayName(displayName: string) returns (found: Option<ModelConfig>)
      ensures var i := FirstIndex(models, ByDisplayName, displayName);
              found == if i < 0 then None else Some(models[i])
    {
      found := Find(ByDisplayName, displayName);
    }

    /** The scan both lookups share: return at the first match. */
    method Find(key: LookupKey, value: string) returns (found: Option<ModelConfig>)
      ensures var i := FirstIndex(models, key, value);
              found == if i < 0 then None else Some(models[i])
    {
      for i := 0 to |models|
        invariant forall k :: 0 <= k < i ==> KeyOf(models[k], key) != value
      {
        if KeyOf(models[i], key) == value {
          return Some(models[i]);
        }
      }
      return None;
    }

    /** addModel: append at the end, then save. */
    method AddModel(model: ModelConfig)
      modifies this
      ensures models == old(models) + [model]
      ensures Saved()
    {
      models := models + [model];
      SaveModels();
    }

    /** updateModel: the first model with the same id is replaced at its index and the list
        saved; with no such model nothing changes and nothing is saved. */
    method UpdateModel(updated: ModelConfig)
      modifies this
      ensures var i := FirstIndex(old(models), ById, updated.id);
              if i < 0 then models == old(models) && stored == old(stored)
              else models == old(models)[i := updated] && Saved()
    {
      for i := 0 to |models|
        invariant models == old(models) && stored == old(stored)
        invariant forall k :: 0 <= k < i ==> KeyOf(models[k], ById) != updated.id
      {
        if models[i].id == updated.id {
          FirstIndexAt(models, ById, updated.id, i);
          ReplaceAt(i, updated);
          return;
        }
      }
      assert FirstIndex(models, ById, updated.id) == -1;
    }

    /** removeModel: the first model with this id is deleted, the rest keep their order, and
        the list is saved; with no such model nothing changes and nothing is saved. */
    method RemoveModel(id: string)
      modifies this
      ensures var i := FirstIndex(old(models), ById, id);
              if i < 0 then models == old(models) && stored == old(stored)
              else models == old(models)[..i] + old(models)[i + 1..] && Saved()
    {
      for i := 0 to |models|
        invariant models == old(models) && stored == old(stored)
        invariant forall k :: 0 <= k < i ==> KeyOf(models[k], ById) != id
      {
        if models[i].id == id {
          FirstIndexAt(models, ById, id, i);
          RemoveAt(i);
          return;
        }
      }
      assert FirstIndex(models, ById, id) == -1;
    }

    /** `models.set(i, …)` followed by saveModels. */
    method ReplaceAt(i: nat, updated: ModelConfig)
      requires i < |models|
      modifies this
      ensures models == old(models)[i := updated] && Saved()
    {
      models := models[i := updated];
      SaveModels();
    }

    /** `models.remove(i)` followed by saveModels. */
    method RemoveAt(i: nat)
      requires i < |models|
      modifies this
      ensures models == old(models)[..i] + old(models)[i + 1..] && Saved()
    {
      models := models[..i] + models[i + 1..];
      SaveModels();
    }

    /** getModelDisplayNames: the display names of the enabled models, in list order. */
    method GetModelDisplayNames() returns (names: seq<string>)
      ensures names == DisplayNames(EnabledOf(models))
    {
      var enabled := GetEnabledModels();
      names := [];
      for i := 0 to |enabled|
        invariant names == DisplayNames(enabled[..i])
      {
        assert enabled[..i + 1] == enabled[..i] + [enabled[i]];
        names := names + [enabled[i].displayName];
      }
      assert enabled[..|enabled|] == enabled;
    }
  }
}
