/** The model registry an agent is built with, and why a started turn always finds its dependencies
    (src/api/builder.rs, src/api/agent.rs, src/api/session.rs). */
module Registry {
  import opened Domain

  datatype Model = Model(id: string, contextWindow: nat)

  datatype ProviderOffer = ProviderOffer(id: string, models: seq<Model>)

  datatype RegisteredModel = RegisteredModel(providerId: string, contextWindow: nat)

  datatype ModelRegistry = ModelRegistry(providers: set<string>, models: map<string, RegisteredModel>)

  datatype ModelConfig = ModelConfig(defaultModel: string, compactModel: Option<string>, memoryModel: Option<string>)

  datatype RegistryError =
    | ProviderConflict(id: string)
    | ModelConflict(id: string)
    | InvalidDefaultModel(id: string)
    | InvalidModelConfig(id: string)
    | UnknownModel(id: string)
    | ProviderNotRegistered(id: string)

  // ---------------------------------------------------------------- building

  /** One model as one provider offers it. */
  datatype Entry = Entry(providerId: string, model: Model)

  function EntriesOf(provider: ProviderOffer, n: nat): seq<Entry>
    requires n <= |provider.models|
  {
    seq(n, i requires 0 <= i < n => Entry(provider.id, provider.models[i]))
  }

  /** Every model offered, in registration order. */
  function Listed(providers: seq<ProviderOffer>): seq<Entry> {
    if providers == [] then []
    else
      var last := providers[|providers| - 1];
      Listed(providers[..|providers| - 1]) + EntriesOf(last, |last.models|)
  }

  ghost predicate UniqueProviders(providers: seq<ProviderOffer>) {
    forall i, j :: 0 <= i < j < |providers| ==> providers[i].id != providers[j].id
  }

  ghost predicate UniqueModels(entries: seq<Entry>) {
    forall i, j :: 0 <= i < j < |entries| ==> entries[i].model.id != entries[j].model.id
  }

  ghost predicate RepeatedProvider(providers: seq<ProviderOffer>, id: string) {
    exists i, j :: 0 <= i < j < |providers| && providers[i].id == id && providers[j].id == id
  }

  ghost predicate RepeatedModel(entries: seq<Entry>, id: string) {
    exists i, j :: 0 <= i < j < |entries| && entries[i].model.id == id && entries[j].model.id == id
  }

  /** The map holds exactly these entries. */
  ghost predicate Registers(models: map<string, RegisteredModel>, entries: seq<Entry>) {
    && (forall k :: 0 <= k < |entries| ==>
          && entries[k].model.id in models
          && models[entries[k].model.id] == RegisteredModel(entries[k].providerId, entries[k].model.contextWindow))
    && (forall id :: id in models ==> exists k :: 0 <= k < |entries| && entries[k].model.id == id)
  }

  ghost predicate ProvidersAre(ids: set<string>, providers: seq<ProviderOffer>) {
    forall id :: id in ids <==> exists i :: 0 <= i < |providers| && providers[i].id == id
  }

  /** Every registered model belongs to a registered provider. */
  ghost predicate Linked(registry: ModelRegistry) {
    forall id :: id in registry.models ==> registry.models[id].providerId in registry.providers
  }

  lemma {:induction false} ListedGrows(providers: seq<ProviderOffer>, i: nat, n: nat)
    requires i < |providers| && n <= |providers[i].models|
    ensures Listed(providers[..i]) + EntriesOf(providers[i], n) <= Listed(providers)
    decreases |providers|
  {
    var init, last := providers[..|providers| - 1], providers[|providers| - 1];
    if i == |init| {
      assert providers[..i] == init;
      assert EntriesOf(last, n) <= EntriesOf(last, |last.models|);
    } else {
      ListedGrows(init, i, n);
      assert init[..i] == providers[..i];
    }
  }

  lemma RegisterOne(models: map<string, RegisteredModel>, entries: seq<Entry>, entry: Entry)
    requires Registers(models, entries) && UniqueModels(entries) && entry.model.id !in models
    ensures Registers(models[entry.model.id := RegisteredModel(entry.providerId, entry.model.contextWindow)],
                      entries + [entry])
    ensures UniqueModels(entries + [entry])
  {
    var longer := entries + [entry];
    assert longer[|entries|] == entry;
    assert forall k :: 0 <= k < |entries| ==> longer[k] == entries[k];
  }

  lemma Conflict(models: map<string, RegisteredModel>, entries: seq<Entry>, entry: Entry, whole: seq<Entry>)
    requires Registers(models, entries) && entry.model.id in models && entries + [entry] <= whole
    ensures !UniqueModels(whole) && RepeatedModel(whole, entry.model.id)
  {
    var k :| 0 <= k < |entries| && entries[k].model.id == entry.model.id;
    assert whole[k] == (entries + [entry])[k] && whole[|entries|] == (entries + [entry])[|entries|];
  }

  lemma AllLinked(registry: ModelRegistry, providers: seq<ProviderOffer>)
    requires ProvidersAre(registry.providers, providers) && Registers(registry.models, Listed(providers))
    ensures Linked(registry)
  {
    forall id | id in registry.models ensures registry.models[id].providerId in registry.providers {
      var k :| 0 <= k < |Listed(providers)| && Listed(providers)[k].model.id == id;
      var i := ListedBy(providers, k);
    }
  }

  lemma {:induction false} ListedBy(providers: seq<ProviderOffer>, k: nat) returns (i: nat)
    requires k < |Listed(providers)|
    ensures i < |providers| && providers[i].id == Listed(providers)[k].providerId
  {
    var init := providers[..|providers| - 1];
    if k < |Listed(init)| {
      i := ListedBy(init, k);
    } else {
      i := |init|;
    }
  }

  lemma ProviderAdded(ids: set<string>, providers: seq<ProviderOffer>, i: nat)
    requires i < |providers| && ProvidersAre(ids, providers[..i]) && UniqueProviders(providers[..i])
    ensures providers[i].id in ids ==> !UniqueProviders(providers) && RepeatedProvider(providers, providers[i].id)
    ensures providers[i].id !in ids ==> UniqueProviders(providers[..i + 1])
    ensures ProvidersAre(ids + {providers[i].id}, providers[..i + 1])
  {
    var shorter, longer := providers[..i], providers[..i + 1];
    assert longer == shorter + [providers[i]] && longer[i] == providers[i];
    assert forall k :: 0 <= k < i ==> longer[k] == shorter[k] == providers[k];
  }

  /** Registers providers and their models in order; succeeds if and only if no provider and no model is
      registered twice, and then every model leads to a provider. */
  method BuildModelRegistry(providers: seq<ProviderOffer>) returns (r: Result<ModelRegistry, RegistryError>)
    ensures r.Ok? <==> UniqueProviders(providers) && UniqueModels(Listed(providers))
    ensures r.Ok? ==> ProvidersAre(r.value.providers, providers) && Registers(r.value.models, Listed(providers))
    ensures r.Ok? ==> Linked(r.value)
    ensures r.Err? ==>
              || (r.error.ProviderConflict? && RepeatedProvider(providers, r.error.id))
              || (r.error.ModelConflict? && RepeatedModel(Listed(providers), r.error.id))
  {
    hide Registers, UniqueModels, UniqueProviders, ProvidersAre, Linked;
    var ids: set<string>, models: map<string, RegisteredModel> := {}, map[];
    NothingRegistered(providers);
    for i := 0 to |providers|
      invariant ProvidersAre(ids, providers[..i]) && UniqueProviders(providers[..i])
      invariant Registers(models, Listed(providers[..i])) && UniqueModels(Listed(providers[..i]))
    {
      var provider := providers[i];
      ProviderAdded(ids, providers, i);
      if provider.id in ids {
        return Err(ProviderConflict(provider.id));
      }
      assert Listed(providers[..i]) + EntriesOf(provider, 0) == Listed(providers[..i]);
      for n := 0 to |provider.models|
        invariant Registers(models, Listed(providers[..i]) + EntriesOf(provider, n))
        invariant UniqueModels(Listed(providers[..i]) + EntriesOf(provider, n))
      {
        ghost var entries, entry := Listed(providers[..i]) + EntriesOf(provider, n),
            Entry(provider.id, provider.models[n]);
        assert entries + [entry] == Listed(providers[..i]) + EntriesOf(provider, n + 1);
        if provider.models[n].id in models {
          ListedGrows(providers, i, n + 1);
          Conflict(models, entries, entry, Listed(providers));
          return Err(ModelConflict(provider.models[n].id));
        }
        RegisterOne(models, entries, entry);
        models := models[provider.models[n].id := RegisteredModel(provider.id, provider.models[n].contextWindow)];
      }
      assert providers[..i + 1][..i] == providers[..i];
      ids := ids + {provider.id};
    }
    assert providers[..|providers|] == providers;
    AllLinked(ModelRegistry(ids, models), providers);
    r := Ok(ModelRegistry(ids, models));
  }

  lemma NothingRegistered(providers: seq<ProviderOffer>)
    ensures ProvidersAre({}, providers[..0]) && UniqueProviders(providers[..0])
    ensures Registers(map[], Listed(providers[..0])) && UniqueModels(Listed(providers[..0]))
  {
  }

  predicate Known(registry: ModelRegistry, model: Option<string>) {
    model.Some? ==> model.value in registry.models
  }

  method ValidateModelConfig(config: ModelConfig, registry: ModelRegistry) returns (r: Result<(), RegistryError>)
    ensures r.Ok? <==>
              && config.defaultModel in registry.models
              && (config.compactModel.Some? ==> config.compactModel.value in registry.models)
              && (config.memoryModel.Some? ==> config.memoryModel.value in registry.models)
    ensures r.Err? ==>
              || (r.error == InvalidDefaultModel(config.defaultModel) && config.defaultModel !in registry.models)
              || (r.error.InvalidModelConfig? && r.error.id !in registry.models
                  && (config.compactModel == Some(r.error.id) || config.memoryModel == Some(r.error.id)))
  {
    if config.defaultModel !in registry.models {
      return Err(InvalidDefaultModel(config.defaultModel));
    }
    if !Known(registry, config.compactModel) {
      return Err(InvalidModelConfig(config.compactModel.value));
    }
    if !Known(registry, config.memoryModel) {
      return Err(InvalidModelConfig(config.memoryModel.value));
    }
    r := Ok(());
  }

  /** Every model the configuration names is registered. */
  predicate Fits(config: ModelConfig, registry: ModelRegistry) {
    config.defaultModel in registry.models && Known(registry, config.compactModel)
        && Known(registry, config.memoryModel)
  }

  /** What the builder leaves behind: an immutable registry that fits its configuration. */
  ghost predicate Accepted(config: ModelConfig, registry: ModelRegistry) {
    Linked(registry) && Fits(config, registry)
  }

  method Build(config: ModelConfig, providers: seq<ProviderOffer>) returns (r: Result<ModelRegistry, RegistryError>)
    ensures r.Ok? ==> Accepted(config, r.value) && Registers(r.value.models, Listed(providers))
    ensures r.Ok? ==> UniqueProviders(providers) && UniqueModels(Listed(providers))
  {
    var built := BuildModelRegistry(providers);
    if built.Err? {
      return built;
    }
    var valid := ValidateModelConfig(config, built.value);
    r := if valid.Ok? then built else Err(valid.error);
  }

  // ---------------------------------------------------------------- using

  function ResolveModel(registry: ModelRegistry, modelId: string): Result<RegisteredModel, RegistryError> {
    if modelId in registry.models then Ok(registry.models[modelId]) else Err(UnknownModel(modelId))
  }

  function ResolveProvider(registry: ModelRegistry, modelId: string): Result<string, RegistryError> {
    var model := ResolveModel(registry, modelId);
    if model.Err? then Err(model.error)
    else if model.value.providerId !in registry.providers then Err(ProviderNotRegistered(model.value.providerId))
    else Ok(model.value.providerId)
  }

  function OrElse(model: Option<string>, fallback: string): string {
    if model.Some? then model.value else fallback
  }

  /** The providers a turn works with; `memory` only with a memory storage. */
  datatype TurnDeps = TurnDeps(provider: string, compactProvider: string, memory: Option<string>)

  /** The model is registered and leads to a registered provider. */
  ghost predicate Leads(registry: ModelRegistry, modelId: string) {
    modelId in registry.models && registry.models[modelId].providerId in registry.providers
  }

  method BuildTurnEngineDeps(config: ModelConfig, registry: ModelRegistry, modelId: string, memoryStorage: bool)
    returns (r: Result<TurnDeps, RegistryError>)
    ensures
      var compact := if config.compactModel.Some? then config.compactModel.value else modelId;
      var memory := if config.memoryModel.Some? then config.memoryModel.value else modelId;
      && (r.Ok? <==> Leads(registry, modelId) && Leads(registry, compact) && (memoryStorage ==> Leads(registry, memory)))
      && (r.Ok? ==>
            && r.value.provider == registry.models[modelId].providerId
            && r.value.compactProvider == registry.models[compact].providerId
            && r.value.memory == if memoryStorage then Some(registry.models[memory].providerId) else None)
    ensures Accepted(config, registry) && modelId in registry.models ==> r.Ok?
  {
    var provider := ResolveProvider(registry, modelId);
    if provider.Err? {
      return Err(provider.error);
    }
    var compactModel := OrElse(config.compactModel, modelId);
    var compact := ResolveModel(registry, compactModel);
    if compact.Err? {
      return Err(compact.error);
    }
    var compactProvider := ResolveProvider(registry, compactModel);
    if compactProvider.Err? {
      return Err(compactProvider.error);
    }
    if !memoryStorage {
      return Ok(TurnDeps(provider.value, compactProvider.value, None));
    }
    var memory := ResolveProvider(registry, OrElse(config.memoryModel, modelId));
    if memory.Err? {
      return Err(memory.error);
    }
    r := Ok(TurnDeps(provider.value, compactProvider.value, Some(memory.value)));
  }

  /** What `send_message` does with the registry before and after it takes the turn state. `started` tells
      whether the turn state was taken: on an agent the builder accepted, a started turn always gets its
      dependencies, so it is always spawned. */
  method PrepareTurn(config: ModelConfig, registry: ModelRegistry, modelId: string, memoryStorage: bool,
                     startable: bool)
    returns (started: bool, deps: Option<TurnDeps>)
    requires Accepted(config, registry)
    ensures started <==> modelId in registry.models && startable
    ensures started <==> deps.Some?
    ensures started ==>
              && deps.value.provider == registry.models[modelId].providerId
              && (deps.value.memory.Some? <==> memoryStorage)
  {
    if ResolveModel(registry, modelId).Err? || !startable {
      return false, None;
    }
    var built := BuildTurnEngineDeps(config, registry, modelId, memoryStorage);
    started, deps := true, Some(built.value);
  }
}
