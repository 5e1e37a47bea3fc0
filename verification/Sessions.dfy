/** Creating and resuming a session (src/application/session_service.rs). */
module Sessions {
  import opened Domain
  import opened Ledger
  import opened Context
  import opened Runtime
  import opened Resume
  import opened Outside

  /** What creating a session ends in, when it does not succeed: the model is unknown, the memories cannot be listed,
      the SessionStart hook does not pass, or the storage refuses one of the two bootstrap records. */
  ghost function CreationError(known: bool, memoriesLoaded: bool, verdict: HookVerdict, refusedFirst: bool,
                               refusedSecond: bool): Option<AgentError> {
    if !known then Some(ModelNotSupported)
    else if !memoriesLoaded then Some(StorageError)
    else if verdict.HookAborted? then Some(PluginAborted)
    else if verdict.HookBroken? then Some(ContractViolation)
    else if refusedFirst || refusedSecond then Some(StorageError)
    else None
  }

  /** Creates a runtime and writes its two bootstrap records. `memoriesLoaded` tells whether the memories could be
      listed, `verdict` how the SessionStart hook ended. A session that could be created satisfies the session
      invariant, and its storage mirrors it; one that could not has left at most its first record. */
  method NewSession(storage: SessionStorage, config: SessionConfig, agent: AgentDefaults, memoriesLoaded: bool,
                    verdict: HookVerdict)
    returns (r: Result<SessionRuntime, AgentError>)
    requires storage.saved == []
    modifies storage
    ensures
      var modelId := if config.modelId.None? then agent.defaultModel else config.modelId.value;
      var error := CreationError(modelId in agent.windows, memoriesLoaded, verdict,
                                 storage.refuses(old(storage.attempts)), storage.refuses(old(storage.attempts) + 1));
      && (r.Ok? <==> error.None?) && (r.Err? ==> error == Some(r.error))
      && (r.Err? ==> |storage.saved| <= 1)
      && (modelId !in agent.windows || !memoriesLoaded || verdict != HookPassed ==>
            storage.saved == [] && storage.attempts == old(storage.attempts))
    ensures r.Ok? ==>
              && fresh(r.value) && fresh(r.value.ledger) && fresh(r.value.contextManager) && r.value.Numbered()
              && Mirrored(World(r.value.View(), storage.saved), agent)
              && r.value.modelId == (if config.modelId.None? then agent.defaultModel else config.modelId.value)
              && r.value.systemPromptOverride == config.systemPromptOverride
              && RawMessages(r.value.View().events) == []
  {
    hide *;
    Creation(storage);
    var modelId := if config.modelId.None? then agent.defaultModel else config.modelId.value;
    if modelId !in agent.windows {
      return Err(ModelNotSupported);
    }
    if !memoriesLoaded {
      return Err(StorageError);
    }
    var runtime := new SessionRuntime(modelId, config.systemPromptOverride, agent.memoryNamespace,
                                      agent.windows[modelId]);
    if verdict != HookPassed {
      return Err(if verdict.HookAborted? then PluginAborted else ContractViolation);
    }
    Bootstrapped(modelId, config.systemPromptOverride, agent);
    var resolved := SessionConfig(Some(modelId), config.systemPromptOverride);
    var stored := runtime.PersistAndProject(storage, Metadata(SessionConfigKey, ConfigValue(resolved)));
    Creation(storage);
    if stored.Err? {
      return Err(stored.error);
    }
    stored := runtime.PersistAndProject(storage, Metadata(MemoryNamespaceKey, NamespaceValue(agent.memoryNamespace)));
    Creation(storage);
    if stored.Err? {
      return Err(stored.error);
    }
    RuntimeFields(runtime);
    r := Ok(runtime);
  }

  lemma Creation(storage: SessionStorage)
    ensures storage.attempts > 0 ==> storage.Refused() == storage.refuses(storage.attempts - 1)
    ensures forall known, memoriesLoaded, verdict, first, second ::
              CreationError(known, memoriesLoaded, verdict, first, second)
              == if !known then Some(ModelNotSupported)
                 else if !memoriesLoaded then Some(StorageError)
                 else if verdict == HookAborted then Some(PluginAborted)
                 else if verdict == HookBroken then Some(ContractViolation)
                 else if first || second then Some(StorageError)
                 else None
  {
  }

  lemma Bootstrapped(modelId: string, override: Option<string>, agent: AgentDefaults)
    requires modelId in agent.windows
    ensures
      var config := Metadata(SessionConfigKey, ConfigValue(SessionConfig(Some(modelId), override)));
      var namespace := Metadata(MemoryNamespaceKey, NamespaceValue(agent.memoryNamespace));
      var first := NewRuntime(modelId, override, agent.memoryNamespace, agent.windows[modelId]);
      var second := Append(first, config);
      var third := Append(second, namespace);
      && first.events == []
      && Decodes(config) && Decodes(namespace)
      && Mirrored(World(third, [] + [LedgerEvent(first.nextSeq, config)] + [LedgerEvent(second.nextSeq, namespace)]),
                  agent)
      && RawMessages(third.events) == []
      && third.modelId == modelId && third.systemPromptOverride == override
  {
    hide SessionInvariant;
    NewSessionInvariant(modelId, override, agent);
    NoEvents();
    var config := LedgerEvent(1, Metadata(SessionConfigKey, ConfigValue(SessionConfig(Some(modelId), override))));
    RawSnoc([], config);
    RawSnoc([config], LedgerEvent(2, Metadata(MemoryNamespaceKey, NamespaceValue(agent.memoryNamespace))));
  }

  lemma RuntimeFields(runtime: SessionRuntime)
    ensures runtime.View().modelId == runtime.modelId
    ensures runtime.View().systemPromptOverride == runtime.systemPromptOverride
  {
  }

  /** How loading a stored session ends. */
  datatype Loading = Loaded | LoadFailed | NotStored

  /** Resumes from what the storage holds. It succeeds exactly when the log could be loaded and restored and the
      memories could be listed, and the resumed runtime is then the restored state. */
  method ResumeSession(storage: SessionStorage, agent: AgentDefaults, loading: Loading, memoriesLoaded: bool)
    returns (r: Result<SessionRuntime, AgentError>)
    ensures r.Ok? <==> loading.Loaded? && memoriesLoaded && Restore(storage.saved, agent).Ok?
    ensures r.Ok? ==>
              && fresh(r.value) && fresh(r.value.ledger) && fresh(r.value.contextManager) && r.value.Numbered()
              && Restore(storage.saved, agent) == Ok(r.value.View())
    ensures r.Err? ==>
              r.error == match loading
                         case LoadFailed => StorageError
                         case NotStored => NoSuchSession
                         case Loaded =>
                           if Restore(storage.saved, agent).Err? then Restore(storage.saved, agent).error
                           else StorageError
  {
    hide LatestMetadata, CountUserMessages, Rebuild, EstimateTokens;
    match loading {
      case LoadFailed => return Err(StorageError);
      case NotStored => return Err(NoSuchSession);
      case Loaded =>
    }
    var ledger := new SessionLedger.FromEvents(storage.saved);
    var settings := RestoreSettings(ledger.events, agent);
    if settings.Err? {
      return Err(settings.error);
    }
    if settings.value.modelId !in agent.windows {
      return Err(ModelNotSupported);
    }
    if !memoriesLoaded {
      return Err(StorageError);
    }
    var s := settings.value;
    r := SessionRuntime.FromLedger(s.modelId, s.systemPromptOverride, s.memoryNamespace, ledger,
                                   agent.windows[s.modelId], CountUserMessages(ledger.events), s.checkpointSeq);
  }
}
