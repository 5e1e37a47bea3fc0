/** The session runtime, its only write path, and what a restart makes of the stored log
    (src/application/session_service.rs). */
module Runtime {
  import opened Domain
  import opened Ledger
  import opened Context

  /** The fields of a `SessionRuntime`, without its event counter. */
  datatype RuntimeState = RuntimeState(
    modelId: string, systemPromptOverride: Option<string>, memoryNamespace: string,
    events: seq<LedgerEvent>, nextSeq: nat, context: ContextState, turnIndex: nat, checkpointSeq: nat)

  /** What the agent contributes to a restart: defaults, and the window of each registered model. */
  datatype AgentDefaults = AgentDefaults(defaultModel: string, memoryNamespace: string, windows: map<string, nat>)

  function NewRuntime(modelId: string, override: Option<string>, namespace: string, window: nat): RuntimeState {
    RuntimeState(modelId, override, namespace, [], 1, EmptyContext(window), 0, 0)
  }

  // ---------------------------------------------------------------- the write path as a function

  /** Applies the payload of an event that is already in the ledger. */
  function Project(rt: RuntimeState, payload: Payload): RuntimeState {
    var message := PayloadToMessage(payload);
    if message.Some? then rt.(context := Pushed(rt.context, message.value))
    else if payload.key == ContextCompactionKey && payload.value.MarkerValue? then
      rt.(context := Rebuilt(rt.events, Some(payload.value.marker), rt.context.window))
    else if payload.key == MemoryCheckpointKey && payload.value.CheckpointValue? then
      rt.(checkpointSeq := payload.value.lastSeq)
    else rt
  }

  /** Allocates the next number, appends, projects. */
  function Append(rt: RuntimeState, payload: Payload): RuntimeState {
    var event := LedgerEvent(rt.nextSeq, payload);
    Project(rt.(events := rt.events + [event], nextSeq := SaturatingInc(rt.nextSeq)), payload)
  }

  /** What appending one event changes, field by field: it is numbered and added to the ledger; a message becomes
      visible at the end, a marker rebuilds the context, a checkpoint moves the checkpoint, and nothing else changes. */
  lemma AppendMeaning(rt: RuntimeState, payload: Payload)
    ensures
      var after := Append(rt, payload);
      && after.events == rt.events + [LedgerEvent(rt.nextSeq, payload)]
      && after.nextSeq == (if rt.nextSeq < U64_MAX then rt.nextSeq + 1 else U64_MAX)
      && after.modelId == rt.modelId && after.systemPromptOverride == rt.systemPromptOverride
      && after.memoryNamespace == rt.memoryNamespace && after.turnIndex == rt.turnIndex
      && after.context.window == rt.context.window
      && match payload
         case Metadata(ContextCompactionKey, MarkerValue(marker)) =>
           && after.context.latest == Some(marker) && after.checkpointSeq == rt.checkpointSeq
           && after.context.visible == Rebuild(after.events, Some(marker))
           && after.context.tokens == EstimateTokens(after.context.visible)
         case Metadata(MemoryCheckpointKey, CheckpointValue(last)) =>
           after.checkpointSeq == last && after.context == rt.context
         case Metadata(_, _) => after.checkpointSeq == rt.checkpointSeq && after.context == rt.context
         case _ =>
           && after.context.latest == rt.context.latest && after.checkpointSeq == rt.checkpointSeq
           && after.context.tokens == EstimateTokens(after.context.visible)
           && after.context.visible == rt.context.visible + match payload
                case UserMessage(content) => [User(content)]
                case AssistantMessage(content, status) => [Assistant(content, status)]
                case ToolCalled(callId, toolName, arguments) => [ToolCall(callId, toolName, arguments)]
                case ToolReturned(callId, output) => [ToolResult(callId, output)]
                case SystemMessage(text) => [System(text)]
                case Metadata(_, _) => []
  {
    hide EstimateTokens, Rebuild;
  }

  function AppendAll(rt: RuntimeState, log: seq<Payload>): RuntimeState {
    if log == [] then rt else Append(AppendAll(rt, log[..|log| - 1]), log[|log| - 1])
  }

  /** The number of the event at this position. */
  function SequenceAt(i: nat): nat {
    if i < U64_MAX then i + 1 else U64_MAX
  }

  /** The storage is outside the kernel: it may refuse any attempt to save. */
  class SessionStorage {
    const refuses: nat -> bool
    /** The events a later `load_session` returns. */
    var saved: seq<LedgerEvent>
    var attempts: nat

    constructor (refuses: nat -> bool)
      ensures this.refuses == refuses && saved == [] && attempts == 0
    {
      this.refuses, saved, attempts := refuses, [], 0;
    }

    /** The last attempt to save was refused. */
    predicate Refused()
      reads `attempts
    {
      attempts > 0 && refuses(attempts - 1)
    }

    /** A refused event is not stored. */
    method SaveEvent(event: LedgerEvent) returns (ok: bool)
      modifies this
      ensures attempts == old(attempts) + 1 && ok == !Refused()
      ensures saved == if ok then old(saved) + [event] else old(saved)
    {
      ok := !refuses(attempts);
      attempts := attempts + 1;
      if ok {
        saved := saved + [event];
      }
    }
  }

  class SessionRuntime {
    var modelId: string
    var systemPromptOverride: Option<string>
    var memoryNamespace: string
    const ledger: SessionLedger
    const contextManager: ContextManager
    var eventSequence: nat
    var turnIndex: nat
    var lastMemoryCheckpointSeq: nat
    /** Every event this runtime has sent, over all its turns. */
    ghost var sent: seq<AgentEvent>

    ghost function View(): RuntimeState
      reads this, ledger, contextManager
    {
      RuntimeState(modelId, systemPromptOverride, memoryNamespace, ledger.events, ledger.nextSeq,
                   contextManager.View(), turnIndex, lastMemoryCheckpointSeq)
    }

    /** The events of this runtime are numbered 1, 2, 3, … over all its turns, as long as `u64` lasts. */
    ghost predicate Numbered()
      reads `eventSequence, `sent
    {
      eventSequence == SequenceAt(|sent|) && forall i :: 0 <= i < |sent| ==> sent[i].sequence == SequenceAt(i)
    }

    constructor (modelId: string, override: Option<string>, namespace: string, window: nat)
      ensures View() == NewRuntime(modelId, override, namespace, window)
      ensures eventSequence == 1 && sent == [] && Numbered() && fresh(ledger) && fresh(contextManager)
    {
      this.modelId, systemPromptOverride, memoryNamespace := modelId, override, namespace;
      ledger := new SessionLedger();
      contextManager := new ContextManager(window);
      eventSequence, turnIndex, lastMemoryCheckpointSeq := 1, 0, 0;
      sent := [];
    }

    /** Restores from a loaded ledger; fails exactly when its newest marker does not decode. */
    static method FromLedger(modelId: string, override: Option<string>, namespace: string, ledger: SessionLedger,
                             window: nat, turnIndex: nat, checkpointSeq: nat)
      returns (r: Result<SessionRuntime, AgentError>)
      ensures r.Ok? <==> LatestMarker(ledger.events).Ok?
      ensures r.Err? ==> r.error == StorageError
      ensures r.Ok? ==>
                && r.value.View() == RuntimeState(modelId, override, namespace, ledger.events, ledger.nextSeq,
                                                  Rebuilt(ledger.events, LatestMarker(ledger.events).value, window),
                                                  turnIndex, checkpointSeq)
                && r.value.eventSequence == 1 && r.value.sent == [] && r.value.Numbered()
                && fresh(r.value) && r.value.ledger == ledger && fresh(r.value.contextManager)
    {
      hide Rebuilt, LatestMarker;
      var manager := ContextManager.RebuildFromLedger(ledger, window);
      if manager.Err? {
        return Err(manager.error);
      }
      var runtime := new SessionRuntime.Restored(modelId, override, namespace, ledger, manager.value, turnIndex,
                                                 checkpointSeq);
      r := Ok(runtime);
    }

    constructor Restored(modelId: string, override: Option<string>, namespace: string, ledger: SessionLedger,
                         manager: ContextManager, turnIndex: nat, checkpointSeq: nat)
      ensures View() == RuntimeState(modelId, override, namespace, ledger.events, ledger.nextSeq, manager.View(),
                                     turnIndex, checkpointSeq)
      ensures eventSequence == 1 && sent == [] && Numbered() && this.ledger == ledger && contextManager == manager
    {
      this.modelId, systemPromptOverride, memoryNamespace := modelId, override, namespace;
      this.ledger, contextManager := ledger, manager;
      eventSequence, this.turnIndex, lastMemoryCheckpointSeq := 1, turnIndex, checkpointSeq;
      sent := [];
    }

    /** Save, then append, then project. Nothing changes when the storage refuses the event. */
    method PersistAndProject(storage: SessionStorage, payload: Payload) returns (r: Result<LedgerEvent, AgentError>)
      modifies this`lastMemoryCheckpointSeq, ledger, contextManager, storage
      ensures storage.attempts == old(storage.attempts) + 1
      ensures
        var event := LedgerEvent(old(View()).nextSeq, payload);
        if storage.Refused() then
          View() == old(View()) && storage.saved == old(storage.saved) && r == Err(StorageError)
        else
          && View() == Append(old(View()), payload) && storage.saved == old(storage.saved) + [event]
          && r == if Decodes(payload) then Ok(event) else Err(StorageError)
    {
      var event := LedgerEvent(ledger.nextSeq, payload);
      var ok := storage.SaveEvent(event);
      if !ok {
        return Err(StorageError);
      }
      ledger.Append(event);
      var projected := ProjectLedgerPayload(payload);
      r := if projected then Ok(event) else Err(StorageError);
    }

    method ProjectLedgerPayload(payload: Payload) returns (ok: bool)
      modifies this`lastMemoryCheckpointSeq, contextManager
      ensures View() == Project(old(View()), payload) && ok == Decodes(payload)
      ensures !ok <==>
                && payload.Metadata?
                && (|| (payload.key == ContextCompactionKey && !payload.value.MarkerValue?)
                    || (payload.key == MemoryCheckpointKey && !payload.value.CheckpointValue?))
    {
      var message := PayloadToMessage(payload);
      if message.Some? {
        contextManager.Push(message.value);
        return true;
      }
      ok := true;
      match payload.key
      case ContextCompactionKey =>
        if payload.value.MarkerValue? {
          contextManager.ApplyCompactionMarker(ledger, payload.value.marker);
        } else {
          ok := false;
        }
      case MemoryCheckpointKey =>
        if payload.value.CheckpointValue? {
          lastMemoryCheckpointSeq := payload.value.lastSeq;
        } else {
          ok := false;
        }
      case SessionConfigKey =>
      case MemoryNamespaceKey =>
    }

    /** Bumps the turn index before anything of the turn is persisted. */
    method AllocateTurnId() returns (turn: nat)
      modifies this`turnIndex
      ensures View() == old(View()).(turnIndex := SaturatingInc(old(turnIndex))) && turn == turnIndex
      ensures old(Numbered()) ==> Numbered()
    {
      turnIndex := SaturatingInc(turnIndex);
      turn := turnIndex;
    }

    /** Sends one event under the next number. The turn engine, the tool dispatcher and the panic
        handler all number their events this way, from this one counter. */
    method Emit(payload: EventPayload)
      modifies this`eventSequence, this`sent
      requires Numbered()
      ensures Numbered() && View() == old(View())
      ensures sent == old(sent) + [AgentEvent(SequenceAt(|old(sent)|), payload)]
    {
      sent := sent + [AgentEvent(eventSequence, payload)];
      eventSequence := SaturatingInc(eventSequence);
    }
  }
}
