/** Value objects shared by every component: messages, ledger payloads and tool outputs. */
module Domain {

  datatype Option<+T> = None | Some(value: T)

  datatype Result<+T, +E> = Ok(value: T) | Err(error: E)

  const U64_MAX: nat := 0xFFFF_FFFF_FFFF_FFFF

  /** `u64::saturating_add(1)`. */
  function SaturatingInc(n: nat): nat {
    if n < U64_MAX then n + 1 else U64_MAX
  }

  /** A JSON value, known only by its serialised form. `TruncationNote` is the object that
      replaces oversized tool metadata. */
  datatype Json = Null | Raw(encoding: string) | TruncationNote(originalBytes: nat)

  datatype ToolOutput = ToolOutput(content: string, isError: bool, metadata: Json)

  datatype MessageStatus = Complete | Incomplete

  datatype ContentBlock =
    | Text(text: string)
    | Image(data: string, mediaType: string)
    | File(name: string, mediaType: string, text: string)

  /** The text of a system message. The kernel's own texts are known by what they are made of; `Text`
      knows the byte length of each. */
  datatype SystemText =
    | PlainText(text: string)
    | ResumeNotice
    | CompactSummary(summary: string)
    | TruncationSummary
    | ToolLimitNotice(limit: nat)

  /** A message as the model sees it. */
  datatype Message =
    | User(content: seq<ContentBlock>)
    | Assistant(content: seq<ContentBlock>, status: MessageStatus)
    | ToolCall(callId: string, toolName: string, arguments: Json)
    | ToolResult(callId: string, output: ToolOutput)
    | System(text: SystemText)

  datatype CompactionMarker = CompactionMarker(replacesThroughSeq: nat, renderedSummary: SystemText)

  datatype SessionConfig = SessionConfig(modelId: Option<string>, systemPromptOverride: Option<string>)

  datatype MetadataKey = SessionConfigKey | MemoryNamespaceKey | ContextCompactionKey | MemoryCheckpointKey

  /** A metadata value by the type it deserialises to. A value stored under the wrong key is one
      that fails to deserialise. */
  datatype MetadataValue =
    | ConfigValue(config: SessionConfig)
    | NamespaceValue(namespace: string)
    | MarkerValue(marker: CompactionMarker)
    | CheckpointValue(lastSeq: nat)

  datatype Payload =
    | UserMessage(content: seq<ContentBlock>)
    | AssistantMessage(content: seq<ContentBlock>, status: MessageStatus)
    | ToolCalled(callId: string, toolName: string, arguments: Json)
    | ToolReturned(callId: string, output: ToolOutput)
    | SystemMessage(text: SystemText)
    | Metadata(key: MetadataKey, value: MetadataValue)

  /** One persisted ledger event. Timestamps are left out. */
  datatype LedgerEvent = LedgerEvent(seqNo: nat, payload: Payload)

  /** The payload deserialises, so projecting it cannot fail. Only the two keys that are read on
      the live path are decoded there. */
  predicate Decodes(payload: Payload) {
    payload.Metadata? ==>
      && (payload.key == ContextCompactionKey ==> payload.value.MarkerValue?)
      && (payload.key == MemoryCheckpointKey ==> payload.value.CheckpointValue?)
  }

  datatype AgentError =
    | StorageError
    | ProviderError
    | CompactError
    | PluginAborted
    | ContractViolation
    | InputValidation
    | MaxToolCallsExceeded(limit: nat)
    | ToolNotFound(toolName: string)
    | ToolExecutionError(toolName: string)
    | ToolTimeout(toolName: string)
    | Cancelled
    | InternalPanic
    | ModelNotSupported
    | NoSuchSession

  /** What a turn tells its caller while it runs. */
  datatype EventPayload =
    | TextDelta(text: string)
    | ReasoningDelta(text: string)
    | ToolCallStart(callId: string, toolName: string, arguments: Json)
    | ToolCallEnd(callId: string, toolName: string, output: ToolOutput, success: bool)
    | ContextCompacted
    | TurnComplete
    | TurnCancelled
    | ErrorEvent(error: AgentError)

  datatype AgentEvent = AgentEvent(sequence: nat, payload: EventPayload)
}
