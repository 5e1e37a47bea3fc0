/** One turn (src/application/turn_engine.rs). Everything outside the kernel is arbitrary but given: the provider's
    streams, the hooks' verdicts, storage refusals, tool runs and the moment of cancellation. A turn can only fail
    for something the outside really did. */
module TurnEngine {
  import opened Domain
  import opened Cancellation
  import opened Ledger
  import opened Context
  import opened Runtime
  import opened Resume
  import opened TurnGrammar
  import opened ToolOutputs
  import opened Dispatcher
  import opened BatchExecution
  import opened TurnLog
  import opened ProviderStream
  import opened TurnHistory
  import opened Outside
  import Hooks
  import Checkpoint
  import SessionRuns

  datatype Trigger = Estimate | Fallback

  /** What one pass leaves to the next: the calls counted, the batches run, whether tools may be used, whether the
      limit was hit. */
  datatype PassEnd = PassEnd(toolCallsCount: nat, batchCount: nat, allowTools: bool, limitReached: bool)

  /** What the configuration fixes for a turn: how often memories are extracted, if there is a memory storage at all,
      what prompt and tool definitions add to a request, and the estimate above which the context is compacted. */
  datatype TurnSettings = TurnSettings(maxToolCalls: nat, checkpointInterval: nat, hasMemory: bool, promptChars: nat,
                                       toolsChars: nat, compactAbove: nat)

  /** A marker that this state's context manager may generate. */
  ghost predicate MarkerFor(rt: RuntimeState, marker: CompactionMarker) {
    exists answer :: GenerateMarker(rt.events, rt.context.latest, rt.context.window, answer) == Ok(marker)
  }

  /** Streams, compactions and reports after these spans. */
  lemma SpansGrow(spans: seq<Span>)
    ensures NoBatchSince(spans, spans)
    ensures forall marker :: NoBatchSince(spans, spans + [Compacted(marker)])
    ensures forall items, read :: NoBatchSince(spans, spans + [Streamed(items, read)])
    ensures forall limit :: NoBatchSince(spans, spans + [LimitTold(limit)])
  {
  }

  lemma SpansKept(before: seq<Span>, spans: seq<Span>)
    requires NoBatchSince(before, spans)
    ensures before <= spans
  {
  }

  lemma SpansJoin(a: seq<Span>, b: seq<Span>, c: seq<Span>)
    requires NoBatchSince(a, b) && NoBatchSince(b, c)
    ensures NoBatchSince(a, c)
  {
    assert forall p :: |a| <= p < |b| ==> c[p] == b[p];
  }

  lemma KeepPassByPass(spans: seq<Span>, answers: seq<Answer>, answer: Answer, tools: Tools)
    requires PassByPass(spans, answers, tools)
    ensures PassByPass(spans, answers + [answer], tools)
  {
    hide PassByPass;
    SpansGrow(spans);
    StillPassByPass(spans, spans, answers, answers + [answer], tools);
  }

  lemma StreamsFit(spans: seq<Span>, tools: Tools, max: nat, given: seq<seq<StreamItem>>,
                   markers: seq<CompactionMarker>)
    requires FitSpans(spans, tools, max, given, markers)
    ensures StreamsOf(spans) == given
  {
  }

  lemma SizesOf(t: Turn, answers: seq<Answer>, batches: seq<Outcome>, max: nat)
    requires AtHead(t, answers, batches, max, true)
    ensures |batches| == |answers|
  {
  }

  lemma CompactionSpan(marker: CompactionMarker, tools: Tools, max: nat)
    ensures SpanFits(Compacted(marker), tools, max) && SpanEvents(Compacted(marker)) == [ContextCompacted]
  {
  }

  lemma LimitSpan(tools: Tools, max: nat)
    ensures SpanFits(LimitTold(max), tools, max)
    ensures SpanEvents(LimitTold(max)) == [ErrorEvent(MaxToolCallsExceeded(max))]
  {
  }

  lemma StreamSpan(items: seq<StreamItem>, allowTools: bool, read: nat, r: Result<Answer, RequestError>, tools: Tools,
                   max: nat)
    requires StreamResult(items, allowTools, read, r)
    ensures read <= |items| && SpanFits(Streamed(items, read), tools, max)
    ensures SpanEvents(Streamed(items, read)) == StreamEvents(items[..read])
  {
    hide StreamText, StreamCalls, AllContinue, StreamEvents;
  }

  lemma NothingExtracted(rt: RuntimeState, windows: seq<Checkpoint.Window>, agent: AgentDefaults)
    ensures Checkpoint.Leads(rt, windows, Checkpoint.NotExtracted, rt, agent)
  {
  }

  lemma CheckpointExtracted(rt: RuntimeState, windows: seq<Checkpoint.Window>, last: nat, agent: AgentDefaults)
    requires LastAfter(rt.events, rt.checkpointSeq) == Some(last)
    ensures
      var payload := Metadata(MemoryCheckpointKey, CheckpointValue(last));
      && Checkpoint.Leads(rt, windows, Checkpoint.Extracted(true), Append(rt, payload), agent)
      && Checkpoint.Leads(rt, windows, Checkpoint.Extracted(false), rt, agent)
  {
    hide LastAfter, Append, Checkpoint.IncrementalEventsAfter;
  }

  lemma NextNumber(rt: RuntimeState, payload: Payload)
    ensures Append(rt, payload).nextSeq == SaturatingInc(rt.nextSeq)
  {
    hide Rebuilt, Pushed;
  }

  /** A hook that did not let the compaction pass ends it. */
  lemma CompactionStopped(rt: RuntimeState, trigger: Trigger, verdict: HookVerdict, summary: SummaryAnswer,
                          refused: bool, marker: CompactionMarker)
    ensures verdict == HookAborted && trigger == Estimate ==>
              CompactionEnds(rt, trigger, verdict, summary, refused, Ok(false), marker)
    ensures verdict == HookAborted && trigger == Fallback ==>
              CompactionEnds(rt, trigger, verdict, summary, refused, Err(CompactError), marker)
    ensures verdict == HookBroken ==>
              CompactionEnds(rt, trigger, verdict, summary, refused, Err(ContractViolation), marker)
  {
    hide GenerateMarker;
  }

  lemma CompactionFails(rt: RuntimeState, trigger: Trigger, summary: SummaryAnswer, refused: bool,
                        marker: CompactionMarker)
    ensures
      match GenerateMarker(rt.events, rt.context.latest, rt.context.window, summary)
      case Ok(_) => true
      case Err(RequestCancelled) =>
        && CompactionEnds(rt, trigger, HookPassed, summary, refused, Err(Cancelled), marker)
        && summary == SummaryCancelled
      case Err(CompactFailed(_)) => CompactionEnds(rt, trigger, HookPassed, summary, refused, Err(CompactError), marker)
  {
    hide BuildPlan, Fits, Trim;
  }

  lemma CompactionStored(rt: RuntimeState, trigger: Trigger, summary: SummaryAnswer, refused: bool,
                         marker: CompactionMarker)
    requires GenerateMarker(rt.events, rt.context.latest, rt.context.window, summary) == Ok(marker)
    ensures CompactionEnds(rt, trigger, HookPassed, summary, refused, if refused then Err(StorageError) else Ok(true),
                           marker)
  {
    hide GenerateMarker;
  }

  lemma NothingToCompact(rt: RuntimeState, trigger: Trigger, summary: SummaryAnswer, refused: bool,
                         marker: CompactionMarker)
    requires BuildPlan(rt.events, rt.context.latest).Err?
    ensures CompactionEnds(rt, trigger, HookPassed, summary, refused, Err(CompactError), marker)
    ensures forall cancelled :: CompactorAnswered(rt, false, None, cancelled, summary)
    ensures exists reason :: GenerateMarker(rt.events, rt.context.latest, rt.context.window, summary)
                == Err(CompactFailed(reason))
  {
    hide BuildPlan;
  }

  lemma CompactorSaid(rt: RuntimeState, stream: Option<seq<StreamItem>>, cancelled: bool, summary: SummaryAnswer)
    requires SummaryFrom(stream, cancelled, summary) && BuildPlan(rt.events, rt.context.latest).Ok?
    ensures CompactorAnswered(rt, true, stream, cancelled, summary)
  {
    hide BuildPlan, SummaryFrom;
  }

  lemma LegalDecodes(rt: RuntimeState, payload: Payload)
    requires LegalPayload(rt, payload)
    ensures Decodes(payload)
  {
  }

  /** What the compact model's stream, if one was started, answers. */
  ghost predicate SummaryFrom(stream: Option<seq<StreamItem>>, cancelled: bool, answer: SummaryAnswer) {
    if stream.None? then answer == SummaryFailed
    else exists read, r :: CollectResult(stream.value, read, cancelled, r) && answer == SummaryOf(r)
  }

  ghost function SummaryOf(r: Collected): SummaryAnswer {
    match r
    case Collected(text) => Summarised(text)
    case Unusable => SummaryFailed
    case CollectionCancelled => SummaryCancelled
  }

  /** How a compaction ends, given how its hook ended, what the compact model answered, and whether the storage
      refused the marker. */
  ghost predicate CompactionEnds(rt: RuntimeState, trigger: Trigger, verdict: HookVerdict, summary: SummaryAnswer,
                                 refused: bool, r: Result<bool, AgentError>, marker: CompactionMarker)
  {
    match verdict
    case HookAborted => r == if trigger == Estimate then Ok(false) else Err(CompactError)
    case HookBroken => r == Err(ContractViolation)
    case HookPassed =>
      match GenerateMarker(rt.events, rt.context.latest, rt.context.window, summary)
      case Ok(generated) => marker == generated && r == if refused then Err(StorageError) else Ok(true)
      case Err(RequestCancelled) => r == Err(Cancelled)
      case Err(CompactFailed(_)) => r == Err(CompactError)
  }

  /** The compact model was asked for this plan, and answered this; without a plan it was not asked. */
  ghost predicate CompactorAnswered(rt: RuntimeState, asked: bool, stream: Option<seq<StreamItem>>, cancelled: bool,
                                    summary: SummaryAnswer)
  {
    && (asked <==> BuildPlan(rt.events, rt.context.latest).Ok?)
    && (asked ==> SummaryFrom(stream, cancelled, summary))
  }

  /** Nothing to compact, or neither the compact model's answer nor the truncation notice fits. */
  ghost predicate NoMarker(rt: RuntimeState, asked: bool, stream: Option<seq<StreamItem>>) {
    exists cancelled, summary, reason ::
      && CompactorAnswered(rt, asked, stream, cancelled, summary)
      && GenerateMarker(rt.events, rt.context.latest, rt.context.window, summary) == Err(CompactFailed(reason))
  }

  /** A stream that, read with or without tools, ends in this error. */
  ghost predicate EndsIn(stream: seq<StreamItem>, allowTools: bool, error: RequestError) {
    exists read :: StreamResult(stream, allowTools, read, Err(error))
  }

  /** A hook about one of the calls the kernel would run breaks its contract, before or after the run. */
  ghost predicate BatchBreaks(tools: Tools, b: nat, calls: seq<RequestedCall>) {
    exists i :: 0 <= i < |calls| && calls[i].toolName in tools.handlers
                && (tools.before(b, i).BeforeBroken? || tools.run(b, i).after.AfterBroken?)
  }

  method PrepareWithHooks(tools: Tools, b: nat, requested: seq<RequestedCall>) returns (r: Result<Batch, AgentError>)
    ensures r.Ok? ==> PreparedFor(tools, b, requested, r.value)
    ensures r.Err? ==> r.error == ContractViolation && BatchBreaks(tools, b, requested)
  {
    hide PreparedWith, FirstStop, WellPrepared, IsMutatingBatch, ExecutablePrefix;
    var answers := tools.Answers(b, |requested|);
    ghost var stop;
    r, stop := PrepareBatch(tools, requested, answers);
    if r.Ok? {
      PreparedShape(tools, requested, answers, r.value.calls, stop);
      assert AsAnswered(tools, requested, answers, r.value, stop);
    } else {
      var i :| 0 <= i < |requested| && requested[i].toolName in tools.handlers && answers[i].BeforeBroken?;
      assert tools.before(b, i).BeforeBroken?;
    }
  }

  /** Runs a prepared batch. Nothing is started once the turn is cancelled, every result belongs to its
      call, and unless a hook breaks its contract every started call has ended. */
  method ExecuteBatch(runtime: SessionRuntime, cancel: CancelToken, tools: Tools, b: nat, batch: Batch)
    returns (r: Result<Outcome, AgentError>, ghost events: seq<EventPayload>)
    requires runtime.Numbered()
    modifies runtime`eventSequence, runtime`sent, cancel
    ensures runtime.Numbered() && runtime.View() == old(runtime.View())
    ensures Payloads(runtime.sent) == Payloads(old(runtime.sent)) + events
    ensures NoTerminal(events) && (r.Ok? ==> Orderly(events) && BatchEnds(tools, b, batch, r.value))
    ensures TellsBatch(tools, b, batch, if r.Ok? then Some(r.value) else None, events)
    ensures r.Err? ==>
              && r.error == ContractViolation
              && exists i :: 0 <= i < |batch.calls| && batch.calls[i].execution.Execute?
                             && tools.run(b, i).after.AfterBroken?
    ensures (old(cancel.Fired()) ==> cancel.Fired()) && (old(cancel.Due()) ==> events == [])
    ensures r.Ok? && r.value.cancelled ==> cancel.Fired()
  {
    hide *;
    var runs := tools.Runs(b, |batch.calls|);
    if batch.hasMutating {
      PollSees(cancel, |batch.calls|);
      ghost var cancelAt, stop, ran;
      r, cancelAt, stop, ran := ExecuteMutatingBatch(runtime, batch, runs, cancel, tools.limits);
      SerialBatch(tools, b, batch, cancelAt, stop, r);
      events := SerialEvents(batch.calls, runs, tools.limits, Reached(batch.calls, cancelAt, stop));
    } else {
      PollSees(cancel, 1);
      ghost var before, order;
      r, before, order := ExecuteReadOnlyBatch(runtime, batch, runs, cancel, tools.limits);
      ParallelBatch(tools, b, batch, before, cancel.Fired(), order, r);
      events := if before then []
                else Starts(batch.calls, |batch.calls|) + Ends(batch.calls, runs, tools.limits, order);
      Associative(Payloads(old(runtime.sent)), Starts(batch.calls, |batch.calls|),
                  Ends(batch.calls, runs, tools.limits, order));
    }
  }

  lemma SerialBatch(tools: Tools, b: nat, batch: Batch, cancelAt: nat, stop: nat, r: Result<Outcome, AgentError>)
    requires batch.hasMutating && StopsAt(batch.calls, tools.Runs(b, |batch.calls|), cancelAt, stop)
    requires r.Ok? ==>
              SerialOutcome(batch.calls, tools.Runs(b, |batch.calls|), tools.limits, cancelAt, stop, r.value)
    ensures Reached(batch.calls, cancelAt, stop) <= |batch.calls|
    ensures var events :=
        SerialEvents(batch.calls, tools.Runs(b, |batch.calls|), tools.limits, Reached(batch.calls, cancelAt, stop));
      && Orderly(events) && NoTerminal(events) && (cancelAt == 0 ==> events == [])
      && TellsBatch(tools, b, batch, if r.Ok? then Some(r.value) else None, events)
    ensures r.Ok? ==> BatchEnds(tools, b, batch, r.value)
  {
    hide Balanced, NoTerminal, CallEvents, SerialRecord;
    var runs := tools.Runs(b, |batch.calls|);
    assert SerialTells(batch, tools.limits, if r.Ok? then Some(r.value) else None,
                       SerialEvents(batch.calls, runs, tools.limits, Reached(batch.calls, cancelAt, stop)),
                       runs, cancelAt, stop);
    SerialOrderly(batch.calls, runs, tools.limits, Reached(batch.calls, cancelAt, stop));
  }

  lemma ParallelBatch(tools: Tools, b: nat, batch: Batch, before: bool, after: bool, order: seq<nat>,
                      r: Result<Outcome, AgentError>)
    requires !batch.hasMutating && InBounds(order, |batch.calls|)
    requires before ==> r == Ok(Outcome(NoticeRecords(batch.calls, CancelledNotice, tools.limits), true, false))
    requires !before ==> EndedOnce(batch.calls, tools.Runs(b, |batch.calls|), order, r.Err?)
    requires !before && r.Ok? ==>
              ParallelOutcome(batch.calls, tools.Runs(b, |batch.calls|), tools.limits, after, order, r.value)
    ensures Orderly([]) && NoTerminal([])
    ensures var events :=
        Starts(batch.calls, |batch.calls|) + Ends(batch.calls, tools.Runs(b, |batch.calls|), tools.limits, order);
      && NoTerminal(events) && (r.Ok? && !before ==> Orderly(events))
      && TellsBatch(tools, b, batch, if r.Ok? then Some(r.value) else None, if before then [] else events)
    ensures r.Ok? ==> BatchEnds(tools, b, batch, r.value)
    ensures !before && r.Ok? ==> r.value.cancelled == after
  {
    hide Balanced, NoTerminal, DoneRecord, NoticeRecords, CompletedInOrder, EndedOnce, Starts, Ends;
    var runs := tools.Runs(b, |batch.calls|);
    if !before {
      assert ParallelTells(batch, tools.limits, if r.Ok? then Some(r.value) else None,
                           Starts(batch.calls, |batch.calls|) + Ends(batch.calls, runs, tools.limits, order),
                           runs, order, after);
    }
    NothingTold();
    QuietNoTerminal();
    ParallelOrderly(batch.calls, runs, tools.limits, order);
  }

  lemma QuietNoTerminal()
    ensures NoTerminal([])
  {
  }

  class TurnEngine {
    const runtime: SessionRuntime
    const storage: SessionStorage
    const provider: Provider
    const cancel: CancelToken
    const outside: Surroundings
    const tools: Tools
    const maxToolCalls: nat
    const settings: TurnSettings

    ghost const agent: AgentDefaults
    /** Where the turn started. */
    ghost const start: RuntimeState
    ghost const toldBefore: seq<EventPayload>
    /** What the turn has persisted, told, requested and tried to compact so far. */
    ghost var log: seq<Payload>
    ghost var told: seq<EventPayload>
    ghost var requests: nat
    ghost var compactions: nat
    /** The turn's words so far, the answers it got and the batches it ran. */
    ghost var turn: Turn
    ghost var answers: seq<Answer>
    ghost var batches: seq<Outcome>
    /** Every list of messages a model was asked about in this turn, for an answer or for a summary. */
    ghost var shown: seq<seq<Message>>
    /** The turn's events, stretch by stretch, and the compaction markers it has stored. */
    ghost var spans: seq<Span>
    ghost var marked: seq<CompactionMarker>
    ghost const givenBefore: nat
    ghost const chatsBefore: nat
    ghost const savesBefore: nat

    ghost predicate Valid()
      reads `log, `told, `shown, `marked, runtime, runtime.ledger, runtime.contextManager, storage
    {
      Core() && marked == LogMarkers(log)
    }

    /** The spans fit the streams given and the markers stored in this turn. */
    ghost predicate SpansFit()
      reads `spans, `marked, provider
    {
      && givenBefore <= |provider.given| && chatsBefore <= provider.chats
      && FitSpans(spans, tools, maxToolCalls, provider.given[givenBefore..], marked)
    }

    /** Everything told so far is the events of the spans, in order. */
    ghost predicate Accounted()
      reads `spans, `told, `marked, provider
    {
      SpansFit() && told == Spelled(spans)
    }

    lemma NothingAccounted()
      requires SpansFit() && spans == [] && told == []
      ensures Accounted() && Spelled(spans) == [] && BatchesOf(spans) == []
      ensures PassByPass(spans, [], tools)
    {
      hide FitSpans;
    }

    lemma AccountNow()
      requires Accounted()
      ensures SpansFit() && told == Spelled(spans) && givenBefore <= |provider.given| && chatsBefore <= provider.chats
      ensures FitSpans(spans, tools, maxToolCalls, provider.given[givenBefore..], marked)
    {
      hide FitSpans, Spelled;
    }

    lemma AccountAgain()
      requires givenBefore <= |provider.given| && chatsBefore <= provider.chats && told == Spelled(spans)
      requires FitSpans(spans, tools, maxToolCalls, provider.given[givenBefore..], marked)
      ensures Accounted()
    {
      hide FitSpans, Spelled;
    }

    /** Records a span once its events are told. */
    ghost method Note(span: Span, given: seq<seq<StreamItem>>, markers: seq<CompactionMarker>)
      requires FitSpans(spans, tools, maxToolCalls, given, markers) && SpanFits(span, tools, maxToolCalls)
      requires told == Spelled(spans) + SpanEvents(span)
      requires givenBefore <= |provider.given| && chatsBefore <= provider.chats
      requires provider.given[givenBefore..] == given + if span.Streamed? then [span.items] else []
      requires marked == markers + if span.Compacted? then [span.marker] else []
      modifies `spans
      ensures Accounted() && spans == old(spans) + [span]
      ensures BatchesOf(spans) == BatchesOf(old(spans)) +
                if span.BatchTold? && span.outcome.Some? then [span.outcome.value] else []
    {
      hide FitSpans, SpanFits, Spelled, SpanEvents, BatchesOf;
      SpanAdded(spans, span, tools, maxToolCalls, given, markers);
      spans := spans + [span];
    }

    /** Everything but the list of markers. */
    ghost predicate Core()
      reads `log, `told, `shown, runtime, runtime.ledger, runtime.contextManager, storage
    {
      && runtime.View() == AppendAll(start, log)
      && LegalLog(start, log)
      && Mirrored(World(runtime.View(), storage.saved), agent)
      && runtime.Numbered()
      && Payloads(runtime.sent) == toldBefore + told
      && TurnByTurn(RawMessages(start.events))
      && OrphanFree(shown, runtime.View().nextSeq)
      && savesBefore <= storage.attempts
    }

    // -------------------------------------------------------------- what the outside refused

    /** The last save of this turn was refused. */
    ghost predicate SaveRefused()
      reads storage`attempts
    {
      savesBefore < storage.attempts && storage.Refused()
    }

    /** The last hook of this turn was TurnStart or TurnEnd and ended like this. */
    ghost predicate TurnHookEnded(verdict: HookVerdict)
      reads outside`asked
    {
      exists data: Hooks.HookData :: (data.TurnStartData? || data.TurnEndData?) && outside.Answered(data, verdict)
    }

    ghost predicate CompactHookEnded(verdict: HookVerdict)
      reads outside`asked
    {
      exists data: Hooks.HookData :: data.BeforeCompactData? && outside.Answered(data, verdict)
    }

    /** The provider refused the last request of this turn, or its stream failed. */
    ghost predicate ChatFailed(allowTools: bool)
      reads provider`chats
    {
      && chatsBefore < provider.chats
      && (|| provider.LastStream().None?
          || EndsIn(provider.LastStream().value, allowTools, AgentFailure(ProviderError)))
    }

    /** The answer to this request was that the context is too long. */
    ghost predicate TooLong(k: nat, allowTools: bool)
      reads provider`chats
    {
      && chatsBefore <= k < provider.chats
      && provider.streams(k).Some? && EndsIn(provider.streams(k).value, allowTools, ContextLengthExceeded)
    }

    /** The last two requests were too long. */
    ghost predicate StillTooLong(allowTools: bool)
      reads provider`chats
    {
      provider.chats >= 2 && TooLong(provider.chats - 2, allowTools) && TooLong(provider.chats - 1, allowTools)
    }

    /** The context as it is cannot be compacted. */
    ghost predicate CannotCompact()
      reads outside`summaries, runtime, runtime.ledger, runtime.contextManager
    {
      if outside.summaries > 0 then
        NoMarker(runtime.View(), true, outside.LastSummary()) || NoMarker(runtime.View(), false, None)
      else NoMarker(runtime.View(), false, None)
    }

    /** What the outside just did that makes a turn fail with this error. */
    ghost predicate RefusedOutside(error: AgentError, allowTools: bool)
      reads storage`attempts, outside, provider`chats, runtime, runtime.ledger, runtime.contextManager
    {
      match error
      case StorageError => SaveRefused()
      case PluginAborted => TurnHookEnded(HookAborted)
      case ContractViolation => TurnHookEnded(HookBroken) || CompactHookEnded(HookBroken)
      case InputValidation => outside.Unbuildable()
      case ProviderError => ChatFailed(allowTools)
      case CompactError => CompactHookEnded(HookAborted) || CannotCompact() || StillTooLong(allowTools)
      case _ => false
    }

    /** Why a turn may fail here: the outside refused something, or a tool hook of the batch of the last answer broke
        its contract. */
    ghost predicate Justified(error: AgentError)
      reads `turn, `answers, `batches
      reads storage`attempts, outside, provider`chats, runtime, runtime.ledger, runtime.contextManager
    {
      || (|batches| == |turn.rounds| && RefusedOutside(error, ToolsLeft(turn.rounds, batches, maxToolCalls)))
      || (error == ContractViolation && |answers| == |turn.rounds| + 1
          && BatchBreaks(tools, |turn.rounds|, answers[|turn.rounds|].calls))
    }

    lemma Reasons(allowTools: bool)
      ensures SaveRefused() <==> RefusedOutside(StorageError, allowTools)
      ensures TurnHookEnded(HookAborted) <==> RefusedOutside(PluginAborted, allowTools)
      ensures TurnHookEnded(HookBroken) || CompactHookEnded(HookBroken) ==> RefusedOutside(ContractViolation, allowTools)
      ensures outside.Unbuildable() <==> RefusedOutside(InputValidation, allowTools)
      ensures ChatFailed(allowTools) <==> RefusedOutside(ProviderError, allowTools)
      ensures CompactHookEnded(HookAborted) || CannotCompact() || StillTooLong(allowTools) ==>
                RefusedOutside(CompactError, allowTools)
      ensures !RefusedOutside(Cancelled, allowTools)
    {
      hide SaveRefused, TurnHookEnded, CompactHookEnded, ChatFailed, CannotCompact, StillTooLong;
    }

    constructor (runtime: SessionRuntime, storage: SessionStorage, provider: Provider, cancel: CancelToken,
                 outside: Surroundings, tools: Tools, settings: TurnSettings, ghost agent: AgentDefaults)
      requires Mirrored(World(runtime.View(), storage.saved), agent) && runtime.Numbered()
      requires TurnByTurn(RawMessages(runtime.View().events))
      ensures this.runtime == runtime && this.storage == storage && this.provider == provider && this.cancel == cancel
      ensures this.outside == outside && this.tools == tools && this.settings == settings && this.agent == agent
      ensures maxToolCalls == settings.maxToolCalls
      ensures this.start == runtime.View()
      ensures Valid() && log == [] && told == [] && requests == 0 && compactions == 0
      ensures answers == [] && batches == [] && shown == [] && spans == []
      ensures SpansFit() && givenBefore == |provider.given|
      ensures chatsBefore == provider.chats && savesBefore == storage.attempts
    {
      hide SessionInvariant, Payloads, TurnByTurn, RawMessages, Answered, SessionRuntime.Numbered;
      this.runtime, this.storage, this.provider, this.cancel := runtime, storage, provider, cancel;
      this.outside, this.tools, this.maxToolCalls, this.settings := outside, tools, settings.maxToolCalls, settings;
      this.agent, chatsBefore, savesBefore := agent, provider.chats, storage.attempts;
      start, toldBefore := runtime.View(), Payloads(runtime.sent);
      log, told, requests, compactions := [], [], 0, 0;
      turn, answers, batches, shown := Turn([], [], [], None, "", Complete), [], [], [];
      spans, marked, givenBefore := [], [], |provider.given|;
      NoSpans(tools, settings.maxToolCalls);
    }

    // -------------------------------------------------------------- writing

    /** Writes anything but a compaction marker. */
    method Persist(payload: Payload) returns (ok: bool)
      requires Valid() && Writable(World(runtime.View(), storage.saved), payload)
      requires payload.Metadata? ==> payload.key != ContextCompactionKey
      modifies runtime`lastMemoryCheckpointSeq, runtime.ledger, runtime.contextManager, storage, `log
      ensures Valid()
      ensures log == if ok then old(log) + [payload] else old(log)
      ensures ok == !SaveRefused() && savesBefore <= old(storage.attempts)
      ensures storage.attempts == old(storage.attempts) + 1
    {
      hide Core, SaveRefused;
      MarkersSnoc(log, payload);
      ok := Store(payload);
    }

    method PersistMarker(marker: CompactionMarker) returns (ok: bool)
      requires
        && Valid()
        && Writable(World(runtime.View(), storage.saved), Metadata(ContextCompactionKey, MarkerValue(marker)))
      modifies runtime`lastMemoryCheckpointSeq, runtime.ledger, runtime.contextManager, storage, `log, `marked
      ensures Valid()
      ensures log == if ok then old(log) + [Metadata(ContextCompactionKey, MarkerValue(marker))] else old(log)
      ensures marked == if ok then old(marked) + [marker] else old(marked)
      ensures ok == !SaveRefused() && savesBefore <= old(storage.attempts)
      ensures storage.attempts == old(storage.attempts) + 1
    {
      hide Core, SaveRefused;
      MarkersSnoc(log, Metadata(ContextCompactionKey, MarkerValue(marker)));
      ok := Store(Metadata(ContextCompactionKey, MarkerValue(marker)));
      if ok {
        marked := marked + [marker];
      }
    }

    method Store(payload: Payload) returns (ok: bool)
      requires Core() && Writable(World(runtime.View(), storage.saved), payload)
      modifies runtime`lastMemoryCheckpointSeq, runtime.ledger, runtime.contextManager, storage, `log
      ensures Core()
      ensures log == if ok then old(log) + [payload] else old(log)
      ensures ok == !SaveRefused() && savesBefore <= old(storage.attempts)
      ensures storage.attempts == old(storage.attempts) + 1
    {
      hide LegalPayload, SessionInvariant, AppendAll, Append, LegalLog, Payloads, TurnByTurn, OrphanFree, RawMessages;
      ghost var before := World(runtime.View(), storage.saved);
      NextNumber(before.live, payload);
      OrphanFreeLater(shown, before.live.nextSeq);
      LegalDecodes(before.live, payload);
      AppendInvariant(before.live, payload, agent);
      var stored := runtime.PersistAndProject(storage, payload);
      ok := stored.Ok?;
      if ok {
        AppendSnoc(start, log, payload);
        LegalSnoc(start, log, payload);
        log := log + [payload];
      }
    }

    method Emit(payload: EventPayload)
      requires Valid()
      modifies runtime`eventSequence, runtime`sent, `told
      ensures Valid() && told == old(told) + [payload]
    {
      hide SessionInvariant, AppendAll, LegalLog, Payloads;
      Tell(runtime, payload);
      told := told + [payload];
    }

    /** Writes messages one by one until one is refused. */
    method PersistAll(payloads: seq<Payload>) returns (ok: bool)
      requires Valid() && forall i :: 0 <= i < |payloads| ==> !payloads[i].Metadata? && !payloads[i].UserMessage?
      modifies runtime`lastMemoryCheckpointSeq, runtime.ledger, runtime.contextManager, storage, `log
      ensures Valid()
      ensures ok ==> log == old(log) + payloads
      ensures !ok ==> SaveRefused() && old(log) <= log <= old(log) + payloads
    {
      hide *;
      for i := 0 to |payloads|
        invariant Valid() && log == old(log) + payloads[..i]
      {
        PlainWritable(World(runtime.View(), storage.saved), payloads[i]);
        var stored := Persist(payloads[i]);
        if !stored {
          return false;
        }
        assert payloads[..i + 1] == payloads[..i] + [payloads[i]];
      }
      assert payloads[..|payloads|] == payloads;
      ok := true;
    }

    // -------------------------------------------------------------- compaction

    /** One compaction: hook, marker, write, event. An aborting hook skips an estimated compaction and fails
        a fallback one; without it the marker is the one generated from the compact model's answer, and its failure
        to fit, or its refusal by the storage, is the only other failure. */
    method CompactContext(trigger: Trigger)
      returns (r: Result<bool, AgentError>, ghost marker: CompactionMarker, ghost summary: SummaryAnswer)
      requires Valid() && IsTurnPrefix(LogMessages(log)) && Accounted()
      modifies runtime`lastMemoryCheckpointSeq, runtime`eventSequence, runtime`sent, runtime.ledger
      modifies runtime.contextManager, storage, `log, `told, `compactions, `shown, `spans, `marked, cancel
      modifies outside`asked, outside`summaries
      ensures Accounted() && BatchesOf(spans) == BatchesOf(old(spans))
      ensures spans == if r == Ok(true) then old(spans) + [Compacted(marker)] else old(spans)
      ensures Valid() && compactions == old(compactions) + 1
      ensures
        var context := old(runtime.View()).context;
        outside.asked == old(outside.asked) + [Hooks.BeforeCompactData(|context.visible|, context.tokens)]
      ensures
        CompactionEnds(old(runtime.View()), trigger, outside.VerdictAt(|old(outside.asked)|), summary, storage.Refused(),
                       r, marker)
      ensures outside.VerdictAt(|old(outside.asked)|).HookPassed? ==>
                var plan := BuildPlan(old(runtime.View()).events, old(runtime.View()).context.latest);
                && outside.summaries == old(outside.summaries) + (if plan.Ok? then 1 else 0)
                && CompactorAnswered(old(runtime.View()), plan.Ok?,
                                     if plan.Ok? then outside.LastSummary() else None, old(cancel.Due()),
                                     summary)
                && shown == (if plan.Ok? then old(shown) + [plan.value.compactable] else old(shown))
                && (plan.Ok? && old(runtime.View()).nextSeq < U64_MAX ==> Answered(plan.value.compactable))
      ensures !outside.VerdictAt(|old(outside.asked)|).HookPassed? ==>
                outside.summaries == old(outside.summaries) && shown == old(shown)
      ensures r == Ok(true) ==>
                && MarkerFor(old(runtime.View()), marker)
                && log == old(log) + [Metadata(ContextCompactionKey, MarkerValue(marker))]
                && told == old(told) + [ContextCompacted] && marked == old(marked) + [marker]
      ensures r == Ok(true) && old(runtime.View()).nextSeq < U64_MAX ==>
                runtime.contextManager.estimatedTokens <= runtime.contextManager.contextWindow
      ensures r != Ok(true) ==> log == old(log) && told == old(told) && marked == old(marked)
      ensures r == Ok(false) ==> trigger == Estimate
      ensures r == Err(Cancelled) ==> cancel.Fired()
      ensures r.Err? && r.error != Cancelled ==> forall allowTools :: RefusedOutside(r.error, allowTools)
      ensures old(cancel.Fired()) ==> cancel.Fired()
    {
      hide *;
      ghost var before := runtime.View();
      ViewFields(runtime);
      marker, summary := CompactionMarker(0, TruncationSummary), SummaryFailed;
      compactions := compactions + 1;
      var verdict := outside.Ask(Hooks.BeforeCompactData(|runtime.contextManager.visibleMessages|,
                                                         runtime.contextManager.estimatedTokens));
      HookEnds(verdict);
      CompactionStopped(before, trigger, verdict, summary, storage.Refused(), marker);
      if verdict != HookPassed {
        if verdict == HookAborted && trigger == Estimate {
          return Ok(false), marker, summary;
        }
        return Err(if verdict == HookAborted then CompactError else ContractViolation), marker, summary;
      }
      r, marker, summary := Compact(trigger);
    }

    /** A compaction that its hook let pass. */
    method Compact(trigger: Trigger)
      returns (r: Result<bool, AgentError>, ghost marker: CompactionMarker, ghost summary: SummaryAnswer)
      requires Valid() && IsTurnPrefix(LogMessages(log)) && Accounted()
      modifies runtime`lastMemoryCheckpointSeq, runtime`eventSequence, runtime`sent, runtime.ledger
      modifies runtime.contextManager, storage, `log, `told, `shown, `spans, `marked, cancel, outside`summaries
      ensures Valid() && Accounted() && BatchesOf(spans) == BatchesOf(old(spans))
      ensures spans == if r == Ok(true) then old(spans) + [Compacted(marker)] else old(spans)
      ensures CompactionEnds(old(runtime.View()), trigger, HookPassed, summary, storage.Refused(), r, marker)
      ensures
        var plan := BuildPlan(old(runtime.View()).events, old(runtime.View()).context.latest);
        && outside.summaries == old(outside.summaries) + (if plan.Ok? then 1 else 0)
        && CompactorAnswered(old(runtime.View()), plan.Ok?, if plan.Ok? then outside.LastSummary() else None,
                             old(cancel.Due()), summary)
        && shown == (if plan.Ok? then old(shown) + [plan.value.compactable] else old(shown))
        && (plan.Ok? && old(runtime.View()).nextSeq < U64_MAX ==> Answered(plan.value.compactable))
      ensures r == Ok(true) ==>
                && MarkerFor(old(runtime.View()), marker)
                && log == old(log) + [Metadata(ContextCompactionKey, MarkerValue(marker))]
                && told == old(told) + [ContextCompacted] && marked == old(marked) + [marker]
      ensures r == Ok(true) && old(runtime.View()).nextSeq < U64_MAX ==>
                runtime.contextManager.estimatedTokens <= runtime.contextManager.contextWindow
      ensures r != Ok(true) ==> r.Err? && log == old(log) && told == old(told) && marked == old(marked)
      ensures r == Err(Cancelled) ==> cancel.Fired()
      ensures r.Err? && r.error != Cancelled ==> forall allowTools :: RefusedOutside(r.error, allowTools)
      ensures old(cancel.Fired()) ==> cancel.Fired()
    {
      hide *;
      ghost var before, due := runtime.View(), cancel.Due();
      ViewFields(runtime);
      VisibleNow();
      marker, summary := CompactionMarker(0, TruncationSummary), SummaryFailed;
      var plan := BuildPlan(runtime.ledger.events, runtime.contextManager.latestCompaction);
      if plan.Err? {
        NothingToCompact(before, trigger, summary, storage.Refused(), marker);
        NoMarkerHere(false, None, false, summary);
        return Err(CompactError), marker, summary;
      }
      Show(plan.value.compactable);
      var answer := Summarise();
      summary := answer;
      var generated := GenerateMarker(runtime.ledger.events, runtime.contextManager.latestCompaction,
                                      runtime.contextManager.contextWindow, answer);
      CompactorSaid(before, outside.LastSummary(), due, answer);
      CompactionFails(before, trigger, answer, storage.Refused(), marker);
      if generated.Err? {
        if generated.error.RequestCancelled? {
          return Err(Cancelled), marker, summary;
        }
        NoMarkerHere(true, outside.LastSummary(), due, answer);
        return Err(CompactError), marker, summary;
      }
      marker := generated.value;
      var stored := StoreCompaction(generated.value, answer);
      CompactionStored(before, trigger, answer, storage.Refused(), marker);
      SaveReason();
      r := if stored then Ok(true) else Err(StorageError);
    }

    /** Asks the compact model once. */
    method Summarise() returns (answer: SummaryAnswer)
      modifies outside`summaries, cancel
      ensures outside.summaries == old(outside.summaries) + 1
      ensures SummaryFrom(outside.LastSummary(), old(cancel.Due()), answer)
      ensures answer == SummaryCancelled ==> cancel.Fired()
      ensures old(cancel.Fired()) ==> cancel.Fired()
    {
      hide CollectResult, CancelToken.Fired, CancelToken.Due;
      var stream := outside.Summarise();
      if stream.None? {
        return SummaryFailed;
      }
      ghost var read;
      var collected;
      collected, read := CollectText(stream.value, cancel);
      match collected
      case Collected(text) => answer := Summarised(text);
      case Unusable => answer := SummaryFailed;
      case CollectionCancelled => answer := SummaryCancelled;
    }

    lemma HookEnds(verdict: HookVerdict)
      requires exists data: Hooks.HookData :: data.BeforeCompactData? && outside.Answered(data, verdict)
      ensures outside.asked != [] && outside.VerdictAt(|outside.asked| - 1) == verdict
      ensures verdict == HookAborted ==> forall allowTools :: RefusedOutside(CompactError, allowTools)
      ensures verdict == HookBroken ==> forall allowTools :: RefusedOutside(ContractViolation, allowTools)
    {
      hide CannotCompact, StillTooLong, SaveRefused, ChatFailed;
    }

    lemma NoMarkerHere(asked: bool, stream: Option<seq<StreamItem>>, cancelled: bool, summary: SummaryAnswer)
      requires CompactorAnswered(runtime.View(), asked, stream, cancelled, summary)
      requires asked ==> outside.summaries > 0 && stream == outside.LastSummary()
      requires !asked ==> stream == None
      requires
        var rt := runtime.View();
        exists reason :: GenerateMarker(rt.events, rt.context.latest, rt.context.window, summary)
            == Err(CompactFailed(reason))
      ensures forall allowTools :: RefusedOutside(CompactError, allowTools)
    {
      hide CompactorAnswered, GenerateMarker, StillTooLong, SaveRefused, ChatFailed, SessionRuntime.View;
      assert NoMarker(runtime.View(), asked, stream);
    }

    lemma SaveReason()
      ensures SaveRefused() ==> forall allowTools :: RefusedOutside(StorageError, allowTools)
    {
      hide SaveRefused;
    }

    /** Writes a generated marker and tells of it. */
    method StoreCompaction(marker: CompactionMarker, ghost summary: SummaryAnswer) returns (ok: bool)
      requires Valid() && Accounted()
      requires
        var rt := runtime.View();
        GenerateMarker(rt.events, rt.context.latest, rt.context.window, summary) == Ok(marker)
      modifies runtime`lastMemoryCheckpointSeq, runtime`eventSequence, runtime`sent, runtime.ledger
      modifies runtime.contextManager, storage, `log, `told, `spans, `marked
      ensures Valid() && Accounted() && BatchesOf(spans) == BatchesOf(old(spans))
      ensures spans == if ok then old(spans) + [Compacted(marker)] else old(spans)
      ensures log == if ok then old(log) + [Metadata(ContextCompactionKey, MarkerValue(marker))] else old(log)
      ensures told == if ok then old(told) + [ContextCompacted] else old(told)
      ensures marked == if ok then old(marked) + [marker] else old(marked)
      ensures ok == !SaveRefused() && ok == !storage.Refused()
      ensures ok ==> MarkerFor(old(runtime.View()), marker)
      ensures ok && old(runtime.View()).nextSeq < U64_MAX ==>
                runtime.contextManager.estimatedTokens <= runtime.contextManager.contextWindow
    {
      hide *;
      ValidView();
      AccountNow();
      ghost var before, logged, markers, given := runtime.View(), log, marked, provider.given[givenBefore..];
      ghost var payload := Metadata(ContextCompactionKey, MarkerValue(marker));
      CompactionSpan(marker, tools, maxToolCalls);
      MarkerWritable(World(before, storage.saved), marker, summary);
      ok := PersistMarker(marker);
      RefusedNow();
      if ok {
        AppendSnoc(start, logged, payload);
        Emit(ContextCompacted);
        Note(Compacted(marker), given, markers);
        ValidView();
        ViewFields(runtime);
        if before.nextSeq < U64_MAX {
          CompactionFits(before, marker, summary, agent);
        }
      }
    }

    lemma RefusedNow()
      requires savesBefore < storage.attempts
      ensures SaveRefused() <==> storage.Refused()
    {
    }

    /** What is visible in the middle of a turn has no orphan, and neither has what a compaction would read. */
    lemma VisibleNow()
      requires Valid() && IsTurnPrefix(LogMessages(log))
      ensures runtime.View().nextSeq < U64_MAX ==>
                && Answered(runtime.View().context.visible)
                && (BuildPlan(runtime.View().events, runtime.View().context.latest).Ok? ==>
                      Answered(BuildPlan(runtime.View().events, runtime.View().context.latest).value.compactable))
    {
      hide SessionInvariant, AppendAll, LegalLog, Payloads, TurnByTurn, OrphanFree, RawMessages, Answered, IsTurnPrefix,
        BuildPlan;
      NextTurn(start, log, log);
      if runtime.View().nextSeq < U64_MAX {
        NeverAnOrphan(runtime.View(), agent);
      }
    }

    /** Records what a model is asked about. */
    ghost method Show(list: seq<Message>)
      requires Valid() && (runtime.View().nextSeq < U64_MAX ==> Answered(list))
      modifies `shown
      ensures Valid() && shown == old(shown) + [list]
    {
      hide SessionInvariant, AppendAll, LegalLog, Payloads, TurnByTurn, OrphanFree, RawMessages, Answered;
      OrphanFreeSnoc(shown, runtime.View().nextSeq, list);
      shown := shown + [list];
    }

    /** A checkpoint is due every `checkpointInterval` turns, if there is a memory storage. */
    ghost predicate CheckpointDue()
      reads runtime`turnIndex
    {
      && settings.hasMemory && runtime.turnIndex != 0
      && settings.checkpointInterval != 0 && runtime.turnIndex % settings.checkpointInterval == 0
    }

    lemma DueMeans()
      ensures CheckpointDue() <==>
                && settings.hasMemory && runtime.turnIndex != 0
                && settings.checkpointInterval != 0 && runtime.turnIndex % settings.checkpointInterval == 0
    {
    }

    /** When it is due, at the end of a turn: an extraction that may fail, then its checkpoint, whose refusal is only
        logged. */
    method RunMemoryCheckpointIfNeeded(ghost windows: seq<Checkpoint.Window>) returns (ghost step: Checkpoint.Step)
      requires Valid()
      modifies runtime`lastMemoryCheckpointSeq, runtime.ledger, runtime.contextManager, storage, `log
      modifies outside`extractions
      ensures Valid()
      ensures outside.extractions == old(outside.extractions) + (if CheckpointDue() then 1 else 0)
      ensures
        var before := old(runtime.View());
        var last := LastAfter(before.events, before.checkpointSeq);
        if CheckpointDue() && outside.foreseen.extracts(old(outside.extractions)) && last.Some? then
          && step == Checkpoint.Extracted(!storage.Refused()) && storage.attempts == old(storage.attempts) + 1
          && log == old(log) + (if storage.Refused() then []
                                else [Metadata(MemoryCheckpointKey, CheckpointValue(last.value))])
        else step == Checkpoint.NotExtracted && log == old(log) && storage.attempts == old(storage.attempts)
      ensures Checkpoint.Leads(old(runtime.View()), windows, step, runtime.View(), agent)
    {
      hide *;
      ghost var before, logged := runtime.View(), log;
      ValidView();
      step := Checkpoint.NotExtracted;
      NothingExtracted(before, windows, agent);
      DueMeans();
      if !settings.hasMemory || runtime.turnIndex == 0 || settings.checkpointInterval == 0
        || runtime.turnIndex % settings.checkpointInterval != 0 {
        return;
      }
      var extracted := outside.Extract();
      var last := LastAfter(runtime.ledger.events, runtime.lastMemoryCheckpointSeq);
      ViewFields(runtime);
      if extracted && last.Some? {
        CheckpointWritable(World(runtime.View(), storage.saved), last.value);
        var stored := Persist(Metadata(MemoryCheckpointKey, CheckpointValue(last.value)));
        RefusedNow();
        step := Checkpoint.Extracted(stored);
        AppendSnoc(start, logged, Metadata(MemoryCheckpointKey, CheckpointValue(last.value)));
        ValidView();
        CheckpointExtracted(before, windows, last.value, agent);
      }
    }

    // -------------------------------------------------------------- requests

    /** Reads a provider stream to its end. */
    method ConsumeStream(items: seq<StreamItem>, allowTools: bool)
      returns (r: Result<Answer, RequestError>, ghost read: nat)
      requires Valid()
      modifies runtime`eventSequence, runtime`sent, `told, cancel
      ensures Valid() && StreamResult(items, allowTools, read, r) && read <= |items|
      ensures told == old(told) + StreamEvents(items[..read])
      ensures old(cancel.Fired()) ==> cancel.Fired()
      ensures r.Ok? && r.value.cancelled ==> cancel.Fired()
      ensures r.Err? && old(cancel.Due()) ==> read < |items| && items[read].Chunk? && items[read].event.CallChunk?
    {
      hide *;
      var output: string, calls: seq<RequestedCall>, i := "", [], 0;
      StreamStart(items, allowTools);
      while i < |items|
        invariant i <= |items| && Valid() && AllContinue(items[..i], allowTools)
        invariant output == StreamText(items[..i]) && calls == StreamCalls(items[..i])
        invariant told == old(told) + StreamEvents(items[..i])
        invariant (old(cancel.Fired()) ==> cancel.Fired()) && cancel.Due() == old(cancel.Due())
        decreases |items| - i
      {
        StreamStep(items, i, allowTools);
        StreamEnd(items, allowTools, i);
        read := i;
        match items[i] {
          case Broken =>
            var cancelled := cancel.Poll();
            return if cancelled then Ok(Answer(output, calls, true)) else Err(AgentFailure(ProviderError)), i;
          case Chunk(TextChunk(text)) =>
            output := output + text;
            Emit(TextDelta(text));
          case Chunk(ReasoningChunk(text)) =>
            Emit(ReasoningDelta(text));
          case Chunk(CallChunk(call)) =>
            if !allowTools {
              return Err(AgentFailure(ProviderError)), i;
            }
            calls := calls + [call];
          case Chunk(Done) =>
            return Ok(Answer(output, calls, false)), i;
          case Chunk(ErrorChunk(contextLengthExceeded)) =>
            var cancelled := cancel.Poll();
            return if cancelled then Ok(Answer(output, calls, true))
                   else if contextLengthExceeded then Err(ContextLengthExceeded)
                   else Err(AgentFailure(ProviderError)), i;
        }
        i := i + 1;
      }
      StreamEnd(items, allowTools, i);
      var cancelled := cancel.Poll();
      return if cancelled then Ok(Answer(output, calls, true)) else Err(AgentFailure(ProviderError)), i;
    }

    /** One model request. A cancelled turn makes none, and a request that cannot be built is not sent. */
    method RequestOnce(allowTools: bool) returns (r: Result<Answer, RequestError>)
      requires Valid() && IsTurnPrefix(LogMessages(log)) && Accounted()
      modifies runtime`eventSequence, runtime`sent, `told, `requests, `shown, `spans, provider, cancel, outside`built
      ensures Valid() && Accounted() && BatchesOf(spans) == BatchesOf(old(spans))
      ensures NoBatchSince(old(spans), spans)
      ensures || (requests == old(requests) && shown == old(shown) && provider.chats == old(provider.chats))
              || (requests == old(requests) + 1 && shown == old(shown) + [old(runtime.View()).context.visible]
                  && provider.chats == old(provider.chats) + 1
                  && outside.built > old(outside.built) && !outside.Unbuildable())
      ensures Orderly(old(told)) ==> Orderly(told)
      ensures old(provider.given) <= provider.given
      ensures r.Ok? ==> ReadFrom(r.value, allowTools, provider.given[|old(provider.given)|..])
      ensures r.Ok? && r.value.cancelled ==> cancel.Fired()
      ensures r.Err? && r.error.AgentFailure? ==> r.error.error != Cancelled && RefusedOutside(r.error.error, allowTools)
      ensures r == Err(ContextLengthExceeded) ==>
                provider.chats == old(provider.chats) + 1 && TooLong(old(provider.chats), allowTools)
      ensures old(provider.chats) <= provider.chats
      ensures old(cancel.Due()) ==>
                && requests == old(requests) && told == old(told) && r == Ok(Answer("", [], true))
                && provider.given == old(provider.given)
      ensures old(cancel.Fired()) ==> cancel.Fired()
    {
      hide *;
      SpansGrow(spans);
      NothingRead(allowTools);
      var cancelled := cancel.Poll();
      if cancelled {
        return Ok(Answer("", [], true));
      }
      var buildable := outside.Build();
      if !buildable {
        Reasons(allowTools);
        return Err(AgentFailure(InputValidation));
      }
      r := SendRequest(allowTools);
    }

    /** Shows the provider the visible messages and reads its stream. */
    method SendRequest(allowTools: bool) returns (r: Result<Answer, RequestError>)
      requires Valid() && IsTurnPrefix(LogMessages(log)) && Accounted()
      modifies runtime`eventSequence, runtime`sent, `told, `requests, `shown, `spans, provider, cancel
      ensures Valid() && Accounted() && BatchesOf(spans) == BatchesOf(old(spans))
      ensures NoBatchSince(old(spans), spans)
      ensures requests == old(requests) + 1 && shown == old(shown) + [old(runtime.View()).context.visible]
      ensures provider.chats == old(provider.chats) + 1
      ensures Orderly(old(told)) ==> Orderly(told)
      ensures old(provider.given) <= provider.given
      ensures r.Ok? ==> ReadFrom(r.value, allowTools, provider.given[|old(provider.given)|..])
      ensures r.Ok? && r.value.cancelled ==> cancel.Fired()
      ensures r.Err? && r.error.AgentFailure? ==> r.error.error != Cancelled && RefusedOutside(r.error.error, allowTools)
      ensures r == Err(ContextLengthExceeded) ==> TooLong(old(provider.chats), allowTools)
      ensures r.Err? && old(cancel.Due()) ==> provider.LastStream().Some? && r == Err(AgentFailure(ProviderError))
      ensures old(cancel.Fired()) ==> cancel.Fired()
    {
      hide *;
      SpansGrow(spans);
      NothingRead(allowTools);
      VisibleNow();
      requests := requests + 1;
      Show(runtime.View().context.visible);
      AccountNow();
      ghost var given := provider.given[givenBefore..];
      var stream := provider.Chat();
      if stream.None? {
        AccountAgain();
        var cancelled := cancel.Poll();
        ChatReason(allowTools, 0, ContextLengthExceeded);
        return if cancelled then Ok(Answer("", [], true)) else Err(AgentFailure(ProviderError));
      }
      var items := stream.value;
      assert provider.given[|old(provider.given)|..] == [items];
      ghost var read;
      r, read := ConsumeStream(items, allowTools);
      StreamOutcome(items, allowTools, read, r);
      TellStream(old(told), items, read);
      StreamSpan(items, allowTools, read, r, tools, maxToolCalls);
      if r.Err? {
        ChatReason(allowTools, read, r.error);
      }
      Note(Streamed(items, read), given, marked);
    }

    /** Why the last request failed. */
    lemma ChatReason(allowTools: bool, read: nat, error: RequestError)
      requires chatsBefore < provider.chats
      requires provider.LastStream().Some? ==> StreamResult(provider.LastStream().value, allowTools, read, Err(error))
      ensures provider.LastStream().None? ==> RefusedOutside(ProviderError, allowTools)
      ensures provider.LastStream().Some? && error.AgentFailure? ==>
                error == AgentFailure(ProviderError) && RefusedOutside(ProviderError, allowTools)
      ensures provider.LastStream().Some? && error == ContextLengthExceeded ==> TooLong(provider.chats - 1, allowTools)
    {
      hide StreamText, StreamCalls, AllContinue;
    }

    lemma TwiceTooLong(allowTools: bool)
      requires provider.chats >= 2 && TooLong(provider.chats - 2, allowTools) && TooLong(provider.chats - 1, allowTools)
      ensures RefusedOutside(CompactError, allowTools)
    {
      hide TooLong, CompactHookEnded, CannotCompact;
    }

    /** One pass of the loop asks at most twice; the second time only if the first request was too long, and after a
        compaction that was stored. */
    method RequestWithFallback(allowTools: bool) returns (r: Result<Answer, AgentError>)
      requires Valid() && IsTurnPrefix(LogMessages(log)) && Accounted()
      modifies runtime`lastMemoryCheckpointSeq, runtime`eventSequence, runtime`sent, runtime.ledger
      modifies runtime.contextManager, storage, provider, cancel, outside`built, outside`asked, outside`summaries
      modifies `log, `told, `requests, `compactions, `shown, `spans, `marked
      ensures Accounted() && BatchesOf(spans) == BatchesOf(old(spans)) && NoBatchSince(old(spans), spans)
      ensures Valid() && LogMessages(log) == LogMessages(old(log))
      ensures requests <= old(requests) + 2 && compactions <= old(compactions) + 1
      ensures compactions > old(compactions) ==> TooLong(old(provider.chats), allowTools)
      ensures requests == old(requests) + 2 ==> |marked| == |old(marked)| + 1
      ensures old(outside.asked) <= outside.asked
      ensures |outside.asked| + old(compactions) == |old(outside.asked)| + compactions
      ensures Orderly(old(told)) ==> Orderly(told)
      ensures old(provider.given) <= provider.given
      ensures r.Ok? ==> ReadFrom(r.value, allowTools, provider.given[|old(provider.given)|..])
      ensures r == Err(Cancelled) || (r.Ok? && r.value.cancelled) ==> cancel.Fired()
      ensures r.Err? && r.error != Cancelled ==> RefusedOutside(r.error, allowTools)
      ensures old(cancel.Due()) ==> requests == old(requests) && r == Ok(Answer("", [], true))
      ensures old(cancel.Fired()) ==> cancel.Fired()
    {
      hide *;
      ghost var before, spansBefore := provider.given, spans;
      var first := RequestOnce(allowTools);
      ghost var between, spansBetween := provider.given, spans;
      match first
      case Ok(answer) => r := Ok(answer);
      case Err(AgentFailure(error)) => r := Err(error);
      case Err(ContextLengthExceeded) =>
        r := CompactAndRetry(allowTools);
        SpansJoin(spansBefore, spansBetween, spans);
        assert provider.given[|before|..] == between[|before|..] + provider.given[|between|..];
        if r.Ok? {
          ReadLater(r.value, allowTools, between[|before|..], provider.given[|between|..]);
        }
    }

    /** After a request that was too long: compacts, and asks again only if the compaction was stored. */
    method CompactAndRetry(allowTools: bool) returns (r: Result<Answer, AgentError>)
      requires Valid() && IsTurnPrefix(LogMessages(log)) && Accounted()
      requires provider.chats > 0 && TooLong(provider.chats - 1, allowTools)
      modifies runtime`lastMemoryCheckpointSeq, runtime`eventSequence, runtime`sent, runtime.ledger
      modifies runtime.contextManager, storage, provider, cancel, outside`built, outside`asked, outside`summaries
      modifies `log, `told, `requests, `compactions, `shown, `spans, `marked
      ensures Accounted() && BatchesOf(spans) == BatchesOf(old(spans)) && NoBatchSince(old(spans), spans)
      ensures Valid() && LogMessages(log) == LogMessages(old(log))
      ensures requests <= old(requests) + 1 && compactions == old(compactions) + 1
      ensures requests == old(requests) + 1 ==> |marked| == |old(marked)| + 1
      ensures TooLong(old(provider.chats) - 1, allowTools)
      ensures old(outside.asked) <= outside.asked && |outside.asked| == |old(outside.asked)| + 1
      ensures Orderly(old(told)) ==> Orderly(told)
      ensures old(provider.given) <= provider.given
      ensures r.Ok? ==> ReadFrom(r.value, allowTools, provider.given[|old(provider.given)|..])
      ensures r == Err(Cancelled) || (r.Ok? && r.value.cancelled) ==> cancel.Fired()
      ensures r.Err? && r.error != Cancelled ==> RefusedOutside(r.error, allowTools)
      ensures old(cancel.Fired()) ==> cancel.Fired()
    {
      hide *;
      ghost var spansBefore := spans;
      CompactionTells(log, told);
      SpansGrow(spans);
      TooLongMeans(provider.chats - 1, allowTools);
      var compacted, marker, summary := CompactContext(Fallback);
      if compacted.Err? {
        return Err(compacted.error);
      }
      assert compacted == Ok(compacted.value) && compacted.value;
      ghost var spansBetween := spans;
      var second := RequestOnce(allowTools);
      SpansJoin(spansBefore, spansBetween, spans);
      TooLongMeans(old(provider.chats) - 1, allowTools);
      match second
      case Ok(answer) => r := Ok(answer);
      case Err(AgentFailure(error)) => r := Err(error);
      case Err(ContextLengthExceeded) =>
        TwiceTooLong(allowTools);
        r := Err(CompactError);
    }

    lemma TooLongMeans(k: nat, allowTools: bool)
      ensures TooLong(k, allowTools) <==>
                && chatsBefore <= k < provider.chats && provider.streams(k).Some?
                && EndsIn(provider.streams(k).value, allowTools, ContextLengthExceeded)
    {
      hide EndsIn;
    }

    // -------------------------------------------------------------- the turn

    /** Skill injections, then the user message. */
    method WriteOpening(injections: seq<string>, input: seq<ContentBlock>) returns (ok: bool)
      requires Valid() && log == [] && TurnAnnounced(start)
      modifies runtime`lastMemoryCheckpointSeq, runtime.ledger, runtime.contextManager, storage, `log, `turn
      ensures Valid()
      ensures turn == Turn(injections, input, [], None, "", Complete)
      ensures if ok then LogMessages(log) == TurnWord(turn) else LogMessages(log) <= TurnWord(turn)
      ensures !ok ==> SaveRefused()
    {
      hide *;
      turn := Turn(injections, input, [], None, "", Complete);
      InjectionsArePlain(injections);
      var stored := PersistAll(InjectionPayloads(injections));
      OpeningWritten(start, injections, input, log);
      if !stored {
        return false;
      }
      ValidView();
      ok := Persist(UserMessage(input));
    }

    lemma ValidView()
      requires Valid()
      ensures runtime.View() == AppendAll(start, log) && SessionInvariant(runtime.View(), agent)
    {
      hide SessionInvariant, AppendAll, LegalLog, Payloads;
    }

    /** Prepares the batch the answer asks for, writes its calls, runs it, writes its results. */
    method RunBatch(answer: Answer, b: nat) returns (r: Result<Outcome, AgentError>)
      requires b == |turn.rounds|
      requires Valid() && OpenTurn(turn) && turn.limit.None? && !answer.cancelled && answer.calls != []
      requires LogMessages(log) == TurnWord(turn) + AssistantWord(answer.text, Complete) && Orderly(told)
      requires Accounted()
      modifies runtime`lastMemoryCheckpointSeq, runtime`eventSequence, runtime`sent, runtime.ledger
      modifies runtime.contextManager, storage, `log, `told, `turn, `spans, cancel
      ensures Valid() && Accounted()
      ensures r.Ok? ==> BatchesOf(spans) == BatchesOf(old(spans)) + [r.value]
      ensures r.Ok? ==>
                && spans != [] && spans[|spans| - 1].BatchTold? && spans == old(spans) + [spans[|spans| - 1]]
                && spans[|spans| - 1].index == b
                && PreparedFor(tools, b, answer.calls, spans[|spans| - 1].batch)
      ensures BatchesOf(old(spans)) <= BatchesOf(spans) && |BatchesOf(spans)| <= |BatchesOf(old(spans))| + 1
      ensures r.Err? ==> InNextRound(LogMessages(log), turn, answer, tools) && turn == old(turn)
      ensures r.Err? ==> NoTerminal(told)
      ensures r.Err? ==>
                || (r.error == StorageError && SaveRefused())
                || (r.error == ContractViolation && BatchBreaks(tools, b, answer.calls))
      ensures r.Ok? ==>
                && turn.rounds != []
                && turn == old(turn).(rounds := old(turn).rounds + [turn.rounds[|turn.rounds| - 1]])
                && OpenTurn(turn) && ValidRound(turn.rounds[|turn.rounds| - 1])
                && RoundFrom(turn.rounds[|turn.rounds| - 1], answer, r.value)
                && Ran(tools, b, answer, turn.rounds[|turn.rounds| - 1], r.value)
                && LogMessages(log) == TurnWord(turn) && Orderly(told)
      ensures (old(cancel.Fired()) ==> cancel.Fired()) && (old(cancel.Due()) && r.Ok? ==> told == old(told))
      ensures r.Ok? && r.value.cancelled ==> cancel.Fired()
    {
      hide *;
      ghost var before := log;
      OrderlyNoTerminal(told);
      var prepared := PrepareWithHooks(tools, b, answer.calls);
      TextOnly(turn, answer, tools);
      if prepared.Err? {
        return Err(prepared.error);
      }
      var batch := prepared.value;
      PreparedSize(tools, b, answer.calls, batch);
      var stored := PersistAll(CallPayloads(batch.calls));
      CallsWritten(turn, answer, tools, batch, before, log);
      if !stored {
        return Err(StorageError);
      }
      ghost var withCalls := log;
      r := ExecuteAndTell(batch, b);
      if r.Err? {
        BrokenBatch(tools, b, answer.calls, batch);
        return;
      }
      assert batch.calls != [];
      BatchDone(tools, b, answer, batch, r.value);
      stored := PersistAll(ResultPayloads(r.value.results));
      ResultsWritten(turn, answer, tools, batch, r.value, withCalls, log);
      if !stored {
        return Err(StorageError);
      }
      turn := turn.(rounds := turn.rounds + [MakeRound(answer.text, batch.calls, r.value.results)]);
    }

    method ExecuteAndTell(batch: Batch, b: nat) returns (r: Result<Outcome, AgentError>)
      requires Valid() && Orderly(told) && Accounted()
      modifies runtime`eventSequence, runtime`sent, `told, `spans, cancel
      ensures Valid() && NoTerminal(told) && Accounted()
      ensures BatchesOf(spans) == BatchesOf(old(spans)) + if r.Ok? then [r.value] else []
      ensures spans != [] && spans[|spans| - 1].BatchTold? && spans == old(spans) + [spans[|spans| - 1]]
      ensures spans[|spans| - 1].batch == batch && spans[|spans| - 1].index == b
      ensures r.Ok? ==> BatchEnds(tools, b, batch, r.value) && Orderly(told)
      ensures r.Err? ==>
                && r.error == ContractViolation
                && exists i :: 0 <= i < |batch.calls| && batch.calls[i].execution.Execute?
                               && tools.run(b, i).after.AfterBroken?
      ensures (old(cancel.Fired()) ==> cancel.Fired()) && (old(cancel.Due()) && r.Ok? ==> told == old(told))
      ensures r.Ok? && r.value.cancelled ==> cancel.Fired()
    {
      hide SessionInvariant, AppendAll, LegalLog, Payloads, BatchEnds, Balanced, TellsBatch, FitSpans, Spelled,
        BatchesOf, TurnByTurn, RawMessages, OrphanFree, LogMarkers, CancelToken.Fired, CancelToken.Due;
      AccountNow();
      ghost var events;
      r, events := ExecuteBatch(runtime, cancel, tools, b, batch);
      if r.Ok? {
        TellBatch(told, events);
      }
      told := told + events;
      ghost var outcome := if r.Ok? then Some(r.value) else None;
      Note(BatchTold(b, batch, outcome, events), provider.given[givenBefore..], marked);
    }

    /** The TurnEnd hook, then the turn's last event. */
    method Finish(outcome: TurnOutcome, text: string, toolCallsCount: nat) returns (r: Result<TurnOutcome, AgentError>)
      requires Valid() && Orderly(told)
      modifies runtime`eventSequence, runtime`sent, `told, outside`asked
      ensures Valid()
      ensures told == if r.Ok? then old(told) + TerminalOf(outcome) else old(told)
      ensures outside.asked == old(outside.asked) + [Hooks.TurnEndData(text, toolCallsCount, outcome.TurnWasCancelled?)]
      ensures r.Ok? <==> outside.VerdictAt(|old(outside.asked)|).HookPassed?
      ensures r.Ok? ==> r.value == outcome && ToldWhole(told, outcome)
      ensures r.Err? ==> NoTerminal(told) && forall allowTools :: RefusedOutside(r.error, allowTools)
      ensures r.Err? ==> r.error == PluginAborted || r.error == ContractViolation
    {
      hide *;
      WholeTold(told, outcome);
      var verdict := outside.Ask(Hooks.TurnEndData(text, toolCallsCount, outcome.TurnWasCancelled?));
      TurnHookEnds(verdict);
      if verdict != HookPassed {
        return Err(if verdict.HookAborted? then PluginAborted else ContractViolation);
      }
      match outcome {
        case Completed => Emit(TurnComplete);
        case TurnWasCancelled => Emit(TurnCancelled);
        case Failed(_) =>
      }
      r := Ok(outcome);
    }

    lemma TurnHookEnds(verdict: HookVerdict)
      requires exists data: Hooks.HookData ::
                (data.TurnStartData? || data.TurnEndData?) && outside.Answered(data, verdict)
      ensures outside.asked != [] && outside.VerdictAt(|outside.asked| - 1) == verdict
      ensures verdict == HookAborted ==> forall allowTools :: RefusedOutside(PluginAborted, allowTools)
      ensures verdict == HookBroken ==> forall allowTools :: RefusedOutside(ContractViolation, allowTools)
    {
      hide CannotCompact, StillTooLong, SaveRefused, ChatFailed;
    }

    method PersistAssistant(text: string, status: MessageStatus) returns (ok: bool)
      requires Valid()
      modifies runtime`lastMemoryCheckpointSeq, runtime.ledger, runtime.contextManager, storage, `log
      ensures Valid()
      ensures LogMessages(log) == LogMessages(old(log)) + if ok then AssistantWord(text, status) else []
      ensures !ok ==> SaveRefused()
    {
      hide *;
      AssistantWritten(log, text, status);
      if text == "" {
        return true;
      }
      PlainWritable(World(runtime.View(), storage.saved), AssistantMessage([Text(text)], status));
      ok := Persist(AssistantMessage([Text(text)], status));
    }

    /** The memory checkpoint writes no message. */
    method CheckpointQuietly()
      requires Valid()
      modifies runtime`lastMemoryCheckpointSeq, runtime.ledger, runtime.contextManager, storage, `log
      modifies outside`extractions
      ensures Valid() && LogMessages(log) == LogMessages(old(log))
      ensures outside.extractions == old(outside.extractions) + (if CheckpointDue() then 1 else 0)
    {
      hide *;
      MetadataIsQuiet(log);
      ghost var step := RunMemoryCheckpointIfNeeded([]);
    }

    /** Ends a turn whose words are all written. */
    method CloseTurn(outcome: TurnOutcome, text: string, toolCallsCount: nat)
      returns (r: Result<TurnOutcome, AgentError>)
      requires Valid() && Ended(turn, answers, batches, maxToolCalls, outcome)
      requires text == turn.text && toolCallsCount == CountResults(turn.rounds) && LimitWasTold()
      requires LogMessages(log) == TurnWord(turn) && Orderly(told) && AllRan(tools, turn.rounds, answers, batches)
      modifies runtime`eventSequence, runtime`sent, `told, outside`asked
      ensures Valid()
      ensures told == if r.Ok? then old(told) + TerminalOf(outcome) else old(told)
      ensures |outside.asked| == |old(outside.asked)| + 1 && old(outside.asked) <= outside.asked
      ensures EndHookAsked(outcome, r.Ok?)
      ensures r.Ok? ==> r.value == outcome && ToldWhole(told, outcome)
      ensures Finished(outcome) && (r.Err? ==> BrokeOff(r.error) && r.error != StorageError)
    {
      hide *;
      EndedCut(turn, answers, batches, tools, maxToolCalls, outcome);
      r := Finish(outcome, text, toolCallsCount);
      EndHook(outcome);
      FinishedMeans(outcome);
      if r.Err? {
        JustifiedAnyway(r.error);
        BrokeOffMeans(r.error);
      }
    }

    /** The last hook asked was TurnEnd, about this turn as it is, and whether it passed. */
    ghost predicate EndHookAsked(outcome: TurnOutcome, passed: bool)
      reads `turn, outside`asked
    {
      && outside.asked != []
      && outside.asked[|outside.asked| - 1]
         == Hooks.TurnEndData(turn.text, CountResults(turn.rounds), outcome.TurnWasCancelled?)
      && (passed <==> outside.VerdictAt(|outside.asked| - 1).HookPassed?)
    }

    lemma EndHook(outcome: TurnOutcome)
      ensures outside.asked != [] &&
              outside.asked[|outside.asked| - 1]
              == Hooks.TurnEndData(turn.text, CountResults(turn.rounds), outcome.TurnWasCancelled?) ==>
                EndHookAsked(outcome, outside.VerdictAt(|outside.asked| - 1).HookPassed?)
    {
      hide CountResults;
    }

    /** The estimate of the visible list, with prompt and tools, exceeds the configured share of the window. */
    ghost predicate EstimateExceeded(allowTools: bool)
      reads runtime.contextManager
    {
      && settings.compactAbove < U64_MAX
      && runtime.contextManager.estimatedTokens + settings.promptChars / 4
           + (if allowTools then settings.toolsChars else 0) / 4 > settings.compactAbove
    }

    /** Compacts first exactly if the estimate asks for it, then requests. */
    method Ask(allowTools: bool, ghost before: nat) returns (r: Result<Answer, AgentError>)
      requires Valid() && Orderly(told) && IsTurnPrefix(LogMessages(log)) && Accounted()
      requires Sourced(answers, provider.given, before) && PassByPass(spans, answers, tools)
      modifies runtime`lastMemoryCheckpointSeq, runtime`eventSequence, runtime`sent, runtime.ledger
      modifies runtime.contextManager, storage, provider, cancel, outside`built, outside`asked, outside`summaries
      modifies `log, `told, `requests, `compactions, `shown, `spans, `marked
      ensures Accounted() && BatchesOf(spans) == BatchesOf(old(spans))
      ensures Valid() && LogMessages(log) == LogMessages(old(log)) && Orderly(told) && old(spans) <= spans
      ensures requests <= old(requests) + 2 && compactions <= old(compactions) + 2
      ensures old(EstimateExceeded(allowTools)) ==> compactions > old(compactions)
      ensures compactions > old(compactions) ==>
                old(EstimateExceeded(allowTools)) || TooLong(old(provider.chats), allowTools)
      ensures old(outside.asked) <= outside.asked
      ensures |outside.asked| + old(compactions) == |old(outside.asked)| + compactions
      ensures Sourced(answers, provider.given, before) && PassByPass(spans, answers, tools)
      ensures r.Ok? ==>
                && Sourced(answers + [r.value], provider.given, before) && FromStream(r.value, allowTools)
                && ReadFrom(r.value, allowTools, StreamsOf(spans))
      ensures r == Err(Cancelled) || (r.Ok? && r.value.cancelled) ==> cancel.Fired()
      ensures r.Err? && r.error != Cancelled ==> RefusedOutside(r.error, allowTools)
    {
      hide *;
      AccountNow();
      ghost var given, spansBefore := provider.given, spans;
      SpansGrow(spans);
      EstimateMeans(allowTools);
      var needsCompaction := runtime.contextManager.NeedsCompaction(settings.promptChars,
        if allowTools then settings.toolsChars else 0, settings.compactAbove);
      if needsCompaction {
        CompactionTells(log, told);
        var compacted, marker, summary := CompactContext(Estimate);
        StillPassByPass(spansBefore, spans, answers, answers, tools);
        if compacted.Err? {
          return Err(compacted.error);
        }
      }
      ghost var spansBetween := spans;
      r := RequestWithFallback(allowTools);
      SpansKept(spansBetween, spans);
      StillPassByPass(spansBetween, spans, answers, answers, tools);
      AnswerSourced(answers, given, provider.given, before, allowTools, r);
      AccountNow();
      StreamsFit(spans, tools, maxToolCalls, provider.given[givenBefore..], marked);
      if r.Ok? {
        ReadLater(r.value, allowTools, given[givenBefore..], provider.given[|given|..]);
        assert provider.given[givenBefore..] == given[givenBefore..] + provider.given[|given|..];
      }
    }

    lemma EstimateMeans(allowTools: bool)
      ensures EstimateExceeded(allowTools) <==>
                && settings.compactAbove < U64_MAX
                && runtime.contextManager.estimatedTokens + settings.promptChars / 4
                     + (if allowTools then settings.toolsChars else 0) / 4 > settings.compactAbove
    {
    }

    /** The answer's text is written and nothing is left to do. */
    method EndWithAnswer(answer: Answer, status: MessageStatus, outcome: TurnOutcome, toolCallsCount: nat)
      returns (r: Result<TurnOutcome, AgentError>)
      requires toolCallsCount == CountResults(turn.rounds) && LimitWasTold()
      requires Valid() && Orderly(told) && LogMessages(log) == TurnWord(turn.(text := answer.text, status := status))
      requires Ended(turn.(text := answer.text, status := status), answers + [answer], batches, maxToolCalls, outcome)
      requires AllRan(tools, turn.rounds, answers + [answer], batches)
      modifies runtime`lastMemoryCheckpointSeq, runtime`eventSequence, runtime`sent, runtime.ledger
      modifies runtime.contextManager, storage, `log, `told, `turn, `answers, outside`asked, outside`extractions
      ensures Valid() && LogMessages(log) == TurnWord(turn)
      ensures outside.extractions == old(outside.extractions) + (if CheckpointDue() then 1 else 0)
      ensures |outside.asked| == |old(outside.asked)| + 1 && old(outside.asked) <= outside.asked
      ensures EndHookAsked(outcome, r.Ok?)
      ensures told == if r.Ok? then old(told) + TerminalOf(outcome) else old(told)
      ensures turn == old(turn).(text := answer.text, status := status) && answers == old(answers) + [answer]
      ensures r.Ok? ==> r.value == outcome && ToldWhole(told, outcome)
      ensures Finished(outcome) && (r.Err? ==> BrokeOff(r.error) && r.error != StorageError)
    {
      hide *;
      LimitMeans();
      CheckpointQuietly();
      turn, answers := turn.(text := answer.text, status := status), answers + [answer];
      LimitMeans();
      r := CloseTurn(outcome, answer.text, toolCallsCount);
    }

    /** Too many tool results: an error event and a notice to the model. */
    method TellLimit() returns (ok: bool)
      requires Valid() && Orderly(told) && OpenTurn(turn) && turn.limit.None? && turn.rounds != []
      requires LogMessages(log) == TurnWord(turn) && Accounted()
      modifies runtime`lastMemoryCheckpointSeq, runtime`eventSequence, runtime`sent, runtime.ledger
      modifies runtime.contextManager, storage, `log, `told, `turn, `spans
      ensures Valid() && Orderly(told) && NoTerminal(told)
      ensures Accounted() && BatchesOf(spans) == BatchesOf(old(spans)) && NoBatchSince(old(spans), spans)
      ensures spans == old(spans) + [LimitTold(maxToolCalls)]
      ensures !ok ==> SaveRefused() && turn == old(turn) && LogMessages(log) == TurnWord(turn)
      ensures ok ==> turn == old(turn).(limit := Some(maxToolCalls)) && LogMessages(log) == TurnWord(turn)
    {
      hide *;
      LimitWritten(turn, log, told, maxToolCalls);
      AccountNow();
      SpansGrow(spans);
      LimitSpan(tools, maxToolCalls);
      Emit(ErrorEvent(MaxToolCallsExceeded(maxToolCalls)));
      Note(LimitTold(maxToolCalls), provider.given[givenBefore..], marked);
      PlainWritable(World(runtime.View(), storage.saved), SystemMessage(ToolLimitNotice(maxToolCalls)));
      ok := Persist(SystemMessage(ToolLimitNotice(maxToolCalls)));
      if ok {
        turn := turn.(limit := Some(maxToolCalls));
      }
    }

    // -------------------------------------------------------------- the loop

    /** In front of a pass: everything so far belongs to whole rounds, and the loop's variables say so. */
    ghost predicate Ready(state: PassEnd)
      reads `turn, `answers, `batches, `log, `told, `spans, `marked, provider
    {
      && AtHead(turn, answers, batches, maxToolCalls, state.allowTools) && AllRan(tools, turn.rounds, answers, batches)
      && LogMessages(log) == TurnWord(turn) && Orderly(told)
      && Accounted() && BatchesOf(spans) == batches && PassByPass(spans, answers, tools)
      && state.toolCallsCount == CountResults(turn.rounds) && state.batchCount == |turn.rounds|
      && state.limitReached == turn.limit.Some? && LimitWasTold()
    }

    /** A turn with the limit notice has told that the limit was exceeded. */
    ghost predicate LimitWasTold()
      reads `turn, `spans
    {
      turn.limit.Some? ==> LimitTold(maxToolCalls) in spans
    }

    lemma LimitMeans()
      ensures LimitWasTold() <==> (turn.limit.Some? ==> LimitTold(maxToolCalls) in spans)
    {
    }

    /** The text of an answer with calls is written, its batch is next. */
    ghost predicate ReadyToRun(state: PassEnd, answer: Answer)
      reads `turn, `answers, `batches, `log, `told, `spans, `marked, provider
    {
      && AtHead(turn, answers, batches, maxToolCalls, true) && AllRan(tools, turn.rounds, answers, batches)
      && LogMessages(log) == TurnWord(turn) + AssistantWord(answer.text, Complete) && Orderly(told)
      && Accounted() && BatchesOf(spans) == batches && PassByPass(spans, answers, tools)
      && state.toolCallsCount == CountResults(turn.rounds) && state.batchCount == |turn.rounds|
      && !answer.cancelled && answer.calls != [] && ReadFrom(answer, true, StreamsOf(spans))
    }

    /** Everything is written and this is how the turn ends. */
    ghost predicate Finished(outcome: TurnOutcome)
      reads `turn, `answers, `batches, `log, `spans
    {
      && LimitWasTold()
      && Ended(turn, answers, batches, maxToolCalls, outcome) && LogMessages(log) == TurnWord(turn)
      && AllRan(tools, turn.rounds, answers, batches)
    }

    /** The turn was cut off, and why. */
    ghost predicate BrokeOff(error: AgentError)
      reads `turn, `answers, `batches, `log, `told
      reads storage`attempts, outside, provider`chats, runtime, runtime.ledger, runtime.contextManager
    {
      CutOff(LogMessages(log), turn, answers, batches, tools, maxToolCalls) && NoTerminal(told) && Justified(error)
    }

    lemma ReadyMeans(state: PassEnd)
      ensures Ready(state) <==>
                && AtHead(turn, answers, batches, maxToolCalls, state.allowTools)
                && AllRan(tools, turn.rounds, answers, batches)
                && LogMessages(log) == TurnWord(turn) && Orderly(told)
                && Accounted() && BatchesOf(spans) == batches && PassByPass(spans, answers, tools)
                && state.toolCallsCount == CountResults(turn.rounds) && state.batchCount == |turn.rounds|
                && state.limitReached == turn.limit.Some? && LimitWasTold()
    {
      hide LimitWasTold, AtHead, AllRan, LogMessages, TurnWord, Orderly, Accounted, BatchesOf, PassByPass, CountResults;
    }

    lemma ReadyToRunMeans(state: PassEnd, answer: Answer)
      ensures ReadyToRun(state, answer) <==>
                && AtHead(turn, answers, batches, maxToolCalls, true) && AllRan(tools, turn.rounds, answers, batches)
                && LogMessages(log) == TurnWord(turn) + AssistantWord(answer.text, Complete) && Orderly(told)
                && Accounted() && BatchesOf(spans) == batches && PassByPass(spans, answers, tools)
                && state.toolCallsCount == CountResults(turn.rounds) && state.batchCount == |turn.rounds|
                && !answer.cancelled && answer.calls != [] && ReadFrom(answer, true, StreamsOf(spans))
    {
      hide AtHead, AllRan, LogMessages, TurnWord, Orderly, Accounted, BatchesOf, PassByPass, CountResults, AssistantWord,
        ReadFrom, StreamsOf;
    }

    lemma FinishedMeans(outcome: TurnOutcome)
      ensures Finished(outcome) <==>
                && LimitWasTold()
                && Ended(turn, answers, batches, maxToolCalls, outcome) && LogMessages(log) == TurnWord(turn)
                && AllRan(tools, turn.rounds, answers, batches)
    {
      hide Ended, LogMessages, TurnWord, AllRan, LimitWasTold;
    }

    lemma BrokeOffMeans(error: AgentError)
      ensures BrokeOff(error) <==>
                && CutOff(LogMessages(log), turn, answers, batches, tools, maxToolCalls) && NoTerminal(told)
                && Justified(error)
    {
      hide CutOff, LogMessages, NoTerminal, Justified;
    }

    /** What the outside refused justifies failing wherever the turn was cut off. */
    lemma JustifiedAnyway(error: AgentError)
      requires CutOff(LogMessages(log), turn, answers, batches, tools, maxToolCalls)
      requires forall allowTools :: RefusedOutside(error, allowTools)
      ensures Justified(error)
    {
      hide RefusedOutside, TurnWord, AllRan, InNextRound, ToolsLeft, GoesOn, RoundFrom;
      assert RefusedOutside(error, |batches| == |turn.rounds| && ToolsLeft(turn.rounds, batches, maxToolCalls));
    }

    lemma JustifiedAtHead(error: AgentError, allowTools: bool)
      requires AtHead(turn, answers, batches, maxToolCalls, allowTools) && RefusedOutside(error, allowTools)
      ensures Justified(error)
    {
      hide RefusedOutside, ToolsLeft, GoesOn, RoundFrom;
    }

    lemma JustifiedByBatch(answer: Answer)
      requires answers != [] && answers[|answers| - 1] == answer && |answers| == |turn.rounds| + 1
      requires BatchBreaks(tools, |turn.rounds|, answer.calls)
      ensures Justified(ContractViolation)
    {
      hide RefusedOutside, BatchBreaks;
    }

    /** Writes the answer's text and ends the turn, unless there are calls to run. */
    method TakeAnswer(answer: Answer, state: PassEnd) returns (ended: Option<Result<TurnOutcome, AgentError>>)
      requires Valid() && Ready(state)
      requires FromStream(answer, state.allowTools) && ReadFrom(answer, state.allowTools, StreamsOf(spans))
      modifies runtime`lastMemoryCheckpointSeq, runtime`eventSequence, runtime`sent, runtime.ledger
      modifies runtime.contextManager, storage, `log, `told, `turn, `answers, outside`asked, outside`extractions
      ensures Valid()
      ensures turn.injections == old(turn).injections && turn.input == old(turn).input
      ensures answers == old(answers) || answers == old(answers) + [answer]
      ensures PassByPass(spans, answers, tools)
      ensures old(outside.asked) <= outside.asked
      ensures ended.None? ==>
                && !answer.cancelled && answer.calls != [] && state.allowTools && ReadyToRun(state, answer)
                && turn == old(turn) && answers == old(answers) && told == old(told)
                && outside.asked == old(outside.asked) && outside.extractions == old(outside.extractions)
      ensures ended.Some? ==>
                told == if ended.value.Ok? then old(told) + TerminalOf(ended.value.value) else old(told)
      ensures ended.Some? && ended.value.Ok? ==>
                && Finished(ended.value.value) && ToldWhole(told, ended.value.value)
                && answers == old(answers) + [answer] && (answer.cancelled || answer.calls == [])
                && (ended.value.value == TurnWasCancelled <==> answer.cancelled)
                && |outside.asked| == |old(outside.asked)| + 1 && EndHookAsked(ended.value.value, true)
                && outside.extractions == old(outside.extractions) + (if CheckpointDue() then 1 else 0)
      ensures ended.Some? && ended.value.Err? ==> BrokeOff(ended.value.error)
      ensures ended == Some(Err(StorageError)) ==> outside.extractions == old(outside.extractions)
    {
      hide *;
      ReadyMeans(state);
      HeadBounded(turn, answers, batches, maxToolCalls, state.allowTools);
      HeadCut(turn, answers, batches, tools, maxToolCalls, state.allowTools);
      OrderlyNoTerminal(told);
      EndWithText(turn, answers, batches, maxToolCalls, state.allowTools, answer);
      KeepRan(tools, turn.rounds, answers, batches, answer);
      KeepPassByPass(spans, answers, answer, tools);
      TextWord(turn, answer.text);
      var stored := PersistAssistant(answer.text, if answer.cancelled then Incomplete else Complete);
      if !stored {
        SaveReason();
        JustifiedAnyway(StorageError);
        BrokeOffMeans(StorageError);
        return Some(Err(StorageError));
      }
      if answer.cancelled {
        var r := EndWithAnswer(answer, Incomplete, TurnWasCancelled, state.toolCallsCount);
        return Some(r);
      }
      if answer.calls == [] {
        var r := EndWithAnswer(answer, Complete,
                               if state.limitReached then Failed(MaxToolCallsExceeded(maxToolCalls)) else Completed,
                               state.toolCallsCount);
        return Some(r);
      }
      if !state.allowTools {
        // The stream was already refused at its first call.
        NoToolsNoCalls(answer);
        assert false;
      }
      ReadyToRunMeans(state, answer);
      ended := None;
    }

    /** A pass with tools: the batch, its count, and what it leaves to the next pass; nothing when cancelled. */
    method ToolPass(answer: Answer, state: PassEnd) returns (r: Result<Option<PassEnd>, AgentError>, count: nat)
      requires Valid() && ReadyToRun(state, answer)
      modifies runtime`lastMemoryCheckpointSeq, runtime`eventSequence, runtime`sent, runtime.ledger
      modifies runtime.contextManager, storage, `log, `told, `turn, `answers, `batches, `spans, cancel
      ensures Valid() && Accounted() && batches <= BatchesOf(spans) && |BatchesOf(spans)| <= |batches| + 1
      ensures turn.injections == old(turn).injections && turn.input == old(turn).input
                && answers == old(answers) + [answer]
      ensures r.Err? ==> BrokeOff(r.error)
      ensures r.Ok? ==> |turn.rounds| == |old(turn).rounds| + 1 && Orderly(told)
      ensures r == Ok(None) ==>
                && Finished(TurnWasCancelled) && cancel.Fired() && turn.text == "" && count == CountResults(turn.rounds)
                && BatchesOf(spans) == batches && PassByPass(spans, answers, tools)
      ensures r.Ok? && r.value.Some? ==> Ready(r.value.value)
      ensures old(cancel.Fired()) ==> cancel.Fired()
    {
      hide *;
      ReadyToRunMeans(state, answer);
      HeadBounded(turn, answers, batches, maxToolCalls, true);
      HeadCut(turn, answers, batches, tools, maxToolCalls, true);
      ghost var before, spansBefore := turn, spans;
      SizesOf(turn, answers, batches, maxToolCalls);
      var batch := RunBatch(answer, state.batchCount);
      count := state.toolCallsCount;
      if batch.Err? {
        answers := answers + [answer];
        if batch.error == StorageError {
          SaveReason();
          JustifiedAnyway(StorageError);
        } else {
          JustifiedByBatch(answer);
        }
        BrokeOffMeans(batch.error);
        return Err(batch.error), count;
      }
      var outcome := batch.value;
      AddRound(before, answers, batches, maxToolCalls, answer, turn.rounds[|turn.rounds| - 1], outcome);
      RanSnoc(tools, before.rounds, answers, batches, answer, turn.rounds[|turn.rounds| - 1], outcome);
      OpenText(turn);
      BatchInPass(spansBefore, spans[|spans| - 1], answers, answer, tools);
      answers, batches := answers + [answer], batches + [outcome];
      count := state.toolCallsCount + |outcome.results|;
      LimitMeans();
      if outcome.cancelled {
        FinishedMeans(TurnWasCancelled);
        return Ok(None), count;
      }
      if count > maxToolCalls {
        r := TellTooMany(count, state.batchCount + 1);
        return;
      }
      r := Ok(Some(PassEnd(count, state.batchCount + 1, !outcome.stopAfterBatch, false)));
      ReadyMeans(r.value.value);
    }

    /** After a round that exceeded the limit. */
    method TellTooMany(count: nat, batchCount: nat) returns (r: Result<Option<PassEnd>, AgentError>)
      requires Valid() && Orderly(told) && OpenTurn(turn) && turn.limit.None? && turn.rounds != []
      requires LogMessages(log) == TurnWord(turn) && count == CountResults(turn.rounds) && batchCount == |turn.rounds|
      requires Accounted() && BatchesOf(spans) == batches && PassByPass(spans, answers, tools)
      requires History(turn, answers, batches, maxToolCalls) && AllRan(tools, turn.rounds, answers, batches)
      requires |answers| == |turn.rounds|
      requires AtHead(turn.(limit := Some(maxToolCalls)), answers, batches, maxToolCalls, false)
      modifies runtime`lastMemoryCheckpointSeq, runtime`eventSequence, runtime`sent, runtime.ledger
      modifies runtime.contextManager, storage, `log, `told, `turn, `spans
      ensures Valid() && Accounted() && BatchesOf(spans) == batches && Orderly(told)
      ensures turn == old(turn) || turn == old(turn).(limit := Some(maxToolCalls))
      ensures r.Err? ==> BrokeOff(r.error)
      ensures r.Ok? ==> r.value.Some? && Ready(r.value.value)
    {
      hide *;
      RoundCut(turn, answers, batches, tools, maxToolCalls);
      ghost var spansBetween := spans;
      var stored := TellLimit();
      StillPassByPass(spansBetween, spans, answers, answers, tools);
      if !stored {
        SaveReason();
        JustifiedAnyway(StorageError);
        BrokeOffMeans(StorageError);
        return Err(StorageError);
      }
      r := Ok(Some(PassEnd(count, batchCount, false, true)));
      LimitMeans();
      ReadyMeans(r.value.value);
    }

    /** One pass of the loop: a poll, an answer, and its batch. Only a pass with tools is followed by another. */
    method Pass(state: PassEnd, ghost before: nat)
      returns (ended: Option<Result<TurnOutcome, AgentError>>, next: PassEnd)
      requires Valid() && Ready(state) && Sourced(answers, provider.given, before)
      modifies runtime`lastMemoryCheckpointSeq, runtime`eventSequence, runtime`sent, runtime.ledger
      modifies runtime.contextManager, storage, provider, cancel, outside
      modifies `log, `told, `requests, `compactions, `shown, `turn, `answers, `batches, `spans, `marked
      ensures Valid() && requests <= old(requests) + 2 && compactions <= old(compactions) + 2
      ensures turn.injections == old(turn).injections && turn.input == old(turn).input
      ensures Sourced(answers, provider.given, before)
      ensures SpansFit() && batches <= BatchesOf(spans) && |BatchesOf(spans)| <= |batches| + 1
      ensures told == if ended.Some? && ended.value.Ok? then Spelled(spans) + TerminalOf(ended.value.value)
                      else Spelled(spans)
      ensures old(outside.asked) <= outside.asked
      ensures ended.None? ==>
                && state.allowTools && Ready(next) && |turn.rounds| == |old(turn).rounds| + 1
                && |outside.asked| + old(compactions) == |old(outside.asked)| + compactions
                && outside.extractions == old(outside.extractions)
      ensures ended.Some? && ended.value.Ok? ==>
                && Finished(ended.value.value) && ToldWhole(told, ended.value.value)
                && BatchesOf(spans) == batches && PassByPass(spans, answers, tools)
                && (ended.value.value == TurnWasCancelled ==> cancel.Fired())
                && |outside.asked| + old(compactions) == |old(outside.asked)| + compactions + 1
                && EndHookAsked(ended.value.value, true)
                && (ended.value.value != TurnWasCancelled ==>
                      outside.extractions == old(outside.extractions) + (if CheckpointDue() then 1 else 0))
      ensures ended.Some? && ended.value.Err? ==> BrokeOff(ended.value.error)
      ensures ended == Some(Err(StorageError)) ==> outside.extractions == old(outside.extractions)
      ensures old(cancel.Due()) ==>
                && ended.Some? && requests == old(requests) && compactions == old(compactions)
                && answers == old(answers) && batches == old(batches)
    {
      hide *;
      next := state;
      var answer;
      ended, answer := AnswerHere(state, before);
      if ended.Some? {
        return;
      }
      ReadyMeans(state);
      AccountNow();
      ended := TakeAnswer(answer, state);
      if ended.Some? {
        return;
      }
      ended, next := RunCalls(answer, state);
    }

    /** The last part of a pass: the batch, and the end of the turn if it was cancelled. */
    method RunCalls(answer: Answer, state: PassEnd)
      returns (ended: Option<Result<TurnOutcome, AgentError>>, next: PassEnd)
      requires Valid() && ReadyToRun(state, answer)
      modifies runtime`lastMemoryCheckpointSeq, runtime`eventSequence, runtime`sent, runtime.ledger
      modifies runtime.contextManager, storage, `log, `told, `turn, `answers, `batches, `spans, cancel
      modifies outside`asked, outside`extractions
      ensures Valid() && SpansFit() && batches <= BatchesOf(spans) && |BatchesOf(spans)| <= |batches| + 1
      ensures turn.injections == old(turn).injections && turn.input == old(turn).input
                && answers == old(answers) + [answer]
      ensures told == if ended.Some? && ended.value.Ok? then Spelled(spans) + TerminalOf(ended.value.value)
                      else Spelled(spans)
      ensures old(outside.asked) <= outside.asked
      ensures ended.None? ==>
                && Ready(next) && |turn.rounds| == |old(turn).rounds| + 1
                && outside.asked == old(outside.asked) && outside.extractions == old(outside.extractions)
      ensures ended.Some? && ended.value.Ok? ==>
                && ended.value.value == TurnWasCancelled && Finished(TurnWasCancelled)
                && ToldWhole(told, TurnWasCancelled) && cancel.Fired()
                && BatchesOf(spans) == batches && PassByPass(spans, answers, tools)
                && |outside.asked| == |old(outside.asked)| + 1 && EndHookAsked(TurnWasCancelled, true)
      ensures ended.Some? && ended.value.Err? ==> BrokeOff(ended.value.error)
      ensures ended == Some(Err(StorageError)) ==> outside.extractions == old(outside.extractions)
    {
      hide *;
      next := state;
      var passed, count := ToolPass(answer, state);
      AccountNow();
      if passed.Err? {
        return Some(Err(passed.error)), next;
      }
      if passed.value.None? {
        FinishedMeans(TurnWasCancelled);
        CheckpointQuietly();
        var r := CloseTurn(TurnWasCancelled, "", count);
        return Some(r), next;
      }
      next := passed.value.value;
      ended := None;
    }

    /** The first part of a pass: a poll and an answer. A cancelled turn ends here, a failed request cuts it off. */
    method AnswerHere(state: PassEnd, ghost before: nat)
      returns (ended: Option<Result<TurnOutcome, AgentError>>, answer: Answer)
      requires Valid() && Ready(state) && Sourced(answers, provider.given, before)
      modifies runtime`lastMemoryCheckpointSeq, runtime`eventSequence, runtime`sent, runtime.ledger
      modifies runtime.contextManager, storage, provider, cancel, outside
      modifies `log, `told, `requests, `compactions, `shown, `spans, `marked
      ensures Valid() && requests <= old(requests) + 2 && compactions <= old(compactions) + 2
      ensures Sourced(answers, provider.given, before)
      ensures SpansFit() && BatchesOf(spans) == batches && PassByPass(spans, answers, tools)
      ensures old(outside.asked) <= outside.asked
      ensures told == if ended.Some? && ended.value.Ok? then Spelled(spans) + TerminalOf(ended.value.value)
                      else Spelled(spans)
      ensures ended.None? ==>
                && Ready(state) && FromStream(answer, state.allowTools)
                && ReadFrom(answer, state.allowTools, StreamsOf(spans))
                && Sourced(answers + [answer], provider.given, before)
                && (answer.cancelled ==> cancel.Fired())
                && |outside.asked| + old(compactions) == |old(outside.asked)| + compactions
                && outside.extractions == old(outside.extractions)
      ensures ended.Some? && ended.value.Ok? ==>
                && ended.value.value == TurnWasCancelled && Finished(TurnWasCancelled)
                && ToldWhole(told, TurnWasCancelled) && cancel.Fired()
                && |outside.asked| + old(compactions) == |old(outside.asked)| + compactions + 1
                && EndHookAsked(TurnWasCancelled, true)
      ensures ended.Some? && ended.value.Err? ==> BrokeOff(ended.value.error)
      ensures ended == Some(Err(StorageError)) ==> outside.extractions == old(outside.extractions)
      ensures old(cancel.Due()) ==> ended.Some? && requests == old(requests) && compactions == old(compactions)
    {
      hide *;
      ReadyMeans(state);
      answer := Answer("", [], true);
      HeadBounded(turn, answers, batches, maxToolCalls, state.allowTools);
      AccountNow();
      var cancelled := cancel.Poll();
      if cancelled {
        var r := CancelHere(state, true);
        return Some(r), answer;
      }
      LimitMeans();
      var answered := Ask(state.allowTools, before);
      AccountNow();
      LimitMeans();
      ReadyMeans(state);
      if answered.Ok? {
        return None, answered.value;
      }
      if answered.error == Cancelled {
        var r := CancelHere(state, false);
        return Some(r), answer;
      }
      HeadCut(turn, answers, batches, tools, maxToolCalls, state.allowTools);
      OrderlyNoTerminal(told);
      JustifiedAtHead(answered.error, state.allowTools);
      BrokeOffMeans(answered.error);
      ended := Some(Err(answered.error));
    }

    /** Ends a turn that was cancelled in front of a request, or by a compaction or a request, after a last
        checkpoint or without one. */
    method CancelHere(state: PassEnd, checkpoint: bool) returns (r: Result<TurnOutcome, AgentError>)
      requires Valid() && Ready(state)
      modifies runtime`lastMemoryCheckpointSeq, runtime`eventSequence, runtime`sent, runtime.ledger
      modifies runtime.contextManager, storage, `log, `told, outside`asked, outside`extractions
      ensures Valid()
      ensures told == if r.Ok? then old(told) + TerminalOf(TurnWasCancelled) else old(told)
      ensures |outside.asked| == |old(outside.asked)| + 1 && old(outside.asked) <= outside.asked
      ensures outside.extractions == old(outside.extractions) + (if checkpoint && CheckpointDue() then 1 else 0)
      ensures r.Ok? ==>
                && r.value == TurnWasCancelled && Finished(TurnWasCancelled) && ToldWhole(told, TurnWasCancelled)
                && EndHookAsked(TurnWasCancelled, true)
      ensures r.Err? ==> BrokeOff(r.error) && r.error != StorageError
    {
      hide *;
      ReadyMeans(state);
      EndWithoutAnswer(turn, answers, batches, maxToolCalls, state.allowTools);
      HeadBounded(turn, answers, batches, maxToolCalls, state.allowTools);
      OpenText(turn);
      if checkpoint {
        CheckpointQuietly();
      }
      r := CloseTurn(TurnWasCancelled, "", state.toolCallsCount);
    }

    /** The whole turn. Whatever the provider, the hooks, the tools and the storage do, it makes at most two
        passes more than tool calls are allowed, each with at most two requests and two compactions. A turn
        that returns has written a whole word, made of its answers and batches; a turn that fails was cut off
        in such a word, and fails only for what the outside just refused. What it told are its spans: every stream
        it was given up to where reading stopped, every compaction it stored, every batch with the events of its
        runs, and then the turn's end if it returned and did not fail. */
    method RunTurn(injections: seq<string>, input: seq<ContentBlock>)
      returns (r: Result<TurnOutcome, AgentError>, ghost passes: nat)
      requires Valid() && log == [] && told == [] && requests == 0 && compactions == 0
      requires answers == [] && batches == [] && shown == []
      requires spans == [] && SpansFit() && givenBefore == |provider.given|
      requires TurnAnnounced(start)
      requires outside.asked == [] && outside.extractions == 0
      modifies runtime`lastMemoryCheckpointSeq, runtime`eventSequence, runtime`sent, runtime.ledger
      modifies runtime.contextManager, storage, provider, cancel, outside
      modifies `log, `told, `requests, `compactions, `shown, `turn, `answers, `batches, `spans, `marked
      ensures Valid()
      ensures turn.injections == injections && turn.input == input
      ensures Sourced(answers, provider.given, |old(provider.given)|)
      ensures r.Ok? ==>
                && Ended(turn, answers, batches, maxToolCalls, r.value) && LogMessages(log) == TurnWord(turn)
                && AllRan(tools, turn.rounds, answers, batches) && ToldWhole(told, r.value)
                && (turn.limit.Some? ==> LimitTold(maxToolCalls) in spans)
      ensures r.Err? ==>
                && CutOff(LogMessages(log), turn, answers, batches, tools, maxToolCalls) && NoTerminal(told)
                && Justified(r.error)
      ensures SpansFit() && told == if r.Ok? then Spelled(spans) + TerminalOf(r.value) else Spelled(spans)
      ensures if r.Ok? then BatchesOf(spans) == batches && PassByPass(spans, answers, tools)
              else batches <= BatchesOf(spans) && |BatchesOf(spans)| <= |batches| + 1
      ensures runtime.View().nextSeq < U64_MAX ==> forall i :: 0 <= i < |shown| ==> Answered(shown[i])
      ensures passes <= maxToolCalls + 2 && requests <= 2 * passes && compactions <= 2 * passes
      ensures outside.asked != [] && outside.asked[0] == Hooks.TurnStartData(input, [])
      ensures if outside.foreseen.verdict(Hooks.TurnStartData(input, []), 0).HookPassed? then
                r.Ok? ==> |outside.asked| == compactions + 2 && EndHookAsked(r.value, true)
              else
                r.Err? && log == []
      ensures r.Ok? && r.value != TurnWasCancelled && CheckpointDue() ==> outside.extractions == 1
      ensures r == Err(StorageError) ==> outside.extractions == 0
      ensures r == Ok(TurnWasCancelled) ==> cancel.Fired()
      ensures old(cancel.Due()) ==> requests == 0 && compactions == 0 && answers == [] && batches == []
    {
      hide *;
      passes := 0;
      NothingAccounted();
      turn := Turn(injections, input, [], None, "", Complete);
      NothingYet(injections, input, tools, maxToolCalls);
      ShownClean();
      var verdict := outside.Ask(Hooks.TurnStartData(input, []));
      TurnHookEnds(verdict);
      if verdict != HookPassed {
        var error := if verdict.HookAborted? then PluginAborted else ContractViolation;
        JustifiedAnyway(error);
        return Err(error), passes;
      }
      var begun := WriteOpening(injections, input);
      ShownClean();
      OpeningCut(LogMessages(log), turn, tools, maxToolCalls);
      if !begun {
        SaveReason();
        JustifiedAnyway(StorageError);
        return Err(StorageError), passes;
      }
      var state := PassEnd(0, 0, true, false);
      LimitMeans();
      ReadyMeans(state);
      while true
        invariant Valid() && Ready(state) && Sourced(answers, provider.given, |old(provider.given)|)
        invariant turn.injections == injections && turn.input == input
        invariant outside.asked != [] && outside.asked[0] == Hooks.TurnStartData(input, [])
        invariant |outside.asked| == compactions + 1 && outside.extractions == 0
        invariant passes == |turn.rounds| && requests <= 2 * passes && compactions <= 2 * passes
        invariant old(cancel.Due()) ==>
                  cancel.Due() && requests == 0 && compactions == 0 && answers == [] && batches == []
        decreases if state.allowTools then maxToolCalls + 1 - |turn.rounds| else 0
      {
        passes := passes + 1;
        ReadyMeans(state);
        HeadBounded(turn, answers, batches, maxToolCalls, state.allowTools);
        var ended;
        ended, state := Pass(state, |old(provider.given)|);
        ShownClean();
        if ended.Some? {
          if ended.value.Ok? {
            FinishedMeans(ended.value.value);
            LimitMeans();
          } else {
            BrokeOffMeans(ended.value.error);
          }
          return ended.value, passes;
        }
        ReadyMeans(state);
        HeadBounded(turn, answers, batches, maxToolCalls, state.allowTools);
      }
    }

    lemma ShownClean()
      requires Valid()
      ensures runtime.View().nextSeq < U64_MAX ==> forall i :: 0 <= i < |shown| ==> Answered(shown[i])
    {
      hide SessionInvariant, AppendAll, LegalLog, Payloads, TurnByTurn, RawMessages, Answered;
    }
  }

  /** The answer of a pass is sourced in the streams given during it. */
  lemma AnswerSourced(answers: seq<Answer>, given: seq<seq<StreamItem>>, later: seq<seq<StreamItem>>, before: nat,
                      allowTools: bool,
                      answered: Result<Answer, AgentError>)
    requires Sourced(answers, given, before) && given <= later
    requires answered.Ok? ==> ReadFrom(answered.value, allowTools, later[|given|..])
    ensures Sourced(answers, later, before)
    ensures answered.Ok? ==>
              Sourced(answers + [answered.value], later, before) && FromStream(answered.value, allowTools)
  {
    hide Sourced, ReadFrom, FromStream;
    assert later == given + later[|given|..];
    SourcedMore(answers, given, before, later[|given|..]);
    if answered.Ok? {
      SourcedSnoc(answers, given, before, answered.value, allowTools, later[|given|..]);
      ReadIsFromStream(answered.value, allowTools, later[|given|..]);
    }
  }

  lemma StreamOutcome(items: seq<StreamItem>, allowTools: bool, read: nat, r: Result<Answer, RequestError>)
    requires StreamResult(items, allowTools, read, r)
    ensures r.Ok? ==> ReadFrom(r.value, allowTools, [items])
    ensures r != Err(AgentFailure(Cancelled))
    ensures read < |items| && items[read].Chunk? && items[read].event.CallChunk? ==>
              r == Err(AgentFailure(ProviderError))
  {
    hide StreamText, StreamCalls, AllContinue;
    if r.Ok? {
      assert FromItems(r.value, allowTools, items);
    }
  }

  lemma NothingRead(allowTools: bool)
    ensures forall given :: ReadFrom(Answer("", [], true), allowTools, given)
  {
    hide FromItems;
  }

  /** Streams given before do not matter. */
  lemma ReadLater(answer: Answer, allowTools: bool, earlier: seq<seq<StreamItem>>, given: seq<seq<StreamItem>>)
    requires ReadFrom(answer, allowTools, given)
    ensures ReadFrom(answer, allowTools, earlier + given)
  {
    hide FromItems;
    if given != [] {
      assert (earlier + given)[|earlier + given| - 1] == given[|given| - 1];
    }
  }

  lemma TellStream(told: seq<EventPayload>, items: seq<StreamItem>, read: nat)
    requires read <= |items|
    ensures Orderly(told) ==> Orderly(told + StreamEvents(items[..read]))
  {
    hide Orderly, StreamEvents;
    StreamProperties(items[..read], true);
    if Orderly(told) {
      TellQuiet(told, StreamEvents(items[..read]));
    }
  }

  /** A compaction writes no message, and its event starts and ends nothing. */
  lemma CompactionTells(log: seq<Payload>, told: seq<EventPayload>)
    ensures forall marker :: LogMessages(log + [Metadata(ContextCompactionKey, MarkerValue(marker))])
              == LogMessages(log)
    ensures Orderly(told) ==> Orderly(told + [ContextCompacted])
  {
    hide Orderly;
    forall marker ensures LogMessages(log + [Metadata(ContextCompactionKey, MarkerValue(marker))]) == LogMessages(log) {
      LogSnoc(log, Metadata(ContextCompactionKey, MarkerValue(marker)));
    }
    if Orderly(told) {
      TellQuiet(told, [ContextCompacted]);
    }
  }

  lemma {:induction false} NoUsersAdded(rt: RuntimeState, log: seq<Payload>)
    requires forall i :: 0 <= i < |log| ==> !log[i].UserMessage?
    ensures CountUserMessages(AppendAll(rt, log).events) == CountUserMessages(rt.events)
    ensures AppendAll(rt, log).turnIndex == rt.turnIndex
  {
    hide CountUserMessages, Rebuilt, Pushed;
    if log != [] {
      var init, last := log[..|log| - 1], log[|log| - 1];
      NoUsersAdded(rt, init);
      LatestSnoc(AppendAll(rt, init).events, LedgerEvent(AppendAll(rt, init).nextSeq, last));
    }
  }

  lemma InjectionsArePlain(injections: seq<string>)
    ensures forall i :: 0 <= i < |InjectionPayloads(injections)| ==> InjectionPayloads(injections)[i].SystemMessage?
  {
  }

  lemma OpeningWritten(start: RuntimeState, injections: seq<string>, input: seq<ContentBlock>, log: seq<Payload>)
    requires log <= InjectionPayloads(injections)
    requires TurnAnnounced(start)
    ensures LogMessages(log) <= TurnWord(Turn(injections, input, [], None, "", Complete))
    ensures forall saved :: Writable(World(AppendAll(start, log), saved), UserMessage(input))
    ensures log == InjectionPayloads(injections) ==>
              LogMessages(log + [UserMessage(input)]) == TurnWord(Turn(injections, input, [], None, "", Complete))
  {
    hide AppendAll, TurnWord, CountUserMessages;
    NoUsersAdded(start, log);
    PayloadWords([], [], injections, "", Complete);
    LogPrefix(log, InjectionPayloads(injections));
    OpeningTurn(injections, input);
    LogSnoc(log, UserMessage(input));
  }

  lemma OrderlyNoTerminal(told: seq<EventPayload>)
    requires Orderly(told)
    ensures NoTerminal(told)
  {
    hide Balanced, NoTerminal;
  }

  lemma OpenText(t: Turn)
    ensures OpenTurn(t) ==> t.text == ""
  {
  }

  /** A hook that breaks its contract after a run, or before one, breaks the batch. */
  lemma BrokenBatch(tools: Tools, b: nat, requested: seq<RequestedCall>, batch: Batch)
    requires PreparedFor(tools, b, requested, batch)
    requires exists i :: 0 <= i < |batch.calls| && batch.calls[i].execution.Execute?
                         && tools.run(b, i).after.AfterBroken?
    ensures BatchBreaks(tools, b, requested)
  {
    hide PreparedFor;
    PreparedSize(tools, b, requested, batch);
    var i :| 0 <= i < |batch.calls| && batch.calls[i].execution.Execute? && tools.run(b, i).after.AfterBroken?;
    ArgumentsEverywhere(tools, b, requested, batch, i, tools.run(b, i));
  }

  lemma PreparedSize(tools: Tools, b: nat, requested: seq<RequestedCall>, batch: Batch)
    requires PreparedFor(tools, b, requested, batch)
    ensures |batch.calls| == |requested|
    ensures forall i :: 0 <= i < |CallPayloads(batch.calls)| ==> CallPayloads(batch.calls)[i].ToolCalled?
  {
  }

  lemma TextOnly(t: Turn, answer: Answer, tools: Tools)
    requires OpenTurn(t) && t.limit.None? && !answer.cancelled && answer.calls != []
    ensures InNextRound(TurnWord(t) + AssistantWord(answer.text, Complete), t, answer, tools)
  {
    hide TurnWord, OpenTurn, AssistantWord, WritingBatch;
  }

  lemma CallsWritten(t: Turn, answer: Answer, tools: Tools, batch: Batch, before: seq<Payload>, log: seq<Payload>)
    requires OpenTurn(t) && t.limit.None? && !answer.cancelled && answer.calls != []
    requires PreparedFor(tools, |t.rounds|, answer.calls, batch)
    requires LogMessages(before) == TurnWord(t) + AssistantWord(answer.text, Complete)
    requires before <= log <= before + CallPayloads(batch.calls)
    ensures InNextRound(LogMessages(log), t, answer, tools)
    ensures log == before + CallPayloads(batch.calls) ==>
              LogMessages(log) == TurnWord(t) + AssistantWord(answer.text, Complete) + CallMessages(batch.calls)
  {
    hide LogMessages, TurnWord, OpenTurn, CallMessages, CallPayloads, AssistantWord, PreparedFor, WritingResults;
    LogPrefix(log, before + CallPayloads(batch.calls));
    LogConcat(before, CallPayloads(batch.calls));
    PayloadWords(batch.calls, [], [], "", Complete);
    assert WritingBatch(LogMessages(log), t, answer, tools, batch);
  }

  lemma BatchDone(tools: Tools, b: nat, answer: Answer, batch: Batch, outcome: Outcome)
    requires PreparedFor(tools, b, answer.calls, batch) && BatchEnds(tools, b, batch, outcome)
    requires !answer.cancelled && answer.calls != []
    ensures ResultsMatch(batch.calls, outcome.results)
    ensures RoundFrom(MakeRound(answer.text, batch.calls, outcome.results), answer, outcome)
    ensures Ran(tools, b, answer, MakeRound(answer.text, batch.calls, outcome.results), outcome)
    ensures forall i :: 0 <= i < |ResultPayloads(outcome.results)| ==> ResultPayloads(outcome.results)[i].ToolReturned?
  {
    hide BatchEnds, WellPrepared, RoundFrom, ResultsMatch, MakeRound, IsMutatingBatch, ExecutablePrefix;
    BatchIds(tools, b, batch, outcome);
    RoundComesFrom(answer, batch.calls, outcome);
  }

  lemma ResultsWritten(t: Turn, answer: Answer, tools: Tools, batch: Batch, outcome: Outcome, before: seq<Payload>,
                       log: seq<Payload>)
    requires OpenTurn(t) && t.limit.None? && !answer.cancelled && answer.calls != [] && batch.calls != []
    requires PreparedFor(tools, |t.rounds|, answer.calls, batch) && BatchEnds(tools, |t.rounds|, batch, outcome)
    requires ResultsMatch(batch.calls, outcome.results)
    requires LogMessages(before) == TurnWord(t) + AssistantWord(answer.text, Complete) + CallMessages(batch.calls)
    requires before <= log <= before + ResultPayloads(outcome.results)
    ensures InNextRound(LogMessages(log), t, answer, tools)
    ensures var next := t.(rounds := t.rounds + [MakeRound(answer.text, batch.calls, outcome.results)]);
      && OpenTurn(next) && ValidRound(MakeRound(answer.text, batch.calls, outcome.results))
      && next.rounds[|next.rounds| - 1] == MakeRound(answer.text, batch.calls, outcome.results)
      && (log == before + ResultPayloads(outcome.results) ==> LogMessages(log) == TurnWord(next))
  {
    hide LogMessages, TurnWord, OpenTurn, CallMessages, ResultMessages, ResultPayloads, AssistantWord, IsTurnPrefix,
      MakeRound, ResultsMatch, PreparedFor, BatchEnds;
    LogPrefix(log, before + ResultPayloads(outcome.results));
    LogConcat(before, ResultPayloads(outcome.results));
    PayloadWords(batch.calls, outcome.results, [], "", Complete);
    InsideResults(t, answer.text, batch.calls, outcome.results, LogMessages(log));
    assert WritingResults(LogMessages(log), t, answer, tools, batch, outcome);
    assert WritingBatch(LogMessages(log), t, answer, tools, batch);
  }

  lemma WholeTold(told: seq<EventPayload>, outcome: TurnOutcome)
    requires Orderly(told)
    ensures ToldWhole(told + TerminalOf(outcome), outcome) && NoTerminal(told)
    ensures outcome.Failed? ==> told + TerminalOf(outcome) == told
    ensures outcome.Completed? ==> TerminalOf(outcome) == [TurnComplete]
    ensures outcome.TurnWasCancelled? ==> TerminalOf(outcome) == [TurnCancelled]
  {
    hide Balanced, NoTerminal;
  }

  lemma AssistantWritten(log: seq<Payload>, text: string, status: MessageStatus)
    ensures text == "" ==> LogMessages(log) == LogMessages(log) + AssistantWord(text, status)
    ensures text != "" ==>
              LogMessages(log + [AssistantMessage([Text(text)], status)])
              == LogMessages(log) + AssistantWord(text, status)
    ensures LogMessages(log) + [] == LogMessages(log)
  {
    hide LogMessages;
    LogSnoc(log, AssistantMessage([Text(text)], status));
  }

  lemma MetadataIsQuiet(log: seq<Payload>)
    ensures forall last :: LogMessages(log + [Metadata(MemoryCheckpointKey, CheckpointValue(last))]) == LogMessages(log)
  {
    hide LogMessages;
    forall last ensures LogMessages(log + [Metadata(MemoryCheckpointKey, CheckpointValue(last))]) == LogMessages(log) {
      LogSnoc(log, Metadata(MemoryCheckpointKey, CheckpointValue(last)));
    }
  }

  lemma EndedIsPrefix(t: Turn, answers: seq<Answer>, batches: seq<Outcome>, max: nat, outcome: TurnOutcome)
    requires Ended(t, answers, batches, max, outcome)
    ensures ValidTurn(t) && IsTurnPrefix(TurnWord(t))
  {
    hide TurnWord, ValidTurn, CountResults, History;
    WholeIsPrefix(t);
  }

  /** During its opening a turn may be cut off anywhere. */
  lemma OpeningCut(word: seq<Message>, t: Turn, tools: Tools, max: nat)
    requires t == Turn(t.injections, t.input, [], None, "", Complete) && word <= TurnWord(t)
    ensures CutOff(word, t, [], [], tools, max)
  {
    hide TurnWord;
  }

  lemma NothingYet(injections: seq<string>, input: seq<ContentBlock>, tools: Tools, max: nat)
    ensures CutOff(LogMessages([]), Turn(injections, input, [], None, "", Complete), [], [], tools, max)
    ensures Orderly([]) && NoTerminal([])
    ensures CountResults([]) == 0
    ensures AtHead(Turn(injections, input, [], None, "", Complete), [], [], max, true)
    ensures forall given :: Sourced([], given, |given|)
    ensures forall tools :: AllRan(tools, [], [], [])
  {
    hide Balanced;
    OpeningCut([], Turn(injections, input, [], None, "", Complete), tools, max);
    NothingTold();
    HistoryStart(injections, input, max);
  }

  /** The text of a pass written to the ledger. */
  lemma TextWord(t: Turn, text: string)
    requires OpenTurn(t)
    ensures forall status :: TurnWord(t.(text := text, status := status)) == TurnWord(t) + AssistantWord(text, status)
    ensures TurnWord(t) + [] == TurnWord(t)
  {
    hide TurnWord, AssistantWord;
    forall status ensures TurnWord(t.(text := text, status := status)) == TurnWord(t) + AssistantWord(text, status) {
      LastText(t, text, status);
    }
  }

  lemma LimitWritten(t: Turn, log: seq<Payload>, told: seq<EventPayload>, max: nat)
    requires OpenTurn(t) && t.limit.None? && t.rounds != [] && LogMessages(log) == TurnWord(t) && Orderly(told)
    ensures IsTurnPrefix(LogMessages(log))
    ensures LogMessages(log + [SystemMessage(ToolLimitNotice(max))]) == TurnWord(t.(limit := Some(max)))
    ensures Orderly(told + [ErrorEvent(MaxToolCallsExceeded(max))])
              && NoTerminal(told + [ErrorEvent(MaxToolCallsExceeded(max))])
  {
    hide TurnWord, LogMessages, Balanced;
    WholeIsPrefix(t);
    LimitReached(t, max);
    LogSnoc(log, SystemMessage(ToolLimitNotice(max)));
    TellQuiet(told, [ErrorEvent(MaxToolCallsExceeded(max))]);
  }

  lemma PlainWritable(w: World, payload: Payload)
    requires !payload.Metadata? && !payload.UserMessage?
    ensures Writable(w, payload)
  {
  }

  lemma MarkerWritable(w: World, marker: CompactionMarker, answer: SummaryAnswer)
    requires GenerateMarker(w.live.events, w.live.context.latest, w.live.context.window, answer) == Ok(marker)
    ensures Writable(w, Metadata(ContextCompactionKey, MarkerValue(marker))) && MarkerFor(w.live, marker)
  {
    hide GenerateMarker;
  }

  lemma CheckpointWritable(w: World, last: nat)
    requires LastAfter(w.live.events, w.live.checkpointSeq) == Some(last)
    ensures Writable(w, Metadata(MemoryCheckpointKey, CheckpointValue(last)))
  {
    hide LastAfter;
  }

  lemma ViewFields(runtime: SessionRuntime)
    ensures runtime.View().events == runtime.ledger.events
    ensures runtime.View().context.visible == runtime.contextManager.visibleMessages
    ensures runtime.View().context.latest == runtime.contextManager.latestCompaction
    ensures runtime.View().context.window == runtime.contextManager.contextWindow
    ensures runtime.View().context.tokens == runtime.contextManager.estimatedTokens
    ensures runtime.View().checkpointSeq == runtime.lastMemoryCheckpointSeq
    ensures runtime.View().turnIndex == runtime.turnIndex
  {
  }

  // ---------------------------------------------------------------- one message after the other

  /** Sends one message: allocates the turn, runs it. Whatever happens, it is a step of a session run, and
      answers, events and what the models were shown are as the turn's contract says. */
  method SendMessage(runtime: SessionRuntime, storage: SessionStorage, provider: Provider, cancel: CancelToken,
                     foreseen: Foreseen, tools: Tools, settings: TurnSettings, injections: seq<string>,
                     input: seq<ContentBlock>, ghost agent: AgentDefaults)
    returns (r: Result<TurnOutcome, AgentError>, ghost log: seq<Payload>)
    requires Mirrored(World(runtime.View(), storage.saved), agent) && runtime.Numbered()
    requires TurnByTurn(RawMessages(runtime.View().events))
    modifies runtime, runtime.ledger, runtime.contextManager, storage, provider, cancel
    ensures SessionRuns.Steps(old(World(runtime.View(), storage.saved)), SessionRuns.Sent(log),
                              World(runtime.View(), storage.saved), agent)
    ensures Mirrored(World(runtime.View(), storage.saved), agent) && runtime.Numbered()
    ensures TurnByTurn(RawMessages(runtime.View().events))
    ensures runtime.turnIndex == SaturatingInc(old(runtime.turnIndex))
    ensures r == Err(StorageError) ==> old(storage.attempts) < storage.attempts && storage.Refused()
    ensures r == Err(ProviderError) ==> old(provider.chats) < provider.chats
    ensures r == Err(InputValidation) ==> exists i :: !foreseen.buildable(i)
    ensures r == Err(PluginAborted) ==> exists data, i :: foreseen.verdict(data, i) == HookAborted
    ensures r != Err(Cancelled)
    ensures r.Ok? ==> exists turn :: ValidTurn(turn) && turn.injections == injections && turn.input == input
                                     && LogMessages(log) == TurnWord(turn)
  {
    hide *;
    ghost var before := World(runtime.View(), storage.saved);
    ViewFields(runtime);
    var _ := runtime.AllocateTurnId();
    TurnAllocates(before, agent);
    var outside := new Surroundings(foreseen);
    var engine := new TurnEngine(runtime, storage, provider, cancel, outside, tools, settings, agent);
    ghost var passes;
    r, passes := engine.RunTurn(injections, input);
    log := engine.log;
    TurnDone(engine);
    TurnFailed(engine, r);
    if r.Ok? {
      EndedIsPrefix(engine.turn, engine.answers, engine.batches, settings.maxToolCalls, r.value);
    } else {
      CutOffIsPrefix(LogMessages(log), engine.turn, engine.answers, engine.batches, tools, settings.maxToolCalls);
    }
    MessageSent(before, log, World(runtime.View(), storage.saved), agent);
    ViewFields(runtime);
  }

  lemma TurnFailed(engine: TurnEngine, r: Result<TurnOutcome, AgentError>)
    requires r.Err? ==> engine.Justified(r.error)
    ensures r == Err(StorageError) ==> engine.savesBefore < engine.storage.attempts && engine.storage.Refused()
    ensures r == Err(ProviderError) ==> engine.chatsBefore < engine.provider.chats
    ensures r == Err(InputValidation) ==> exists i :: !engine.outside.foreseen.buildable(i)
    ensures r == Err(PluginAborted) ==> exists data, i :: engine.outside.foreseen.verdict(data, i) == HookAborted
    ensures r != Err(Cancelled)
  {
    hide ToolsLeft, BatchBreaks, EndsIn, NoMarker, SessionRuntime.View;
  }

  lemma TurnAllocates(w: World, agent: AgentDefaults)
    requires Mirrored(w, agent)
    ensures var live := w.live.(turnIndex := SaturatingInc(w.live.turnIndex));
      && Mirrored(World(live, w.stored), agent) && TurnAnnounced(live)
      && live.turnIndex == SaturatingInc(w.live.turnIndex) && live.events == w.live.events
  {
    hide Rebuild, RestoreSettings, LatestMarker, RawMessages, EstimateTokens, CountUserMessages, Ordered;
    StepKeepsMirror(w, TurnAllocated, World(w.live.(turnIndex := SaturatingInc(w.live.turnIndex)), w.stored), agent);
  }

  lemma TurnDone(engine: TurnEngine)
    requires engine.Valid()
    ensures engine.runtime.View() == AppendAll(engine.start, engine.log) && LegalLog(engine.start, engine.log)
    ensures Mirrored(World(engine.runtime.View(), engine.storage.saved), engine.agent) && engine.runtime.Numbered()
    ensures TurnByTurn(RawMessages(engine.start.events))
  {
    hide SessionInvariant, AppendAll, LegalLog, Payloads, TurnByTurn, RawMessages, OrphanFree;
  }

  lemma MessageSent(w: World, log: seq<Payload>, w': World, agent: AgentDefaults)
    requires Mirrored(w', agent) && w'.live == AppendAll(w.live.(turnIndex := SaturatingInc(w.live.turnIndex)), log)
    requires LegalLog(w.live.(turnIndex := SaturatingInc(w.live.turnIndex)), log) && IsTurnPrefix(LogMessages(log))
    requires TurnByTurn(RawMessages(w.live.events))
    ensures SessionRuns.Steps(w, SessionRuns.Sent(log), w', agent)
    ensures TurnByTurn(RawMessages(w'.live.events)) && w'.live.turnIndex == SaturatingInc(w.live.turnIndex)
  {
    hide SessionInvariant, AppendAll, LegalLog, TurnByTurn, RawMessages, IsTurnPrefix, LogMessages;
    var start := w.live.(turnIndex := SaturatingInc(w.live.turnIndex));
    assert log[..|log|] == log;
    NextTurn(start, log, log);
    LogInLedger(start, log);
  }
}
