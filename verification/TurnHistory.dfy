/** How the rounds of a turn follow from the provider's answers and the batches' outcomes. */
module TurnHistory {
  import opened Domain
  import opened Context
  import opened Runtime
  import opened Resume
  import opened TurnGrammar
  import opened ToolOutputs
  import opened Dispatcher
  import opened BatchExecution
  import opened TurnLog
  import opened ProviderStream

  datatype TurnOutcome = Completed | TurnWasCancelled | Failed(error: AgentError)

  /** A round is the answer's text, one call per requested call with its id and name, and the results of
      the batch, one per call in request order. */
  ghost predicate RoundFrom(r: Round, answer: Answer, batch: Outcome) {
    && r.text == answer.text && !answer.cancelled
    && |r.calls| == |answer.calls| == |r.results| == |batch.results| > 0
    && forall i :: 0 <= i < |r.calls| ==>
         && r.calls[i].ToolCall? && r.calls[i].callId == answer.calls[i].callId
             && r.calls[i].toolName == answer.calls[i].toolName
         && r.results[i] == ToolResult(answer.calls[i].callId, batch.results[i].output)
  }

  /** After these rounds the model may still call tools. */
  ghost predicate ToolsLeft(rounds: seq<Round>, batches: seq<Outcome>, max: nat)
    requires |batches| == |rounds|
  {
    rounds != [] ==> !batches[|rounds| - 1].stopAfterBatch && CountResults(rounds) <= max
  }

  /** After round `i` another pass with tools may follow. */
  ghost predicate GoesOn(rounds: seq<Round>, batches: seq<Outcome>, max: nat, i: nat)
    requires |batches| == |rounds| && i < |rounds|
  {
    !batches[i].cancelled && ToolsLeft(rounds[..i + 1], batches[..i + 1], max)
  }

  /** The rounds so far. Only the last one may have ended the tools; the limit notice is there exactly when
      the results exceed the limit. */
  ghost predicate History(t: Turn, answers: seq<Answer>, batches: seq<Outcome>, max: nat) {
    && |batches| == |t.rounds| <= |answers|
    && (forall i :: 0 <= i < |t.rounds| ==> RoundFrom(t.rounds[i], answers[i], batches[i]))
    && (forall i :: 0 <= i < |t.rounds| - 1 ==> GoesOn(t.rounds, batches, max, i))
  }

  /** In front of a request. */
  ghost predicate AtHead(t: Turn, answers: seq<Answer>, batches: seq<Outcome>, max: nat, allowTools: bool) {
    && OpenTurn(t) && History(t, answers, batches, max)
    && |answers| == |t.rounds|
    && (t.rounds != [] ==> !batches[|t.rounds| - 1].cancelled)
    && (allowTools <==> ToolsLeft(t.rounds, batches, max))
    && t.limit == if CountResults(t.rounds) > max then Some(max) else None
  }

  /** A finished turn and how it ended. */
  ghost predicate Ended(t: Turn, answers: seq<Answer>, batches: seq<Outcome>, max: nat, outcome: TurnOutcome) {
    && ValidTurn(t) && History(t, answers, batches, max) && |answers| <= |t.rounds| + 1
    && (t.text == if |answers| > |t.rounds| then answers[|t.rounds|].text else "")
    && match outcome
       case Completed =>
         && |answers| == |t.rounds| + 1 && answers[|t.rounds|].calls == [] && !answers[|t.rounds|].cancelled
         && t.limit.None? && t.status == Complete && CountResults(t.rounds) <= max
         && (t.rounds != [] ==> !batches[|t.rounds| - 1].cancelled)
       case Failed(error) =>
         && |answers| == |t.rounds| + 1 && answers[|t.rounds|].calls == [] && !answers[|t.rounds|].cancelled
         && t.limit == Some(max) && t.status == Complete && CountResults(t.rounds) > max
         && error == MaxToolCallsExceeded(max)
       case TurnWasCancelled =>
         && (|answers| > |t.rounds| ==> answers[|t.rounds|].cancelled && t.status == Incomplete)
         && (t.limit.Some? ==> t.limit == Some(max) && CountResults(t.rounds) > max)
  }

  lemma HistoryStart(injections: seq<string>, input: seq<ContentBlock>, max: nat)
    ensures AtHead(Turn(injections, input, [], None, "", Complete), [], [], max, true)
  {
  }

  /** The next round of a pass that may use tools. */
  lemma AddRound(t: Turn, answers: seq<Answer>, batches: seq<Outcome>, max: nat, answer: Answer, r: Round,
                 batch: Outcome)
    requires AtHead(t, answers, batches, max, true) && RoundFrom(r, answer, batch)
    ensures
      var next := t.(rounds := t.rounds + [r]);
      && History(next, answers + [answer], batches + [batch], max)
      && CountResults(next.rounds) == CountResults(t.rounds) + |batch.results|
      && (batch.cancelled ==> ValidRound(r) ==>
          Ended(next, answers + [answer], batches + [batch], max, TurnWasCancelled))
      && (!batch.cancelled && ValidRound(r) ==>
            if CountResults(next.rounds) > max
            then AtHead(next.(limit := Some(max)), answers + [answer], batches + [batch], max, false)
            else AtHead(next, answers + [answer], batches + [batch], max, !batch.stopAfterBatch))
  {
    hide RoundFrom, CountResults, ValidRound;
    var rounds', batches', answers' := t.rounds + [r], batches + [batch], answers + [answer];
    CountSnoc(t.rounds, r);
    RoundSize(r, answer, batch);
    forall i | 0 <= i < |rounds'| - 1 ensures GoesOn(rounds', batches', max, i) {
      assert i < |t.rounds| - 1 ==> GoesOn(t.rounds, batches, max, i);
      assert rounds'[..i + 1] == t.rounds[..i + 1] && batches'[..i + 1] == batches[..i + 1];
      if i == |t.rounds| - 1 {
        assert t.rounds[..i + 1] == t.rounds && batches[..i + 1] == batches;
      }
    }
  }

  lemma RoundSize(r: Round, answer: Answer, batch: Outcome)
    requires RoundFrom(r, answer, batch)
    ensures |r.results| == |batch.results| > 0
  {
  }

  /** Rounds are not empty, so counting results bounds them; that bounds the passes. */
  lemma {:induction false} RoundsBounded(rounds: seq<Round>)
    requires ValidRounds(rounds)
    ensures CountResults(rounds) >= |rounds|
  {
    if rounds != [] {
      RoundsBounded(rounds[..|rounds| - 1]);
      assert ValidRound(rounds[|rounds| - 1]);
    }
  }

  /** In front of a request: rounds are bounded, and tools are only left while no limit was reached. */
  lemma HeadBounded(t: Turn, answers: seq<Answer>, batches: seq<Outcome>, max: nat, allowTools: bool)
    requires AtHead(t, answers, batches, max, allowTools)
    ensures OpenTurn(t) && IsTurnPrefix(TurnWord(t)) && |answers| == |t.rounds|
    ensures allowTools ==> t.limit.None?
    ensures t.limit.Some? ==> t.limit == Some(max)
    ensures |t.rounds| <= max + 1 && (allowTools ==> |t.rounds| <= max)
  {
    hide RoundFrom, CountResults, ValidRound, TurnWord;
    WholeIsPrefix(t);
    RoundsBounded(t.rounds);
    if t.rounds == [] {
      assert |t.rounds| == 0;
    } else if !allowTools && |t.rounds| > 1 {
      var k := |t.rounds| - 2;
      assert GoesOn(t.rounds, batches, max, k);
      RoundsBounded(t.rounds[..k + 1]);
    }
  }

  /** The turn ends with the text of its last answer, cancelled or with no calls in it. */
  lemma EndWithText(t: Turn, answers: seq<Answer>, batches: seq<Outcome>, max: nat, allowTools: bool, answer: Answer)
    requires AtHead(t, answers, batches, max, allowTools)
    ensures answer.cancelled ==>
              Ended(t.(text := answer.text, status := Incomplete), answers + [answer], batches, max, TurnWasCancelled)
    ensures !answer.cancelled && answer.calls == [] ==>
              Ended(t.(text := answer.text, status := Complete), answers + [answer], batches, max,
                    if t.limit.Some? then Failed(MaxToolCallsExceeded(max)) else Completed)
  {
    hide RoundFrom, CountResults, ValidRound, History;
    forall status ensures History(t.(text := answer.text, status := status), answers + [answer], batches, max) {
      SameRounds(t, answers, batches, max, answer, t.(text := answer.text, status := status));
    }
  }

  lemma SameRounds(t: Turn, answers: seq<Answer>, batches: seq<Outcome>, max: nat, answer: Answer, t': Turn)
    requires History(t, answers, batches, max) && t'.rounds == t.rounds
    ensures History(t', answers + [answer], batches, max)
  {
    hide RoundFrom, GoesOn;
    assert forall i :: 0 <= i < |t.rounds| ==> (answers + [answer])[i] == answers[i];
  }

  /** In a turn that ended, every answer that asked for calls and was not cancelled has its round. */
  lemma EveryCallRan(t: Turn, answers: seq<Answer>, batches: seq<Outcome>, max: nat, outcome: TurnOutcome, i: nat)
    requires Ended(t, answers, batches, max, outcome) && i < |answers|
    ensures !answers[i].cancelled && answers[i].calls != [] ==>
              i < |t.rounds| && RoundFrom(t.rounds[i], answers[i], batches[i])
  {
    hide RoundFrom, ValidTurn, CountResults, GoesOn;
  }

  lemma EndWithoutAnswer(t: Turn, answers: seq<Answer>, batches: seq<Outcome>, max: nat, allowTools: bool)
    requires AtHead(t, answers, batches, max, allowTools)
    ensures Ended(t, answers, batches, max, TurnWasCancelled)
  {
    hide RoundFrom, CountResults, ValidRound, GoesOn;
  }

  /** The round made of a prepared batch and its results comes from the answer that asked for it. */
  lemma RoundComesFrom(answer: Answer, calls: seq<PreparedCall>, batch: Outcome)
    requires !answer.cancelled && answer.calls != [] && |calls| == |answer.calls| && ResultsMatch(calls, batch.results)
    requires forall i :: 0 <= i < |calls| ==>
              calls[i].callId == answer.calls[i].callId && calls[i].toolName == answer.calls[i].toolName
    ensures RoundFrom(MakeRound(answer.text, calls, batch.results), answer, batch)
  {
  }

  // ---------------------------------------------------------------- events of a turn

  function TerminalOf(outcome: TurnOutcome): seq<EventPayload> {
    match outcome
    case Completed => [TurnComplete]
    case TurnWasCancelled => [TurnCancelled]
    case Failed(_) => []
  }

  /** Everything a turn has told: every started call ended, and the end of the turn last, if it is told at all. */
  ghost predicate ToldWhole(told: seq<EventPayload>, outcome: TurnOutcome) {
    exists body :: Orderly(body) && told == body + TerminalOf(outcome)
  }

  /** A terminal event is told last exactly for a completed or a cancelled turn, once, and nowhere else. */
  lemma TerminalIsLast(told: seq<EventPayload>, outcome: TurnOutcome)
    requires ToldWhole(told, outcome)
    ensures Balanced(told)
    ensures outcome.Failed? <==> NoTerminal(told)
    ensures forall i :: 0 <= i < |told| && IsTerminal(told[i]) ==> i == |told| - 1
    ensures told != [] && told[|told| - 1].TurnComplete? <==> outcome.Completed?
    ensures told != [] && told[|told| - 1].TurnCancelled? <==> outcome.TurnWasCancelled?
  {
    hide Balanced;
    var body :| Orderly(body) && told == body + TerminalOf(outcome);
    QuietBalanced(TerminalOf(outcome));
    BalancedConcat(body, TerminalOf(outcome));
    if !outcome.Failed? {
      assert IsTerminal(told[|body|]);
    }
  }

  lemma {:induction false} SerialOrderly(calls: seq<PreparedCall>, runs: seq<ToolRun>, limits: Limits, k: nat)
    requires k <= |calls| <= |runs|
    ensures Orderly(SerialEvents(calls, runs, limits, k))
  {
    hide Balanced, CallEvents;
    SerialBalanced(calls, runs, limits, k);
    if k > 0 {
      SerialOrderly(calls, runs, limits, k - 1);
      CallNoTerminal(calls[k - 1], runs[k - 1], limits);
    }
  }

  lemma CallNoTerminal(call: PreparedCall, run: ToolRun, limits: Limits)
    ensures NoTerminal(CallEvents(call, run, limits))
  {
    hide RunOutput, RunSucceeded;
  }

  lemma {:induction false} StartsNoTerminal(calls: seq<PreparedCall>, k: nat)
    requires k <= |calls|
    ensures NoTerminal(Starts(calls, k))
  {
    if k > 0 {
      StartsNoTerminal(calls, k - 1);
    }
  }

  lemma {:induction false} EndsNoTerminal(calls: seq<PreparedCall>, runs: seq<ToolRun>, limits: Limits, order: seq<nat>)
    requires |runs| == |calls| && InBounds(order, |calls|)
    ensures NoTerminal(Ends(calls, runs, limits, order))
  {
    hide RunOutput, RunSucceeded;
    if order != [] {
      EndsNoTerminal(calls, runs, limits, order[..|order| - 1]);
    }
  }

  lemma ParallelOrderly(calls: seq<PreparedCall>, runs: seq<ToolRun>, limits: Limits, order: seq<nat>)
    requires |runs| == |calls| && InBounds(order, |calls|)
    ensures NoTerminal(Starts(calls, |calls|) + Ends(calls, runs, limits, order))
    ensures CompletedInOrder(calls, order, {}) ==> Orderly(Starts(calls, |calls|) + Ends(calls, runs, limits, order))
  {
    hide Balanced, Starts, Ends, CompletedInOrder;
    StartsNoTerminal(calls, |calls|);
    EndsNoTerminal(calls, runs, limits, order);
    if CompletedInOrder(calls, order, {}) {
      ParallelBalanced(calls, runs, limits, order);
    }
  }

  // ---------------------------------------------------------------- one batch

  /** A serial outcome of the runs of batch `b` for some moment of cancellation, or a parallel one for some
      completion order. */
  ghost predicate BatchEnds(tools: Tools, b: nat, batch: Batch, outcome: Outcome) {
    var runs := tools.Runs(b, |batch.calls|);
    if batch.hasMutating then
      exists cancelAt: nat, stop: nat :: SerialOutcome(batch.calls, runs, tools.limits, cancelAt, stop, outcome)
    else
      || outcome == Outcome(NoticeRecords(batch.calls, CancelledNotice, tools.limits), true, false)
      || exists order: seq<nat>, cancelled: bool ::
           ParallelOutcome(batch.calls, runs, tools.limits, cancelled, order, outcome)
  }

  /** Batch `b` of a turn, prepared for what the model asked as the BeforeToolUse hooks answered. */
  ghost predicate PreparedFor(tools: Tools, b: nat, requested: seq<RequestedCall>, batch: Batch) {
    && (exists stop: nat :: AsAnswered(tools, requested, tools.Answers(b, |requested|), batch, stop))
    && |batch.calls| == |requested| && batch.hasMutating == IsMutatingBatch(tools, requested)
    && (forall i :: 0 <= i < |requested| ==>
          && batch.calls[i].callId == requested[i].callId && batch.calls[i].toolName == requested[i].toolName
          && WellPrepared(batch.calls[i], tools.limits))
    && (batch.hasMutating ==> ExecutablePrefix(batch.calls))
  }

  ghost predicate AsAnswered(tools: Tools, requested: seq<RequestedCall>, answers: seq<BeforeAnswer>, batch: Batch,
                             stop: nat)
    requires |answers| == |requested|
  {
    && stop <= |requested| && |batch.calls| == |requested|
    && FirstStop(tools, requested, answers, IsMutatingBatch(tools, requested), stop)
    && PreparedWith(tools, requested, answers, batch.calls, stop)
  }

  /** A call is executed exactly when its tool is registered, its hooks let it proceed, and in a mutating batch those
      of all calls before it did too. Then the ledger's call, the start event and the record all name the arguments
      the hooks left; otherwise the ledger names those the model asked for. */
  lemma ArgumentsEverywhere(tools: Tools, b: nat, requested: seq<RequestedCall>, batch: Batch, i: nat, run: ToolRun)
    requires PreparedFor(tools, b, requested, batch) && i < |requested|
    ensures
      var asked, call, written := requested[i], batch.calls[i], CallMessages(batch.calls)[i];
      && (call.execution.Execute? <==>
            && asked.toolName in tools.handlers && tools.before(b, i).Proceed?
            && (IsMutatingBatch(tools, requested) ==>
                  forall j :: 0 <= j < i ==>
                    requested[j].toolName in tools.handlers && !tools.before(b, j).Blocked?))
      && if call.execution.Execute? then
           var arguments := tools.before(b, i).arguments;
           && call.execution.isMutating == tools.handlers[asked.toolName]
           && written == ToolCall(asked.callId, asked.toolName, arguments)
           && StartEvent(call) == [ToolCallStart(asked.callId, asked.toolName, arguments)]
           && RunRecord(call, run, tools.limits).arguments == arguments
         else
           && written == ToolCall(asked.callId, asked.toolName, asked.arguments)
           && StartEvent(call)
              == (if call.execution.missing then [ErrorEvent(ToolNotFound(asked.toolName))] else [])
           && call.execution.record.callId == asked.callId
  {
    hide PreparedAs, SkippedAfter, WellPrepared, IsMutatingBatch, ExecutablePrefix, RunOutput;
    var answers := tools.Answers(b, |requested|);
    var stop: nat :| AsAnswered(tools, requested, answers, batch, stop);
    if i <= stop {
      PreparedFields(tools, requested[i], answers[i], batch.calls[i]);
    } else {
      SkippedFields(tools, requested[stop], requested[i], batch.calls[i]);
    }
  }

  lemma PreparedFields(tools: Tools, call: RequestedCall, answer: BeforeAnswer, prepared: PreparedCall)
    requires PreparedAs(tools, call, answer, prepared)
    ensures prepared.callId == call.callId && prepared.toolName == call.toolName
    ensures prepared.execution.Execute? <==> call.toolName in tools.handlers && answer.Proceed?
    ensures call.toolName in tools.handlers ==> answer.Proceed? || answer.Blocked?
    ensures if prepared.execution.Execute?
            then prepared.arguments == answer.arguments
                 && prepared.execution.isMutating == tools.handlers[call.toolName]
            else prepared.arguments == call.arguments && prepared.execution.record.callId == call.callId
  {
    hide Normalize;
  }

  lemma SkippedFields(tools: Tools, blocker: RequestedCall, call: RequestedCall, prepared: PreparedCall)
    requires SkippedAfter(tools, blocker, call, prepared)
    ensures prepared.callId == call.callId && prepared.toolName == call.toolName && prepared.execution.Synthetic?
    ensures prepared.arguments == call.arguments && prepared.execution.record.callId == call.callId
  {
    hide Normalize;
  }

  /** The round is what batch `b`, prepared for the answer's calls, wrote. */
  ghost predicate Ran(tools: Tools, b: nat, answer: Answer, r: Round, outcome: Outcome) {
    exists batch: Batch ::
      && PreparedFor(tools, b, answer.calls, batch) && BatchEnds(tools, b, batch, outcome)
      && r == MakeRound(answer.text, batch.calls, outcome.results)
  }

  ghost predicate AllRan(tools: Tools, rounds: seq<Round>, answers: seq<Answer>, batches: seq<Outcome>) {
    && |batches| == |rounds| <= |answers|
    && forall i :: 0 <= i < |rounds| ==> Ran(tools, i, answers[i], rounds[i], batches[i])
  }

  lemma RanSnoc(tools: Tools, rounds: seq<Round>, answers: seq<Answer>, batches: seq<Outcome>, answer: Answer, r: Round,
                outcome: Outcome)
    requires AllRan(tools, rounds, answers, batches)
    ensures AllRan(tools, rounds, answers + [answer], batches)
    ensures |answers| == |rounds| && Ran(tools, |rounds|, answer, r, outcome) ==>
              AllRan(tools, rounds + [r], answers + [answer], batches + [outcome])
  {
    hide Ran;
    assert forall i :: 0 <= i < |rounds| ==> (answers + [answer])[i] == answers[i];
  }

  lemma ParallelIds(calls: seq<PreparedCall>, runs: seq<ToolRun>, limits: Limits, cancelled: bool, order: seq<nat>,
                    outcome: Outcome)
    requires |runs| == |calls| && ParallelOutcome(calls, runs, limits, cancelled, order, outcome)
    requires forall i :: 0 <= i < |calls| ==> WellPrepared(calls[i], limits)
    ensures ResultsMatch(calls, outcome.results)
  {
    hide NoticeText, Normalize, RunOutput;
    forall i | 0 <= i < |calls| ensures outcome.results[i].callId == calls[i].callId {
      assert WellPrepared(calls[i], limits);
    }
  }

  /** Wherever a batch ends, every call has exactly one result, in order. */
  lemma BatchIds(tools: Tools, b: nat, batch: Batch, outcome: Outcome)
    requires BatchEnds(tools, b, batch, outcome)
    requires forall i :: 0 <= i < |batch.calls| ==> WellPrepared(batch.calls[i], tools.limits)
    ensures ResultsMatch(batch.calls, outcome.results)
  {
    hide NoticeText, Normalize, WellPrepared, SerialOutcome, ParallelOutcome;
    var runs, limits := tools.Runs(b, |batch.calls|), tools.limits;
    if batch.hasMutating {
      var cancelAt: nat, stop: nat :| SerialOutcome(batch.calls, runs, limits, cancelAt, stop, outcome);
      SerialIds(batch.calls, runs, limits, cancelAt, stop, outcome);
    } else if outcome != Outcome(NoticeRecords(batch.calls, CancelledNotice, limits), true, false) {
      var order: seq<nat>, cancelled: bool :| ParallelOutcome(batch.calls, runs, limits, cancelled, order, outcome);
      ParallelIds(batch.calls, runs, limits, cancelled, order, outcome);
    }
  }

  // ---------------------------------------------------------------- what the events of a turn are

  /** What a serial or a parallel batch has told. Without an outcome a hook broke its contract: then the serial
      events end with the broken call, and the parallel ends with the last run that was finalised. */
  ghost predicate TellsBatch(tools: Tools, b: nat, batch: Batch, outcome: Option<Outcome>, events: seq<EventPayload>) {
    var runs, limits := tools.Runs(b, |batch.calls|), tools.limits;
    if batch.hasMutating then
      exists cancelAt: nat, stop: nat :: SerialTells(batch, limits, outcome, events, runs, cancelAt, stop)
    else
      || (outcome == Some(Outcome(NoticeRecords(batch.calls, CancelledNotice, limits), true, false)) && events == [])
      || exists order: seq<nat>, cancelled: bool ::
           ParallelTells(batch, limits, outcome, events, runs, order, cancelled)
  }

  ghost predicate SerialTells(batch: Batch, limits: Limits, outcome: Option<Outcome>, events: seq<EventPayload>,
                              runs: seq<ToolRun>, cancelAt: nat, stop: nat)
  {
    && |runs| == |batch.calls| && StopsAt(batch.calls, runs, cancelAt, stop)
    && events == SerialEvents(batch.calls, runs, limits, Reached(batch.calls, cancelAt, stop))
    && (outcome.Some? ==> SerialOutcome(batch.calls, runs, limits, cancelAt, stop, outcome.value))
  }

  ghost predicate ParallelTells(batch: Batch, limits: Limits, outcome: Option<Outcome>, events: seq<EventPayload>,
                                runs: seq<ToolRun>, order: seq<nat>, cancelled: bool)
  {
    && |runs| == |batch.calls| && InBounds(order, |batch.calls|)
    && EndedOnce(batch.calls, runs, order, outcome.None?)
    && events == Starts(batch.calls, |batch.calls|) + Ends(batch.calls, runs, limits, order)
    && (outcome.Some? ==> ParallelOutcome(batch.calls, runs, limits, cancelled, order, outcome.value))
  }

  /** One stretch of a turn's events: a stream read up to some item, a stored compaction, a batch, or the report
      that the limit was exceeded. */
  datatype Span =
    | Streamed(items: seq<StreamItem>, read: nat)
    | Compacted(marker: CompactionMarker)
    | BatchTold(index: nat, batch: Batch, outcome: Option<Outcome>, events: seq<EventPayload>)
    | LimitTold(limit: nat)

  function SpanEvents(span: Span): seq<EventPayload> {
    match span
    case Streamed(items, read) => if read <= |items| then StreamEvents(items[..read]) else []
    case Compacted(_) => [ContextCompacted]
    case BatchTold(_, _, _, events) => events
    case LimitTold(limit) => [ErrorEvent(MaxToolCallsExceeded(limit))]
  }

  function Spelled(spans: seq<Span>): seq<EventPayload> {
    if spans == [] then [] else Spelled(spans[..|spans| - 1]) + SpanEvents(spans[|spans| - 1])
  }

  function StreamsOf(spans: seq<Span>): seq<seq<StreamItem>> {
    if spans == [] then []
    else
      var last := spans[|spans| - 1];
      StreamsOf(spans[..|spans| - 1]) + if last.Streamed? then [last.items] else []
  }

  function MarkersOf(spans: seq<Span>): seq<CompactionMarker> {
    if spans == [] then []
    else
      var last := spans[|spans| - 1];
      MarkersOf(spans[..|spans| - 1]) + if last.Compacted? then [last.marker] else []
  }

  function BatchesOf(spans: seq<Span>): seq<Outcome> {
    if spans == [] then []
    else
      var last := spans[|spans| - 1];
      BatchesOf(spans[..|spans| - 1]) + if last.BatchTold? && last.outcome.Some? then [last.outcome.value] else []
  }

  /** A stream was read to where reading stops, a batch told what it did, a report names the limit. */
  ghost predicate SpanFits(span: Span, tools: Tools, max: nat) {
    match span
    case Streamed(items, read) => exists allowTools, r :: StreamResult(items, allowTools, read, r)
    case Compacted(_) => true
    case BatchTold(b, batch, outcome, events) => TellsBatch(tools, b, batch, outcome, events)
    case LimitTold(limit) => limit == max
  }

  /** The spans of a turn: its streams are those the provider has given it, all of them and in order, and its
      compactions are the markers it has stored. */
  ghost predicate FitSpans(spans: seq<Span>, tools: Tools, max: nat, given: seq<seq<StreamItem>>,
                           markers: seq<CompactionMarker>)
  {
    && (forall i :: 0 <= i < |spans| ==> SpanFits(spans[i], tools, max))
    && StreamsOf(spans) == given && MarkersOf(spans) == markers
  }

  lemma SpanAdded(spans: seq<Span>, span: Span, tools: Tools, max: nat, given: seq<seq<StreamItem>>,
                  markers: seq<CompactionMarker>)
    requires FitSpans(spans, tools, max, given, markers) && SpanFits(span, tools, max)
    ensures FitSpans(spans + [span], tools, max, given + (if span.Streamed? then [span.items] else []),
                     markers + (if span.Compacted? then [span.marker] else []))
    ensures Spelled(spans + [span]) == Spelled(spans) + SpanEvents(span)
    ensures BatchesOf(spans + [span]) ==
              BatchesOf(spans) + if span.BatchTold? && span.outcome.Some? then [span.outcome.value] else []
  {
    hide SpanFits, SpanEvents;
    assert (spans + [span])[..|spans|] == spans;
  }

  /** The completed batch at `p` is the one its answer asked for, told after the stream that answer was read from. */
  ghost predicate BatchFollows(spans: seq<Span>, p: nat, answers: seq<Answer>, tools: Tools)
    requires p < |spans| && spans[p].BatchTold?
  {
    var i := |BatchesOf(spans[..p])|;
    && i < |answers| && spans[p].index == i && PreparedFor(tools, i, answers[i].calls, spans[p].batch)
    && ReadFrom(answers[i], true, StreamsOf(spans[..p]))
  }

  /** The spans come pass by pass: streams and compactions first, then the batch of the answer they gave. */
  ghost predicate PassByPass(spans: seq<Span>, answers: seq<Answer>, tools: Tools) {
    forall p :: 0 <= p < |spans| && spans[p].BatchTold? && spans[p].outcome.Some? ==>
      BatchFollows(spans, p, answers, tools)
  }

  /** Nothing but streams, compactions and reports were told since. */
  ghost predicate NoBatchSince(before: seq<Span>, spans: seq<Span>) {
    before <= spans && forall p :: |before| <= p < |spans| ==> !spans[p].BatchTold?
  }

  lemma StillPassByPass(before: seq<Span>, spans: seq<Span>, answers: seq<Answer>, later: seq<Answer>, tools: Tools)
    requires PassByPass(before, answers, tools) && NoBatchSince(before, spans) && answers <= later
    ensures PassByPass(spans, later, tools)
  {
    hide PreparedFor, ReadFrom, StreamsOf, BatchesOf;
    forall p | 0 <= p < |spans| && spans[p].BatchTold? && spans[p].outcome.Some?
      ensures BatchFollows(spans, p, later, tools)
    {
      assert p < |before| && spans[p] == before[p] && spans[..p] == before[..p];
      assert BatchFollows(before, p, answers, tools);
    }
  }

  lemma BatchInPass(before: seq<Span>, span: Span, answers: seq<Answer>, answer: Answer, tools: Tools)
    requires PassByPass(before, answers, tools) && span.BatchTold?
    requires |BatchesOf(before)| == |answers| == span.index && PreparedFor(tools, span.index, answer.calls, span.batch)
    requires ReadFrom(answer, true, StreamsOf(before))
    ensures PassByPass(before + [span], answers + [answer], tools)
  {
    hide PreparedFor, ReadFrom, StreamsOf, BatchesOf;
    var spans, later := before + [span], answers + [answer];
    forall p | 0 <= p < |spans| && spans[p].BatchTold? && spans[p].outcome.Some?
      ensures BatchFollows(spans, p, later, tools)
    {
      if p < |before| {
        assert spans[p] == before[p] && spans[..p] == before[..p];
        assert BatchFollows(before, p, answers, tools);
      } else {
        assert spans[..p] == before;
      }
    }
  }

  lemma NoSpans(tools: Tools, max: nat)
    ensures FitSpans([], tools, max, [], []) && Spelled([]) == [] && BatchesOf([]) == []
  {
  }

  // ---------------------------------------------------------------- turns cut off

  /** What a round being written has added so far: the answer's text, then the calls of a batch prepared for
      it, then the results of that batch. */
  ghost predicate InNextRound(word: seq<Message>, t: Turn, answer: Answer, tools: Tools) {
    && OpenTurn(t) && t.limit.None? && !answer.cancelled && answer.calls != []
    && (|| word <= TurnWord(t) + AssistantWord(answer.text, Complete)
        || exists batch: Batch :: WritingBatch(word, t, answer, tools, batch))
  }

  ghost predicate WritingBatch(word: seq<Message>, t: Turn, answer: Answer, tools: Tools, batch: Batch) {
    && PreparedFor(tools, |t.rounds|, answer.calls, batch)
    && (|| word <= TurnWord(t) + AssistantWord(answer.text, Complete) + CallMessages(batch.calls)
        || exists outcome :: WritingResults(word, t, answer, tools, batch, outcome))
  }

  ghost predicate WritingResults(word: seq<Message>, t: Turn, answer: Answer, tools: Tools, batch: Batch,
                                 outcome: Outcome) {
    && BatchEnds(tools, |t.rounds|, batch, outcome)
    && word <= TurnWord(t) + AssistantWord(answer.text, Complete) + CallMessages(batch.calls)
        + ResultMessages(outcome.results)
  }

  /** A turn that was cut off: its complete rounds come from its own answers and batches, and what it wrote
      beyond them, if anything, belongs to the round of its last answer. */
  ghost predicate CutOff(word: seq<Message>, t: Turn, answers: seq<Answer>, batches: seq<Outcome>, tools: Tools,
                         max: nat) {
    && ValidTurn(t) && History(t, answers, batches, max) && AllRan(tools, t.rounds, answers, batches)
    && |answers| <= |t.rounds| + 1
    && (t.text == "" || (|answers| == |t.rounds| + 1 && t.text == answers[|t.rounds|].text))
    && (t.limit.Some? ==> t.limit == Some(max) && CountResults(t.rounds) > max)
    && (|| word <= TurnWord(t)
        || (|answers| == |t.rounds| + 1 && InNextRound(word, t, answers[|t.rounds|], tools)))
  }

  /** Having written the text of a pass is still a prefix of a turn. */
  lemma TextIsPrefix(t: Turn, text: string)
    requires OpenTurn(t)
    ensures IsTurnPrefix(TurnWord(t) + AssistantWord(text, Complete))
  {
    hide TurnWord, AssistantWord;
    LastText(t, text, Complete);
    WholeIsPrefix(t.(text := text, status := Complete));
  }

  lemma NextRoundIsPrefix(word: seq<Message>, t: Turn, answer: Answer, tools: Tools)
    requires InNextRound(word, t, answer, tools)
    ensures IsTurnPrefix(word)
  {
    hide TurnWord, AssistantWord, IsTurnPrefix, BatchEnds, WellPrepared, CallMessages, ResultMessages, OpenTurn,
        ResultsMatch;
    if word <= TurnWord(t) + AssistantWord(answer.text, Complete) {
      TextIsPrefix(t, answer.text);
      ShorterIsPrefix(word, TurnWord(t) + AssistantWord(answer.text, Complete));
    } else {
      var batch: Batch :| WritingBatch(word, t, answer, tools, batch);
      if word <= TurnWord(t) + AssistantWord(answer.text, Complete) + CallMessages(batch.calls) {
        InsideRound(t, answer.text, batch.calls, word);
      } else {
        var outcome :| WritingResults(word, t, answer, tools, batch, outcome);
        BatchIds(tools, |t.rounds|, batch, outcome);
        InsideResults(t, answer.text, batch.calls, outcome.results, word);
      }
    }
  }

  /** A turn that was cut off has written a prefix of a whole one. */
  lemma CutOffIsPrefix(word: seq<Message>, t: Turn, answers: seq<Answer>, batches: seq<Outcome>, tools: Tools, max: nat)
    requires CutOff(word, t, answers, batches, tools, max)
    ensures IsTurnPrefix(word)
  {
    hide TurnWord, IsTurnPrefix, InNextRound, History, AllRan, CountResults;
    if word <= TurnWord(t) {
      WholeIsPrefix(t);
      ShorterIsPrefix(word, TurnWord(t));
    } else {
      NextRoundIsPrefix(word, t, answers[|t.rounds|], tools);
    }
  }

  /** Where a turn may be cut off: in front of a request, with or without its answer, or at its end. */
  lemma HeadCut(t: Turn, answers: seq<Answer>, batches: seq<Outcome>, tools: Tools, max: nat, allowTools: bool)
    requires AtHead(t, answers, batches, max, allowTools) && AllRan(tools, t.rounds, answers, batches)
    ensures CutOff(TurnWord(t), t, answers, batches, tools, max)
    ensures forall word, answer :: InNextRound(word, t, answer, tools) ==>
              CutOff(word, t, answers + [answer], batches, tools, max)
  {
    hide TurnWord, InNextRound, History, AllRan, CountResults, ValidRounds;
    forall word, answer | InNextRound(word, t, answer, tools)
      ensures CutOff(word, t, answers + [answer], batches, tools, max)
    {
      SameRounds(t, answers, batches, max, answer, t);
      KeepRan(tools, t.rounds, answers, batches, answer);
      SizesFit(t, answers, batches, max);
    }
    SizesFit(t, answers, batches, max);
  }

  lemma SizesFit(t: Turn, answers: seq<Answer>, batches: seq<Outcome>, max: nat)
    requires History(t, answers, batches, max)
    ensures |t.rounds| <= |answers|
  {
  }

  lemma EndedCut(t: Turn, answers: seq<Answer>, batches: seq<Outcome>, tools: Tools, max: nat, outcome: TurnOutcome)
    requires Ended(t, answers, batches, max, outcome) && AllRan(tools, t.rounds, answers, batches)
    ensures CutOff(TurnWord(t), t, answers, batches, tools, max)
  {
    hide TurnWord, InNextRound, AllRan, CountResults, ValidRounds;
  }

  lemma KeepRan(tools: Tools, rounds: seq<Round>, answers: seq<Answer>, batches: seq<Outcome>, answer: Answer)
    requires AllRan(tools, rounds, answers, batches)
    ensures AllRan(tools, rounds, answers + [answer], batches)
  {
    hide AllRan, Ran;
    RanSnoc(tools, rounds, answers, batches, answer, Round("", [], []), Outcome([], false, false));
  }

  /** A complete round that could not be followed by its limit notice. */
  lemma RoundCut(t: Turn, answers: seq<Answer>, batches: seq<Outcome>, tools: Tools, max: nat)
    requires OpenTurn(t) && History(t, answers, batches, max) && AllRan(tools, t.rounds, answers, batches)
    requires |answers| == |t.rounds| && t.limit.None?
    ensures CutOff(TurnWord(t), t, answers, batches, tools, max)
  {
    hide TurnWord, InNextRound, History, AllRan, CountResults, ValidTurn;
  }

  // ---------------------------------------------------------------- the ledger over many turns

  function Flatten(words: seq<seq<Message>>): seq<Message> {
    if words == [] then [] else Flatten(words[..|words| - 1]) + words[|words| - 1]
  }

  /** The messages of the ledger were written turn by turn; any turn may have been cut off anywhere. */
  ghost predicate TurnByTurn(messages: seq<Message>) {
    exists words: seq<seq<Message>> :: messages == Flatten(words) && EachATurn(words)
  }

  ghost predicate EachATurn(words: seq<seq<Message>>) {
    forall i :: 0 <= i < |words| ==> IsTurnPrefix(words[i])
  }

  /** At every moment of the next turn, `log` being what it has written until then. */
  lemma NextTurn(rt: RuntimeState, log: seq<Payload>, whole: seq<Payload>)
    requires log <= whole
    ensures TurnByTurn(RawMessages(rt.events)) && IsTurnPrefix(LogMessages(whole)) ==>
              TurnByTurn(RawMessages(AppendAll(rt, log).events))
  {
    hide IsTurnPrefix, RawMessages, AppendAll, LogMessages;
    if !(TurnByTurn(RawMessages(rt.events)) && IsTurnPrefix(LogMessages(whole))) {
      return;
    }
    LogInLedger(rt, log);
    LogPrefix(log, whole);
    ShorterIsPrefix(LogMessages(log), LogMessages(whole));
    var words :| RawMessages(rt.events) == Flatten(words) && EachATurn(words);
    var words' := words + [LogMessages(log)];
    assert words'[..|words|] == words;
    assert Flatten(words') == Flatten(words) + LogMessages(log);
  }

  lemma {:induction false} TurnsAnswered(words: seq<seq<Message>>)
    requires EachATurn(words)
    ensures Answered(Flatten(words))
  {
    hide IsTurnPrefix, Answered;
    if words == [] {
      NoResults([]);
    } else {
      TurnsAnswered(words[..|words| - 1]);
      NextTurnAnswered(Flatten(words[..|words| - 1]), words[|words| - 1]);
    }
  }

  /** In none of the lists a model was shown is a tool result without its own batch's call before it, as long as
      the ledger's numbers have not run out. */
  ghost predicate OrphanFree(shown: seq<seq<Message>>, nextSeq: nat) {
    nextSeq < U64_MAX ==> forall i :: 0 <= i < |shown| ==> Answered(shown[i])
  }

  lemma OrphanFreeLater(shown: seq<seq<Message>>, nextSeq: nat)
    requires OrphanFree(shown, nextSeq)
    ensures OrphanFree(shown, SaturatingInc(nextSeq))
  {
    hide Answered;
  }

  lemma OrphanFreeSnoc(shown: seq<seq<Message>>, nextSeq: nat, list: seq<Message>)
    requires OrphanFree(shown, nextSeq) && (nextSeq < U64_MAX ==> Answered(list))
    ensures OrphanFree(shown + [list], nextSeq)
  {
    hide Answered;
  }

  /** No orphans in any reachable context: whatever turns were run, failed, cancelled, compacted or cut off
      by a crash, each result the model can see has its own batch's call visible before it, now, after a
      resume, and in the input of a compaction. */
  lemma NeverAnOrphan(rt: RuntimeState, agent: AgentDefaults)
    requires SessionInvariant(rt, agent) && rt.nextSeq < U64_MAX
    ensures TurnByTurn(RawMessages(rt.events)) ==>
              && Answered(rt.context.visible)
              && Answered(Rebuild(rt.events, rt.context.latest))
              && (BuildPlan(rt.events, rt.context.latest).Ok? ==>
                    Answered(BuildPlan(rt.events, rt.context.latest).value.compactable))
  {
    hide IsTurnPrefix, Answered, RawMessages, SessionInvariant, BuildPlan, Rebuild;
    if !TurnByTurn(RawMessages(rt.events)) {
      return;
    }
    var words :| RawMessages(rt.events) == Flatten(words) && EachATurn(words);
    TurnsAnswered(words);
    NoOrphans(rt, agent);
  }
}
