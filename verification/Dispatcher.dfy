/** Preparing and running a batch of tool calls (src/application/tool_dispatcher.rs). */
module Dispatcher {
  import opened Domain
  import opened Text
  import opened ToolOutputs

  // ---------------------------------------------------------------- data

  datatype RequestedCall = RequestedCall(callId: string, toolName: string, arguments: Json)

  /** What the kernel itself writes in place of a tool's output. */
  datatype Notice =
    | CancelledNotice
    | AbortedNotice
    | NotFoundNotice(tool: string)
    | FailedNotice(tool: string)
    | TimeoutNotice(tool: string)
    | SkippedAfterAbort
    | SkippedAfterNotFound(tool: string)
    | SkippedAfterFailure(tool: string)
    | SkippedAfterTimeout(tool: string)

  function NoticeText(notice: Notice): string {
    match notice
    case CancelledNotice => "[Tool cancelled]"
    case AbortedNotice => "[Tool aborted by plugin]"
    case NotFoundNotice(tool) => "[Tool error] tool '" + tool + "' not found"
    case FailedNotice(tool) => "[Tool error] tool '" + tool + "' failed"
    case TimeoutNotice(tool) => "[Tool timeout] tool '" + tool + "' timed out"
    case SkippedAfterAbort => "[Tool skipped: previous tool aborted by plugin]"
    case SkippedAfterNotFound(tool) => "[Tool skipped: previous tool '" + tool + "' not found]"
    case SkippedAfterFailure(tool) => "[Tool skipped: previous tool '" + tool + "' failed]"
    case SkippedAfterTimeout(tool) => "[Tool skipped: previous tool '" + tool + "' timed out]"
  }

  function NoticeOutput(notice: Notice): ToolOutput {
    ToolOutput(NoticeText(notice), true, Null)
  }

  datatype Record = Record(callId: string, toolName: string, arguments: Json, output: ToolOutput, durationMs: nat,
                           success: bool)

  function BuildRecord(callId: string, toolName: string, arguments: Json, output: ToolOutput, durationMs: nat,
                       success: bool, limits: Limits): Record
  {
    Record(callId, toolName, arguments, Normalize(output, limits), durationMs, success)
  }

  /** A call is executed, or its result was fixed while preparing; `missing` is set when its tool is unknown. */
  datatype Execution = Execute(isMutating: bool) | Synthetic(record: Record, missing: bool)

  datatype PreparedCall = PreparedCall(callId: string, toolName: string, arguments: Json, execution: Execution)

  datatype Batch = Batch(calls: seq<PreparedCall>, hasMutating: bool)

  /** What the BeforeToolUse hooks answer for a call. */
  datatype BeforeAnswer = Proceed(arguments: Json) | Blocked | BeforeBroken

  /** How running a handler ends, and what the AfterToolUse hooks answer. */
  datatype HandlerEnd = Returned(output: ToolOutput) | HandlerFailed | JoinFailed | TimedOut
  datatype AfterAnswer = Passed | AbortedByPlugin | AfterBroken
  datatype ToolRun = ToolRun(end: HandlerEnd, durationMs: nat, after: AfterAnswer)

  /** Registered handlers, each mutating or not, and the output limits. What hooks and handlers do is outside the
      kernel: `before(b, i)` and `run(b, i)` are what they do about call `i` of batch `b` of a turn. */
  datatype Tools = Tools(handlers: map<string, bool>, limits: Limits, before: (nat, nat) -> BeforeAnswer,
                         run: (nat, nat) -> ToolRun)
  {
    function Answers(b: nat, n: nat): (answers: seq<BeforeAnswer>)
      ensures |answers| == n && forall i :: 0 <= i < n ==> answers[i] == before(b, i)
    {
      seq(n, i requires 0 <= i < n => before(b, i))
    }

    function Runs(b: nat, n: nat): (runs: seq<ToolRun>)
      ensures |runs| == n && forall i :: 0 <= i < n ==> runs[i] == run(b, i)
    {
      seq(n, i requires 0 <= i < n => run(b, i))
    }
  }

  datatype Outcome = Outcome(results: seq<Record>, cancelled: bool, stopAfterBatch: bool)

  // ---------------------------------------------------------------- prepare

  /** Some requested call would run a mutating tool. */
  ghost predicate IsMutatingBatch(tools: Tools, requested: seq<RequestedCall>) {
    exists i :: 0 <= i < |requested| && requested[i].toolName in tools.handlers && tools.handlers[requested[i].toolName]
  }

  ghost predicate Blocks(tools: Tools, call: RequestedCall, answer: BeforeAnswer) {
    call.toolName !in tools.handlers || answer.Blocked?
  }

  function NoticeCall(call: RequestedCall, notice: Notice, missing: bool, limits: Limits): PreparedCall {
    PreparedCall(call.callId, call.toolName, call.arguments,
                 Synthetic(BuildRecord(call.callId, call.toolName, call.arguments, NoticeOutput(notice), 0, false,
                                       limits), missing))
  }

  /** The result of this call was fixed while preparing: an error with this text, under the requested arguments. */
  ghost predicate FixedResult(prepared: PreparedCall, call: RequestedCall, text: string, missing: bool, limits: Limits)
  {
    && prepared.callId == call.callId && prepared.toolName == call.toolName && prepared.arguments == call.arguments
    && prepared.execution.Synthetic? && prepared.execution.missing == missing
    && prepared.execution.record == Record(call.callId, call.toolName, call.arguments,
                                           Normalize(ToolOutput(text, true, Null), limits), 0, false)
  }

  /** How a call is prepared when nothing before it stops the batch: a registered one runs with the arguments the
      BeforeToolUse hooks left, unless they blocked it; an unknown one is an error. */
  ghost predicate PreparedAs(tools: Tools, call: RequestedCall, answer: BeforeAnswer, prepared: PreparedCall) {
    if call.toolName !in tools.handlers then
      FixedResult(prepared, call, "[Tool error] tool '" + call.toolName + "' not found", true, tools.limits)
    else if answer.Blocked? then FixedResult(prepared, call, "[Tool aborted by plugin]", false, tools.limits)
    else
      && answer.Proceed? && prepared.arguments == answer.arguments
      && prepared.callId == call.callId && prepared.toolName == call.toolName
      && prepared.execution == Execute(tools.handlers[call.toolName])
  }

  /** A call skipped because of an earlier one, which says why. */
  ghost predicate SkippedAfter(tools: Tools, blocker: RequestedCall, call: RequestedCall, prepared: PreparedCall) {
    FixedResult(prepared, call,
                if blocker.toolName !in tools.handlers then
                  "[Tool skipped: previous tool '" + blocker.toolName + "' not found]"
                else "[Tool skipped: previous tool aborted by plugin]", false, tools.limits)
  }

  /** In a mutating batch every call after `stop` is skipped because of the call at `stop`. */
  ghost predicate PreparedWith(tools: Tools, requested: seq<RequestedCall>, answers: seq<BeforeAnswer>,
                               calls: seq<PreparedCall>, stop: nat)
    requires |calls| <= |requested| == |answers| && stop <= |requested|
  {
    && (forall i :: 0 <= i < |calls| && i <= stop ==> PreparedAs(tools, requested[i], answers[i], calls[i]))
    && (forall i :: stop < i < |calls| ==> SkippedAfter(tools, requested[stop], requested[i], calls[i]))
  }

  /** `stop` is the first call that stops a mutating batch, and the end of the list when there is none. */
  ghost predicate FirstStop(tools: Tools, requested: seq<RequestedCall>, answers: seq<BeforeAnswer>, mutating: bool,
                            stop: nat)
    requires |requested| == |answers| && stop <= |requested|
  {
    && (stop < |requested| ==> mutating && Blocks(tools, requested[stop], answers[stop]))
    && (mutating ==> forall i :: 0 <= i < stop ==> !Blocks(tools, requested[i], answers[i]))
  }

  method PrepareBatch(tools: Tools, requested: seq<RequestedCall>, answers: seq<BeforeAnswer>)
    returns (r: Result<Batch, AgentError>, ghost stop: nat)
    requires |answers| == |requested|
    ensures stop <= |requested| && FirstStop(tools, requested, answers, IsMutatingBatch(tools, requested), stop)
    ensures r.Ok? ==>
              && |r.value.calls| == |requested|
              && r.value.hasMutating == IsMutatingBatch(tools, requested)
              && PreparedWith(tools, requested, answers, r.value.calls, stop)
    ensures r.Err? <==> exists i :: 0 <= i < |requested| && i <= stop
                                    && requested[i].toolName in tools.handlers && answers[i].BeforeBroken?
    ensures r.Err? ==> r.error == ContractViolation
  {
    hide NoticeText, Normalize, PreparedWith, NoticeCall, SkipsBecause;
    var hasMutating := exists i :: 0 <= i < |requested| && requested[i].toolName in tools.handlers
                                   && tools.handlers[requested[i].toolName];
    var calls: seq<PreparedCall> := [];
    var skip: Option<Notice> := None;
    stop := |requested|;
    NothingPrepared(tools, requested, answers);
    for i := 0 to |requested|
      invariant |calls| == i && (skip.Some? ==> stop < i && SkipsBecause(tools, requested[stop], skip.value))
      invariant skip.None? ==> stop == |requested|
      invariant stop < |requested| ==> skip.Some? && hasMutating && Blocks(tools, requested[stop], answers[stop])
      invariant hasMutating ==> forall k :: 0 <= k < i && k < stop ==> !Blocks(tools, requested[k], answers[k])
      invariant forall k :: 0 <= k < i && k <= stop && requested[k].toolName in tools.handlers ==>
                !answers[k].BeforeBroken?
      invariant PreparedWith(tools, requested, answers, calls, stop)
    {
      var call := requested[i];
      if skip.Some? {
        PreparedSkipped(tools, requested, answers, calls, stop, skip.value);
        calls := calls + [NoticeCall(call, skip.value, false, tools.limits)];
        continue;
      }
      PreparedNext(tools, requested, answers, calls);
      if call.toolName !in tools.handlers {
        if hasMutating {
          skip := Some(SkippedAfterNotFound(call.toolName));
          stop := i;
        }
        calls := calls + [NoticeCall(call, NotFoundNotice(call.toolName), true, tools.limits)];
        continue;
      }
      match answers[i]
      case Proceed(arguments) =>
        calls := calls + [PreparedCall(call.callId, call.toolName, arguments, Execute(tools.handlers[call.toolName]))];
      case Blocked =>
        if hasMutating {
          skip := Some(SkippedAfterAbort);
          stop := i;
        }
        calls := calls + [NoticeCall(call, AbortedNotice, false, tools.limits)];
      case BeforeBroken =>
        stop := if hasMutating then FirstStopFrom(tools, requested, answers, i) else |requested|;
        return Err(ContractViolation), stop;
    }
    return Ok(Batch(calls, hasMutating)), stop;
  }

  lemma NothingPrepared(tools: Tools, requested: seq<RequestedCall>, answers: seq<BeforeAnswer>)
    requires |answers| == |requested|
    ensures PreparedWith(tools, requested, answers, [], |requested|)
  {
  }

  /** The notice that says this call stopped the batch. */
  ghost predicate SkipsBecause(tools: Tools, blocker: RequestedCall, notice: Notice) {
    notice == if blocker.toolName !in tools.handlers then SkippedAfterNotFound(blocker.toolName) else SkippedAfterAbort
  }

  /** One more call that is skipped. */
  lemma PreparedSkipped(tools: Tools, requested: seq<RequestedCall>, answers: seq<BeforeAnswer>,
                        calls: seq<PreparedCall>, stop: nat, notice: Notice)
    requires |calls| < |requested| == |answers| && stop < |calls|
              && PreparedWith(tools, requested, answers, calls, stop)
    requires SkipsBecause(tools, requested[stop], notice)
    ensures
      PreparedWith(tools, requested, answers,
                   calls + [NoticeCall(requested[|calls|], notice, false, tools.limits)], stop)
  {
    hide Normalize, PreparedAs;
    var longer := calls + [NoticeCall(requested[|calls|], notice, false, tools.limits)];
    assert SkippedAfter(tools, requested[stop], requested[|calls|], longer[|calls|]) by {
      hide SkippedAfter, FixedResult;
      SkippedHere(tools, requested[stop], requested[|calls|], notice);
    }
    hide SkippedAfter;
    assert forall i :: 0 <= i < |calls| ==> longer[i] == calls[i];
  }

  lemma SkippedHere(tools: Tools, blocker: RequestedCall, call: RequestedCall, notice: Notice)
    requires SkipsBecause(tools, blocker, notice)
    ensures SkippedAfter(tools, blocker, call, NoticeCall(call, notice, false, tools.limits))
  {
    hide Normalize;
  }

  /** The next call, when nothing before it stopped the batch. How it is prepared does not depend on whether it
      then becomes the one that stops the batch. */
  lemma PreparedNext(tools: Tools, requested: seq<RequestedCall>, answers: seq<BeforeAnswer>, calls: seq<PreparedCall>)
    requires |calls| < |requested| == |answers| && PreparedWith(tools, requested, answers, calls, |requested|)
    ensures
      var call, answer := requested[|calls|], answers[|calls|];
      && SkipsBecause(tools, call, if call.toolName !in tools.handlers then SkippedAfterNotFound(call.toolName)
                                   else SkippedAfterAbort)
      && (call.toolName !in tools.handlers ==>
            NextIs(tools, requested, answers, calls, NoticeCall(call, NotFoundNotice(call.toolName), true, tools.limits)))
      && (call.toolName in tools.handlers && answer.Blocked? ==>
            NextIs(tools, requested, answers, calls, NoticeCall(call, AbortedNotice, false, tools.limits)))
      && (call.toolName in tools.handlers && answer.Proceed? ==>
            NextIs(tools, requested, answers, calls,
                   PreparedCall(call.callId, call.toolName, answer.arguments, Execute(tools.handlers[call.toolName]))))
  {
    hide NextIs, Normalize, PreparedWith;
    var call, answer := requested[|calls|], answers[|calls|];
    forall prepared | PreparedAs(tools, call, answer, prepared) ensures NextIs(tools, requested, answers, calls, prepared)
    {
      hide PreparedAs;
      NextFits(tools, requested, answers, calls, prepared);
    }
  }

  ghost predicate NextIs(tools: Tools, requested: seq<RequestedCall>, answers: seq<BeforeAnswer>,
                         calls: seq<PreparedCall>, prepared: PreparedCall)
    requires |calls| < |requested| == |answers|
  {
    && PreparedWith(tools, requested, answers, calls + [prepared], |requested|)
    && PreparedWith(tools, requested, answers, calls + [prepared], |calls|)
  }

  lemma NextFits(tools: Tools, requested: seq<RequestedCall>, answers: seq<BeforeAnswer>, calls: seq<PreparedCall>,
                 prepared: PreparedCall)
    requires |calls| < |requested| == |answers| && PreparedWith(tools, requested, answers, calls, |requested|)
    requires PreparedAs(tools, requested[|calls|], answers[|calls|], prepared)
    ensures NextIs(tools, requested, answers, calls, prepared)
  {
    hide PreparedAs, SkippedAfter;
    var longer := calls + [prepared];
    assert forall i :: 0 <= i < |calls| ==> longer[i] == calls[i];
  }

  ghost function FirstStopFrom(tools: Tools, requested: seq<RequestedCall>, answers: seq<BeforeAnswer>,
                               from: nat): (stop: nat)
    requires from <= |requested| == |answers|
    ensures from <= stop <= |requested|
    ensures stop < |requested| ==> Blocks(tools, requested[stop], answers[stop])
    ensures forall i :: from <= i < stop ==> !Blocks(tools, requested[i], answers[i])
    decreases |requested| - from
  {
    if from < |requested| && !Blocks(tools, requested[from], answers[from])
    then FirstStopFrom(tools, requested, answers, from + 1) else from
  }

  /** The calls that will be executed come first, in model order. */
  ghost predicate ExecutablePrefix(calls: seq<PreparedCall>) {
    forall i, j :: 0 <= i < j < |calls| && calls[j].execution.Execute? ==> calls[i].execution.Execute?
  }

  /** Preparing keeps one call per request, in order, and in a mutating batch leaves only a prefix to execute. */
  lemma PreparedShape(tools: Tools, requested: seq<RequestedCall>, answers: seq<BeforeAnswer>, calls: seq<PreparedCall>,
                      stop: nat)
    requires |calls| == |requested| == |answers| && stop <= |requested|
    requires PreparedWith(tools, requested, answers, calls, stop)
    requires FirstStop(tools, requested, answers, IsMutatingBatch(tools, requested), stop)
    ensures forall i :: 0 <= i < |calls| ==>
              calls[i].callId == requested[i].callId && calls[i].toolName == requested[i].toolName
    ensures forall i :: 0 <= i < |calls| ==> WellPrepared(calls[i], tools.limits)
    ensures IsMutatingBatch(tools, requested) ==> ExecutablePrefix(calls)
  {
    hide PreparedAs, SkippedAfter, WellPrepared, IsMutatingBatch;
    forall i | 0 <= i < |calls| && i <= stop
      ensures calls[i].callId == requested[i].callId && calls[i].toolName == requested[i].toolName
      ensures WellPrepared(calls[i], tools.limits)
      ensures calls[i].execution.Execute? <==> !Blocks(tools, requested[i], answers[i])
    {
      ShapeAlone(tools, requested[i], answers[i], calls[i]);
    }
    forall i | stop < i < |calls|
      ensures calls[i].callId == requested[i].callId && calls[i].toolName == requested[i].toolName
      ensures WellPrepared(calls[i], tools.limits) && calls[i].execution.Synthetic?
    {
      ShapeSkipped(tools, requested[stop], requested[i], calls[i]);
    }
  }

  lemma FixedShape(prepared: PreparedCall, call: RequestedCall, text: string, missing: bool, limits: Limits)
    requires FixedResult(prepared, call, text, missing, limits)
    ensures prepared.callId == call.callId && prepared.toolName == call.toolName
    ensures WellPrepared(prepared, limits) && prepared.execution.Synthetic?
  {
    hide Normalize;
  }

  lemma ShapeAlone(tools: Tools, call: RequestedCall, answer: BeforeAnswer, prepared: PreparedCall)
    requires PreparedAs(tools, call, answer, prepared)
    ensures prepared.callId == call.callId && prepared.toolName == call.toolName
    ensures WellPrepared(prepared, tools.limits) && (prepared.execution.Execute? <==> !Blocks(tools, call, answer))
  {
    hide FixedResult, Normalize;
    if call.toolName !in tools.handlers {
      FixedShape(prepared, call, "[Tool error] tool '" + call.toolName + "' not found", true, tools.limits);
    } else if answer.Blocked? {
      FixedShape(prepared, call, "[Tool aborted by plugin]", false, tools.limits);
    }
  }

  lemma ShapeSkipped(tools: Tools, blocker: RequestedCall, call: RequestedCall, prepared: PreparedCall)
    requires SkippedAfter(tools, blocker, call, prepared)
    ensures prepared.callId == call.callId && prepared.toolName == call.toolName
    ensures WellPrepared(prepared, tools.limits) && prepared.execution.Synthetic?
  {
    hide FixedResult, Normalize, WellPrepared;
    if blocker.toolName !in tools.handlers {
      FixedShape(prepared, call, "[Tool skipped: previous tool '" + blocker.toolName + "' not found]", false,
                 tools.limits);
    } else {
      FixedShape(prepared, call, "[Tool skipped: previous tool aborted by plugin]", false, tools.limits);
    }
  }

  /** A prepared result belongs to its call and is within the limits. */
  ghost predicate WellPrepared(call: PreparedCall, limits: Limits) {
    call.execution.Synthetic? ==>
      && call.execution.record.callId == call.callId
      && exists output :: call.execution.record.output == Normalize(output, limits)
  }

  // ---------------------------------------------------------------- one run

  function RawOutput(run: ToolRun, toolName: string): ToolOutput {
    match run.end
    case Returned(output) => output
    case HandlerFailed => NoticeOutput(FailedNotice(toolName))
    case JoinFailed => NoticeOutput(FailedNotice(toolName))
    case TimedOut => NoticeOutput(TimeoutNotice(toolName))
  }

  /** The normalised output of a run. */
  function RunOutput(run: ToolRun, toolName: string, limits: Limits): ToolOutput {
    Normalize(RawOutput(run, toolName), limits)
  }

  predicate RunSucceeded(run: ToolRun) {
    run.end.Returned? && !run.end.output.isError
  }

  /** The notice for the calls after this one, when the run itself failed. A tool that returns an output
      marked as error has not failed in this sense. */
  function SkipAfter(run: ToolRun, toolName: string): Option<Notice> {
    match run.end
    case Returned(_) => None
    case HandlerFailed => Some(SkippedAfterFailure(toolName))
    case JoinFailed => Some(SkippedAfterFailure(toolName))
    case TimedOut => Some(SkippedAfterTimeout(toolName))
  }

  predicate Clean(run: ToolRun) {
    run.end.Returned? && run.after.Passed?
  }

  function RunRecord(call: PreparedCall, run: ToolRun, limits: Limits): Record {
    BuildRecord(call.callId, call.toolName, call.arguments, RunOutput(run, call.toolName, limits), run.durationMs,
                RunSucceeded(run), limits)
  }

  /** The result of a call that was reached. */
  function DoneRecord(call: PreparedCall, run: ToolRun, limits: Limits): Record {
    if call.execution.Synthetic? then call.execution.record else RunRecord(call, run, limits)
  }

  function NoticeRecord(call: PreparedCall, notice: Notice, limits: Limits): Record {
    BuildRecord(call.callId, call.toolName, call.arguments, NoticeOutput(notice), 0, false, limits)
  }

  function StartEvent(call: PreparedCall): seq<EventPayload> {
    if call.execution.Execute? then [ToolCallStart(call.callId, call.toolName, call.arguments)]
    else if call.execution.missing then [ErrorEvent(ToolNotFound(call.toolName))]
    else []
  }

  function ErrorOf(run: ToolRun, toolName: string): seq<EventPayload> {
    match run.end
    case Returned(_) => []
    case HandlerFailed => [ErrorEvent(ToolExecutionError(toolName))]
    case JoinFailed => [ErrorEvent(ToolExecutionError(toolName))]
    case TimedOut => [ErrorEvent(ToolTimeout(toolName))]
  }

  function EndEvents(call: PreparedCall, run: ToolRun, limits: Limits): seq<EventPayload> {
    ErrorOf(run, call.toolName)
    + [ToolCallEnd(call.callId, call.toolName, RunOutput(run, call.toolName, limits), RunSucceeded(run))]
  }

  /** What a finished run leaves and tells. Event and record agree that it succeeded exactly when its handler
      returned an output it did not mark as an error; a run that failed or timed out reports its error first and
      names the reason for which the calls after it are skipped. */
  lemma RunMeaning(call: PreparedCall, run: ToolRun, limits: Limits)
    ensures
      var record, events, skip :=
        RunRecord(call, run, limits), EndEvents(call, run, limits), SkipAfter(run, call.toolName);
      && events != [] && events[|events| - 1].ToolCallEnd?
      && var end := events[|events| - 1];
      && record.callId == call.callId == end.callId && record.toolName == call.toolName == end.toolName
      && record.arguments == call.arguments && record.durationMs == run.durationMs
      && record.output == Normalize(end.output, limits)
      && (record.success <==> run.end.Returned? && !run.end.output.isError)
      && (end.success <==> run.end.Returned? && !run.end.output.isError)
      && (run.end.Returned? ==> events == [end] && end.output == Normalize(run.end.output, limits) && skip.None?)
      && (run.end.HandlerFailed? || run.end.JoinFailed? ==>
            && events == [ErrorEvent(ToolExecutionError(call.toolName)), end]
            && end.output
               == Normalize(ToolOutput("[Tool error] tool '" + call.toolName + "' failed", true, Null), limits)
            && skip.Some? && NoticeText(skip.value) == "[Tool skipped: previous tool '" + call.toolName + "' failed]")
      && (run.end.TimedOut? ==>
            && events == [ErrorEvent(ToolTimeout(call.toolName)), end]
            && end.output
               == Normalize(ToolOutput("[Tool timeout] tool '" + call.toolName + "' timed out", true, Null), limits)
            && skip.Some?
            && NoticeText(skip.value) == "[Tool skipped: previous tool '" + call.toolName + "' timed out]")
  {
    hide Normalize;
  }

  /** Exactly when the event, the AfterToolUse hook and the ledger see the same output for every run that
      returns at most `bound` bytes of metadata, 4 bytes being the `null` of a run that failed. */
  lemma SameOutputEverywhere(call: PreparedCall, limits: Limits, bound: nat)
    requires bound >= 4
    ensures (forall run: ToolRun :: (run.end.Returned? ==> JsonLen(run.end.output.metadata) <= bound) ==>
               RunRecord(call, run, limits).output == RunOutput(run, call.toolName, limits))
       <==> LimitSuffices(limits.metadataMax, bound)
  {
    hide NoticeText, Normalize, LimitSuffices;
    IdempotentExactly(limits, bound);
    if LimitSuffices(limits.metadataMax, bound) {
      forall run: ToolRun | run.end.Returned? ==> JsonLen(run.end.output.metadata) <= bound
        ensures RunRecord(call, run, limits).output == RunOutput(run, call.toolName, limits)
      {
        assert IdempotentOn(RawOutput(run, call.toolName), limits);
      }
    } else {
      var output := ShortLimitFails(limits, bound);
      var run := ToolRun(Returned(output), 0, Passed);
      assert RunRecord(call, run, limits).output != RunOutput(run, call.toolName, limits);
    }
  }

  // ---------------------------------------------------------------- event bookkeeping

  function Payloads(events: seq<AgentEvent>): seq<EventPayload> {
    if events == [] then [] else Payloads(events[..|events| - 1]) + [events[|events| - 1].payload]
  }

  /** How many calls with this id are started and not ended. */
  function OpenCalls(events: seq<EventPayload>, id: string): int {
    if events == [] then 0
    else
      var last := events[|events| - 1];
      OpenCalls(events[..|events| - 1], id)
      + if last.ToolCallStart? && last.callId == id then 1 else if last.ToolCallEnd? && last.callId == id then -1 else 0
  }

  /** Every start has exactly one later end. */
  ghost predicate Balanced(events: seq<EventPayload>) {
    && (forall id :: OpenCalls(events, id) == 0)
    && (forall id, k :: 0 <= k <= |events| ==> OpenCalls(events[..k], id) >= 0)
  }

  lemma {:induction false} OpenConcat(a: seq<EventPayload>, b: seq<EventPayload>, id: string)
    ensures OpenCalls(a + b, id) == OpenCalls(a, id) + OpenCalls(b, id)
    decreases |b|
  {
    if b == [] {
      assert a + b == a;
    } else {
      assert (a + b)[..|a + b| - 1] == a + b[..|b| - 1];
      OpenConcat(a, b[..|b| - 1], id);
    }
  }

  lemma BalancedConcat(a: seq<EventPayload>, b: seq<EventPayload>)
    requires Balanced(a) && Balanced(b)
    ensures Balanced(a + b)
  {
    hide OpenCalls;
    forall id ensures OpenCalls(a + b, id) == 0 {
      OpenConcat(a, b, id);
    }
    forall id, k | 0 <= k <= |a + b| ensures OpenCalls((a + b)[..k], id) >= 0 {
      if k <= |a| {
        assert (a + b)[..k] == a[..k];
      } else {
        assert (a + b)[..k] == a + b[..k - |a|];
        OpenConcat(a, b[..k - |a|], id);
      }
    }
  }

  /** Events that start and end nothing. */
  lemma {:induction false} QuietBalanced(events: seq<EventPayload>)
    requires forall i :: 0 <= i < |events| ==> !events[i].ToolCallStart? && !events[i].ToolCallEnd?
    ensures Balanced(events)
  {
    forall id, k | 0 <= k <= |events| ensures OpenCalls(events[..k], id) == 0 {
      QuietOpen(events[..k], id);
    }
    assert events[..|events|] == events;
  }

  lemma {:induction false} QuietOpen(events: seq<EventPayload>, id: string)
    requires forall i :: 0 <= i < |events| ==> !events[i].ToolCallStart? && !events[i].ToolCallEnd?
    ensures OpenCalls(events, id) == 0
  {
    if events != [] {
      QuietOpen(events[..|events| - 1], id);
    }
  }
}
