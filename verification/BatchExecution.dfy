/** Running a prepared batch: serially with short-circuiting, or in parallel with any completion order
    (src/application/tool_dispatcher.rs). */
module BatchExecution {
  import opened Domain
  import opened Cancellation
  import opened ToolOutputs
  import opened Runtime
  import opened Dispatcher

  lemma PayloadsSnoc(events: seq<AgentEvent>, event: AgentEvent)
    ensures Payloads(events + [event]) == Payloads(events) + [event.payload]
  {
    assert (events + [event])[..|events|] == events;
  }

  /** Emits one event and keeps the payload list in step. */
  method Tell(runtime: SessionRuntime, payload: EventPayload)
    requires runtime.Numbered()
    modifies runtime`eventSequence, runtime`sent
    ensures runtime.Numbered() && runtime.View() == old(runtime.View())
    ensures old(runtime.sent) <= runtime.sent
    ensures Payloads(runtime.sent) == Payloads(old(runtime.sent)) + [payload]
  {
    runtime.Emit(payload);
    PayloadsSnoc(old(runtime.sent), AgentEvent(SequenceAt(|old(runtime.sent)|), payload));
  }

  /** What one reached call tells, from start to end. */
  function CallEvents(call: PreparedCall, run: ToolRun, limits: Limits): seq<EventPayload> {
    StartEvent(call) + if call.execution.Execute? then EndEvents(call, run, limits) else []
  }

  function SerialEvents(calls: seq<PreparedCall>, runs: seq<ToolRun>, limits: Limits, k: nat): seq<EventPayload>
    requires k <= |calls| <= |runs|
  {
    if k == 0 then [] else SerialEvents(calls, runs, limits, k - 1) + CallEvents(calls[k - 1], runs[k - 1], limits)
  }

  /** Sends the events of a finished run and asks the AfterToolUse hooks. */
  method FinalizeToolExecution(runtime: SessionRuntime, call: PreparedCall, run: ToolRun, limits: Limits)
    returns (r: Result<(Record, Option<Notice>, bool), AgentError>)
    requires runtime.Numbered()
    modifies runtime`eventSequence, runtime`sent
    ensures runtime.Numbered() && runtime.View() == old(runtime.View()) && old(runtime.sent) <= runtime.sent
    ensures Payloads(runtime.sent) == Payloads(old(runtime.sent)) + EndEvents(call, run, limits)
    ensures r == if run.after.AfterBroken? then Err(ContractViolation)
                 else Ok((RunRecord(call, run, limits), SkipAfter(run, call.toolName), run.after.AbortedByPlugin?))
  {
    hide Payloads, Normalize, NoticeText, SessionRuntime.View;
    var error := ErrorOf(run, call.toolName);
    if error != [] {
      Tell(runtime, error[0]);
    }
    Tell(runtime, ToolCallEnd(call.callId, call.toolName, RunOutput(run, call.toolName, limits), RunSucceeded(run)));
    match run.after
    case Passed => r := Ok((RunRecord(call, run, limits), SkipAfter(run, call.toolName), false));
    case AbortedByPlugin => r := Ok((RunRecord(call, run, limits), SkipAfter(run, call.toolName), true));
    case AfterBroken => r := Err(ContractViolation);
  }

  /** One reached call of the serial loop: its fixed result, or one run of its handler. */
  method ReachCall(runtime: SessionRuntime, call: PreparedCall, run: ToolRun, limits: Limits)
    returns (r: Result<(Record, Option<Notice>, bool), AgentError>)
    requires runtime.Numbered()
    modifies runtime`eventSequence, runtime`sent
    ensures runtime.Numbered() && runtime.View() == old(runtime.View()) && old(runtime.sent) <= runtime.sent
    ensures Payloads(runtime.sent) == Payloads(old(runtime.sent)) + CallEvents(call, run, limits)
    ensures r.Err? <==> call.execution.Execute? && run.after.AfterBroken?
    ensures r.Err? ==> r.error == ContractViolation
    ensures r.Ok? ==> r.value.0 == DoneRecord(call, run, limits)
    ensures r.Ok? ==> r.value.1 == if call.execution.Execute? then SkipAfter(run, call.toolName) else None
    ensures r.Ok? ==> r.value.2 == (call.execution.Execute? && run.after.AbortedByPlugin?)
  {
    hide Payloads, NoticeText, Normalize, BuildRecord, EndEvents, ErrorOf, SessionRuntime.View, RunSucceeded;
    match call.execution
    case Synthetic(record, missing) =>
      if missing {
        Tell(runtime, ErrorEvent(ToolNotFound(call.toolName)));
      }
      r := Ok((record, None, false));
    case Execute(_) =>
      Tell(runtime, ToolCallStart(call.callId, call.toolName, call.arguments));
      r := FinalizeToolExecution(runtime, call, run, limits);
  }

  function NoticeRecords(calls: seq<PreparedCall>, notice: Notice, limits: Limits): (records: seq<Record>)
    ensures |records| == |calls|
    ensures forall i :: 0 <= i < |calls| ==> records[i] == NoticeRecord(calls[i], notice, limits)
  {
    seq(|calls|, i requires 0 <= i < |calls| => NoticeRecord(calls[i], notice, limits))
  }

  // ---------------------------------------------------------------- mutating batches

  /** The serial loop stops at `stop`: everything before was reached in time and, if executed, ended cleanly. */
  ghost predicate StopsAt(calls: seq<PreparedCall>, runs: seq<ToolRun>, cancelAt: nat, stop: nat)
    requires |runs| == |calls|
  {
    && stop <= |calls| && stop <= cancelAt
    && (forall i :: 0 <= i < stop && calls[i].execution.Execute? ==> Clean(runs[i]))
    && (stop < |calls| ==> stop == cancelAt || (calls[stop].execution.Execute? && !Clean(runs[stop])))
  }

  function SkipReason(call: PreparedCall, run: ToolRun): Notice {
    var notice := SkipAfter(run, call.toolName);
    if notice.Some? then notice.value else SkippedAfterAbort
  }

  /** The result of call `i` of a batch stopped at `stop`. */
  ghost function SerialRecord(calls: seq<PreparedCall>, runs: seq<ToolRun>, limits: Limits, cancelAt: nat, stop: nat,
                              i: nat): Record
    requires |runs| == |calls| && i < |calls|
  {
    if i < stop || (i == stop && stop < cancelAt) then DoneRecord(calls[i], runs[i], limits)
    else if stop == cancelAt then NoticeRecord(calls[i], CancelledNotice, limits)
    else NoticeRecord(calls[i], SkipReason(calls[stop], runs[stop]), limits)
  }

  /** How many calls were reached: all up to a failing one, and none from the moment of cancellation. */
  ghost function Reached(calls: seq<PreparedCall>, cancelAt: nat, stop: nat): nat {
    if stop < |calls| && stop < cancelAt then stop + 1 else stop
  }

  /** Positions of the calls executed among the first `reached`, in order. */
  function Executed(calls: seq<PreparedCall>, reached: nat): seq<nat>
    requires reached <= |calls|
  {
    if reached == 0 then []
    else Executed(calls, reached - 1) + if calls[reached - 1].execution.Execute? then [reached - 1] else []
  }

  /** The serial loop in front of call `|results|`. */
  ghost predicate SerialSoFar(calls: seq<PreparedCall>, runs: seq<ToolRun>, limits: Limits, cancelAt: nat,
                              results: seq<Record>)
    requires |runs| == |calls|
  {
    && |results| <= |calls| && |results| <= cancelAt
    && (forall k :: 0 <= k < |results| && calls[k].execution.Execute? ==> Clean(runs[k]))
    && (forall k :: 0 <= k < |results| ==> results[k] == DoneRecord(calls[k], runs[k], limits))
  }

  /** The batch as a whole, stopped at `stop`. */
  ghost predicate SerialOutcome(calls: seq<PreparedCall>, runs: seq<ToolRun>, limits: Limits, cancelAt: nat, stop: nat,
                                outcome: Outcome)
    requires |runs| == |calls|
  {
    && StopsAt(calls, runs, cancelAt, stop)
    && |outcome.results| == |calls|
    && (forall i :: 0 <= i < |calls| ==> outcome.results[i] == SerialRecord(calls, runs, limits, cancelAt, stop, i))
    && outcome.cancelled == (stop < |calls| && stop == cancelAt)
    && outcome.stopAfterBatch == (stop < |calls| && stop < cancelAt && runs[stop].after.AbortedByPlugin?)
  }

  lemma SerialEndsWith(calls: seq<PreparedCall>, runs: seq<ToolRun>, limits: Limits, cancelAt: nat,
                       results: seq<Record>, tail: seq<Record>)
    requires |runs| == |calls| && SerialSoFar(calls, runs, limits, cancelAt, results)
    requires |results| + |tail| == |calls|
    requires |results| < |calls| ==>
              |results| == cancelAt || (calls[|results|].execution.Execute? && !Clean(runs[|results|]))
    requires forall k :: 0 <= k < |tail| ==>
              tail[k] == SerialRecord(calls, runs, limits, cancelAt, |results|, |results| + k)
    ensures
      var stop := |results|;
      SerialOutcome(calls, runs, limits, cancelAt, stop, Outcome(results + tail, stop < |calls| && stop == cancelAt,
        stop < |calls| && stop < cancelAt && runs[stop].after.AbortedByPlugin?))
  {
    hide DoneRecord, NoticeRecord, Clean;
    var stop := |results|;
    var outcome := Outcome(results + tail, stop < |calls| && stop == cancelAt,
                           stop < |calls| && stop < cancelAt && runs[stop].after.AbortedByPlugin?);
    assert StopsAt(calls, runs, cancelAt, stop);
    forall i | 0 <= i < |calls| ensures outcome.results[i] == SerialRecord(calls, runs, limits, cancelAt, stop, i) {
      if i < stop {
        assert outcome.results[i] == results[i];
      } else {
        assert outcome.results[i] == tail[i - stop];
      }
    }
  }

  /** The serial batch. `runs[i]` is how call `i` would end; the token is polled in front of each call, and `cancelAt`
      is the first call whose poll sees it cancelled. `ran` lists the handlers that were started. */
  method ExecuteMutatingBatch(runtime: SessionRuntime, batch: Batch, runs: seq<ToolRun>, cancel: CancelToken,
                              limits: Limits)
    returns (r: Result<Outcome, AgentError>, ghost cancelAt: nat, ghost stop: nat, ghost ran: seq<nat>)
    requires runtime.Numbered() && |runs| == |batch.calls|
    modifies runtime`eventSequence, runtime`sent, cancel
    ensures cancelAt == old(cancel.FirstSeen(|batch.calls|)) && (old(cancel.Fired()) ==> cancel.Fired())
    ensures r.Ok? && r.value.cancelled ==> cancel.Fired()
    ensures runtime.Numbered() && runtime.View() == old(runtime.View()) && old(runtime.sent) <= runtime.sent
    ensures StopsAt(batch.calls, runs, cancelAt, stop)
    ensures Payloads(runtime.sent) == Payloads(old(runtime.sent))
              + SerialEvents(batch.calls, runs, limits, Reached(batch.calls, cancelAt, stop))
    ensures ran == Executed(batch.calls, Reached(batch.calls, cancelAt, stop))
    ensures r.Err? <==>
              && stop < |batch.calls| && stop < cancelAt
              && batch.calls[stop].execution.Execute? && runs[stop].after.AfterBroken?
    ensures r.Err? ==> r.error == ContractViolation
    ensures r.Ok? ==> SerialOutcome(batch.calls, runs, limits, cancelAt, stop, r.value)
  {
    hide *;
    var calls := batch.calls;
    var results: seq<Record> := [];
    var i := 0;
    ran := [];
    cancelAt := cancel.FirstSeen(|calls|);
    PollSees(cancel, |calls|);
    SerialStart(calls, runs, limits, cancelAt);
    while i < |calls|
      invariant cancel.polls == old(cancel.polls) + i && (old(cancel.Fired()) ==> cancel.Fired())
      invariant i == |results| && SerialSoFar(calls, runs, limits, cancelAt, results) && i <= |calls| && i <= cancelAt
      invariant runtime.Numbered() && runtime.View() == old(runtime.View()) && old(runtime.sent) <= runtime.sent
      invariant Payloads(runtime.sent) == Payloads(old(runtime.sent)) + SerialEvents(calls, runs, limits, i)
      invariant ran == Executed(calls, i)
      decreases |calls| - i
    {
      SerialStep(calls, runs, limits, cancelAt, results);
      var cancelled := cancel.Poll();
      PollSees(cancel, 0);
      if cancelled {
        var rest := NoticeRecords(calls[i..], CancelledNotice, limits);
        return Ok(Outcome(results + rest, true, false)), cancelAt, i, ran;
      }
      if calls[i].execution.Execute? {
        ran := ran + [i];
      }
      var completed := ReachCall(runtime, calls[i], runs[i], limits);
      if completed.Err? {
        return Err(completed.error), cancelAt, i, ran;
      }
      var (record, skip, aborted) := completed.value;
      results := results + [record];
      if aborted || skip.Some? {
        var rest := NoticeRecords(calls[i + 1..], if skip.Some? then skip.value else SkippedAfterAbort, limits);
        return Ok(Outcome(results + rest, false, aborted)), cancelAt, i, ran;
      }
      i := i + 1;
    }
    SerialEnd(calls, runs, limits, cancelAt, results);
    stop := i;
    r := Ok(Outcome(results, false, false));
  }

  /** The next polls, and the first of them to see the token cancelled. */
  lemma PollSees(cancel: CancelToken, n: nat)
    ensures cancel.Fired() <==> cancel.firesAt.Some? && cancel.firesAt.value < cancel.polls
    ensures cancel.Due() <==> cancel.firesAt.Some? && cancel.firesAt.value <= cancel.polls
    ensures if cancel.firesAt.Some? && cancel.firesAt.value < cancel.polls + n
            then cancel.FirstSeen(n) == (if cancel.firesAt.value < cancel.polls then 0
                                         else cancel.firesAt.value - cancel.polls)
            else cancel.FirstSeen(n) == n
  {
  }

  lemma SerialStart(calls: seq<PreparedCall>, runs: seq<ToolRun>, limits: Limits, cancelAt: nat)
    requires |runs| == |calls|
    ensures SerialSoFar(calls, runs, limits, cancelAt, [])
    ensures SerialEvents(calls, runs, limits, 0) == [] && Executed(calls, 0) == []
  {
  }

  /** One turn of the serial loop: cancelled here, stopped by this call, or on to the next. */
  lemma SerialStep(calls: seq<PreparedCall>, runs: seq<ToolRun>, limits: Limits, cancelAt: nat, results: seq<Record>)
    requires |runs| == |calls| && |results| < |calls| && SerialSoFar(calls, runs, limits, cancelAt, results)
    ensures var i := |results|;
      var record, cut := DoneRecord(calls[i], runs[i], limits),
          NoticeRecords(calls[i + 1..], SkipReason(calls[i], runs[i]), limits);
      && (i >= cancelAt ==>
            && i == cancelAt && StopsAt(calls, runs, cancelAt, i) && Reached(calls, cancelAt, i) == i
            && SerialOutcome(calls, runs, limits, cancelAt, i,
                 Outcome(results + NoticeRecords(calls[i..], CancelledNotice, limits), true, false)))
      && (i < cancelAt && calls[i].execution.Execute? && !Clean(runs[i]) ==>
            && StopsAt(calls, runs, cancelAt, i) && Reached(calls, cancelAt, i) == i + 1
            && SerialOutcome(calls, runs, limits, cancelAt, i,
                 Outcome(results + [record] + cut, false, runs[i].after.AbortedByPlugin?)))
      && (i < cancelAt && (calls[i].execution.Execute? ==> Clean(runs[i])) ==>
            SerialSoFar(calls, runs, limits, cancelAt, results + [record]))
      && (Clean(runs[i]) <==> runs[i].after.Passed? && SkipAfter(runs[i], calls[i].toolName).None?)
      && SkipReason(calls[i], runs[i])
         == (if SkipAfter(runs[i], calls[i].toolName).Some? then SkipAfter(runs[i], calls[i].toolName).value
             else SkippedAfterAbort)
      && Executed(calls, i + 1) == Executed(calls, i) + (if calls[i].execution.Execute? then [i] else [])
      && (forall told :: told + SerialEvents(calls, runs, limits, i) + CallEvents(calls[i], runs[i], limits)
                         == told + SerialEvents(calls, runs, limits, i + 1))
  {
    hide DoneRecord, NoticeRecord, CallEvents, NoticeRecords, SerialOutcome;
    var i := |results|;
    forall told: seq<EventPayload>
      ensures told + SerialEvents(calls, runs, limits, i) + CallEvents(calls[i], runs[i], limits)
           == told + SerialEvents(calls, runs, limits, i + 1)
    {
    }
    var record := DoneRecord(calls[i], runs[i], limits);
    if i >= cancelAt {
      SerialEndsWith(calls, runs, limits, cancelAt, results, NoticeRecords(calls[i..], CancelledNotice, limits));
    } else if calls[i].execution.Execute? && !Clean(runs[i]) {
      var cut := NoticeRecords(calls[i + 1..], SkipReason(calls[i], runs[i]), limits);
      SerialEndsWith(calls, runs, limits, cancelAt, results, [record] + cut);
      assert results + [record] + cut == results + ([record] + cut);
    }
  }

  lemma SerialEnd(calls: seq<PreparedCall>, runs: seq<ToolRun>, limits: Limits, cancelAt: nat, results: seq<Record>)
    requires |runs| == |calls| == |results| && SerialSoFar(calls, runs, limits, cancelAt, results)
    ensures StopsAt(calls, runs, cancelAt, |calls|) && Reached(calls, cancelAt, |calls|) == |calls|
    ensures SerialOutcome(calls, runs, limits, cancelAt, |calls|, Outcome(results, false, false))
  {
    hide SerialOutcome, DoneRecord;
    SerialEndsWith(calls, runs, limits, cancelAt, results, []);
    assert results + [] == results;
  }

  /** Mutating batches: after preparing, the handlers started are exactly the first ones of the batch, in
      model order, and every one but the last finished without handler error, join error, timeout or
      abort; the call that stopped the batch is the last of them. */
  lemma {:induction false} HandlersAreCleanPrefix(calls: seq<PreparedCall>, runs: seq<ToolRun>, cancelAt: nat,
                                                  stop: nat)
    requires |runs| == |calls| && ExecutablePrefix(calls) && StopsAt(calls, runs, cancelAt, stop)
    ensures var ran := Executed(calls, Reached(calls, cancelAt, stop));
      && |ran| <= |calls|
      && (forall x :: 0 <= x < |ran| ==> ran[x] == x && calls[x].execution.Execute?)
      && (forall x :: 0 <= x < |ran| - 1 ==> Clean(runs[x]))
      && (forall x :: 0 <= x < |calls| && x < stop && calls[x].execution.Execute? ==> x < |ran|)
      && (stop < |calls| && stop < cancelAt ==> |ran| == stop + 1 && !Clean(runs[stop]))
  {
    ExecutedFirst(calls, Reached(calls, cancelAt, stop));
  }

  lemma {:induction false} ExecutedFirst(calls: seq<PreparedCall>, reached: nat)
    requires reached <= |calls| && ExecutablePrefix(calls)
    ensures |Executed(calls, reached)| <= reached
    ensures forall x :: 0 <= x < |Executed(calls, reached)| ==>
              Executed(calls, reached)[x] == x && calls[x].execution.Execute?
    ensures forall x :: |Executed(calls, reached)| <= x < reached ==> !calls[x].execution.Execute?
  {
    if reached > 0 {
      ExecutedFirst(calls, reached - 1);
    }
  }

  /** Exactly one result per call, in order, with matching ids, wherever the batch was stopped. */
  lemma SerialIds(calls: seq<PreparedCall>, runs: seq<ToolRun>, limits: Limits, cancelAt: nat, stop: nat,
                  outcome: Outcome)
    requires |runs| == |calls| && SerialOutcome(calls, runs, limits, cancelAt, stop, outcome)
    requires forall i :: 0 <= i < |calls| ==> WellPrepared(calls[i], limits)
    ensures |outcome.results| == |calls|
    ensures forall i :: 0 <= i < |calls| ==> outcome.results[i].callId == calls[i].callId
  {
    hide NoticeText, Normalize, RunOutput;
    forall i | 0 <= i < |calls| ensures outcome.results[i].callId == calls[i].callId {
      assert WellPrepared(calls[i], limits);
    }
  }

  /** The result of each call of a stopped serial batch, text by text: a reached call has its fixed result or that of
      its run; from the moment of cancellation on the others are cancelled; after a failing or aborted call they are
      skipped and say why. */
  lemma SerialMeaning(calls: seq<PreparedCall>, runs: seq<ToolRun>, limits: Limits, cancelAt: nat, stop: nat,
                      outcome: Outcome, i: nat)
    requires |runs| == |calls| && SerialOutcome(calls, runs, limits, cancelAt, stop, outcome) && i < |calls|
    ensures
      var call, record := calls[i], outcome.results[i];
      if i < stop || (i == stop && stop < cancelAt) then
        record == if call.execution.Synthetic? then call.execution.record else RunRecord(call, runs[i], limits)
      else
        && record.callId == call.callId && record.toolName == call.toolName && record.arguments == call.arguments
        && record.durationMs == 0 && !record.success
        && var text :=
             if stop == cancelAt then "[Tool cancelled]"
             else match runs[stop].end
                  case Returned(_) => "[Tool skipped: previous tool aborted by plugin]"
                  case HandlerFailed => "[Tool skipped: previous tool '" + calls[stop].toolName + "' failed]"
                  case JoinFailed => "[Tool skipped: previous tool '" + calls[stop].toolName + "' failed]"
                  case TimedOut => "[Tool skipped: previous tool '" + calls[stop].toolName + "' timed out]";
        record.output == Normalize(ToolOutput(text, true, Null), limits)
  {
    hide Normalize, StopsAt, RunRecord, NoticeText;
    if !(i < stop || (i == stop && stop < cancelAt)) {
      var notice := if stop == cancelAt then CancelledNotice else SkipReason(calls[stop], runs[stop]);
      NoticeMeaning(calls[i], notice, limits);
      NoticeTexts(calls[stop], runs[stop]);
    }
  }

  lemma NoticeMeaning(call: PreparedCall, notice: Notice, limits: Limits)
    ensures NoticeRecord(call, notice, limits)
         == Record(call.callId, call.toolName, call.arguments, Normalize(ToolOutput(NoticeText(notice), true, Null), limits),
                   0, false)
  {
    hide Normalize, NoticeText;
  }

  lemma NoticeTexts(call: PreparedCall, run: ToolRun)
    ensures NoticeText(CancelledNotice) == "[Tool cancelled]"
    ensures NoticeText(SkipReason(call, run)) ==
              match run.end
              case Returned(_) => "[Tool skipped: previous tool aborted by plugin]"
              case HandlerFailed => "[Tool skipped: previous tool '" + call.toolName + "' failed]"
              case JoinFailed => "[Tool skipped: previous tool '" + call.toolName + "' failed]"
              case TimedOut => "[Tool skipped: previous tool '" + call.toolName + "' timed out]"
  {
  }

  /** What one call tells when it is reached: its start under the prepared arguments, its run's error if there is
      one, its end; an unknown one its error; a blocked or skipped one nothing. */
  ghost predicate TellsCall(call: PreparedCall, run: ToolRun, limits: Limits, events: seq<EventPayload>) {
    match call.execution
    case Execute(_) =>
      events == [ToolCallStart(call.callId, call.toolName, call.arguments)] + EndEvents(call, run, limits)
    case Synthetic(_, missing) => events == if missing then [ErrorEvent(ToolNotFound(call.toolName))] else []
  }

  /** A serial batch tells its calls one after the other, each completely. */
  lemma {:induction false} SerialStory(calls: seq<PreparedCall>, runs: seq<ToolRun>, limits: Limits, k: nat, i: nat)
    requires i < k <= |calls| <= |runs|
    ensures SerialEvents(calls, runs, limits, 0) == []
    ensures exists events ::
              && TellsCall(calls[i], runs[i], limits, events)
              && SerialEvents(calls, runs, limits, i + 1) == SerialEvents(calls, runs, limits, i) + events
              && SerialEvents(calls, runs, limits, i + 1) <= SerialEvents(calls, runs, limits, k)
  {
    hide EndEvents;
    if i + 1 < k {
      SerialStory(calls, runs, limits, k - 1, i);
    } else {
      assert TellsCall(calls[i], runs[i], limits, CallEvents(calls[i], runs[i], limits));
    }
  }

  lemma CallBalanced(call: PreparedCall, run: ToolRun, limits: Limits)
    ensures Balanced(CallEvents(call, run, limits))
  {
    hide RunOutput, RunSucceeded;
    if call.execution.Execute? {
      var start, finish := StartEvent(call), EndEvents(call, run, limits);
      var error := ErrorOf(run, call.toolName);
      BalancedPair(start[0], error, finish[|error|]);
      assert start + finish == [start[0]] + error + [finish[|error|]];
    } else {
      QuietBalanced(CallEvents(call, run, limits));
    }
  }

  lemma BalancedPair(start: EventPayload, middle: seq<EventPayload>, end: EventPayload)
    requires start.ToolCallStart? && end.ToolCallEnd? && start.callId == end.callId
    requires forall i :: 0 <= i < |middle| ==> !middle[i].ToolCallStart? && !middle[i].ToolCallEnd?
    ensures Balanced([start] + middle + [end])
  {
    var all := [start] + middle + [end];
    forall id, k | 0 <= k <= |all| ensures OpenCalls(all[..k], id) ==
        if 0 < k < |all| && id == start.callId then 1 else 0 {
      if 0 < k < |all| {
        QuietOpen(middle[..k - 1], id);
        OpenConcat([start], middle[..k - 1], id);
        assert all[..k] == [start] + middle[..k - 1] && [start][..0] == [];
      } else if k == |all| {
        QuietOpen(middle, id);
        OpenConcat([start], middle, id);
        OpenConcat([start] + middle, [end], id);
        assert all[..k] == all && [start][..0] == [] && [end][..0] == [];
      }
    }
    assert all[..|all|] == all;
  }

  /** Serial batches end every call they start, wherever they stop. */
  lemma {:induction false} SerialBalanced(calls: seq<PreparedCall>, runs: seq<ToolRun>, limits: Limits, k: nat)
    requires k <= |calls| <= |runs|
    ensures Balanced(SerialEvents(calls, runs, limits, k))
  {
    hide Balanced, CallEvents;
    if k == 0 {
      QuietBalanced([]);
    } else {
      SerialBalanced(calls, runs, limits, k - 1);
      CallBalanced(calls[k - 1], runs[k - 1], limits);
      BalancedConcat(SerialEvents(calls, runs, limits, k - 1), CallEvents(calls[k - 1], runs[k - 1], limits));
    }
  }

  // ---------------------------------------------------------------- read-only batches

  /** Turns the result slots into an ordered list; an empty slot is an internal error. */
  method CollectOrderedResults(slots: seq<Option<Record>>) returns (r: Result<seq<Record>, AgentError>)
    ensures r.Ok? <==> forall i :: 0 <= i < |slots| ==> slots[i].Some?
    ensures r.Ok? ==> |r.value| == |slots| && forall i :: 0 <= i < |slots| ==> slots[i] == Some(r.value[i])
    ensures r.Err? ==> r.error == InternalPanic
  {
    var ordered: seq<Record> := [];
    for k := 0 to |slots|
      invariant |ordered| == k && forall i :: 0 <= i < k ==> slots[i] == Some(ordered[i])
    {
      if slots[k].None? {
        return Err(InternalPanic);
      }
      ordered := ordered + [slots[k].value];
    }
    r := Ok(ordered);
  }

  function Starts(calls: seq<PreparedCall>, k: nat): seq<EventPayload>
    requires k <= |calls|
  {
    if k == 0 then [] else Starts(calls, k - 1) + StartEvent(calls[k - 1])
  }

  ghost predicate InBounds(order: seq<nat>, n: nat) {
    forall x :: 0 <= x < |order| ==> order[x] < n
  }

  /** The ends, in the order in which the runs completed. */
  function Ends(calls: seq<PreparedCall>, runs: seq<ToolRun>, limits: Limits, order: seq<nat>): seq<EventPayload>
    requires |runs| == |calls| && InBounds(order, |calls|)
  {
    if order == [] then []
    else
      var last := order[|order| - 1];
      Ends(calls, runs, limits, order[..|order| - 1]) + EndEvents(calls[last], runs[last], limits)
  }

  ghost predicate Distinct(order: seq<nat>) {
    forall x, y :: 0 <= x < y < |order| ==> order[x] != order[y]
  }

  /** `order` lists calls that were executed and are no longer in flight, each once. */
  ghost predicate CompletedInOrder(calls: seq<PreparedCall>, order: seq<nat>, inFlight: set<nat>) {
    && Distinct(order) && InBounds(order, |calls|)
    && (forall x :: 0 <= x < |order| ==> order[x] !in inFlight && calls[order[x]].execution.Execute?)
    && (forall i :: 0 <= i < |calls| && calls[i].execution.Execute? && i !in inFlight ==> i in order)
  }

  /** Runs that ended, each started before and ended once; the last of them broke its hook's contract exactly when
      the batch failed. */
  ghost predicate EndedOnce(calls: seq<PreparedCall>, runs: seq<ToolRun>, order: seq<nat>, failed: bool)
    requires |runs| == |calls|
  {
    && Distinct(order) && InBounds(order, |calls|)
    && (forall x :: 0 <= x < |order| ==> calls[order[x]].execution.Execute?)
    && (forall x :: 0 <= x < |order| && runs[order[x]].after.AfterBroken? ==> failed && x == |order| - 1)
    && (failed ==> order != [] && runs[order[|order| - 1]].after.AfterBroken?)
  }

  /** The slots while `inFlight` is still running. */
  ghost predicate SlotsFilled(slots: seq<Option<Record>>, calls: seq<PreparedCall>, runs: seq<ToolRun>, limits: Limits,
                              inFlight: set<nat>)
    requires |runs| == |calls|
  {
    && |slots| == |calls|
    && (forall i :: 0 <= i < |calls| ==>
        slots[i] == if i in inFlight then None else Some(DoneRecord(calls[i], runs[i], limits)))
    && (forall i :: i in inFlight ==> i < |calls| && calls[i].execution.Execute?)
  }

  /** No completed run broke its hook's contract, and `stop` says whether one of them aborted. */
  ghost predicate Answers(runs: seq<ToolRun>, order: seq<nat>, stop: bool)
    requires InBounds(order, |runs|)
  {
    && (forall x :: 0 <= x < |order| ==> !runs[order[x]].after.AfterBroken?)
    && (stop <==> exists x :: 0 <= x < |order| && runs[order[x]].after.AbortedByPlugin?)
  }

  lemma FillOne(slots: seq<Option<Record>>, calls: seq<PreparedCall>, runs: seq<ToolRun>, limits: Limits,
                inFlight: set<nat>, i: nat)
    requires |runs| == |calls| && SlotsFilled(slots, calls, runs, limits, inFlight) && i in inFlight
    ensures i < |calls| == |slots| && calls[i].execution.Execute?
    ensures SlotsFilled(slots[i := Some(DoneRecord(calls[i], runs[i], limits))], calls, runs, limits, inFlight - {i})
  {
    hide DoneRecord;
  }

  lemma AllFilled(slots: seq<Option<Record>>, calls: seq<PreparedCall>, runs: seq<ToolRun>, limits: Limits)
    requires |runs| == |calls| && SlotsFilled(slots, calls, runs, limits, {})
    ensures |slots| == |calls| && forall i :: 0 <= i < |calls| ==>
              slots[i] == Some(DoneRecord(calls[i], runs[i], limits))
  {
    hide DoneRecord;
  }

  lemma CompleteOne(calls: seq<PreparedCall>, order: seq<nat>, inFlight: set<nat>, i: nat)
    requires CompletedInOrder(calls, order, inFlight) && i in inFlight && i < |calls| && calls[i].execution.Execute?
    ensures CompletedInOrder(calls, order + [i], inFlight - {i})
  {
    var order' := order + [i];
    assert order'[|order|] == i;
    assert forall x :: 0 <= x < |order| ==> order'[x] == order[x];
    forall k | 0 <= k < |calls| && calls[k].execution.Execute? && k !in inFlight - {i} ensures k in order' {
      assert k == i || k in order;
    }
  }

  lemma AnswerOne(runs: seq<ToolRun>, order: seq<nat>, stop: bool, i: nat)
    requires InBounds(order, |runs|) && Answers(runs, order, stop) && i < |runs| && !runs[i].after.AfterBroken?
    ensures InBounds(order + [i], |runs|) && Answers(runs, order + [i], stop || runs[i].after.AbortedByPlugin?)
  {
    var order' := order + [i];
    assert order'[|order|] == i;
    assert forall x :: 0 <= x < |order| ==> order'[x] == order[x];
  }

  lemma EndsSnoc(calls: seq<PreparedCall>, runs: seq<ToolRun>, limits: Limits, order: seq<nat>, i: nat)
    requires |runs| == |calls| && InBounds(order, |calls|) && i < |calls|
    ensures InBounds(order + [i], |calls|)
    ensures Ends(calls, runs, limits, order + [i]) == Ends(calls, runs, limits, order)
              + EndEvents(calls[i], runs[i], limits)
  {
    hide EndEvents;
    assert (order + [i])[..|order|] == order;
  }

  /** The parallel batch. The futures complete in any order; `order` is the one that happened. The outcome
      does not depend on it: one result per call in request order, a stop exactly when some AfterToolUse
      hook aborted, and an error exactly when some hook broke its contract. No result is ever lost. */
  method ExecuteReadOnlyBatch(runtime: SessionRuntime, batch: Batch, runs: seq<ToolRun>, cancel: CancelToken,
                              limits: Limits)
    returns (r: Result<Outcome, AgentError>, ghost cancelledBefore: bool, ghost order: seq<nat>)
    requires runtime.Numbered() && |runs| == |batch.calls|
    modifies runtime`eventSequence, runtime`sent, cancel
    ensures cancelledBefore == old(cancel.Due()) && (cancelledBefore ==> cancel.Fired())
    ensures old(cancel.Fired()) ==> cancel.Fired()
    ensures r.Ok? && !cancelledBefore ==> cancel.polls == old(cancel.polls) + 2
    ensures runtime.Numbered() && runtime.View() == old(runtime.View()) && old(runtime.sent) <= runtime.sent
    ensures r.Err? <==>
              && !cancelledBefore
              && exists i :: 0 <= i < |runs| && batch.calls[i].execution.Execute? && runs[i].after.AfterBroken?
    ensures r.Err? ==> r.error == ContractViolation
    ensures InBounds(order, |batch.calls|)
    ensures cancelledBefore ==>
              && runtime.sent == old(runtime.sent)
              && r.value == Outcome(NoticeRecords(batch.calls, CancelledNotice, limits), true, false)
    ensures !cancelledBefore ==>
              Payloads(runtime.sent) ==
                Payloads(old(runtime.sent))
                + Starts(batch.calls, |batch.calls|) + Ends(batch.calls, runs, limits, order)
    ensures !cancelledBefore && r.Ok? ==> ParallelOutcome(batch.calls, runs, limits, cancel.Fired(), order, r.value)
    ensures !cancelledBefore ==> EndedOnce(batch.calls, runs, order, r.Err?)
  {
    hide Payloads, DoneRecord, SessionRuntime.View, SessionRuntime.Numbered, NoticeRecords,
      CompletedInOrder, Answers, ParallelOutcome, SlotsFilled, Starts, Ends, InBounds, EndedOnce;
    var calls := batch.calls;
    order := [];
    PollSees(cancel, 1);
    var cancelled := cancel.Poll();
    PollSees(cancel, 0);
    cancelledBefore := cancelled;
    if cancelled {
      assert InBounds(order, |calls|) by {
        NothingCompleted([], [], limits, {});
        InBoundsGrows(order, 0, |calls|);
      }
      return Ok(Outcome(NoticeRecords(calls, CancelledNotice, limits), true, false)), cancelledBefore, order;
    }
    var slots, inFlight := StartAll(runtime, batch, runs, limits);
    var completed: Result<bool, AgentError>;
    completed, order := AwaitAll(runtime, calls, runs, limits, slots, inFlight);
    if completed.Err? {
      return Err(completed.error), cancelledBefore, order;
    }
    AllFilled(slots[..], calls, runs, limits);
    AllCompleted(calls, runs, order, completed.value);
    var collected := CollectOrderedResults(slots[..]);
    cancelled := cancel.Poll();
    ParallelDone(calls, runs, limits, cancelled, order, completed.value, collected.value);
    // Every slot is filled here, so the internal error of a lost result cannot come back.
    r := Ok(Outcome(collected.value, cancelled, completed.value));
  }

  /** Finalises the runs in flight as they complete; answers whether some AfterToolUse hook aborted. */
  method AwaitAll(runtime: SessionRuntime, calls: seq<PreparedCall>, runs: seq<ToolRun>, limits: Limits,
                  slots: array<Option<Record>>, started: set<nat>)
    returns (r: Result<bool, AgentError>, ghost order: seq<nat>)
    requires runtime.Numbered() && |runs| == |calls|
    requires SlotsFilled(slots[..], calls, runs, limits, started)
    requires forall i :: 0 <= i < |calls| && calls[i].execution.Execute? ==> i in started
    modifies runtime`eventSequence, runtime`sent, slots
    ensures runtime.Numbered() && runtime.View() == old(runtime.View()) && old(runtime.sent) <= runtime.sent
    ensures InBounds(order, |calls|) && EndedOnce(calls, runs, order, r.Err?)
    ensures Payloads(runtime.sent) == Payloads(old(runtime.sent)) + Ends(calls, runs, limits, order)
    ensures r.Ok? ==> SlotsFilled(slots[..], calls, runs, limits, {})
                      && CompletedInOrder(calls, order, {}) && Answers(runs, order, r.value)
    ensures r.Err? ==> r.error == ContractViolation
                       && exists i :: 0 <= i < |runs| && calls[i].execution.Execute? && runs[i].after.AfterBroken?
  {
    hide *;
    order := [];
    var inFlight, stop := started, false;
    AwaitStart(slots[..], calls, runs, limits, started);
    while inFlight != {}
      invariant runtime.Numbered() && runtime.View() == old(runtime.View()) && old(runtime.sent) <= runtime.sent
      invariant InBounds(order, |calls|) && Awaiting(slots[..], calls, runs, limits, inFlight, order, stop)
      invariant Payloads(runtime.sent) == Payloads(old(runtime.sent)) + Ends(calls, runs, limits, order)
      decreases inFlight
    {
      var index :| index in inFlight;
      AwaitStep(slots[..], calls, runs, limits, inFlight, order, stop, index);
      ghost var before, told := slots[..], Payloads(runtime.sent);
      var completed := FinalizeToolExecution(runtime, calls[index], runs[index], limits);
      order := order + [index];
      if completed.Err? {
        return Err(completed.error), order;
      }
      inFlight := inFlight - {index};
      stop := stop || completed.value.2;
      slots[index] := Some(completed.value.0);
      assert slots[..] == before[index := Some(completed.value.0)];
    }
    AwaitDone(slots[..], calls, runs, limits, order, stop);
    r := Ok(stop);
  }

  ghost predicate Awaiting(slots: seq<Option<Record>>, calls: seq<PreparedCall>, runs: seq<ToolRun>, limits: Limits,
                           inFlight: set<nat>, order: seq<nat>, stop: bool)
    requires |runs| == |calls|
  {
    && SlotsFilled(slots, calls, runs, limits, inFlight)
    && CompletedInOrder(calls, order, inFlight) && InBounds(order, |runs|) && Answers(runs, order, stop)
  }

  lemma AwaitStart(slots: seq<Option<Record>>, calls: seq<PreparedCall>, runs: seq<ToolRun>, limits: Limits,
                   started: set<nat>)
    requires |runs| == |calls| && SlotsFilled(slots, calls, runs, limits, started)
    requires forall i :: 0 <= i < |calls| && calls[i].execution.Execute? ==> i in started
    ensures InBounds([], |calls|) && Awaiting(slots, calls, runs, limits, started, [], false)
    ensures Ends(calls, runs, limits, []) == []
  {
    hide SlotsFilled;
    NothingCompleted(calls, runs, limits, started);
  }

  lemma AwaitDone(slots: seq<Option<Record>>, calls: seq<PreparedCall>, runs: seq<ToolRun>, limits: Limits,
                  order: seq<nat>, stop: bool)
    requires |runs| == |calls| && Awaiting(slots, calls, runs, limits, {}, order, stop)
    ensures InBounds(order, |calls|) && SlotsFilled(slots, calls, runs, limits, {})
    ensures CompletedInOrder(calls, order, {}) && Answers(runs, order, stop) && EndedOnce(calls, runs, order, false)
  {
    hide SlotsFilled, Answers, EndedOnce;
    EndsAs(calls, runs, order, {}, stop);
  }

  lemma AwaitStep(slots: seq<Option<Record>>, calls: seq<PreparedCall>, runs: seq<ToolRun>, limits: Limits,
                  inFlight: set<nat>, order: seq<nat>, stop: bool, index: nat)
    requires |runs| == |calls| && InBounds(order, |calls|)
    requires Awaiting(slots, calls, runs, limits, inFlight, order, stop) && index in inFlight
    ensures index < |calls| == |slots| && InBounds(order + [index], |calls|)
    ensures runs[index].after.AfterBroken? ==> EndedOnce(calls, runs, order + [index], true)
    ensures forall told :: (told + Ends(calls, runs, limits, order)) + EndEvents(calls[index], runs[index], limits)
                        == told + Ends(calls, runs, limits, order + [index])
    ensures if runs[index].after.AfterBroken? then
              exists k :: 0 <= k < |runs| && calls[k].execution.Execute? && runs[k].after.AfterBroken?
            else
              Awaiting(slots[index := Some(RunRecord(calls[index], runs[index], limits))], calls, runs, limits,
                       inFlight - {index}, order + [index], stop || runs[index].after.AbortedByPlugin?)
  {
    hide SlotsFilled, Answers, DoneRecord, RunRecord, CompletedInOrder, Ends, EndEvents, InBounds, EndedOnce;
    FillOne(slots, calls, runs, limits, inFlight, index);
    EndsAs(calls, runs, order, inFlight, stop);
    EndsBroken(calls, runs, order, inFlight, stop, index);
    EndsSnoc(calls, runs, limits, order, index);
    forall told: seq<EventPayload>
      ensures (told + Ends(calls, runs, limits, order)) + EndEvents(calls[index], runs[index], limits)
           == told + Ends(calls, runs, limits, order + [index])
    {
    }
    if runs[index].after.AfterBroken? {
      BrokenSomewhere(calls, runs, index);
    } else {
      CompleteOne(calls, order, inFlight, index);
      AnswerOne(runs, order, stop, index);
      ExecutedRecord(calls[index], runs[index], limits);
    }
  }

  lemma EndsAs(calls: seq<PreparedCall>, runs: seq<ToolRun>, order: seq<nat>, inFlight: set<nat>, stop: bool)
    requires |runs| == |calls| && CompletedInOrder(calls, order, inFlight)
    requires InBounds(order, |runs|) && Answers(runs, order, stop)
    ensures EndedOnce(calls, runs, order, false)
  {
  }

  lemma EndsBroken(calls: seq<PreparedCall>, runs: seq<ToolRun>, order: seq<nat>, inFlight: set<nat>, stop: bool,
                   index: nat)
    requires |runs| == |calls| && CompletedInOrder(calls, order, inFlight)
    requires InBounds(order, |runs|) && Answers(runs, order, stop)
    requires index in inFlight && index < |calls| && calls[index].execution.Execute?
    ensures runs[index].after.AfterBroken? ==> EndedOnce(calls, runs, order + [index], true)
  {
    var longer := order + [index];
    assert longer[|order|] == index;
    assert forall x :: 0 <= x < |order| ==> longer[x] == order[x];
  }

  lemma InBoundsGrows(order: seq<nat>, m: nat, n: nat)
    requires InBounds(order, m) && m <= n
    ensures InBounds(order, n)
  {
  }

  ghost predicate ParallelOutcome(calls: seq<PreparedCall>, runs: seq<ToolRun>, limits: Limits, cancelledAfter: bool,
                                  order: seq<nat>, outcome: Outcome)
    requires |runs| == |calls|
  {
    && |outcome.results| == |calls|
    && (forall i :: 0 <= i < |calls| ==> outcome.results[i] == DoneRecord(calls[i], runs[i], limits))
    && outcome.cancelled == cancelledAfter
    && (outcome.stopAfterBatch <==>
        exists i :: 0 <= i < |runs| && calls[i].execution.Execute? && runs[i].after.AbortedByPlugin?)
    && CompletedInOrder(calls, order, {})
  }

  lemma NothingCompleted(calls: seq<PreparedCall>, runs: seq<ToolRun>, limits: Limits, inFlight: set<nat>)
    requires |runs| == |calls|
    requires forall i :: 0 <= i < |calls| && calls[i].execution.Execute? ==> i in inFlight
    ensures InBounds([], |calls|) && InBounds([], |runs|)
    ensures CompletedInOrder(calls, [], inFlight) && Answers(runs, [], false) && Ends(calls, runs, limits, []) == []
  {
  }

  lemma AllCompleted(calls: seq<PreparedCall>, runs: seq<ToolRun>, order: seq<nat>, stop: bool)
    requires |runs| == |calls| && InBounds(order, |calls|) && CompletedInOrder(calls, order, {})
              && Answers(runs, order, stop)
    ensures !exists i :: 0 <= i < |runs| && calls[i].execution.Execute? && runs[i].after.AfterBroken?
    ensures stop <==> exists i :: 0 <= i < |runs| && calls[i].execution.Execute? && runs[i].after.AbortedByPlugin?
  {
    forall i | 0 <= i < |runs| && calls[i].execution.Execute?
      ensures exists x :: 0 <= x < |order| && order[x] == i
    {
      assert i in order;
    }
  }

  lemma ParallelDone(calls: seq<PreparedCall>, runs: seq<ToolRun>, limits: Limits, cancelledAfter: bool,
                     order: seq<nat>, stop: bool, records: seq<Record>)
    requires |runs| == |calls| == |records| && InBounds(order, |calls|) && CompletedInOrder(calls, order, {})
    requires stop <==> exists i :: 0 <= i < |runs| && calls[i].execution.Execute? && runs[i].after.AbortedByPlugin?
    requires forall i :: 0 <= i < |calls| ==> records[i] == DoneRecord(calls[i], runs[i], limits)
    ensures ParallelOutcome(calls, runs, limits, cancelledAfter, order, Outcome(records, cancelledAfter, stop))
  {
    hide DoneRecord, CompletedInOrder;
  }

  /** A broken hook of any executed run is an executed run's broken hook. */
  lemma BrokenSomewhere(calls: seq<PreparedCall>, runs: seq<ToolRun>, i: nat)
    requires |runs| == |calls| && i < |calls| && calls[i].execution.Execute? && runs[i].after.AfterBroken?
    ensures exists k :: 0 <= k < |runs| && calls[k].execution.Execute? && runs[k].after.AfterBroken?
  {
  }

  lemma ExecutedRecord(call: PreparedCall, run: ToolRun, limits: Limits)
    requires call.execution.Execute?
    ensures DoneRecord(call, run, limits) == RunRecord(call, run, limits)
  {
  }

  /** Fixes the synthetic results and starts every executable call, in request order. */
  method StartAll(runtime: SessionRuntime, batch: Batch, ghost runs: seq<ToolRun>, ghost limits: Limits)
    returns (slots: array<Option<Record>>, inFlight: set<nat>)
    requires runtime.Numbered() && |runs| == |batch.calls|
    modifies runtime`eventSequence, runtime`sent
    ensures runtime.Numbered() && runtime.View() == old(runtime.View()) && old(runtime.sent) <= runtime.sent
    ensures fresh(slots) && SlotsFilled(slots[..], batch.calls, runs, limits, inFlight)
    ensures forall i :: 0 <= i < |batch.calls| && batch.calls[i].execution.Execute? ==> i in inFlight
    ensures Payloads(runtime.sent) == Payloads(old(runtime.sent)) + Starts(batch.calls, |batch.calls|)
  {
    hide *;
    var calls := batch.calls;
    slots := new Option<Record>[|calls|](_ => None);
    inFlight := {};
    StartNone(slots[..], calls, runs, limits);
    for index := 0 to |calls|
      invariant runtime.Numbered() && runtime.View() == old(runtime.View()) && old(runtime.sent) <= runtime.sent
      invariant fresh(slots) && slots.Length == |calls|
      invariant Starting(slots[..], calls, runs, limits, inFlight, index)
      invariant Payloads(runtime.sent) == Payloads(old(runtime.sent)) + Starts(calls, index)
    {
      StartStep(slots[..], calls, runs, limits, inFlight, index);
      ghost var before := slots[..];
      match calls[index].execution
      case Synthetic(record, missing) =>
        if missing {
          Tell(runtime, ErrorEvent(ToolNotFound(calls[index].toolName)));
        }
        slots[index] := Some(record);
        assert slots[..] == before[index := Some(record)];
      case Execute(_) =>
        Tell(runtime, ToolCallStart(calls[index].callId, calls[index].toolName, calls[index].arguments));
        inFlight := inFlight + {index};
    }
    StartDone(slots[..], calls, runs, limits, inFlight);
  }

  /** The slots when the first `k` calls have been started or settled. */
  ghost predicate Starting(slots: seq<Option<Record>>, calls: seq<PreparedCall>, runs: seq<ToolRun>, limits: Limits,
                           inFlight: set<nat>, k: nat)
    requires |runs| == |calls| && k <= |calls|
  {
    && |slots| == |calls|
    && (forall i :: 0 <= i < k ==>
        slots[i] == if calls[i].execution.Execute? then None else Some(DoneRecord(calls[i], runs[i], limits)))
    && (forall i :: k <= i < |calls| ==> slots[i] == None)
    && (forall i :: i in inFlight <==> 0 <= i < k && calls[i].execution.Execute?)
  }

  lemma StartNone(slots: seq<Option<Record>>, calls: seq<PreparedCall>, runs: seq<ToolRun>, limits: Limits)
    requires |runs| == |calls| == |slots| && forall i :: 0 <= i < |slots| ==> slots[i] == None
    ensures Starting(slots, calls, runs, limits, {}, 0) && Starts(calls, 0) == []
  {
  }

  lemma StartStep(slots: seq<Option<Record>>, calls: seq<PreparedCall>, runs: seq<ToolRun>, limits: Limits,
                  inFlight: set<nat>, k: nat)
    requires |runs| == |calls| && k < |calls| && Starting(slots, calls, runs, limits, inFlight, k)
    ensures match calls[k].execution
      case Execute(_) =>
        && Starting(slots, calls, runs, limits, inFlight + {k}, k + 1)
        && (forall told ::
              told + Starts(calls, k) + [ToolCallStart(calls[k].callId, calls[k].toolName, calls[k].arguments)]
                           == told + Starts(calls, k + 1))
      case Synthetic(record, missing) =>
        && |slots| == |calls| && Starting(slots[k := Some(record)], calls, runs, limits, inFlight, k + 1)
        && (forall told ::
              told + Starts(calls, k) + (if missing then [ErrorEvent(ToolNotFound(calls[k].toolName))] else [])
                           == told + Starts(calls, k + 1))
        && (!missing ==> Starts(calls, k) == Starts(calls, k + 1))
  {
    hide RunRecord;
  }

  lemma StartDone(slots: seq<Option<Record>>, calls: seq<PreparedCall>, runs: seq<ToolRun>, limits: Limits,
                  inFlight: set<nat>)
    requires |runs| == |calls| && Starting(slots, calls, runs, limits, inFlight, |calls|)
    ensures SlotsFilled(slots, calls, runs, limits, inFlight)
    ensures forall i :: 0 <= i < |calls| && calls[i].execution.Execute? ==> i in inFlight
  {
    hide DoneRecord;
  }

  /** A parallel batch tells the starts of all its calls in request order, then the ends in completion order. */
  lemma ParallelStory(calls: seq<PreparedCall>, runs: seq<ToolRun>, limits: Limits, order: seq<nat>, i: nat, x: nat)
    requires |runs| == |calls| && InBounds(order, |calls|)
    ensures Starts(calls, 0) == [] && Ends(calls, runs, limits, []) == []
    ensures i < |calls| ==>
              && Starts(calls, i + 1) == Starts(calls, i) + match calls[i].execution
                   case Execute(_) => [ToolCallStart(calls[i].callId, calls[i].toolName, calls[i].arguments)]
                   case Synthetic(_, missing) => if missing then [ErrorEvent(ToolNotFound(calls[i].toolName))] else []
    ensures x < |order| ==>
              && InBounds(order[..x], |calls|) && InBounds(order[..x + 1], |calls|)
              && Ends(calls, runs, limits, order[..x + 1])
                 == Ends(calls, runs, limits, order[..x]) + EndEvents(calls[order[x]], runs[order[x]], limits)
  {
    hide EndEvents;
    if x < |order| {
      assert order[..x + 1][..x] == order[..x];
    }
  }

  // ---------------------------------------------------------------- balance of a parallel batch

  ghost function WithId(calls: seq<PreparedCall>, positions: set<nat>, id: string): set<nat> {
    set i | i in positions && i < |calls| && calls[i].callId == id
  }

  ghost function ExecutedBelow(calls: seq<PreparedCall>, k: nat): set<nat>
    requires k <= |calls|
  {
    set i: nat | i < k && calls[i].execution.Execute?
  }

  lemma StartOne(call: PreparedCall, id: string)
    ensures OpenCalls(StartEvent(call), id) == if call.execution.Execute? && call.callId == id then 1 else 0
  {
    assert StartEvent(call) != [] ==> StartEvent(call)[..0] == [];
  }

  lemma BelowNext(calls: seq<PreparedCall>, k: nat, id: string)
    requires k < |calls|
    ensures ExecutedBelow(calls, 0) == {} && WithId(calls, {}, id) == {}
    ensures k !in WithId(calls, ExecutedBelow(calls, k), id)
    ensures WithId(calls, ExecutedBelow(calls, k + 1), id)
         == WithId(calls, ExecutedBelow(calls, k), id) +
             if calls[k].execution.Execute? && calls[k].callId == id then {k} else {}
  {
  }

  lemma {:induction false} StartsOpen(calls: seq<PreparedCall>, k: nat, id: string)
    requires k <= |calls|
    ensures OpenCalls(Starts(calls, k), id) == |WithId(calls, ExecutedBelow(calls, k), id)|
  {
    hide StartEvent, OpenCalls;
    if k == 0 {
      QuietOpen([], id);
      assert WithId(calls, ExecutedBelow(calls, 0), id) == {};
    } else {
      hide ExecutedBelow, WithId;
      StartsOpen(calls, k - 1, id);
      OpenConcat(Starts(calls, k - 1), StartEvent(calls[k - 1]), id);
      StartOne(calls[k - 1], id);
      BelowNext(calls, k - 1, id);
    }
  }

  ghost function Elements(order: seq<nat>): set<nat> {
    set i | i in order
  }

  lemma ElementsSnoc(order: seq<nat>)
    requires order != [] && Distinct(order)
    ensures Elements(order) == Elements(order[..|order| - 1]) + {order[|order| - 1]}
    ensures order[|order| - 1] !in Elements(order[..|order| - 1])
  {
    assert order == order[..|order| - 1] + [order[|order| - 1]];
  }

  lemma EndsOne(call: PreparedCall, run: ToolRun, limits: Limits, id: string)
    ensures OpenCalls(EndEvents(call, run, limits), id) == if call.callId == id then -1 else 0
  {
    hide RunOutput, RunSucceeded;
    var events := EndEvents(call, run, limits);
    QuietOpen(ErrorOf(run, call.toolName), id);
    assert events[..|events| - 1] == ErrorOf(run, call.toolName);
  }

  lemma {:induction false} EndsOpen(calls: seq<PreparedCall>, runs: seq<ToolRun>, limits: Limits, order: seq<nat>,
                                    id: string)
    requires |runs| == |calls| && Distinct(order) && InBounds(order, |calls|)
    ensures OpenCalls(Ends(calls, runs, limits, order), id) == -|WithId(calls, Elements(order), id)|
  {
    hide EndEvents, OpenCalls;
    if order == [] {
      QuietOpen([], id);
      assert WithId(calls, Elements(order), id) == {};
    } else {
      var init, last := order[..|order| - 1], order[|order| - 1];
      ElementsSnoc(order);
      EndsOpen(calls, runs, limits, init, id);
      OpenConcat(Ends(calls, runs, limits, init), EndEvents(calls[last], runs[last], limits), id);
      EndsOne(calls[last], runs[last], limits, id);
      var before := WithId(calls, Elements(init), id);
      if calls[last].callId == id {
        assert WithId(calls, Elements(order), id) == before + {last};
      } else {
        assert WithId(calls, Elements(order), id) == before;
      }
    }
  }

  lemma {:induction false} OnlyStarts(calls: seq<PreparedCall>, k: nat)
    requires k <= |calls|
    ensures forall i :: 0 <= i < |Starts(calls, k)| ==> !Starts(calls, k)[i].ToolCallEnd?
  {
    if k > 0 {
      OnlyStarts(calls, k - 1);
    }
  }

  lemma {:induction false} OnlyEnds(calls: seq<PreparedCall>, runs: seq<ToolRun>, limits: Limits, order: seq<nat>)
    requires |runs| == |calls| && InBounds(order, |calls|)
    ensures forall i :: 0 <= i < |Ends(calls, runs, limits, order)| ==>
              !Ends(calls, runs, limits, order)[i].ToolCallStart?
  {
    hide RunOutput, RunSucceeded;
    if order != [] {
      OnlyEnds(calls, runs, limits, order[..|order| - 1]);
    }
  }

  lemma {:induction false} NoEndsOpen(events: seq<EventPayload>, id: string)
    requires forall i :: 0 <= i < |events| ==> !events[i].ToolCallEnd?
    ensures OpenCalls(events, id) >= 0
  {
    if events != [] {
      NoEndsOpen(events[..|events| - 1], id);
    }
  }

  lemma {:induction false} NoStartsOpen(events: seq<EventPayload>, id: string)
    requires forall i :: 0 <= i < |events| ==> !events[i].ToolCallStart?
    ensures OpenCalls(events, id) <= 0
  {
    if events != [] {
      NoStartsOpen(events[..|events| - 1], id);
    }
  }

  /** A parallel batch ends every call it started, in whatever order the runs complete. */
  lemma ParallelBalanced(calls: seq<PreparedCall>, runs: seq<ToolRun>, limits: Limits, order: seq<nat>)
    requires |runs| == |calls| && InBounds(order, |calls|) && CompletedInOrder(calls, order, {})
    ensures Balanced(Starts(calls, |calls|) + Ends(calls, runs, limits, order))
  {
    hide Starts, Ends, OpenCalls;
    var starts, ends := Starts(calls, |calls|), Ends(calls, runs, limits, order);
    var all := starts + ends;
    OnlyStarts(calls, |calls|);
    OnlyEnds(calls, runs, limits, order);
    assert Elements(order) == ExecutedBelow(calls, |calls|);
    forall id ensures OpenCalls(all, id) == 0 {
      StartsOpen(calls, |calls|, id);
      EndsOpen(calls, runs, limits, order, id);
      OpenConcat(starts, ends, id);
    }
    forall id, k | 0 <= k <= |all| ensures OpenCalls(all[..k], id) >= 0 {
      if k <= |starts| {
        assert forall i :: 0 <= i < k ==> all[..k][i] == starts[i];
        NoEndsOpen(all[..k], id);
      } else {
        var rest := all[k..];
        assert forall i :: 0 <= i < |rest| ==> rest[i] == ends[k - |starts| + i];
        NoStartsOpen(rest, id);
        OpenConcat(all[..k], rest, id);
        assert all[..k] + rest == all;
      }
    }
  }
}
