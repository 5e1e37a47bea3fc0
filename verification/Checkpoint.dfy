/** Incremental memory extraction: which events each extraction reads, and what the checkpoint then covers
    (src/application/memory_manager.rs, src/application/session_service.rs). */
module Checkpoint {
  import opened Domain
  import opened Text
  import opened Ledger
  import opened Context
  import opened Runtime
  import opened Resume
  import opened Memory

  // ---------------------------------------------------------------- the window of one extraction

  function IncrementalEventsAfter(events: seq<LedgerEvent>, after: nat): seq<LedgerEvent> {
    if events == [] then []
    else
      var last := events[|events| - 1];
      IncrementalEventsAfter(events[..|events| - 1], after) + if last.seqNo > after then [last] else []
  }

  /** The window is everything above the checkpoint, compacted or not, and nothing else; it ends with the
      number the checkpoint will take. */
  lemma {:induction false} WindowMeaning(events: seq<LedgerEvent>, after: nat)
    ensures forall e :: e in IncrementalEventsAfter(events, after) <==> e in events && e.seqNo > after
    ensures LastAfter(events, after).Some? <==> IncrementalEventsAfter(events, after) != []
    ensures LastAfter(events, after).Some? ==>
              var window := IncrementalEventsAfter(events, after);
              LastAfter(events, after).value == window[|window| - 1].seqNo > after
  {
    if events != [] {
      var init, last := events[..|events| - 1], events[|events| - 1];
      WindowMeaning(init, after);
      assert events == init + [last];
    }
  }

  /** In a sorted ledger the window is its end, event by event. */
  lemma {:induction false} WindowIsSuffix(events: seq<LedgerEvent>, after: nat) returns (k: nat)
    requires Sorted(events)
    ensures k <= |events| && IncrementalEventsAfter(events, after) == events[k..]
  {
    if events == [] {
      return 0;
    }
    var init, last := events[..|events| - 1], events[|events| - 1];
    if last.seqNo > after {
      k := WindowIsSuffix(init, after);
      assert events[k..] == init[k..] + [last];
    } else {
      k := |events|;
      WindowMeaning(init, after);
      assert IncrementalEventsAfter(events, after) == [];
    }
  }

  /** The line of one event; `body` is what follows the opening. Metadata has none. */
  function RenderLedgerEvent(event: LedgerEvent, body: LedgerEvent -> string): Option<string> {
    if event.payload.Metadata? then None else Some("[seq:" + body(event))
  }

  function RenderIncrementalEvents(events: seq<LedgerEvent>, body: LedgerEvent -> string): string {
    if events == [] then ""
    else
      var init, line := RenderIncrementalEvents(events[..|events| - 1], body),
          RenderLedgerEvent(events[|events| - 1], body);
      if line.None? then init else if init == "" then line.value else init + "\n" + line.value
  }

  /** Nothing is left to extract exactly when the window holds metadata only. */
  lemma {:induction false} BlankWindow(events: seq<LedgerEvent>, body: LedgerEvent -> string)
    ensures IsBlank(RenderIncrementalEvents(events, body)) <==> forall e :: e in events ==> e.payload.Metadata?
    ensures RenderIncrementalEvents(events, body) == "" <==> forall e :: e in events ==> e.payload.Metadata?
  {
    if events != [] {
      var init, last := events[..|events| - 1], events[|events| - 1];
      BlankWindow(init, body);
      assert events == init + [last];
      var all := RenderIncrementalEvents(events, body);
      if last.payload.Metadata? {
        assert all == RenderIncrementalEvents(init, body);
      } else {
        var at := |all| - |RenderLedgerEvent(last, body).value|;
        assert all[at] == '[' && all[at] in all;
      }
    }
  }

  /** The rendered window is the lines of its messages in ledger order, separated by newlines: one message gives its
      line, and a window in two parts the text of both. */
  lemma RenderOne(event: LedgerEvent, body: LedgerEvent -> string)
    ensures RenderIncrementalEvents([event], body) == if event.payload.Metadata? then "" else "[seq:" + body(event)
    ensures RenderIncrementalEvents([], body) == ""
  {
    assert [event][..0] == [];
  }

  lemma {:induction false} RenderJoin(a: seq<LedgerEvent>, b: seq<LedgerEvent>, body: LedgerEvent -> string)
    ensures
      var first, second := RenderIncrementalEvents(a, body), RenderIncrementalEvents(b, body);
      RenderIncrementalEvents(a + b, body) ==
        if first == "" then second else if second == "" then first else first + "\n" + second
    decreases |b|
  {
    if b == [] {
      assert a + b == a;
    } else {
      var init, line := b[..|b| - 1], RenderLedgerEvent(b[|b| - 1], body);
      assert (a + b)[..|a + b| - 1] == a + init;
      RenderJoin(a, init, body);
      JoinedOnce(RenderIncrementalEvents(a, body), RenderIncrementalEvents(init, body), line);
    }
  }

  lemma JoinedOnce(first: string, init: string, line: Option<string>)
    ensures line.Some? && first != "" && init != "" ==>
              (first + "\n" + init) + "\n" + line.value == first + "\n" + (init + "\n" + line.value)
  {
  }

  /** The text has this line, as a whole line. */
  ghost predicate LineStands(text: string, line: string) {
    exists before, after :: StandsBetween(text, before, line, after)
  }

  ghost predicate StandsBetween(text: string, before: string, line: string, after: string) {
    && text == before + line + after
    && (before == "" || before[|before| - 1] == '\n') && (after == "" || after[0] == '\n')
  }

  lemma LinesJoin(first: string, second: string, line: string)
    requires LineStands(first, line) || LineStands(second, line)
    ensures LineStands(first + "\n" + second, line)
  {
    if LineStands(first, line) {
      var before, after :| StandsBetween(first, before, line, after);
      FirstStands(first, second, before, line, after);
    } else {
      var before, after :| StandsBetween(second, before, line, after);
      SecondStands(first, second, before, line, after);
    }
  }

  lemma FirstStands(first: string, second: string, before: string, line: string, after: string)
    requires StandsBetween(first, before, line, after)
    ensures LineStands(first + "\n" + second, line)
  {
    var rest := after + ("\n" + second);
    assert first + "\n" + second == before + line + rest;
    assert StandsBetween(first + "\n" + second, before, line, rest);
  }

  lemma SecondStands(first: string, second: string, before: string, line: string, after: string)
    requires StandsBetween(second, before, line, after)
    ensures LineStands(first + "\n" + second, line)
  {
    var head := first + "\n" + before;
    assert first + "\n" + second == head + line + after;
    assert StandsBetween(first + "\n" + second, head, line, after);
  }

  lemma WholeLine(line: string)
    ensures LineStands(line, line)
  {
    assert StandsBetween(line, "", line, "");
  }

  /** Every message of a window stands in its text with its own line. */
  lemma {:induction false} EveryLineStands(events: seq<LedgerEvent>, i: nat, body: LedgerEvent -> string)
    requires i < |events| && !events[i].payload.Metadata?
    ensures LineStands(RenderIncrementalEvents(events, body), "[seq:" + body(events[i]))
  {
    hide LineStands;
    var n, line := |events| - 1, "[seq:" + body(events[i]);
    var init := RenderIncrementalEvents(events[..n], body);
    WholeLine(line);
    if i < n {
      EveryLineStands(events[..n], i, body);
      assert events[..n][i] in events[..n];
      BlankWindow(events[..n], body);
      if !events[n].payload.Metadata? {
        LinesJoin(init, "[seq:" + body(events[n]), line);
      }
    } else if init != "" {
      LinesJoin(init, line, line);
    }
  }

  /** The text puts every message of the window before the model. */
  ghost predicate Shows(text: string, window: seq<LedgerEvent>, body: LedgerEvent -> string) {
    forall e :: e in window && !e.payload.Metadata? ==> LineStands(text, "[seq:" + body(e))
  }

  lemma RenderedShows(window: seq<LedgerEvent>, body: LedgerEvent -> string)
    ensures Shows(RenderIncrementalEvents(window, body), window, body)
  {
    hide LineStands, RenderIncrementalEvents;
    forall e | e in window && !e.payload.Metadata?
      ensures LineStands(RenderIncrementalEvents(window, body), "[seq:" + body(e))
    {
      var i :| 0 <= i < |window| && window[i] == e;
      EveryLineStands(window, i, body);
    }
  }

  /** What the extraction model answers: its stream may fail or be cancelled, its output may not parse. */
  datatype ExtractionAnswer = Operations(ops: seq<Operation>) | NotJson | StreamFailed | StreamCancelled

  /** One extraction. It answers the new boundary, or nothing when nothing is new. `asked` is the text put before
      the extraction model: exactly the rendered window, in which every message of it stands, and nothing at all when
      it holds no message. It fails only if the memories cannot be listed, the model's stream fails, is cancelled or
      is not valid, or the storage refuses one of its operations. The storage is touched only by these. */
  method ExtractIncremental(storage: MemoryStorage, namespace: string, source: string, ledger: SessionLedger,
                            lastCheckpointSeq: nat, body: LedgerEvent -> string, listed: Option<seq<Memory>>,
                            answer: ExtractionAnswer, draws: seq<Draw>)
    returns (r: Result<Option<nat>, AgentError>, ghost completed: nat, ghost asked: Option<string>)
    requires KeyedById(storage.memories)
    requires listed.Some? ==> Lists(listed.value, InNamespace(storage.memories, namespace))
    requires answer.Operations? ==> |draws| == |answer.ops| && Fresh(draws, storage.memories)
    modifies storage
    ensures r.Ok? ==> r.value == LastAfter(ledger.events, lastCheckpointSeq)
    ensures
      var window := IncrementalEventsAfter(ledger.events, lastCheckpointSeq);
      asked == if listed.None? || forall e :: e in window ==> e.payload.Metadata? then None
               else Some(RenderIncrementalEvents(window, body))
    ensures asked.Some? ==> Shows(asked.value, IncrementalEventsAfter(ledger.events, lastCheckpointSeq), body)
    ensures KeyedById(storage.memories)
    ensures var quiet := forall e :: e in ledger.events && e.seqNo > lastCheckpointSeq ==> e.payload.Metadata?;
      && (quiet ==> r.Ok? && storage.memories == old(storage.memories))
      && (!quiet && listed.None? ==> r == Err(StorageError))
      && (!quiet && listed.Some? && (answer.NotJson? || answer.StreamFailed?) ==> r == Err(ProviderError))
      && (!quiet && listed.Some? && answer.StreamCancelled? ==> r == Err(Cancelled))
      && (!quiet && listed.Some? && answer.Operations? ==>
            && (r.Ok? <==> completed == |answer.ops|)
            && (r.Err? ==>
                  r.error == StorageError && old(storage.attempts) < storage.attempts && storage.Refused()))
      && (storage.memories != old(storage.memories) ==>
            && answer.Operations? && completed <= |answer.ops|
            && InNamespace(storage.memories, namespace)
               == AppliedAll(InNamespace(old(storage.memories), namespace), answer.ops[..completed], namespace, source,
                             draws[..completed]))
    ensures OtherNamespaces(storage.memories, namespace) == OtherNamespaces(old(storage.memories), namespace)
  {
    hide InNamespace, OtherNamespaces, AppliedAll, Lists, Fresh, KeyedById, RenderIncrementalEvents,
        IncrementalEventsAfter, LastAfter, IsBlank, Shows, MemoryStorage.Refused;
    completed, asked := 0, None;
    var window := IncrementalEventsAfter(ledger.events, lastCheckpointSeq);
    WindowMeaning(ledger.events, lastCheckpointSeq);
    if window == [] {
      return Ok(None), completed, asked;
    }
    var lastSeq := window[|window| - 1].seqNo;
    BlankWindow(window, body);
    var rendered := RenderIncrementalEvents(window, body);
    if IsBlank(rendered) {
      return Ok(Some(lastSeq)), completed, asked;
    }
    assert exists e :: e in window && !e.payload.Metadata?;
    if listed.None? {
      return Err(StorageError), completed, asked;
    }
    asked := Some(rendered);
    RenderedShows(window, body);
    match answer {
      case StreamFailed => return Err(ProviderError), completed, asked;
      case StreamCancelled => return Err(Cancelled), completed, asked;
      case NotJson => return Err(ProviderError), completed, asked;
      case Operations(ops) =>
        var applied;
        applied, completed := ApplyMemoryOperations(storage, namespace, source, listed.value, ops, draws);
        if applied.Err? {
          return Err(applied.error), completed, asked;
        }
        return Ok(Some(lastSeq)), completed, asked;
    }
  }

  // ---------------------------------------------------------------- whole runs

  /** A successful extraction: what it read, and whether its checkpoint was then stored. */
  datatype Window = Window(events: seq<LedgerEvent>, saved: bool)

  datatype State = State(live: RuntimeState, windows: seq<Window>)

  datatype Step =
    | Wrote(payload: Payload)
    | Allocated
    | NotExtracted
    | Extracted(saved: bool)
    | Reopened

  function CheckpointPayload(rt: RuntimeState): Payload
    requires LastAfter(rt.events, rt.checkpointSeq).Some?
  {
    Metadata(MemoryCheckpointKey, CheckpointValue(LastAfter(rt.events, rt.checkpointSeq).value))
  }

  /** An extraction that fails, is cancelled, times out or finds nothing new changes nothing here; a stored
      checkpoint is the newest event; a refused one is only logged. */
  ghost predicate Steps(s: State, step: Step, s': State, agent: AgentDefaults) {
    match step
    case Wrote(payload) =>
      && Writable(World(s.live, s.live.events), payload) && !(payload.Metadata? && payload.key == MemoryCheckpointKey)
      && s' == s.(live := Append(s.live, payload))
    case Allocated => s' == s.(live := s.live.(turnIndex := SaturatingInc(s.live.turnIndex)))
    case NotExtracted => s' == s
    case Extracted(saved) =>
      && LastAfter(s.live.events, s.live.checkpointSeq).Some?
      && s' == State(if saved then Append(s.live, CheckpointPayload(s.live)) else s.live,
                     s.windows + [Window(IncrementalEventsAfter(s.live.events, s.live.checkpointSeq), saved)])
    case Reopened => Restore(s.live.events, agent).Ok? && s' == s.(live := Restore(s.live.events, agent).value)
  }

  /** The windows after a step: one more when an extraction succeeded. */
  function WindowsAfter(rt: RuntimeState, windows: seq<Window>, step: Step): seq<Window> {
    if step.Extracted? then windows + [Window(IncrementalEventsAfter(rt.events, rt.checkpointSeq), step.saved)]
    else windows
  }

  /** One step of a run that starts with these windows. */
  ghost predicate Leads(rt: RuntimeState, windows: seq<Window>, step: Step, rt': RuntimeState, agent: AgentDefaults) {
    Steps(State(rt, windows), step, State(rt', WindowsAfter(rt, windows, step)), agent)
  }

  /** The extraction at a close: extracts, then stores the checkpoint. It is a step of a run: the model was shown
      exactly the window the step records, and the step says whether the checkpoint was stored. A timed-out
      extraction may have applied some operations; its boundary is ignored. `available` tells whether there is a
      memory storage and a provider for the memory model. */
  method CloseExtraction(runtime: SessionRuntime, sessions: SessionStorage, memories: MemoryStorage, source: string,
                         body: LedgerEvent -> string, available: bool, listed: Option<seq<Memory>>,
                         answer: ExtractionAnswer, draws: seq<Draw>, timedOut: bool, ghost windows: seq<Window>,
                         ghost agent: AgentDefaults)
    returns (ghost step: Step, ghost asked: Option<string>, ghost completed: nat)
    requires KeyedById(memories.memories)
    requires listed.Some? ==> Lists(listed.value, InNamespace(memories.memories, runtime.memoryNamespace))
    requires answer.Operations? ==> |draws| == |answer.ops| && Fresh(draws, memories.memories)
    modifies runtime`lastMemoryCheckpointSeq, runtime.ledger, runtime.contextManager, sessions, memories
    ensures step == NotExtracted || step.Extracted?
    ensures Leads(old(runtime.View()), windows, step, runtime.View(), agent)
    ensures
      var before := old(runtime.View());
      var window := IncrementalEventsAfter(before.events, before.checkpointSeq);
      && (asked.Some? ==> asked.value == RenderIncrementalEvents(window, body) && Shows(asked.value, window, body))
      && (step.Extracted? <==>
            && available && !timedOut && LastAfter(before.events, before.checkpointSeq).Some?
            && (|| (forall e :: e in window ==> e.payload.Metadata?)
                || (asked.Some? && answer.Operations? && completed == |answer.ops|)))
      && (step.Extracted? ==> step.saved == !sessions.Refused())
      && (available && listed.Some? && answer.Operations? && asked.Some? && completed < |answer.ops| ==>
            memories.Refused())
    ensures
      var before := old(runtime.View());
      sessions.saved == old(sessions.saved) +
        if step == Extracted(true) then [LedgerEvent(before.nextSeq, CheckpointPayload(before))] else []
    ensures KeyedById(memories.memories)
  {
    hide InNamespace, OtherNamespaces, AppliedAll, Lists, Fresh, KeyedById, RenderIncrementalEvents, LastAfter, IsBlank,
      IncrementalEventsAfter, Rebuilt, Shows, MemoryStorage.Refused;
    ghost var before := runtime.View();
    step, asked, completed := NotExtracted, None, 0;
    if !available {
      return;
    }
    WindowMeaning(before.events, before.checkpointSeq);
    var extracted;
    extracted, completed, asked := ExtractIncremental(memories, runtime.memoryNamespace, source, runtime.ledger,
      runtime.lastMemoryCheckpointSeq, body, listed, answer, draws);
    if timedOut || extracted.Err? || extracted.value.None? {
      return;
    }
    var payload := Metadata(MemoryCheckpointKey, CheckpointValue(extracted.value.value));
    var stored := runtime.PersistAndProject(sessions, payload);
    step := Extracted(stored.Ok?);
  }

  ghost predicate IsRun(trace: seq<State>, steps: seq<Step>, agent: AgentDefaults) {
    && |trace| == |steps| + 1 && SessionInvariant(trace[0].live, agent)
    && trace[0].live.checkpointSeq == 0 && trace[0].windows == []
    && forall i :: 0 <= i < |steps| ==> Steps(trace[i], steps[i], trace[i + 1], agent)
  }

  /** The saved windows lie at or below the checkpoint, cover everything there, and do not overlap. */
  ghost predicate Covers(windows: seq<Window>, events: seq<LedgerEvent>, checkpointSeq: nat) {
    && (forall w, e :: 0 <= w < |windows| && windows[w].saved && e in windows[w].events ==>
        e in events && e.seqNo <= checkpointSeq)
    && (forall e :: e in events && e.seqNo <= checkpointSeq ==>
        exists w :: 0 <= w < |windows| && windows[w].saved && e in windows[w].events)
    && (forall v, w, e :: 0 <= v < w < |windows| && windows[v].saved && windows[w].saved && e in windows[v].events ==>
        e !in windows[w].events)
  }

  ghost predicate Inv(s: State, agent: AgentDefaults) {
    && SessionInvariant(s.live, agent)
    && (s.live.nextSeq < U64_MAX ==>
        Covers(s.windows, s.live.events, s.live.checkpointSeq) && s.live.checkpointSeq < s.live.nextSeq)
  }

  lemma CoversGrows(windows: seq<Window>, events: seq<LedgerEvent>, checkpointSeq: nat, event: LedgerEvent)
    requires Covers(windows, events, checkpointSeq) && event.seqNo > checkpointSeq
    ensures Covers(windows, events + [event], checkpointSeq)
  {
  }

  lemma CoversMore(windows: seq<Window>, events: seq<LedgerEvent>, checkpointSeq: nat, last: nat,
                   window: seq<LedgerEvent>)
    requires Covers(windows, events, checkpointSeq) && checkpointSeq <= last
    requires forall e :: e in window <==> e in events && e.seqNo > checkpointSeq
    requires forall e :: e in events ==> e.seqNo <= last
    ensures Covers(windows + [Window(window, true)], events, last)
    ensures Covers(windows + [Window(window, false)], events, checkpointSeq)
  {
    forall saved ensures Covers(windows + [Window(window, saved)], events, if saved then last else checkpointSeq) {
      var windows' := windows + [Window(window, saved)];
      forall e | e in events && e.seqNo <= (if saved then last else checkpointSeq)
        ensures exists w :: 0 <= w < |windows'| && windows'[w].saved && e in windows'[w].events
      {
        if e.seqNo <= checkpointSeq {
          var w :| 0 <= w < |windows| && windows[w].saved && e in windows[w].events;
          assert windows'[w] == windows[w];
        } else {
          assert windows'[|windows|].saved && e in windows'[|windows|].events;
        }
      }
    }
  }

  lemma LastIsNewest(events: seq<LedgerEvent>, after: nat)
    requires Sorted(events) && LastAfter(events, after).Some?
    ensures events != [] && LastAfter(events, after).value == events[|events| - 1].seqNo > after
    ensures forall e :: e in events ==> e.seqNo <= LastAfter(events, after).value
  {
  }

  lemma ExtractedKeeps(s: State, saved: bool, s': State, agent: AgentDefaults)
    requires Inv(s, agent) && Steps(s, Extracted(saved), s', agent)
    ensures Inv(s', agent)
    ensures s'.live.nextSeq < U64_MAX && saved ==> s'.live.checkpointSeq > s.live.checkpointSeq
    ensures !saved ==> s'.live == s.live
  {
    hide SessionInvariant, Covers, Sorted, LastAfter, IncrementalEventsAfter, Rebuilt;
    var rt := s.live;
    if saved {
      assert LegalPayload(rt, CheckpointPayload(rt));
      AppendInvariant(rt, CheckpointPayload(rt), agent);
    }
    if s'.live.nextSeq < U64_MAX {
      NumbersFit(rt, agent);
      LastIsNewest(rt.events, rt.checkpointSeq);
      WindowMeaning(rt.events, rt.checkpointSeq);
      var last := LastAfter(rt.events, rt.checkpointSeq).value;
      CoversMore(s.windows, rt.events, rt.checkpointSeq, last, IncrementalEventsAfter(rt.events, rt.checkpointSeq));
      if saved {
        CoversGrows(s'.windows, rt.events, last, LedgerEvent(rt.nextSeq, CheckpointPayload(rt)));
      }
    }
  }

  lemma NumbersFit(rt: RuntimeState, agent: AgentDefaults)
    requires SessionInvariant(rt, agent) && rt.nextSeq < U64_MAX
    ensures Sorted(rt.events) && rt.nextSeq == NextSeq(rt.events)
    ensures rt.events != [] ==> rt.events[|rt.events| - 1].seqNo < rt.nextSeq
  {
    hide Rebuild, RestoreSettings, LatestMarker, EstimateTokens, RawMessages;
  }

  lemma WroteKeeps(s: State, payload: Payload, s': State, agent: AgentDefaults)
    requires Inv(s, agent) && Steps(s, Wrote(payload), s', agent)
    ensures Inv(s', agent) && s'.live.checkpointSeq == s.live.checkpointSeq
  {
    hide SessionInvariant, Covers, LegalPayload, Rebuilt, CountUserMessages;
    AppendInvariant(s.live, payload, agent);
    if s'.live.nextSeq < U64_MAX {
      CoversGrows(s.windows, s.live.events, s.live.checkpointSeq, LedgerEvent(s.live.nextSeq, payload));
    }
  }

  lemma RestartKeeps(s: State, s': State, agent: AgentDefaults)
    requires Inv(s, agent) && Steps(s, Reopened, s', agent)
    ensures Inv(s', agent) && s'.live.events == s.live.events && s'.live.checkpointSeq == s.live.checkpointSeq
  {
    hide Covers, Rebuilt, RestoreSettings, LatestMarker, Ordered, Rebuild, RawMessages, EstimateTokens,
        CountUserMessages, AddNotices;
    ResumeIsLive(s.live, agent);
  }

  lemma TurnAllocationKeeps(s: State, s': State, agent: AgentDefaults)
    requires Inv(s, agent) && Steps(s, Allocated, s', agent)
    ensures Inv(s', agent)
  {
    hide Covers, Rebuild, RestoreSettings, LatestMarker, RawMessages, EstimateTokens, CountUserMessages;
  }

  lemma StepKeeps(s: State, step: Step, s': State, agent: AgentDefaults)
    requires Inv(s, agent) && Steps(s, step, s', agent)
    ensures Inv(s', agent)
    ensures s'.live.checkpointSeq != s.live.checkpointSeq ==> step == Extracted(true)
    ensures s'.live.nextSeq < U64_MAX && step == Extracted(true) ==> s'.live.checkpointSeq > s.live.checkpointSeq
  {
    hide Inv, Restore, Writable, LastAfter, IncrementalEventsAfter, Append;
    match step
    case Wrote(payload) => WroteKeeps(s, payload, s', agent);
    case Allocated => TurnAllocationKeeps(s, s', agent);
    case NotExtracted =>
    case Extracted(saved) => ExtractedKeeps(s, saved, s', agent);
    case Reopened => RestartKeeps(s, s', agent);
  }

  lemma {:induction false} Reachable(trace: seq<State>, steps: seq<Step>, i: nat, agent: AgentDefaults)
    requires IsRun(trace, steps, agent) && i < |trace|
    ensures Inv(trace[i], agent)
  {
    hide Steps, SessionInvariant;
    if i == 0 {
      StartsCovered(trace[0], agent);
    } else {
      Reachable(trace, steps, i - 1, agent);
      StepKeeps(trace[i - 1], steps[i - 1], trace[i], agent);
    }
  }

  lemma StartsCovered(s: State, agent: AgentDefaults)
    requires SessionInvariant(s.live, agent) && s.live.checkpointSeq == 0 && s.windows == []
    ensures Inv(s, agent)
  {
    hide Rebuild, RestoreSettings, LatestMarker, RawMessages, EstimateTokens, CountUserMessages;
  }

  /** The checkpoint moves only when an extraction succeeded and its checkpoint was stored, and then it
      strictly increases; a failed, cancelled or timed-out extraction never moves it, nor does a refused save. */
  lemma CheckpointOnlyAdvances(trace: seq<State>, steps: seq<Step>, i: nat, agent: AgentDefaults)
    requires IsRun(trace, steps, agent) && i < |steps| && trace[i + 1].live.nextSeq < U64_MAX
    ensures steps[i] == Extracted(true) ==> trace[i + 1].live.checkpointSeq > trace[i].live.checkpointSeq
    ensures steps[i] != Extracted(true) ==> trace[i + 1].live.checkpointSeq == trace[i].live.checkpointSeq
  {
    hide Steps, SessionInvariant, Inv;
    Reachable(trace, steps, i, agent);
    StepKeeps(trace[i], steps[i], trace[i + 1], agent);
  }

  /** Coverage: every event at or below the checkpoint was read by exactly one extraction whose checkpoint
      was stored, and by no other extraction if no save was ever refused; events above it by none of those. If it is a
      message, its line stands in the text of that extraction's window. */
  lemma CheckpointCoverage(trace: seq<State>, steps: seq<Step>, i: nat, event: LedgerEvent, body: LedgerEvent -> string,
                           agent: AgentDefaults)
    returns (w: nat)
    requires IsRun(trace, steps, agent) && i < |trace| && trace[i].live.nextSeq < U64_MAX
              && event in trace[i].live.events
    ensures
      var windows := trace[i].windows;
      if event.seqNo <= trace[i].live.checkpointSeq then
        && w < |windows| && windows[w].saved && event in windows[w].events
        && (forall v :: 0 <= v < |windows| && v != w && event in windows[v].events ==> !windows[v].saved)
        && (!event.payload.Metadata? ==>
              LineStands(RenderIncrementalEvents(windows[w].events, body), "[seq:" + body(event)))
      else
        forall v :: 0 <= v < |windows| && event in windows[v].events ==> !windows[v].saved
  {
    hide SessionInvariant, LineStands, RenderIncrementalEvents;
    Reachable(trace, steps, i, agent);
    w := 0;
    var windows := trace[i].windows;
    if event.seqNo <= trace[i].live.checkpointSeq {
      w :| 0 <= w < |windows| && windows[w].saved && event in windows[w].events;
      RenderedShows(windows[w].events, body);
    }
  }
}
