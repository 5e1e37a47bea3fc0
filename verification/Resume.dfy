/** Crash and resume: the stored log is always enough to get the live session back. */
module Resume {
  import opened Domain
  import opened Ledger
  import opened Context
  import opened Runtime

  // ---------------------------------------------------------------- restoring

  datatype Settings = Settings(modelId: string, systemPromptOverride: Option<string>, memoryNamespace: string,
                               checkpointSeq: nat)

  function RestoreSettings(events: seq<LedgerEvent>, agent: AgentDefaults): Result<Settings, AgentError> {
    var config := LatestMetadata(events, SessionConfigKey);
    var namespace := LatestMetadata(events, MemoryNamespaceKey);
    var checkpoint := LatestMetadata(events, MemoryCheckpointKey);
    if config.Some? && !config.value.ConfigValue? then Err(StorageError)
    else if namespace.Some? && !namespace.value.NamespaceValue? then Err(StorageError)
    else if checkpoint.Some? && !checkpoint.value.CheckpointValue? then Err(StorageError)
    else
      var session := if config.None? then SessionConfig(None, None) else config.value.config;
      Ok(Settings(
           if session.modelId.None? then agent.defaultModel else session.modelId.value,
           session.systemPromptOverride,
           if namespace.None? then agent.memoryNamespace else namespace.value.namespace,
           if checkpoint.None? then 0 else checkpoint.value.lastSeq))
  }

  /** Event `i` is the newest one that stores a value under this key. */
  ghost predicate Newest(events: seq<LedgerEvent>, key: MetadataKey, i: nat) {
    && i < |events| && StoresUnder(events[i], key)
    && forall j :: i < j < |events| ==> !StoresUnder(events[j], key)
  }

  ghost predicate StoresUnder(event: LedgerEvent, key: MetadataKey) {
    event.payload.Metadata? && event.payload.key == key
  }

  /** No event stores a value under this key. */
  ghost predicate NeverStored(events: seq<LedgerEvent>, key: MetadataKey) {
    forall i :: 0 <= i < |events| ==> !StoresUnder(events[i], key)
  }

  lemma {:induction false} LatestMeaning(events: seq<LedgerEvent>, key: MetadataKey)
    ensures NeverStored(events, key) <==> LatestMetadata(events, key) == None
    ensures forall i: nat :: Newest(events, key, i) ==> LatestMetadata(events, key) == Some(events[i].payload.value)
  {
    if events != [] {
      hide StoresUnder;
      var init, last := events[..|events| - 1], events[|events| - 1];
      LatestMeaning(init, key);
      StoredLast(last, key);
      assert events == init + [last];
      if StoresUnder(last, key) {
        assert StoresUnder(events[|init|], key);
      } else {
        forall i: nat | Newest(events, key, i) ensures Newest(init, key, i) {
          assert i < |init| && init[i] == events[i];
        }
      }
    }
  }

  lemma StoredLast(event: LedgerEvent, key: MetadataKey)
    ensures StoresUnder(event, key) <==> event.payload.Metadata? && event.payload.key == key
  {
  }

  /** What is restored is what was stored last, whatever the agent's defaults are now; these only fill in what was
      never stored. Restoring fails exactly if one of the values was stored under the wrong key. */
  lemma SettingsMeaning(events: seq<LedgerEvent>, agent: AgentDefaults, c: nat, n: nat, m: nat)
    requires Newest(events, SessionConfigKey, c) || NeverStored(events, SessionConfigKey)
    requires Newest(events, MemoryNamespaceKey, n) || NeverStored(events, MemoryNamespaceKey)
    requires Newest(events, MemoryCheckpointKey, m) || NeverStored(events, MemoryCheckpointKey)
    ensures RestoreSettings(events, agent).Ok? <==>
              && (Newest(events, SessionConfigKey, c) ==> events[c].payload.value.ConfigValue?)
              && (Newest(events, MemoryNamespaceKey, n) ==> events[n].payload.value.NamespaceValue?)
              && (Newest(events, MemoryCheckpointKey, m) ==> events[m].payload.value.CheckpointValue?)
    ensures RestoreSettings(events, agent).Err? ==> RestoreSettings(events, agent).error == StorageError
    ensures RestoreSettings(events, agent).Ok? ==>
              var restored := RestoreSettings(events, agent).value;
              && restored.memoryNamespace == (if Newest(events, MemoryNamespaceKey, n)
                                              then events[n].payload.value.namespace else agent.memoryNamespace)
              && restored.checkpointSeq == (if Newest(events, MemoryCheckpointKey, m)
                                            then events[m].payload.value.lastSeq else 0)
              && restored.systemPromptOverride
                 == (if Newest(events, SessionConfigKey, c)
                     then events[c].payload.value.config.systemPromptOverride else None)
              && restored.modelId
                 == (if Newest(events, SessionConfigKey, c) && events[c].payload.value.config.modelId.Some?
                     then events[c].payload.value.config.modelId.value else agent.defaultModel)
  {
    hide LatestMetadata, Newest, NeverStored;
    LatestMeaning(events, SessionConfigKey);
    LatestMeaning(events, MemoryNamespaceKey);
    LatestMeaning(events, MemoryCheckpointKey);
    StoredOrNot(events, SessionConfigKey, c);
    StoredOrNot(events, MemoryNamespaceKey, n);
    StoredOrNot(events, MemoryCheckpointKey, m);
  }

  lemma StoredOrNot(events: seq<LedgerEvent>, key: MetadataKey, i: nat)
    ensures !(Newest(events, key, i) && NeverStored(events, key))
    ensures Newest(events, key, i) ==> i < |events| && events[i].payload.Metadata?
  {
  }

  /** `resume_session` on a loaded list of events. */
  function Restore(stored: seq<LedgerEvent>, agent: AgentDefaults): Result<RuntimeState, AgentError> {
    var settings := RestoreSettings(stored, agent);
    if settings.Err? then Err(settings.error)
    else if settings.value.modelId !in agent.windows then Err(ModelNotSupported)
    else
      var marker := LatestMarker(stored);
      if marker.Err? then Err(StorageError)
      else
        var s := settings.value;
        Ok(RuntimeState(s.modelId, s.systemPromptOverride, s.memoryNamespace, stored, NextSeq(stored),
                        Rebuilt(stored, marker.value, agent.windows[s.modelId]),
                        CountUserMessages(stored), s.checkpointSeq))
  }

  // ---------------------------------------------------------------- what the kernel writes

  /** After bootstrap the kernel writes messages, markers it has just generated from this very state,
      and checkpoints at the end of the ledger. */
  ghost predicate LegalPayload(rt: RuntimeState, payload: Payload) {
    payload.Metadata? ==>
      || (payload.key == ContextCompactionKey && payload.value.MarkerValue?
          && exists answer :: GenerateMarker(rt.events, rt.context.latest, rt.context.window, answer)
              == Ok(payload.value.marker))
      || (payload.key == MemoryCheckpointKey && payload.value.CheckpointValue?
          && LastAfter(rt.events, rt.checkpointSeq) == Some(payload.value.lastSeq))
  }

  /** The turn index was bumped for the user message to come, unless it is at its end. */
  predicate TurnAnnounced(rt: RuntimeState) {
    CountUserMessages(rt.events) < rt.turnIndex || rt.turnIndex == U64_MAX
  }

  /** Each payload was legal when it was written. */
  ghost predicate LegalLog(rt: RuntimeState, log: seq<Payload>) {
    log != [] ==>
      var before, last := AppendAll(rt, log[..|log| - 1]), log[|log| - 1];
      && LegalLog(rt, log[..|log| - 1]) && LegalPayload(before, last)
      && (last.UserMessage? ==> TurnAnnounced(before))
  }

  // ---------------------------------------------------------------- live view and rebuilt view

  function RawMessages(events: seq<LedgerEvent>): seq<Message> {
    if events == [] then []
    else
      var message := PayloadToMessage(events[|events| - 1].payload);
      RawMessages(events[..|events| - 1]) + if message.None? then [] else [message.value]
  }

  /** Inserts the notice a rebuild shows after each interrupted message. */
  function AddNotices(messages: seq<Message>): seq<Message> {
    if messages == [] then [] else AddNotices(messages[..|messages| - 1]) + WithNotice(messages[|messages| - 1])
  }

  lemma {:induction false} RebuildTail(events: seq<LedgerEvent>, min: nat)
    requires AllAbove(events, min)
    ensures MessagesOf(ProjectEvents(events, min)) == AddNotices(RawMessages(events))
  {
    if events != [] {
      var init, last := events[..|events| - 1], events[|events| - 1];
      RebuildTail(init, min);
      SplitMessages(ProjectEvents(init, min), ProjectEvent(last, min));
      var message := PayloadToMessage(last.payload);
      if message.Some? {
        assert MessagesOf(ProjectEvent(last, min)) == WithNotice(message.value);
        assert RawMessages(events)[..|RawMessages(events)| - 1] == RawMessages(init);
      } else {
        assert MessagesOf(ProjectEvent(last, min)) == [];
        assert RawMessages(events) == RawMessages(init);
      }
    }
  }

  lemma {:induction false} NoticesChangeNothing(messages: seq<Message>)
    ensures |AddNotices(messages)| >= |messages|
    ensures AddNotices(messages) == messages <==> forall i :: 0 <= i < |messages| ==> !Interrupted(messages[i])
  {
    if messages != [] {
      var init := messages[..|messages| - 1];
      NoticesChangeNothing(init);
      if !Interrupted(messages[|init|]) {
        assert messages == init + [messages[|init|]];
        assert (AddNotices(init) + [messages[|init|]])[..|AddNotices(init)|] == AddNotices(init);
      }
    }
  }

  // ---------------------------------------------------------------- the session invariant

  /** What every reachable runtime satisfies, whatever its numbers are. The visible list is the last
      rebuild followed by everything pushed since. */
  ghost predicate Coherent(rt: RuntimeState, agent: AgentDefaults) {
    var k := rt.context.rebuiltAt;
    && rt.nextSeq == NextSeq(rt.events)
    && RestoreSettings(rt.events, agent)
       == Ok(Settings(rt.modelId, rt.systemPromptOverride, rt.memoryNamespace, rt.checkpointSeq))
    && rt.modelId in agent.windows && agent.windows[rt.modelId] == rt.context.window
    && LatestMarker(rt.events) == Ok(rt.context.latest)
    && CountUserMessages(rt.events) <= rt.turnIndex <= U64_MAX
    && k <= |rt.events|
    && rt.context.visible == Rebuild(rt.events[..k], rt.context.latest) + RawMessages(rt.events[k..])
    && rt.context.tokens == EstimateTokens(rt.context.visible)
  }

  /** As long as the numbers have not run out: they increase, the marker's boundary lies just below a
      user message of the ledger, and below everything pushed since the last rebuild. */
  ghost predicate Ordered(rt: RuntimeState) {
    rt.nextSeq < U64_MAX ==>
      && Sorted(rt.events)
      && MinVisible(rt.context.latest) < rt.nextSeq
      && rt.context.rebuiltAt <= |rt.events|
      && AllAbove(rt.events[rt.context.rebuiltAt..], MinVisible(rt.context.latest))
      && (rt.context.latest.Some? ==> CutAtUser(rt.events[..rt.context.rebuiltAt], MinVisible(rt.context.latest)))
  }

  ghost predicate AllAbove(events: seq<LedgerEvent>, min: nat) {
    forall i :: 0 <= i < |events| ==> events[i].seqNo > min
  }

  ghost predicate CutAtUser(events: seq<LedgerEvent>, through: nat) {
    exists u :: 0 <= u < |events| && events[u].payload.UserMessage? && events[u].seqNo == through + 1
  }

  ghost predicate SessionInvariant(rt: RuntimeState, agent: AgentDefaults) {
    Coherent(rt, agent) && Ordered(rt)
  }

  lemma NewSessionInvariant(modelId: string, override: Option<string>, agent: AgentDefaults)
    requires modelId in agent.windows
    ensures
      var config := Metadata(SessionConfigKey, ConfigValue(SessionConfig(Some(modelId), override)));
      var namespace := Metadata(MemoryNamespaceKey, NamespaceValue(agent.memoryNamespace));
      var rt := NewRuntime(modelId, override, agent.memoryNamespace, agent.windows[modelId]);
      SessionInvariant(Append(Append(rt, config), namespace), agent)
  {
    hide EstimateTokens, Rebuild, LatestMetadata, CountUserMessages, RawMessages;
    var config := LedgerEvent(1, Metadata(SessionConfigKey, ConfigValue(SessionConfig(Some(modelId), override))));
    var namespace := LedgerEvent(2, Metadata(MemoryNamespaceKey, NamespaceValue(agent.memoryNamespace)));
    NoEvents();
    LatestSnoc([], config);
    LatestSnoc([config], namespace);
    RawSnoc([], config);
    RawSnoc([config], namespace);
    assert [] + [config] == [config] && [config] + [namespace] == [config, namespace];
    assert [config, namespace][0..] == [config, namespace] && [config, namespace][..0] == [];
  }

  /** The newest metadata after one more event. */
  lemma LatestSnoc(events: seq<LedgerEvent>, event: LedgerEvent)
    ensures forall key :: LatestMetadata(events + [event], key) ==
              if event.payload.Metadata? && event.payload.key == key then Some(event.payload.value)
              else LatestMetadata(events, key)
    ensures CountUserMessages(events + [event]) ==
              if event.payload.UserMessage? then SaturatingInc(CountUserMessages(events)) else CountUserMessages(events)
  {
    assert (events + [event])[..|events|] == events;
  }

  lemma NoEvents()
    ensures RawMessages([]) == [] && CountUserMessages([]) == 0 && Rebuild([], None) == [] && EstimateTokens([]) == 0
    ensures forall key :: LatestMetadata([], key) == None
  {
  }

  lemma RawSnoc(events: seq<LedgerEvent>, event: LedgerEvent)
    ensures RawMessages(events + [event]) == RawMessages(events) +
              var message := PayloadToMessage(event.payload); if message.None? then [] else [message.value]
  {
    assert (events + [event])[..|events|] == events;
  }

  lemma SortedSnoc(events: seq<LedgerEvent>, event: LedgerEvent)
    requires Sorted(events) && event.seqNo == NextSeq(events)
    requires events != [] ==> events[|events| - 1].seqNo < U64_MAX
    ensures Sorted(events + [event])
    ensures forall i :: 0 <= i < |events| ==> events[i].seqNo < event.seqNo
  {
    AppendKeepsSorted(events, event.payload);
  }

  lemma CutExtends(events: seq<LedgerEvent>, more: seq<LedgerEvent>, through: nat)
    requires CutAtUser(events, through)
    ensures CutAtUser(events + more, through)
  {
    var u :| 0 <= u < |events| && events[u].payload.UserMessage? && events[u].seqNo == through + 1;
    assert (events + more)[u] == events[u];
  }

  lemma AppendMarkerOrdered(rt: RuntimeState, payload: Payload, agent: AgentDefaults)
    requires SessionInvariant(rt, agent) && LegalPayload(rt, payload)
    requires payload.Metadata? && payload.key == ContextCompactionKey
    requires Sorted(rt.events) && rt.nextSeq < U64_MAX
    ensures var event := LedgerEvent(rt.nextSeq, payload);
      && MinVisible(Some(payload.value.marker)) < NextSeq(rt.events)
      && CutAtUser(rt.events + [event], MinVisible(Some(payload.value.marker)))
  {
    hide EstimateTokens, Rebuild, LatestMetadata, CountUserMessages, RawMessages, GenerateMarker, CutAtUser;
    var answer :| GenerateMarker(rt.events, rt.context.latest, rt.context.window, answer) == Ok(payload.value.marker);
    var u := GeneratedCut(rt.events, rt.context.latest, rt.context.window, answer);
    assert rt.events[u].seqNo <= rt.events[|rt.events| - 1].seqNo;
    CutHere(rt.events, u);
    CutExtends(rt.events, [LedgerEvent(rt.nextSeq, payload)], payload.value.marker.replacesThroughSeq);
  }

  lemma AppendOrdered(rt: RuntimeState, payload: Payload, agent: AgentDefaults)
    requires SessionInvariant(rt, agent) && LegalPayload(rt, payload)
    ensures Ordered(Append(rt, payload))
  {
    hide EstimateTokens, Rebuild, LatestMetadata, CountUserMessages, RawMessages, GenerateMarker, CutAtUser, Sorted;
    if Append(rt, payload).nextSeq < U64_MAX {
      var k, event := rt.context.rebuiltAt, LedgerEvent(rt.nextSeq, payload);
      var events := rt.events + [event];
      SortedSnoc(rt.events, event);
      if payload.Metadata? && payload.key == ContextCompactionKey {
        AppendMarkerOrdered(rt, payload, agent);
        assert events[..|events|] == events && events[|events|..] == [];
      } else {
        assert events[..k] == rt.events[..k] && events[k..] == rt.events[k..] + [event];
      }
    }
  }

  lemma CutHere(events: seq<LedgerEvent>, u: nat)
    requires u < |events| && events[u].payload.UserMessage? && events[u].seqNo >= 1
    ensures CutAtUser(events, events[u].seqNo - 1)
  {
  }

  lemma AppendCoherent(rt: RuntimeState, payload: Payload, agent: AgentDefaults)
    requires SessionInvariant(rt, agent) && LegalPayload(rt, payload)
    requires CountUserMessages(rt.events) <= rt.turnIndex
    requires payload.UserMessage? ==> TurnAnnounced(rt)
    ensures Coherent(Append(rt, payload), agent)
  {
    hide EstimateTokens, Rebuild, LatestMetadata, CountUserMessages, RawMessages, GenerateMarker;
    var event := LedgerEvent(rt.nextSeq, payload);
    LatestSnoc(rt.events, event);
    var events, k := rt.events + [event], rt.context.rebuiltAt;
    if payload.Metadata? && payload.key == ContextCompactionKey {
      NoEvents();
      assert events[..|events|] == events && events[|events|..] == [];
    } else {
      RawSnoc(rt.events[k..], event);
      assert events[..k] == rt.events[..k] && events[k..] == rt.events[k..] + [event];
    }
  }

  // ---------------------------------------------------------------- resume equivalence

  /** `restored` is the live runtime again. Only the turn index may lag, and only a notice after each
      interrupted message pushed since the last rebuild is added to the visible list. */
  ghost predicate SameSession(restored: RuntimeState, live: RuntimeState) {
    && restored.events == live.events && restored.nextSeq == live.nextSeq
    && restored.modelId == live.modelId && restored.systemPromptOverride == live.systemPromptOverride
    && restored.memoryNamespace == live.memoryNamespace && restored.checkpointSeq == live.checkpointSeq
    && restored.context.latest == live.context.latest && restored.context.window == live.context.window
    && restored.turnIndex <= live.turnIndex
    && live.context.rebuiltAt <= |live.events|
    && var pushed := RawMessages(live.events[live.context.rebuiltAt..]);
       exists rebuilt ::
         && live.context.visible == rebuilt + pushed
         && restored.context.visible == rebuilt + AddNotices(pushed)
  }

  lemma RestoredView(rt: RuntimeState, agent: AgentDefaults)
    requires SessionInvariant(rt, agent) && rt.nextSeq < U64_MAX
    ensures Rebuild(rt.events, rt.context.latest)
         == Rebuild(rt.events[..rt.context.rebuiltAt], rt.context.latest)
            + AddNotices(RawMessages(rt.events[rt.context.rebuiltAt..]))
  {
    hide EstimateTokens, ProjectEvents, LatestMetadata, CountUserMessages, RawMessages, AddNotices;
    var k, latest := rt.context.rebuiltAt, rt.context.latest;
    var head, tail := rt.events[..k], rt.events[k..];
    assert head + tail == rt.events;
    ProjectConcat(head, tail, MinVisible(latest));
    RebuildTail(tail, MinVisible(latest));
    Associative(SummaryEntry(latest), ProjectEvents(head, MinVisible(latest)), ProjectEvents(tail, MinVisible(latest)));
    SplitMessages(ProjectVisible(head, latest), ProjectEvents(tail, MinVisible(latest)));
  }

  /** Resume equivalence: with the invariant, restoring from exactly the live ledger succeeds, gives the
      same session, and the invariant again. */
  lemma ResumeIsLive(rt: RuntimeState, agent: AgentDefaults)
    requires SessionInvariant(rt, agent)
    ensures Restore(rt.events, agent).Ok?
    ensures SessionInvariant(Restore(rt.events, agent).value, agent)
    ensures rt.nextSeq < U64_MAX ==> SameSession(Restore(rt.events, agent).value, rt)
  {
    hide EstimateTokens, ProjectEvents, LatestMetadata, CountUserMessages, RawMessages, AddNotices;
    if rt.nextSeq < U64_MAX {
      RestoredView(rt, agent);
    }
    var restored := Restore(rt.events, agent).value;
    var k := rt.context.rebuiltAt;
    assert rt.events[..|rt.events|] == rt.events;
    if rt.nextSeq < U64_MAX && rt.context.latest.Some? {
      CutExtends(rt.events[..k], rt.events[k..], MinVisible(rt.context.latest));
      assert rt.events[..k] + rt.events[k..] == rt.events;
    }
    NoEvents();
    assert restored.events[restored.context.rebuiltAt..] == [];
  }

  /** Exactly when the visible lists agree to the letter: no interrupted message was pushed since the
      last rebuild. */
  lemma ResumeIsExact(rt: RuntimeState, agent: AgentDefaults)
    requires SessionInvariant(rt, agent) && rt.nextSeq < U64_MAX
    ensures Restore(rt.events, agent).Ok?
    ensures Restore(rt.events, agent).value.context.visible == rt.context.visible
       <==> forall m :: m in RawMessages(rt.events[rt.context.rebuiltAt..]) ==> !Interrupted(m)
  {
    hide EstimateTokens, ProjectEvents, LatestMetadata, CountUserMessages, RawMessages, AddNotices;
    ResumeIsLive(rt, agent);
    RestoredView(rt, agent);
    var pushed := RawMessages(rt.events[rt.context.rebuiltAt..]);
    NoticesChangeNothing(pushed);
    var rebuilt := Rebuild(rt.events[..rt.context.rebuiltAt], rt.context.latest);
    assert (rebuilt + pushed)[|rebuilt|..] == pushed;
    assert (rebuilt + AddNotices(pushed))[|rebuilt|..] == AddNotices(pushed);
  }

  /** The lists do differ: in every session with numbers left, one interrupted answer is enough. */
  lemma InterruptedDiffers(rt: RuntimeState, text: string, agent: AgentDefaults)
    requires SessionInvariant(rt, agent) && rt.nextSeq < U64_MAX - 1
    ensures
      var after := Append(rt, AssistantMessage([Text(text)], Incomplete));
      && SessionInvariant(after, agent) && Restore(after.events, agent).Ok?
      && Restore(after.events, agent).value.context.visible != after.context.visible
  {
    hide EstimateTokens, Rebuild, LatestMarker, RestoreSettings, RawMessages, AddNotices, LegalPayload,
        CountUserMessages, Restore;
    var payload := AssistantMessage([Text(text)], Incomplete);
    var after := Append(rt, payload);
    MessagesAreLegal(rt, payload);
    AppendInvariant(rt, payload, agent);
    ResumeIsExact(after, agent);
    var k := rt.context.rebuiltAt;
    assert after.events[k..] == rt.events[k..] + [LedgerEvent(rt.nextSeq, payload)];
    RawSnoc(rt.events[k..], LedgerEvent(rt.nextSeq, payload));
    var pushed := RawMessages(after.events[k..]);
    assert Interrupted(pushed[|pushed| - 1]) && pushed[|pushed| - 1] in pushed;
  }

  lemma MessagesAreLegal(rt: RuntimeState, payload: Payload)
    requires !payload.Metadata?
    ensures LegalPayload(rt, payload)
  {
  }

  // ---------------------------------------------------------------- compaction inside a turn

  /** Anchor safety: whatever was compacted, the current turn's user message and all that follows it
      stays above the boundary. Building a plan cannot miss its anchor; it fails if and only if nothing
      was compacted yet and no message precedes the turn's user message. */
  lemma CurrentTurnStaysVisible(rt: RuntimeState, agent: AgentDefaults, u: nat)
    requires SessionInvariant(rt, agent) && rt.nextSeq < U64_MAX
    requires u < |rt.events| && rt.events[u].payload.UserMessage?
    requires forall i :: u < i < |rt.events| ==> !rt.events[i].payload.UserMessage?
    ensures MinVisible(rt.context.latest) < rt.events[u].seqNo
    ensures
      var turn := ProjectEvents(rt.events, rt.events[u].seqNo - 1);
      && turn != [] && turn[0] == Entry(Some(rt.events[u].seqNo), User(rt.events[u].payload.content))
      && ProjectEvents(rt.events, MinVisible(rt.context.latest))
         == ProjectEvents(rt.events[..u], MinVisible(rt.context.latest)) + turn
    ensures
      var plan := BuildPlan(rt.events, rt.context.latest);
      && (plan.Err? <==> rt.context.latest.None? && forall i :: 0 <= i < u ==> rt.events[i].payload.Metadata?)
      && (plan.Err? ==> plan.error == NoEarlierHistory)
      && (plan.Ok? ==> plan.value.replacesThroughSeq == rt.events[u].seqNo - 1)
  {
    hide Coherent, BuildPlan, ProjectEvents;
    if rt.context.latest.Some? {
      var c :| 0 <= c < rt.context.rebuiltAt && rt.events[..rt.context.rebuiltAt][c].payload.UserMessage?
               && rt.events[..rt.context.rebuiltAt][c].seqNo == MinVisible(rt.context.latest) + 1;
      assert rt.events[c].seqNo <= rt.events[u].seqNo;
    }
    ProjectFrom(rt.events, MinVisible(rt.context.latest), u);
    PlanInsideTurn(rt.events, rt.context.latest, u);
  }

  /** After a compaction the live context is the summary and the retained messages of the plan that was
      checked, within the window, or within three tenths of it for the truncation fallback. */
  lemma CompactionFits(rt: RuntimeState, marker: CompactionMarker, answer: SummaryAnswer, agent: AgentDefaults)
    requires SessionInvariant(rt, agent) && rt.nextSeq < U64_MAX
    requires GenerateMarker(rt.events, rt.context.latest, rt.context.window, answer) == Ok(marker)
    ensures
      var after := Append(rt, Metadata(ContextCompactionKey, MarkerValue(marker))).context;
      && BuildPlan(rt.events, rt.context.latest).Ok?
      && after.visible == [System(marker.renderedSummary)] + BuildPlan(rt.events, rt.context.latest).value.retained
      && after.tokens == EstimateTokens(after.visible) <= after.window == rt.context.window
      && (marker.renderedSummary.TruncationSummary? ==> after.tokens * 10 <= after.window * 3)
  {
    hide BuildPlan, EstimateTokens, Rebuild, Trim, LatestMarker, RestoreSettings, RawMessages, CountUserMessages;
    FitCheckIsHonest(rt.events, rt.context.latest, rt.context.window, answer);
  }

  // ---------------------------------------------------------------- whole runs

  /** A live runtime and the log its storage holds. */
  datatype World = World(live: RuntimeState, stored: seq<LedgerEvent>)

  /** One step of a session's life. `Crashed` dies after the save and before the append, and the process
      that takes over resumes; `Restarted` resumes at any other point. */
  datatype Step =
    | Written(payload: Payload)
    | Refused(payload: Payload)
    | TurnAllocated
    | Restarted
    | Crashed(payload: Payload)

  function Saved(w: World, payload: Payload): seq<LedgerEvent> {
    w.stored + [LedgerEvent(w.live.nextSeq, payload)]
  }

  function Resumed(stored: seq<LedgerEvent>, agent: AgentDefaults): World
    requires Restore(stored, agent).Ok?
  {
    World(Restore(stored, agent).value, stored)
  }

  ghost predicate Writable(w: World, payload: Payload) {
    LegalPayload(w.live, payload) && (payload.UserMessage? ==> TurnAnnounced(w.live))
  }

  /** One step from `w` to `w'`. */
  ghost predicate Steps(w: World, step: Step, w': World, agent: AgentDefaults) {
    match step
    case Written(payload) => Writable(w, payload) && w' == World(Append(w.live, payload), Saved(w, payload))
    case Refused(payload) => w' == w
    case TurnAllocated => w' == w.(live := w.live.(turnIndex := SaturatingInc(w.live.turnIndex)))
    case Restarted => Restore(w.stored, agent).Ok? && w' == Resumed(w.stored, agent)
    case Crashed(payload) =>
      Writable(w, payload) && Restore(Saved(w, payload), agent).Ok? && w' == Resumed(Saved(w, payload), agent)
  }

  ghost predicate IsRun(trace: seq<World>, steps: seq<Step>, agent: AgentDefaults) {
    && |trace| == |steps| + 1
    && forall i :: 0 <= i < |steps| ==> Steps(trace[i], steps[i], trace[i + 1], agent)
  }

  ghost predicate Mirrored(w: World, agent: AgentDefaults) {
    w.stored == w.live.events && SessionInvariant(w.live, agent)
  }

  /** Every kind of step can happen to a session, and this is what it leaves: a write and a crash after the save store
      exactly one event more, a refusal and a restart store nothing. */
  lemma EveryStepCanHappen(w: World, payload: Payload, agent: AgentDefaults)
    requires Mirrored(w, agent) && Writable(w, payload)
    ensures
      var more := w.stored + [LedgerEvent(w.live.nextSeq, payload)];
      && (exists w' :: Steps(w, Written(payload), w', agent) && w'.stored == w'.live.events == more)
      && Steps(w, Refused(payload), w, agent)
      && (exists w' :: Steps(w, TurnAllocated, w', agent) && w'.stored == w'.live.events == w.stored)
      && (exists w' :: Steps(w, Restarted, w', agent) && w'.stored == w'.live.events == w.stored)
      && (exists w' :: Steps(w, Crashed(payload), w', agent) && w'.stored == w'.live.events == more)
  {
    hide SessionInvariant, Restore, Rebuilt, Pushed, LegalPayload;
    AppendInvariant(w.live, payload, agent);
    CrashLosesNothing(w, payload, agent);
    ResumeIsLive(w.live, agent);
    RestoredEvents(w.stored, agent);
    RestoredEvents(Saved(w, payload), agent);
    var announced := w.(live := w.live.(turnIndex := SaturatingInc(w.live.turnIndex)));
    assert Steps(w, Written(payload), World(Append(w.live, payload), Saved(w, payload)), agent);
    assert Steps(w, TurnAllocated, announced, agent);
    assert Steps(w, Restarted, Resumed(w.stored, agent), agent);
    assert Steps(w, Crashed(payload), Resumed(Saved(w, payload), agent), agent);
  }

  /** A crash between save and append leaves the store exactly one event ahead, and loses nothing: the
      resumed session is the one the finished write would have given. */
  lemma CrashLosesNothing(w: World, payload: Payload, agent: AgentDefaults)
    requires Mirrored(w, agent) && Writable(w, payload)
    ensures Saved(w, payload) == Append(w.live, payload).events
    ensures |Saved(w, payload)| == |w.live.events| + 1
    ensures Restore(Saved(w, payload), agent).Ok?
    ensures Mirrored(Resumed(Saved(w, payload), agent), agent)
    ensures Append(w.live, payload).nextSeq < U64_MAX ==>
              SameSession(Resumed(Saved(w, payload), agent).live, Append(w.live, payload))
  {
    hide SessionInvariant, Restore, SameSession, Rebuilt, Pushed;
    AppendInvariant(w.live, payload, agent);
    ResumeIsLive(Append(w.live, payload), agent);
    assert Restore(Append(w.live, payload).events, agent).value.events == Append(w.live, payload).events by {
      RestoredEvents(Append(w.live, payload).events, agent);
    }
  }

  lemma RestoredEvents(stored: seq<LedgerEvent>, agent: AgentDefaults)
    requires Restore(stored, agent).Ok?
    ensures Restore(stored, agent).value.events == stored
  {
  }

  lemma AppendInvariant(rt: RuntimeState, payload: Payload, agent: AgentDefaults)
    requires SessionInvariant(rt, agent) && LegalPayload(rt, payload)
    requires payload.UserMessage? ==> TurnAnnounced(rt)
    ensures SessionInvariant(Append(rt, payload), agent)
    ensures Append(rt, payload).events == rt.events + [LedgerEvent(rt.nextSeq, payload)]
  {
    hide LegalPayload, EstimateTokens, Rebuild, LatestMetadata, CountUserMessages, RawMessages;
    AppendOrdered(rt, payload, agent);
    AppendCoherent(rt, payload, agent);
  }

  lemma StepKeepsMirror(w: World, step: Step, w': World, agent: AgentDefaults)
    requires Mirrored(w, agent) && Steps(w, step, w', agent)
    ensures Mirrored(w', agent)
  {
    hide LegalPayload, Restore, EstimateTokens, Rebuild, LatestMetadata, CountUserMessages, RawMessages;
    match step
    case Written(payload) => AppendInvariant(w.live, payload, agent);
    case Refused(payload) =>
    case TurnAllocated =>
    case Restarted => ResumeIsLive(w.live, agent); RestoredEvents(w.stored, agent);
    case Crashed(payload) => CrashLosesNothing(w, payload, agent);
  }

  /** At every point of every run the stored log is the live ledger, it can be resumed, and resuming gives
      the live session. */
  lemma {:induction false} EveryRunCanBeResumed(trace: seq<World>, steps: seq<Step>, i: nat, agent: AgentDefaults)
    requires IsRun(trace, steps, agent) && Mirrored(trace[0], agent) && i < |trace|
    ensures trace[i].stored == trace[i].live.events && SessionInvariant(trace[i].live, agent)
    ensures Restore(trace[i].stored, agent).Ok?
    ensures trace[i].live.nextSeq < U64_MAX ==> SameSession(Restore(trace[i].stored, agent).value, trace[i].live)
  {
    hide SessionInvariant, Restore, SameSession, Steps;
    if i > 0 {
      EveryRunCanBeResumed(trace, steps, i - 1, agent);
      StepKeepsMirror(trace[i - 1], steps[i - 1], trace[i], agent);
    }
    ResumeIsLive(trace[i].live, agent);
  }

  lemma StepKeepsBoundary(w: World, step: Step, w': World, agent: AgentDefaults)
    requires Mirrored(w, agent) && Steps(w, step, w', agent) && w'.live.nextSeq < U64_MAX
    ensures w.live.nextSeq <= w'.live.nextSeq
    ensures MinVisible(w.live.context.latest) <= MinVisible(w'.live.context.latest)
  {
    match step
    case Written(payload) => AppendKeepsBoundary(w.live, payload, agent);
    case Refused(payload) =>
    case TurnAllocated =>
    case Restarted =>
    case Crashed(payload) =>
      AppendKeepsBoundary(w.live, payload, agent);
      AppendInvariant(w.live, payload, agent);
  }

  lemma AppendKeepsBoundary(rt: RuntimeState, payload: Payload, agent: AgentDefaults)
    requires SessionInvariant(rt, agent) && LegalPayload(rt, payload) && Append(rt, payload).nextSeq < U64_MAX
    ensures rt.nextSeq <= Append(rt, payload).nextSeq
    ensures MinVisible(rt.context.latest) <= MinVisible(Append(rt, payload).context.latest)
  {
    hide EstimateTokens, Rebuild, LatestMetadata, CountUserMessages, RawMessages, GenerateMarker, CutAtUser;
    if payload.Metadata? && payload.key == ContextCompactionKey {
      var answer :| GenerateMarker(rt.events, rt.context.latest, rt.context.window, answer) == Ok(payload.value.marker);
      var u := GeneratedCut(rt.events, rt.context.latest, rt.context.window, answer);
    }
  }

  /** Compaction progress: over any run, restarts and crashes included, the boundary never moves back. */
  lemma {:induction false} BoundaryNeverMovesBack(trace: seq<World>, steps: seq<Step>, i: nat, j: nat,
                                                  agent: AgentDefaults)
    requires IsRun(trace, steps, agent) && Mirrored(trace[0], agent)
    requires i <= j < |trace| && trace[j].live.nextSeq < U64_MAX
    ensures trace[i].live.nextSeq <= trace[j].live.nextSeq
    ensures MinVisible(trace[i].live.context.latest) <= MinVisible(trace[j].live.context.latest)
    decreases j
  {
    hide SessionInvariant, Restore, Steps;
    if i < j {
      EveryRunCanBeResumed(trace, steps, j - 1, agent);
      StepKeepsBoundary(trace[j - 1], steps[j - 1], trace[j], agent);
      BoundaryNeverMovesBack(trace, steps, i, j - 1, agent);
    }
  }
}
