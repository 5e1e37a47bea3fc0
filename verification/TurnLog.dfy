/** What one turn has written and told so far, as values. */
module TurnLog {
  import opened Domain
  import opened Context
  import opened Runtime
  import opened Resume
  import opened TurnGrammar
  import opened Dispatcher

  // ---------------------------------------------------------------- messages of a log

  /** The messages among the payloads a turn has persisted. */
  function LogMessages(log: seq<Payload>): seq<Message> {
    if log == [] then []
    else
      var message := PayloadToMessage(log[|log| - 1]);
      LogMessages(log[..|log| - 1]) + if message.None? then [] else [message.value]
  }

  lemma {:induction false} LogConcat(a: seq<Payload>, b: seq<Payload>)
    ensures LogMessages(a + b) == LogMessages(a) + LogMessages(b)
    decreases |b|
  {
    if b == [] {
      assert a + b == a;
    } else {
      assert (a + b)[..|a + b| - 1] == a + b[..|b| - 1];
      LogConcat(a, b[..|b| - 1]);
    }
  }

  lemma LogSnoc(log: seq<Payload>, payload: Payload)
    ensures LogMessages(log + [payload]) ==
              LogMessages(log) + var message := PayloadToMessage(payload); if message.None? then [] else [message.value]
  {
    assert (log + [payload])[..|log|] == log;
  }

  predicate IsMarker(payload: Payload) {
    payload.Metadata? && payload.key == ContextCompactionKey && payload.value.MarkerValue?
  }

  /** The compaction markers among the payloads a turn has persisted. */
  function LogMarkers(log: seq<Payload>): seq<CompactionMarker> {
    if log == [] then []
    else
      var last := log[|log| - 1];
      LogMarkers(log[..|log| - 1]) + if IsMarker(last) then [last.value.marker] else []
  }

  lemma MarkersSnoc(log: seq<Payload>, payload: Payload)
    ensures LogMarkers(log + [payload]) == LogMarkers(log) + if IsMarker(payload) then [payload.value.marker] else []
    ensures LogMarkers([]) == []
  {
    assert (log + [payload])[..|log|] == log;
  }

  /** Payloads that are messages, one for one. */
  ghost predicate MessagesFor(payloads: seq<Payload>, messages: seq<Message>) {
    |payloads| == |messages| && forall i :: 0 <= i < |payloads| ==> PayloadToMessage(payloads[i]) == Some(messages[i])
  }

  lemma {:induction false} LogMessagesFor(payloads: seq<Payload>, messages: seq<Message>)
    requires MessagesFor(payloads, messages)
    ensures LogMessages(payloads) == messages
  {
    if payloads != [] {
      var n := |payloads| - 1;
      LogMessagesFor(payloads[..n], messages[..n]);
      assert messages == messages[..n] + [messages[n]];
    }
  }

  lemma LogPrefix(log: seq<Payload>, longer: seq<Payload>)
    requires log <= longer
    ensures LogMessages(log) <= LogMessages(longer)
  {
    assert longer == log + longer[|log|..];
    LogConcat(log, longer[|log|..]);
  }

  lemma {:induction false} LogInLedger(rt: RuntimeState, log: seq<Payload>)
    ensures RawMessages(AppendAll(rt, log).events) == RawMessages(rt.events) + LogMessages(log)
    ensures AppendAll(rt, log).turnIndex == rt.turnIndex
  {
    hide RawMessages, Rebuilt;
    if log != [] {
      var init, last := log[..|log| - 1], log[|log| - 1];
      LogInLedger(rt, init);
      RawSnoc(AppendAll(rt, init).events, LedgerEvent(AppendAll(rt, init).nextSeq, last));
      assert log == init + [last];
      LogSnoc(init, last);
      Associative(RawMessages(rt.events), LogMessages(init),
                  if PayloadToMessage(last).None? then [] else [PayloadToMessage(last).value]);
    }
  }

  lemma AppendSnoc(rt: RuntimeState, log: seq<Payload>, payload: Payload)
    ensures AppendAll(rt, log + [payload]) == Append(AppendAll(rt, log), payload)
  {
    assert (log + [payload])[..|log|] == log;
  }

  lemma LegalSnoc(rt: RuntimeState, log: seq<Payload>, payload: Payload)
    requires LegalLog(rt, log) && LegalPayload(AppendAll(rt, log), payload)
    requires payload.UserMessage? ==> TurnAnnounced(AppendAll(rt, log))
    ensures LegalLog(rt, log + [payload])
  {
    hide LegalPayload, AppendAll;
    assert (log + [payload])[..|log|] == log;
  }

  // ---------------------------------------------------------------- words under construction

  function CallPayloads(calls: seq<PreparedCall>): seq<Payload> {
    seq(|calls|, i requires 0 <= i < |calls| => ToolCalled(calls[i].callId, calls[i].toolName, calls[i].arguments))
  }

  function CallMessages(calls: seq<PreparedCall>): seq<Message> {
    seq(|calls|, i requires 0 <= i < |calls| => ToolCall(calls[i].callId, calls[i].toolName, calls[i].arguments))
  }

  function ResultPayloads(results: seq<Record>): seq<Payload> {
    seq(|results|, i requires 0 <= i < |results| => ToolReturned(results[i].callId, results[i].output))
  }

  function ResultMessages(results: seq<Record>): seq<Message> {
    seq(|results|, i requires 0 <= i < |results| => ToolResult(results[i].callId, results[i].output))
  }

  function InjectionPayloads(injections: seq<string>): seq<Payload> {
    seq(|injections|, i requires 0 <= i < |injections| => SystemMessage(PlainText(injections[i])))
  }

  function AssistantPayloads(text: string, status: MessageStatus): seq<Payload> {
    if text == "" then [] else [AssistantMessage([Text(text)], status)]
  }

  lemma PayloadWords(calls: seq<PreparedCall>, results: seq<Record>, injections: seq<string>, text: string,
                     status: MessageStatus)
    ensures LogMessages(CallPayloads(calls)) == CallMessages(calls)
    ensures LogMessages(ResultPayloads(results)) == ResultMessages(results)
    ensures LogMessages(InjectionPayloads(injections)) == InjectionWord(injections)
    ensures LogMessages(AssistantPayloads(text, status)) == AssistantWord(text, status)
  {
    LogMessagesFor(CallPayloads(calls), CallMessages(calls));
    LogMessagesFor(ResultPayloads(results), ResultMessages(results));
    LogMessagesFor(InjectionPayloads(injections), InjectionWord(injections));
    LogMessagesFor(AssistantPayloads(text, status), AssistantWord(text, status));
  }

  /** The round made of a pass's text, its prepared batch and the batch's results. */
  function MakeRound(text: string, calls: seq<PreparedCall>, results: seq<Record>): Round {
    Round(text, CallMessages(calls), ResultMessages(results))
  }

  /** One result per call, in order, with matching ids. */
  ghost predicate ResultsMatch(calls: seq<PreparedCall>, results: seq<Record>) {
    |results| == |calls| && forall i :: 0 <= i < |calls| ==> results[i].callId == calls[i].callId
  }

  /** A turn in progress: complete rounds, no last text yet. */
  ghost predicate OpenTurn(t: Turn) {
    ValidTurn(t) && t.text == ""
  }

  lemma WholeIsPrefix(t: Turn)
    requires ValidTurn(t)
    ensures IsTurnPrefix(TurnWord(t))
  {
  }

  lemma ShorterIsPrefix(word: seq<Message>, longer: seq<Message>)
    requires IsTurnPrefix(longer) && word <= longer
    ensures IsTurnPrefix(word)
  {
    hide TurnWord, ValidTurn;
    var t :| ValidTurn(t) && longer <= TurnWord(t);
    assert word <= TurnWord(t);
  }

  lemma OpeningTurn(injections: seq<string>, input: seq<ContentBlock>)
    ensures var t := Turn(injections, input, [], None, "", Complete);
      OpenTurn(t) && TurnWord(t) == OpeningWord(injections, input)
  {
  }

  lemma LastText(t: Turn, text: string, status: MessageStatus)
    requires OpenTurn(t)
    ensures var done := t.(text := text, status := status);
      ValidTurn(done) && TurnWord(done) == TurnWord(t) + AssistantWord(text, status)
  {
    hide RoundsWord;
  }

  lemma NextRound(t: Turn, r: Round)
    requires OpenTurn(t) && t.limit.None? && ValidRound(r)
    ensures var next := t.(rounds := t.rounds + [r]);
      OpenTurn(next) && TurnWord(next) == TurnWord(t) + RoundWord(r)
  {
    hide RoundWord;
    assert (t.rounds + [r])[..|t.rounds|] == t.rounds;
  }

  lemma LimitReached(t: Turn, limit: nat)
    requires OpenTurn(t) && t.limit.None? && t.rounds != []
    ensures var next := t.(limit := Some(limit));
      OpenTurn(next) && TurnWord(next) == TurnWord(t) + [System(ToolLimitNotice(limit))]
  {
    hide RoundsWord;
  }

  /** What a turn in progress writes next: a round is its text, if there is one, then its calls, then its results;
      the notice and the last text stand behind all rounds. */
  lemma WordGrows(t: Turn, r: Round, limit: nat, text: string, status: MessageStatus)
    requires OpenTurn(t)
    ensures t.rounds == [] && t.limit.None? ==>
              TurnWord(t) == seq(|t.injections|, i requires 0 <= i < |t.injections| => System(PlainText(t.injections[i])))
                             + [User(t.input)]
    ensures t.limit.None? && ValidRound(r) ==>
              TurnWord(t.(rounds := t.rounds + [r]))
              == TurnWord(t) + (if r.text == "" then [] else [Assistant([Text(r.text)], Complete)]) + r.calls + r.results
    ensures t.limit.None? && t.rounds != [] ==>
              TurnWord(t.(limit := Some(limit))) == TurnWord(t) + [System(ToolLimitNotice(limit))]
    ensures TurnWord(t.(text := text, status := status))
         == TurnWord(t) + if text == "" then [] else [Assistant([Text(text)], status)]
  {
    if t.limit.None? && ValidRound(r) {
      hide TurnWord;
      NextRound(t, r);
    }
    if t.limit.None? && t.rounds != [] {
      hide TurnWord;
      LimitReached(t, limit);
    }
    if t.rounds == [] && t.limit.None? {
      hide RoundWord;
    }
    LastText(t, text, status);
  }

  /** A round is written from the prepared calls and the results, one message each. */
  lemma RoundMeaning(text: string, calls: seq<PreparedCall>, results: seq<Record>, i: nat)
    ensures
      var r := MakeRound(text, calls, results);
      && r.text == text && |r.calls| == |calls| && |r.results| == |results|
      && (i < |calls| ==> r.calls[i] == ToolCall(calls[i].callId, calls[i].toolName, calls[i].arguments))
      && (i < |results| ==> r.results[i] == ToolResult(results[i].callId, results[i].output))
  {
  }

  /** While a round is being written the word is a prefix of one with the round complete. */
  lemma InsideRound(t: Turn, text: string, calls: seq<PreparedCall>, word: seq<Message>)
    requires OpenTurn(t) && t.limit.None? && calls != []
    requires word <= TurnWord(t) + AssistantWord(text, Complete) + CallMessages(calls)
    ensures IsTurnPrefix(word)
  {
    hide TurnWord;
    var results := seq(|calls|, i requires 0 <= i < |calls| => ToolResult(calls[i].callId, ToolOutput("", true, Null)));
    var r := Round(text, CallMessages(calls), results);
    NextRound(t, r);
    WholeIsPrefix(t.(rounds := t.rounds + [r]));
    assert TurnWord(t) + RoundWord(r) == TurnWord(t) + AssistantWord(text, Complete) + CallMessages(calls) + results;
    ShorterIsPrefix(word, TurnWord(t) + RoundWord(r));
  }

  lemma InsideResults(t: Turn, text: string, calls: seq<PreparedCall>, results: seq<Record>, word: seq<Message>)
    requires OpenTurn(t) && t.limit.None? && calls != [] && ResultsMatch(calls, results)
    requires word <= TurnWord(t) + AssistantWord(text, Complete) + CallMessages(calls) + ResultMessages(results)
    ensures IsTurnPrefix(word)
    ensures var r := MakeRound(text, calls, results);
      && ValidRound(r)
      && OpenTurn(t.(rounds := t.rounds + [r]))
      && TurnWord(t.(rounds := t.rounds + [r]))
         == TurnWord(t) + AssistantWord(text, Complete) + CallMessages(calls) + ResultMessages(results)
  {
    hide TurnWord;
    var r := MakeRound(text, calls, results);
    NextRound(t, r);
    WholeIsPrefix(t.(rounds := t.rounds + [r]));
    assert TurnWord(t) + RoundWord(r) == TurnWord(t) + AssistantWord(text, Complete) + CallMessages(calls)
        + ResultMessages(results);
    ShorterIsPrefix(word, TurnWord(t) + RoundWord(r));
  }

  /** Tool results written by these rounds. */
  function CountResults(rounds: seq<Round>): nat {
    if rounds == [] then 0 else CountResults(rounds[..|rounds| - 1]) + |rounds[|rounds| - 1].results|
  }

  /** Results are counted round by round. */
  lemma CountSnoc(rounds: seq<Round>, r: Round)
    ensures CountResults([]) == 0
    ensures CountResults(rounds + [r]) == CountResults(rounds) + |r.results|
    ensures forall i :: 0 <= i <= |rounds| ==> (rounds + [r])[..i] == rounds[..i]
    ensures (rounds + [r])[..|rounds| + 1] == rounds + [r]
  {
    assert (rounds + [r])[..|rounds|] == rounds;
  }

  // ---------------------------------------------------------------- events under construction

  predicate IsTerminal(event: EventPayload) {
    event.TurnComplete? || event.TurnCancelled?
  }

  ghost predicate NoTerminal(told: seq<EventPayload>) {
    forall i :: 0 <= i < |told| ==> !IsTerminal(told[i])
  }

  /** The events of a turn in progress: every started call has ended, no end of the turn yet. */
  ghost predicate Orderly(told: seq<EventPayload>) {
    Balanced(told) && NoTerminal(told)
  }

  /** Events that neither start nor end a call nor the turn. */
  ghost predicate Quiet(events: seq<EventPayload>) {
    forall i :: 0 <= i < |events| ==> !events[i].ToolCallStart? && !events[i].ToolCallEnd? && !IsTerminal(events[i])
  }

  lemma NothingTold()
    ensures Orderly([])
  {
    QuietBalanced([]);
  }

  lemma TellQuiet(told: seq<EventPayload>, events: seq<EventPayload>)
    requires Orderly(told) && Quiet(events)
    ensures Orderly(told + events)
  {
    QuietBalanced(events);
    BalancedConcat(told, events);
  }

  lemma TellBatch(told: seq<EventPayload>, events: seq<EventPayload>)
    requires Orderly(told) && Orderly(events)
    ensures Orderly(told + events)
  {
    BalancedConcat(told, events);
  }
}
