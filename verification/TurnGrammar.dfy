/** The words a turn may write to the ledger, and why no tool result is ever shown without its call. */
module TurnGrammar {
  import opened Domain
  import opened Ledger
  import opened Context
  import opened Runtime
  import opened Resume

  // ---------------------------------------------------------------- words

  /** One tool round: optional text, the batch's calls, and one result for each. */
  datatype Round = Round(text: string, calls: seq<Message>, results: seq<Message>)

  /** Everything one turn writes: injections, the user message, rounds, the limit notice, a last text. */
  datatype Turn = Turn(
    injections: seq<string>, input: seq<ContentBlock>, rounds: seq<Round>,
    limit: Option<nat>, text: string, status: MessageStatus)

  ghost predicate ValidRound(r: Round) {
    && |r.calls| == |r.results| > 0
    && forall i :: 0 <= i < |r.calls| ==>
         r.calls[i].ToolCall? && r.results[i].ToolResult? && r.calls[i].callId == r.results[i].callId
  }

  ghost predicate ValidRounds(rounds: seq<Round>) {
    forall i :: 0 <= i < |rounds| ==> ValidRound(rounds[i])
  }

  /** The limit notice is only ever written after a round. */
  ghost predicate ValidTurn(t: Turn) {
    ValidRounds(t.rounds) && (t.limit.Some? ==> t.rounds != [])
  }

  function InjectionWord(injections: seq<string>): seq<Message> {
    seq(|injections|, i requires 0 <= i < |injections| => System(PlainText(injections[i])))
  }

  function AssistantWord(text: string, status: MessageStatus): seq<Message> {
    if text == "" then [] else [Assistant([Text(text)], status)]
  }

  function RoundWord(r: Round): seq<Message> {
    AssistantWord(r.text, Complete) + r.calls + r.results
  }

  function RoundsWord(rounds: seq<Round>): seq<Message> {
    if rounds == [] then [] else RoundsWord(rounds[..|rounds| - 1]) + RoundWord(rounds[|rounds| - 1])
  }

  function LimitWord(limit: Option<nat>): seq<Message> {
    if limit.None? then [] else [System(ToolLimitNotice(limit.value))]
  }

  function OpeningWord(injections: seq<string>, input: seq<ContentBlock>): seq<Message> {
    InjectionWord(injections) + [User(input)]
  }

  function TurnWord(t: Turn): seq<Message> {
    OpeningWord(t.injections, t.input) + RoundsWord(t.rounds) + LimitWord(t.limit) + AssistantWord(t.text, t.status)
  }

  ghost predicate IsTurnPrefix(word: seq<Message>) {
    exists t :: ValidTurn(t) && word <= TurnWord(t)
  }

  // ---------------------------------------------------------------- answered results

  predicate IsToolMessage(m: Message) {
    m.ToolCall? || m.ToolResult?
  }

  /** Message `j` is a result inside a block of `n` calls directly followed by results, the i-th result
      answering the i-th call. */
  ghost predicate OwnBatch(w: seq<Message>, j: nat, start: nat, n: nat) {
    && start + n <= j < |w| && j < start + 2 * n
    && (forall x :: start <= x < start + n ==> w[x].ToolCall?)
    && (forall x :: start + n <= x <= j ==> w[x].ToolResult? && w[x].callId == w[x - n].callId)
    && (start > 0 ==> !w[start - 1].ToolCall?)
  }

  ghost predicate AnsweredAt(w: seq<Message>, j: nat) {
    exists start, n :: OwnBatch(w, j, start, n)
  }

  /** Every tool result has its own batch's call before it. */
  ghost predicate Answered(w: seq<Message>) {
    forall j :: 0 <= j < |w| && w[j].ToolResult? ==> AnsweredAt(w, j)
  }

  lemma AnsweredInPrefix(w: seq<Message>, p: seq<Message>, j: nat)
    requires p <= w && j < |p|
    ensures AnsweredAt(w, j) <==> AnsweredAt(p, j)
  {
    forall start, n | OwnBatch(w, j, start, n) ensures OwnBatch(p, j, start, n) {}
    forall start, n | OwnBatch(p, j, start, n) ensures OwnBatch(w, j, start, n) {}
  }

  lemma AnsweredPrefix(w: seq<Message>, p: seq<Message>)
    requires Answered(w) && p <= w
    ensures Answered(p)
  {
    hide AnsweredAt;
    forall j | 0 <= j < |p| && p[j].ToolResult? ensures AnsweredAt(p, j) {
      assert p[j] == w[j];
      AnsweredInPrefix(w, p, j);
    }
  }

  lemma ShiftBatch(a: seq<Message>, b: seq<Message>, j: nat, start: nat, n: nat)
    requires OwnBatch(b, j, start, n)
    requires start == 0 && a != [] ==> !a[|a| - 1].ToolCall?
    ensures OwnBatch(a + b, |a| + j, |a| + start, n)
  {
    var w := a + b;
    forall x | |a| + start <= x < |a| + start + n ensures w[x].ToolCall? {
      assert w[x] == b[x - |a|];
    }
    forall x | |a| + start + n <= x <= |a| + j ensures w[x].ToolResult? && w[x].callId == w[x - n].callId {
      var y := x - |a|;
      assert w[x] == b[y] && w[x - n] == b[y - n];
      assert b[y].ToolResult? && b[y].callId == b[y - n].callId;
    }
  }

  lemma AnsweredConcat(a: seq<Message>, b: seq<Message>)
    requires Answered(a) && Answered(b)
    requires a != [] && b != [] ==> !a[|a| - 1].ToolCall? || !b[0].ToolCall?
    ensures Answered(a + b)
  {
    hide OwnBatch;
    forall j | 0 <= j < |a + b| && (a + b)[j].ToolResult? ensures AnsweredAt(a + b, j) {
      if j < |a| {
        assert (a + b)[j] == a[j];
        AnsweredInPrefix(a + b, a, j);
      } else {
        assert AnsweredAt(b, j - |a|);
        var start, n :| OwnBatch(b, j - |a|, start, n);
        BatchStartsWithCall(b, j - |a|, start, n);
        ShiftBatch(a, b, j - |a|, start, n);
      }
    }
  }

  lemma BatchStartsWithCall(w: seq<Message>, j: nat, start: nat, n: nat)
    requires OwnBatch(w, j, start, n)
    ensures start < |w| && w[start].ToolCall? && forall x :: start <= x <= j ==> IsToolMessage(w[x])
  {
  }

  lemma NoResults(w: seq<Message>)
    requires forall i :: 0 <= i < |w| ==> !w[i].ToolResult?
    ensures Answered(w)
  {
  }

  lemma RoundAnswered(r: Round)
    requires ValidRound(r)
    ensures Answered(RoundWord(r)) && !RoundWord(r)[|RoundWord(r)| - 1].ToolCall?
  {
    var batch := r.calls + r.results;
    forall j | 0 <= j < |batch| && batch[j].ToolResult? ensures AnsweredAt(batch, j) {
      assert OwnBatch(batch, j, 0, |r.calls|);
    }
    NoResults(AssistantWord(r.text, Complete));
    AnsweredConcat(AssistantWord(r.text, Complete), batch);
    assert RoundWord(r) == AssistantWord(r.text, Complete) + batch;
  }

  lemma {:induction false} RoundsAnswered(rounds: seq<Round>)
    requires ValidRounds(rounds)
    ensures Answered(RoundsWord(rounds))
    ensures RoundsWord(rounds) != [] ==> !RoundsWord(rounds)[|RoundsWord(rounds)| - 1].ToolCall?
  {
    hide Answered, ValidRound;
    if rounds == [] {
      NoResults([]);
    } else {
      RoundsAnswered(rounds[..|rounds| - 1]);
      RoundAnswered(rounds[|rounds| - 1]);
      AnsweredConcat(RoundsWord(rounds[..|rounds| - 1]), RoundWord(rounds[|rounds| - 1]));
    }
  }

  /** A whole turn answers every result. */
  lemma TurnAnswered(t: Turn)
    requires ValidTurn(t)
    ensures Answered(TurnWord(t)) && !TurnWord(t)[0].ToolCall?
  {
    hide Answered, ValidRounds, RoundsWord;
    var opening, rounds, limit, last :=
      OpeningWord(t.injections, t.input), RoundsWord(t.rounds), LimitWord(t.limit), AssistantWord(t.text, t.status);
    NoResults(opening);
    RoundsAnswered(t.rounds);
    NoResults(limit);
    NoResults(last);
    AnsweredConcat(opening, rounds);
    AnsweredConcat(opening + rounds, limit);
    AnsweredConcat(opening + rounds + limit, last);
  }

  /** No orphans in the ledger: one more turn, finished or cut off anywhere, keeps every result answered. */
  lemma NextTurnAnswered(history: seq<Message>, word: seq<Message>)
    requires Answered(history) && IsTurnPrefix(word)
    ensures Answered(history + word)
  {
    hide Answered, TurnWord, ValidTurn;
    var t :| ValidTurn(t) && word <= TurnWord(t);
    TurnAnswered(t);
    AnsweredPrefix(TurnWord(t), word);
    AnsweredConcat(history, word);
  }

  /** An interrupted assistant message is the last message of its turn, and a limit notice comes at most
      once, directly after a tool result. */
  lemma SpecialMessages(t: Turn, i: nat)
    requires ValidTurn(t) && i < |TurnWord(t)|
    ensures Interrupted(TurnWord(t)[i]) ==> i == |TurnWord(t)| - 1 && t.status == Incomplete
    ensures TurnWord(t)[i].System? && TurnWord(t)[i].text.ToolLimitNotice? ==>
              && t.limit == Some(TurnWord(t)[i].text.limit)
              && i > 0 && TurnWord(t)[i - 1].ToolResult?
              && i == |TurnWord(t)| - 1 - |AssistantWord(t.text, t.status)|
  {
    hide RoundsWord;
    var opening, rounds := OpeningWord(t.injections, t.input), RoundsWord(t.rounds);
    if |opening| <= i < |opening| + |rounds| {
      assert TurnWord(t)[i] == rounds[i - |opening|];
      RoundsOrdinary(t.rounds, i - |opening|);
    } else if t.limit.Some? {
      RoundsOrdinary(t.rounds, 0);
      assert rounds != [] && TurnWord(t)[|opening| + |rounds| - 1] == rounds[|rounds| - 1];
    }
  }

  lemma {:induction false} RoundsOrdinary(rounds: seq<Round>, i: nat)
    requires ValidRounds(rounds)
    ensures rounds != [] ==> RoundsWord(rounds) != [] && RoundsWord(rounds)[|RoundsWord(rounds)| - 1].ToolResult?
    ensures i < |RoundsWord(rounds)| ==> !Interrupted(RoundsWord(rounds)[i]) && !RoundsWord(rounds)[i].System?
  {
    if rounds != [] {
      var init, last := RoundsWord(rounds[..|rounds| - 1]), RoundWord(rounds[|rounds| - 1]);
      RoundsOrdinary(rounds[..|rounds| - 1], i);
      assert ValidRound(rounds[|rounds| - 1]);
      assert last[|last| - 1].ToolResult?;
    }
  }

  // ---------------------------------------------------------------- what the model sees

  lemma {:induction false} NoticesConcat(a: seq<Message>, b: seq<Message>)
    ensures AddNotices(a + b) == AddNotices(a) + AddNotices(b)
    decreases |b|
  {
    if b == [] {
      assert a + b == a;
    } else {
      assert (a + b)[..|a + b| - 1] == a + b[..|b| - 1];
      NoticesConcat(a, b[..|b| - 1]);
    }
  }

  lemma {:induction false} RawConcat(a: seq<LedgerEvent>, b: seq<LedgerEvent>)
    ensures RawMessages(a + b) == RawMessages(a) + RawMessages(b)
    decreases |b|
  {
    if b == [] {
      assert a + b == a;
    } else {
      assert (a + b)[..|a + b| - 1] == a + b[..|b| - 1];
      RawConcat(a, b[..|b| - 1]);
    }
  }

  lemma NoticesLast(w: seq<Message>)
    requires w != []
    ensures AddNotices(w) != [] && (!w[|w| - 1].ToolCall? ==> !AddNotices(w)[|AddNotices(w)| - 1].ToolCall?)
  {
  }

  lemma AnsweredSnoc(w: seq<Message>, m: Message)
    requires Answered(w) && (m.ToolResult? ==> AnsweredAt(w + [m], |w|))
    ensures Answered(w + [m])
  {
    hide AnsweredAt;
    forall j | 0 <= j < |w + [m]| && (w + [m])[j].ToolResult? ensures AnsweredAt(w + [m], j) {
      if j < |w| {
        assert (w + [m])[j] == w[j];
        AnsweredInPrefix(w + [m], w, j);
      }
    }
  }

  /** Notices fall outside batches: the list up to the batch grows, the batch itself does not. */
  lemma BatchUntouched(p: seq<Message>, q: seq<Message>, start: nat) returns (before: seq<Message>)
    requires start <= |p + q| && forall x :: start <= x < |p + q| ==> IsToolMessage((p + q)[x])
    requires start > 0 ==> !(p + q)[start - 1].ToolCall?
    ensures AddNotices(p) + q == before + (p + q)[start..]
    ensures before != [] ==> !before[|before| - 1].ToolCall?
  {
    hide AddNotices;
    var w := p + q;
    if start > |p| {
      before := AddNotices(p) + q[..start - |p|];
      assert before[|before| - 1] == w[start - 1];
    } else {
      before := AddNotices(p[..start]);
      assert forall i :: 0 <= i < |p[start..]| ==> p[start..][i] == w[start + i];
      NoticesSplit(p, start);
      if start == 0 {
        assert p[..start] == [];
        NoticesChangeNothing(p[..start]);
      } else {
        assert w[start - 1] == p[..start][start - 1];
        NoticesLast(p[..start]);
      }
    }
  }

  lemma NoticesSplit(p: seq<Message>, start: nat)
    requires start <= |p| && forall i :: 0 <= i < |p[start..]| ==> IsToolMessage(p[start..][i])
    ensures AddNotices(p) == AddNotices(p[..start]) + p[start..]
  {
    assert p[..start] + p[start..] == p;
    NoticesConcat(p[..start], p[start..]);
    NoticesChangeNothing(p[start..]);
  }

  lemma NoticesKeepBatch(p: seq<Message>, q: seq<Message>, start: nat, n: nat)
    requires p + q != [] && OwnBatch(p + q, |p + q| - 1, start, n)
    ensures AnsweredAt(AddNotices(p) + q, |AddNotices(p) + q| - 1)
  {
    hide AddNotices;
    var w := p + q;
    BatchStartsWithCall(w, |w| - 1, start, n);
    var before := BatchUntouched(p, q, start);
    BatchSuffix(w, start, n);
    ShiftBatch(before, w[start..], |w[start..]| - 1, 0, n);
  }

  lemma BatchSuffix(w: seq<Message>, start: nat, n: nat)
    requires w != [] && OwnBatch(w, |w| - 1, start, n)
    ensures OwnBatch(w[start..], |w[start..]| - 1, 0, n)
  {
    var batch := w[start..];
    forall x | 0 <= x < n ensures batch[x].ToolCall? {
      assert w[start + x].ToolCall?;
    }
    forall x | n <= x < |batch| ensures batch[x].ToolResult? && batch[x].callId == batch[x - n].callId {
      assert w[start + x].ToolResult? && w[start + x].callId == w[start + x - n].callId;
    }
  }

  lemma {:induction false} NoticesAnswered(p: seq<Message>, q: seq<Message>)
    requires Answered(p + q)
    ensures Answered(AddNotices(p) + q)
    decreases |p|, |q|
  {
    hide OwnBatch, AnsweredAt, Answered;
    var w := p + q;
    if q != [] {
      var q', last := q[..|q| - 1], q[|q| - 1];
      assert p + q' == w[..|w| - 1] && w == w[..|w| - 1] + [last];
      AnsweredPrefix(w, p + q');
      NoticesAnswered(p, q');
      LastAnswered(p, q);
      assert AddNotices(p) + q == (AddNotices(p) + q') + [last];
      AnsweredSnoc(AddNotices(p) + q', last);
    } else if p != [] {
      var p', last := p[..|p| - 1], p[|p| - 1];
      assert p' + [last] == p && p + q == p && p' + q == p' && p' <= p;
      NoticesAnswered(p', [last]);
      assert AddNotices(p) == AddNotices(p') + WithNotice(last);
      if Interrupted(last) {
        AnsweredSnoc(AddNotices(p') + [last], System(ResumeNotice));
        assert AddNotices(p') + [last] + [System(ResumeNotice)] == AddNotices(p);
      } else {
        assert AddNotices(p') + [last] == AddNotices(p);
      }
      assert AddNotices(p) + q == AddNotices(p);
    } else {
      assert AddNotices(p) + q == [];
      NoResults([]);
    }
  }

  lemma LastAnswered(p: seq<Message>, q: seq<Message>)
    requires q != [] && Answered(p + q)
    ensures q[|q| - 1].ToolResult? ==> AnsweredAt(AddNotices(p) + q, |AddNotices(p) + q| - 1)
  {
    hide OwnBatch;
    var w := p + q;
    if q[|q| - 1].ToolResult? {
      assert w[|w| - 1] == q[|q| - 1];
      assert AnsweredAt(w, |w| - 1);
      var start, n :| OwnBatch(w, |w| - 1, start, n);
      NoticesKeepBatch(p, q, start, n);
    }
  }

  /** Cutting in front of a user message separates no result from its call. */
  lemma CutAnswered(w: seq<Message>, c: nat)
    requires Answered(w) && (c < |w| ==> w[c].User?) && c <= |w|
    ensures Answered(w[c..])
  {
    hide OwnBatch;
    forall j | 0 <= j < |w[c..]| && w[c..][j].ToolResult? ensures AnsweredAt(w[c..], j) {
      assert w[c..][j] == w[c + j];
      assert AnsweredAt(w, c + j);
      var start, n :| OwnBatch(w, c + j, start, n);
      CutBatch(w, c, c + j, start, n);
    }
  }

  lemma CutBatch(w: seq<Message>, c: nat, j: nat, start: nat, n: nat)
    requires c < |w| && w[c].User? && c <= j && OwnBatch(w, j, start, n)
    ensures start > c && OwnBatch(w[c..], j - c, start - c, n)
  {
    BatchStartsWithCall(w, j, start, n);
    var v := w[c..];
    assert forall x :: 0 <= x < |v| ==> v[x] == w[c + x];
    forall x | start - c <= x < start - c + n ensures v[x].ToolCall? {
      assert w[c + x].ToolCall?;
    }
    forall x | start - c + n <= x <= j - c ensures v[x].ToolResult? && v[x].callId == v[x - n].callId {
      assert w[c + x].ToolResult? && w[c + x].callId == w[c + x - n].callId;
    }
  }

  lemma CutMessages(events: seq<LedgerEvent>, u: nat)
    requires u < |events| && events[u].payload.UserMessage?
    ensures
      var c := |RawMessages(events[..u])|;
      && c < |RawMessages(events)| && RawMessages(events)[c].User?
      && RawMessages(events)[c..] == RawMessages(events[u..])
  {
    RawConcat(events[..u], events[u..]);
    assert events[..u] + events[u..] == events;
    RawConcat([events[u]], events[u + 1..]);
    assert [events[u]] + events[u + 1..] == events[u..] && [events[u]][..0] == [];
  }

  /** What is visible, in terms of messages: the summary, the messages up to the last rebuild with
      notices, the messages pushed since. `from` is where the boundary cuts the ledger. */
  lemma VisibleShape(rt: RuntimeState, agent: AgentDefaults) returns (from: nat)
    requires SessionInvariant(rt, agent) && rt.nextSeq < U64_MAX
    ensures from <= rt.context.rebuiltAt <= |rt.events|
    ensures from == 0 || (from < |rt.events| && rt.events[from].payload.UserMessage?)
    ensures
      var k := rt.context.rebuiltAt;
      var summary := MessagesOf(SummaryEntry(rt.context.latest));
      && rt.context.visible == summary + (AddNotices(RawMessages(rt.events[from..k])) + RawMessages(rt.events[k..]))
      && Rebuild(rt.events, rt.context.latest) == summary + AddNotices(RawMessages(rt.events[from..]))
  {
    hide EstimateTokens, ProjectEvents, RawMessages, AddNotices, RestoreSettings, MessagesOf;
    var k, latest := rt.context.rebuiltAt, rt.context.latest;
    if latest.None? {
      from := 0;
    } else {
      var u :| 0 <= u < |rt.events[..k]| && rt.events[..k][u].payload.UserMessage?
               && rt.events[..k][u].seqNo == MinVisible(latest) + 1;
      from := u;
    }
    HiddenBelow(rt.events, MinVisible(latest), from);
    HiddenBelow(rt.events[..k], MinVisible(latest), from);
    assert rt.events[..k][from..] == rt.events[from..k];
    SplitMessages(SummaryEntry(latest), ProjectEvents(rt.events, MinVisible(latest)));
    SplitMessages(SummaryEntry(latest), ProjectEvents(rt.events[..k], MinVisible(latest)));
    Associative(MessagesOf(SummaryEntry(latest)), AddNotices(RawMessages(rt.events[from..k])),
                RawMessages(rt.events[k..]));
  }

  /** A boundary just below event `from` hides exactly the events before it. */
  lemma HiddenBelow(events: seq<LedgerEvent>, min: nat, from: nat)
    requires Sorted(events) && from <= |events|
    requires from == 0 ==> min == 0 || (events != [] && events[0].seqNo == min + 1)
    requires from > 0 ==> from < |events| && events[from].seqNo == min + 1
    ensures MessagesOf(ProjectEvents(events, min)) == AddNotices(RawMessages(events[from..]))
  {
    hide ProjectEvents, RawMessages, AddNotices, MessagesOf, Sorted;
    var head, tail := events[..from], events[from..];
    assert head + tail == events;
    BoundaryAt(events, min, from);
    ProjectConcat(head, tail, min);
    ProjectHidden(head, min);
    RebuildTail(tail, min);
    assert [] + ProjectEvents(tail, min) == ProjectEvents(tail, min);
  }

  lemma BoundaryAt(events: seq<LedgerEvent>, min: nat, from: nat)
    requires Sorted(events) && from <= |events|
    requires from == 0 ==> min == 0 || (events != [] && events[0].seqNo == min + 1)
    requires from > 0 ==> from < |events| && events[from].seqNo == min + 1
    ensures forall i :: 0 <= i < |events[..from]| ==> events[..from][i].seqNo <= min
    ensures AllAbove(events[from..], min)
  {
    forall i | 0 <= i < |events[from..]| ensures events[from..][i].seqNo > min {
      assert events[from..][i] == events[from + i];
      assert i > 0 ==> events[from].seqNo < events[from + i].seqNo;
    }
    forall i | 0 <= i < from ensures events[..from][i].seqNo <= min {
      assert events[i].seqNo < events[from].seqNo;
    }
  }

  /** No orphans: with every result answered in the ledger, every result the model can see, live or after a
      rebuild, has its own batch's call visible before it, however often the context was compacted. So has
      every result in the input of a compaction. */
  lemma NoOrphans(rt: RuntimeState, agent: AgentDefaults)
    requires SessionInvariant(rt, agent) && rt.nextSeq < U64_MAX && Answered(RawMessages(rt.events))
    ensures Answered(rt.context.visible)
    ensures Answered(Rebuild(rt.events, rt.context.latest))
    ensures BuildPlan(rt.events, rt.context.latest).Ok? ==>
              Answered(BuildPlan(rt.events, rt.context.latest).value.compactable)
  {
    hide Answered, RawMessages, AddNotices, Coherent, BuildPlan, ProjectEvents;
    var from := VisibleShape(rt, agent);
    var k := rt.context.rebuiltAt;
    if from < |rt.events| && rt.events[from].payload.UserMessage? {
      CutMessages(rt.events, from);
      CutAnswered(RawMessages(rt.events), |RawMessages(rt.events[..from])|);
    } else {
      assert rt.events[from..] == rt.events;
    }
    RawConcat(rt.events[from..k], rt.events[k..]);
    assert rt.events[from..k] + rt.events[k..] == rt.events[from..];
    NoticesAnswered(RawMessages(rt.events[from..k]), RawMessages(rt.events[k..]));
    assert RawMessages(rt.events[from..]) + [] == RawMessages(rt.events[from..]);
    NoticesAnswered(RawMessages(rt.events[from..]), []);
    assert AddNotices(RawMessages(rt.events[from..])) + [] == AddNotices(RawMessages(rt.events[from..]));
    var summary := MessagesOf(SummaryEntry(rt.context.latest));
    NoResults(summary);
    AnsweredConcat(summary, AddNotices(RawMessages(rt.events[from..k])) + RawMessages(rt.events[k..]));
    AnsweredConcat(summary, AddNotices(RawMessages(rt.events[from..])));
    if BuildPlan(rt.events, rt.context.latest).Ok? {
      var u := PlanCut(rt.events, rt.context.latest);
      AnsweredPrefix(Rebuild(rt.events, rt.context.latest), BuildPlan(rt.events, rt.context.latest).value.compactable);
    }
  }
}
