/** The model-visible projection of the ledger and its compaction
    (src/application/context_manager.rs). */
module Context {
  import opened Domain
  import opened Ledger
  import opened Text

  // ---------------------------------------------------------------- projection

  /** One projected message and the ledger number it came from; synthetic messages have none. */
  datatype Entry = Entry(seqNo: Option<nat>, message: Message)

  function PayloadToMessage(payload: Payload): Option<Message> {
    match payload
    case UserMessage(content) => Some(User(content))
    case AssistantMessage(content, status) => Some(Assistant(content, status))
    case ToolCalled(callId, toolName, arguments) => Some(ToolCall(callId, toolName, arguments))
    case ToolReturned(callId, output) => Some(ToolResult(callId, output))
    case SystemMessage(text) => Some(System(text))
    case Metadata(_, _) => None
  }

  predicate Interrupted(message: Message) {
    message.Assistant? && message.status == Incomplete
  }

  /** A message as a rebuild shows it: an interrupted one is followed by a notice. */
  function WithNotice(message: Message): seq<Message> {
    [message] + if Interrupted(message) then [System(ResumeNotice)] else []
  }

  function PushProjected(projected: seq<Entry>, seqNo: Option<nat>, message: Message): seq<Entry> {
    projected + [Entry(seqNo, message)]
    + if Interrupted(message) then [Entry(None, System(ResumeNotice))] else []
  }

  /** The entries of one event: none at or below `min`, and none for metadata. */
  function ProjectEvent(event: LedgerEvent, min: nat): seq<Entry> {
    var message := PayloadToMessage(event.payload);
    if event.seqNo <= min || message.None? then [] else PushProjected([], Some(event.seqNo), message.value)
  }

  /** The entries of all events numbered above `min`. */
  function ProjectEvents(events: seq<LedgerEvent>, min: nat): seq<Entry> {
    if events == [] then [] else ProjectEvents(events[..|events| - 1], min) + ProjectEvent(events[|events| - 1], min)
  }

  function MinVisible(latest: Option<CompactionMarker>): nat {
    if latest.None? then 0 else latest.value.replacesThroughSeq
  }

  function SummaryEntry(latest: Option<CompactionMarker>): seq<Entry> {
    if latest.None? then [] else [Entry(None, System(latest.value.renderedSummary))]
  }

  function ProjectVisible(events: seq<LedgerEvent>, latest: Option<CompactionMarker>): seq<Entry> {
    SummaryEntry(latest) + ProjectEvents(events, MinVisible(latest))
  }

  function MessagesOf(entries: seq<Entry>): seq<Message> {
    seq(|entries|, i requires 0 <= i < |entries| => entries[i].message)
  }

  /** What a rebuild from the ledger shows the model. */
  function Rebuild(events: seq<LedgerEvent>, latest: Option<CompactionMarker>): seq<Message> {
    MessagesOf(ProjectVisible(events, latest))
  }

  /** The newest compaction marker; `Err` when its metadata does not deserialise. */
  function LatestMarker(events: seq<LedgerEvent>): Result<Option<CompactionMarker>, ()> {
    match LatestMetadata(events, ContextCompactionKey)
    case None => Ok(None)
    case Some(MarkerValue(marker)) => Ok(Some(marker))
    case Some(_) => Err(())
  }

  lemma {:induction false} ProjectConcat(a: seq<LedgerEvent>, b: seq<LedgerEvent>, min: nat)
    ensures ProjectEvents(a + b, min) == ProjectEvents(a, min) + ProjectEvents(b, min)
    decreases |b|
  {
    if b == [] {
      assert a + b == a;
    } else {
      var b' := b[..|b| - 1];
      assert (a + b)[..|a + b| - 1] == a + b';
      ProjectConcat(a, b', min);
      Associative(ProjectEvents(a, min), ProjectEvents(b', min), ProjectEvent(b[|b| - 1], min));
    }
  }

  lemma Associative<T>(a: seq<T>, b: seq<T>, c: seq<T>)
    ensures (a + b) + c == a + (b + c)
  {
  }

  lemma ProjectOne(event: LedgerEvent, min: nat)
    ensures ProjectEvents([event], min) == ProjectEvent(event, min)
  {
    assert [event][..0] == [];
  }

  /** What each event contributes to a rebuilt context, at its own place: its message if it lies above the boundary,
      an interrupted one with its notice behind it; metadata and everything below the boundary nothing. */
  lemma ProjectionMeaning(events: seq<LedgerEvent>, min: nat, i: nat)
    requires i < |events|
    ensures MessagesOf(ProjectEvents(events, min))
         == MessagesOf(ProjectEvents(events[..i], min))
            + (if events[i].seqNo <= min then []
               else match events[i].payload
                    case UserMessage(content) => [User(content)]
                    case AssistantMessage(content, status) =>
                      if status == Incomplete then [Assistant(content, Incomplete), System(ResumeNotice)]
                      else [Assistant(content, Complete)]
                    case ToolCalled(callId, toolName, arguments) => [ToolCall(callId, toolName, arguments)]
                    case ToolReturned(callId, output) => [ToolResult(callId, output)]
                    case SystemMessage(text) => [System(text)]
                    case Metadata(_, _) => [])
            + MessagesOf(ProjectEvents(events[i + 1..], min))
    ensures ProjectEvents([], min) == []
  {
    hide ProjectEvents;
    var head, event, tail := events[..i], events[i], events[i + 1..];
    assert events == (head + [event]) + tail;
    NothingProjected(events);
    assert events[..0] == [];
    ProjectConcat(head + [event], tail, min);
    ProjectConcat(head, [event], min);
    ProjectOne(event, min);
  }

  lemma {:induction false} ProjectHidden(events: seq<LedgerEvent>, min: nat)
    requires forall i :: 0 <= i < |events| ==> events[i].seqNo <= min
    ensures ProjectEvents(events, min) == []
  {
    if events != [] {
      ProjectHidden(events[..|events| - 1], min);
    }
  }

  lemma {:induction false} ProjectShown(events: seq<LedgerEvent>, min1: nat, min2: nat)
    requires forall i :: 0 <= i < |events| ==> events[i].seqNo > min1 && events[i].seqNo > min2
    ensures ProjectEvents(events, min1) == ProjectEvents(events, min2)
  {
    if events != [] {
      ProjectShown(events[..|events| - 1], min1, min2);
    }
  }

  /** Numbers in a projection are numbers of the projected events. */
  lemma {:induction false} ProjectNumbers(events: seq<LedgerEvent>, min: nat, k: nat)
    requires k < |ProjectEvents(events, min)| && ProjectEvents(events, min)[k].seqNo.Some?
    ensures exists i :: 0 <= i < |events| && events[i].seqNo == ProjectEvents(events, min)[k].seqNo.value
  {
    var init := ProjectEvents(events[..|events| - 1], min);
    if k < |init| {
      ProjectNumbers(events[..|events| - 1], min, k);
    }
  }

  // ---------------------------------------------------------------- token estimates

  function BlockChars(block: ContentBlock): nat {
    match block
    case Text(text) => ByteLen(text)
    case Image(data, mediaType) => ByteLen(data) + ByteLen(mediaType)
    case File(name, mediaType, text) => ByteLen(name) + ByteLen(mediaType) + ByteLen(text)
  }

  function BlocksChars(blocks: seq<ContentBlock>): nat {
    if blocks == [] then 0 else BlockChars(blocks[0]) + BlocksChars(blocks[1..])
  }

  function MessageChars(message: Message): nat {
    match message
    case User(content) => BlocksChars(content)
    case Assistant(content, _) => BlocksChars(content)
    case ToolCall(callId, toolName, arguments) => ByteLen(callId) + ByteLen(toolName) + JsonLen(arguments)
    case ToolResult(callId, output) => ByteLen(callId) + ByteLen(output.content) + JsonLen(output.metadata)
    case System(text) => SystemTextLen(text)
  }

  function TotalChars(messages: seq<Message>): nat {
    if messages == [] then 0 else MessageChars(messages[0]) + TotalChars(messages[1..])
  }

  /** Everything of a block that counts. */
  ghost function BlockTexts(block: ContentBlock): seq<string> {
    match block
    case Text(text) => [text]
    case Image(data, mediaType) => [data, mediaType]
    case File(name, mediaType, text) => [name, mediaType, text]
  }

  /** Everything of a message that counts, apart from the kernel's own system texts: the whole content, and what a
      tool call or a tool result carries, arguments and metadata as they are serialised. */
  ghost function MessageTexts(message: Message): seq<string> {
    match message
    case User(content) => BlocksTexts(content)
    case Assistant(content, _) => BlocksTexts(content)
    case ToolCall(callId, toolName, arguments) => [callId, toolName, JsonText(arguments)]
    case ToolResult(callId, output) => [callId, output.content, JsonText(output.metadata)]
    case System(text) => if text.PlainText? then [text.text] else []
  }

  ghost function BlocksTexts(blocks: seq<ContentBlock>): seq<string> {
    if blocks == [] then [] else BlockTexts(blocks[0]) + BlocksTexts(blocks[1..])
  }

  ghost function Bytes(texts: seq<string>): nat {
    if texts == [] then 0 else ByteLen(texts[0]) + Bytes(texts[1..])
  }

  lemma {:induction false} BytesConcat(a: seq<string>, b: seq<string>)
    ensures Bytes(a + b) == Bytes(a) + Bytes(b)
  {
    hide ByteLen;
    if a == [] {
      assert a + b == b;
    } else {
      assert (a + b)[1..] == a[1..] + b;
      BytesConcat(a[1..], b);
    }
  }

  lemma FewBytes(a: string, b: string, c: string)
    ensures Bytes([a]) == ByteLen(a) && Bytes([a, b]) == ByteLen(a) + ByteLen(b)
    ensures Bytes([a, b, c]) == ByteLen(a) + ByteLen(b) + ByteLen(c)
  {
    hide ByteLen;
    assert [b][1..] == [] && [a][1..] == [] && [c][1..] == [];
    BytesConcat([a], [b]);
    BytesConcat([a], [b, c]);
    BytesConcat([b], [c]);
    assert [a] + [b] == [a, b] && [b] + [c] == [b, c] && [a] + [b, c] == [a, b, c];
  }

  lemma BlockBytes(block: ContentBlock)
    ensures BlockChars(block) == Bytes(BlockTexts(block))
  {
    hide ByteLen, Bytes;
    match block
    case Text(text) => FewBytes(text, "", "");
    case Image(data, mediaType) => FewBytes(data, mediaType, "");
    case File(name, mediaType, text) => FewBytes(name, mediaType, text);
  }

  lemma {:induction false} BlocksBytes(blocks: seq<ContentBlock>)
    ensures BlocksChars(blocks) == Bytes(BlocksTexts(blocks))
  {
    hide ByteLen, BlockChars, BlockTexts;
    if blocks != [] {
      BlocksBytes(blocks[1..]);
      BlockBytes(blocks[0]);
      BytesConcat(BlockTexts(blocks[0]), BlocksTexts(blocks[1..]));
    }
  }

  /** A message counts with the bytes of everything it carries; only a system text that the kernel wrote itself has a
      fixed length. */
  lemma MessageBytes(message: Message)
    ensures !message.System? || message.text.PlainText? ==> MessageChars(message) == Bytes(MessageTexts(message))
  {
    hide ByteLen, JsonLen, JsonText, Bytes;
    match message
    case User(content) => BlocksBytes(content);
    case Assistant(content, _) => BlocksBytes(content);
    case ToolCall(callId, toolName, arguments) =>
      JsonBytes(arguments);
      FewBytes(callId, toolName, JsonText(arguments));
    case ToolResult(callId, output) =>
      JsonBytes(output.metadata);
      FewBytes(callId, output.content, JsonText(output.metadata));
    case System(text) =>
      if text.PlainText? {
        FewBytes(text.text, "", "");
      }
  }

  /** The estimate of a list is a quarter of what its messages count together, none of them left out. */
  lemma {:induction false} CharsConcat(a: seq<Message>, b: seq<Message>)
    ensures TotalChars(a + b) == TotalChars(a) + TotalChars(b)
    ensures forall m: Message :: TotalChars([m]) == MessageChars(m)
    ensures EstimateTokens(a) == TotalChars(a) / 4
  {
    hide MessageChars;
    assert forall m: Message :: [m][1..] == [];
    if a == [] {
      assert a + b == b;
    } else {
      assert (a + b)[1..] == a[1..] + b;
      CharsConcat(a[1..], b);
    }
  }

  function EstimateTokens(messages: seq<Message>): nat {
    TotalChars(messages) / 4
  }

  /** Three tenths of the window; the product saturates at the end of `usize`. */
  function TruncationTarget(window: nat): nat {
    (if window * 3 > U64_MAX then U64_MAX else window * 3) / 10
  }

  /** Within the target is within three tenths of the window, unless three times the window exceeds `usize`. */
  lemma ThreeTenths(window: nat, tokens: nat)
    ensures tokens <= TruncationTarget(window) <==> tokens * 10 <= window * 3 && tokens * 10 <= U64_MAX
  {
  }

  // ---------------------------------------------------------------- compaction plan

  datatype CompactError = NoAnchor | AnchorMissing | NoEarlierHistory | DoesNotFit

  datatype Plan = Plan(compactable: seq<Message>, retained: seq<Message>, replacesThroughSeq: nat)

  /** Number of the newest user message above `min`. */
  function FindAnchor(events: seq<LedgerEvent>, min: nat): Option<nat> {
    if events == [] then None
    else
      var last := events[|events| - 1];
      if last.payload.UserMessage? && last.seqNo > min then Some(last.seqNo)
      else FindAnchor(events[..|events| - 1], min)
  }

  function Position(entries: seq<Entry>, seqNo: nat): Option<nat> {
    if entries == [] then None
    else if entries[0].seqNo == Some(seqNo) then Some(0)
    else
      var rest := Position(entries[1..], seqNo);
      if rest.None? then None else Some(rest.value + 1)
  }

  function BuildPlan(events: seq<LedgerEvent>, latest: Option<CompactionMarker>): (r: Result<Plan, CompactError>)
  {
    var projected := ProjectVisible(events, latest);
    var anchor := FindAnchor(events, MinVisible(latest));
    if anchor.None? then Err(NoAnchor)
    else
      var split := Position(projected, anchor.value);
      if split.None? || split.value > |projected| then Err(AnchorMissing)
      else if split.value == 0 then Err(NoEarlierHistory)
      else Ok(Plan(MessagesOf(projected[..split.value]), MessagesOf(projected[split.value..]),
                   if anchor.value == 0 then 0 else anchor.value - 1))
  }

  function ProjectedMessages(renderedSummary: SystemText, retained: seq<Message>): seq<Message> {
    [System(renderedSummary)] + retained
  }

  predicate Fits(renderedSummary: SystemText, retained: seq<Message>, maxTokens: nat) {
    EstimateTokens(ProjectedMessages(renderedSummary, retained)) <= maxTokens
  }

  /** How the compact model's request ended. */
  datatype SummaryAnswer = Summarised(text: string) | SummaryFailed | SummaryCancelled

  datatype GenerateError = CompactFailed(reason: CompactError) | RequestCancelled

  /** `str::trim`. */
  function Trim(s: string): string {
    if s == "" then ""
    else if IsWhitespace(s[0]) then Trim(s[1..])
    else if IsWhitespace(s[|s| - 1]) then Trim(s[..|s| - 1])
    else s
  }

  /** The summary marker if the model produced a non-blank summary that fits the window, otherwise the
      truncation marker if that fits three tenths of it. */
  function GenerateMarker(events: seq<LedgerEvent>, latest: Option<CompactionMarker>, window: nat,
                          answer: SummaryAnswer): Result<CompactionMarker, GenerateError>
  {
    var plan := BuildPlan(events, latest);
    if plan.Err? then Err(CompactFailed(plan.error))
    else if answer.SummaryCancelled? then Err(RequestCancelled)
    else
      var through, retained := plan.value.replacesThroughSeq, plan.value.retained;
      if answer.Summarised? && Trim(answer.text) != "" && Fits(CompactSummary(Trim(answer.text)), retained, window) then
        Ok(CompactionMarker(through, CompactSummary(Trim(answer.text))))
      else if Fits(TruncationSummary, retained, TruncationTarget(window)) then
        Ok(CompactionMarker(through, TruncationSummary))
      else Err(CompactFailed(DoesNotFit))
  }

  /** Trimming takes away white space at both ends and nothing else. */
  lemma {:induction false} TrimMeaning(a: string, s: string, b: string)
    requires IsBlank(a) && IsBlank(b)
    requires s == "" || (!IsWhitespace(s[0]) && !IsWhitespace(s[|s| - 1]))
    ensures Trim(a + s + b) == s
    decreases |a| + |b|
  {
    hide IsWhitespace;
    if a != "" {
      assert a[0] in a && (a + s + b)[1..] == a[1..] + s + b;
      assert forall c :: c in a[1..] ==> c in a;
      TrimMeaning(a[1..], s, b);
    } else if b != "" && s == "" {
      assert b[0] in b && (a + s + b)[1..] == a + s + b[1..];
      assert forall c :: c in b[1..] ==> c in b;
      TrimMeaning(a, s, b[1..]);
    } else if b != "" {
      assert b[|b| - 1] in b && (a + s + b)[..|a + s + b| - 1] == a + s + b[..|b| - 1];
      assert (a + s + b)[0] == s[0] && (a + s + b)[|a + s + b| - 1] == b[|b| - 1];
      assert forall c :: c in b[..|b| - 1] ==> c in b;
      TrimMeaning(a, s, b[..|b| - 1]);
    } else {
      assert a + s + b == s;
    }
  }

  /** A usable summary is kept: whatever white space surrounds it, its text becomes the marker's summary exactly when
      it fits the window together with the retained messages. Otherwise the result is that of a failed summary. */
  lemma SummaryIsKept(events: seq<LedgerEvent>, latest: Option<CompactionMarker>, window: nat, a: string, s: string,
                      b: string)
    requires BuildPlan(events, latest).Ok? && IsBlank(a) && IsBlank(b)
    requires s != "" && !IsWhitespace(s[0]) && !IsWhitespace(s[|s| - 1])
    ensures
      var plan := BuildPlan(events, latest).value;
      GenerateMarker(events, latest, window, Summarised(a + s + b)) ==
        if EstimateTokens([System(CompactSummary(s))] + plan.retained) <= window
        then Ok(CompactionMarker(plan.replacesThroughSeq, CompactSummary(s)))
        else GenerateMarker(events, latest, window, SummaryFailed)
  {
    hide BuildPlan, EstimateTokens, Trim, IsWhitespace;
    TrimMeaning(a, s, b);
  }

  /** A blank summary is a failed one; a cancelled one cancels; without a plan nothing else matters. */
  lemma SummaryIsRefused(events: seq<LedgerEvent>, latest: Option<CompactionMarker>, window: nat, text: string,
                         answer: SummaryAnswer)
    ensures IsBlank(text) ==>
              GenerateMarker(events, latest, window, Summarised(text))
              == GenerateMarker(events, latest, window, SummaryFailed)
    ensures match BuildPlan(events, latest)
      case Err(reason) => GenerateMarker(events, latest, window, answer) == Err(CompactFailed(reason))
      case Ok(plan) =>
        && GenerateMarker(events, latest, window, SummaryCancelled) == Err(RequestCancelled)
        && GenerateMarker(events, latest, window, SummaryFailed) ==
             if EstimateTokens([System(TruncationSummary)] + plan.retained) <= TruncationTarget(window)
             then Ok(CompactionMarker(plan.replacesThroughSeq, TruncationSummary))
             else Err(CompactFailed(DoesNotFit))
  {
    hide BuildPlan, EstimateTokens, Trim, IsWhitespace, TruncationTarget;
    if IsBlank(text) {
      TrimMeaning(text, "", "");
      assert text + "" + "" == text;
    }
  }

  lemma {:induction false} PositionFirst(before: seq<Entry>, after: seq<Entry>, seqNo: nat)
    requires forall k :: 0 <= k < |before| ==> before[k].seqNo != Some(seqNo)
    requires after != [] && after[0].seqNo == Some(seqNo)
    ensures Position(before + after, seqNo) == Some(|before|)
  {
    if before == [] {
      assert before + after == after;
    } else {
      assert (before + after)[1..] == before[1..] + after;
      PositionFirst(before[1..], after, seqNo);
    }
  }

  /** Where the anchor is: the last user message, above `min`, with no user message after it. */
  lemma {:induction false} AnchorIndex(events: seq<LedgerEvent>, min: nat) returns (u: nat)
    requires FindAnchor(events, min).Some?
    ensures u < |events| && events[u].payload.UserMessage?
    ensures events[u].seqNo == FindAnchor(events, min).value > min
    ensures forall i :: u < i < |events| && events[i].payload.UserMessage? ==> events[i].seqNo <= min
  {
    u := |events| - 1;
    var last := events[u];
    if !(last.payload.UserMessage? && last.seqNo > min) {
      u := AnchorIndex(events[..|events| - 1], min);
    }
  }

  lemma {:induction false} AnchorExists(events: seq<LedgerEvent>, min: nat, u: nat)
    requires u < |events| && events[u].payload.UserMessage? && events[u].seqNo > min
    requires forall i :: u < i < |events| ==> !events[i].payload.UserMessage?
    ensures FindAnchor(events, min) == Some(events[u].seqNo)
  {
    if u < |events| - 1 {
      AnchorExists(events[..|events| - 1], min, u);
    }
  }

  lemma ProjectUserFirst(anchor: LedgerEvent, rest: seq<LedgerEvent>, min: nat)
    requires anchor.payload.UserMessage? && anchor.seqNo > min
    ensures ProjectEvents([anchor] + rest, min)
         == [Entry(Some(anchor.seqNo), User(anchor.payload.content))] + ProjectEvents(rest, min)
  {
    hide ProjectEvents;
    ProjectConcat([anchor], rest, min);
    ProjectOne(anchor, min);
  }

  lemma ProjectAround(head: seq<LedgerEvent>, tail: seq<LedgerEvent>, min: nat, below: nat)
    requires forall i :: 0 <= i < |head| ==> head[i].seqNo <= below
    requires forall i :: 0 <= i < |tail| ==> tail[i].seqNo > below >= min
    ensures ProjectEvents(head + tail, below) == ProjectEvents(tail, below)
    ensures ProjectEvents(head + tail, min) == ProjectEvents(head, min) + ProjectEvents(tail, below)
  {
    ProjectConcat(head, tail, min);
    ProjectConcat(head, tail, below);
    ProjectHidden(head, below);
    ProjectShown(tail, min, below);
  }

  /** A marker ending just below event `u` leaves visible exactly the projection from `u` on, which
      starts with that event's own message. */
  lemma ProjectFrom(events: seq<LedgerEvent>, min: nat, u: nat)
    requires Sorted(events) && u < |events| && events[u].payload.UserMessage? && events[u].seqNo > min
    ensures ProjectEvents(events, min) == ProjectEvents(events[..u], min) + ProjectEvents(events, events[u].seqNo - 1)
    ensures ProjectEvents(events, events[u].seqNo - 1) != []
    ensures ProjectEvents(events, events[u].seqNo - 1)[0]
              == Entry(Some(events[u].seqNo), User(events[u].payload.content))
  {
    hide ProjectEvents, Position;
    SortedAround(events, u);
    var head, tail := events[..u], events[u..];
    assert head + tail == events;
    ProjectAround(head, tail, min, events[u].seqNo - 1);
    ProjectStartsWith(tail, events[u].seqNo - 1);
  }

  lemma ProjectStartsWith(tail: seq<LedgerEvent>, min: nat)
    requires tail != [] && tail[0].payload.UserMessage? && tail[0].seqNo > min
    ensures ProjectEvents(tail, min) != []
    ensures ProjectEvents(tail, min)[0] == Entry(Some(tail[0].seqNo), User(tail[0].payload.content))
  {
    assert [tail[0]] + tail[1..] == tail;
    ProjectUserFirst(tail[0], tail[1..], min);
  }

  lemma SortedAround(events: seq<LedgerEvent>, u: nat)
    requires Sorted(events) && u < |events|
    ensures forall i :: 0 <= i < |events[..u]| ==> events[..u][i].seqNo <= events[u].seqNo - 1
    ensures forall i :: 0 <= i < |events[u..]| ==> events[u..][i].seqNo > events[u].seqNo - 1
  {
  }

  lemma NumberAbsent(events: seq<LedgerEvent>, min: nat, seqNo: nat, k: nat)
    requires forall i :: 0 <= i < |events| ==> events[i].seqNo != seqNo
    requires k < |ProjectEvents(events, min)|
    ensures ProjectEvents(events, min)[k].seqNo != Some(seqNo)
  {
    if ProjectEvents(events, min)[k].seqNo.Some? {
      ProjectNumbers(events, min, k);
    }
  }

  /** The projection is cut in front of the anchor's own message. */
  lemma SplitAtAnchor(events: seq<LedgerEvent>, latest: Option<CompactionMarker>, u: nat)
    requires Sorted(events) && u < |events|
    requires events[u].payload.UserMessage? && events[u].seqNo > MinVisible(latest)
    ensures
      var before := SummaryEntry(latest) + ProjectEvents(events[..u], MinVisible(latest));
      var after := ProjectEvents(events, events[u].seqNo - 1);
      && ProjectVisible(events, latest) == before + after
      && Position(ProjectVisible(events, latest), events[u].seqNo) == Some(|before|)
      && |after| > 0
  {
    hide ProjectEvents, Position;
    var anchor := events[u].seqNo;
    ProjectFrom(events, MinVisible(latest), u);
    var head, summary := ProjectEvents(events[..u], MinVisible(latest)), SummaryEntry(latest);
    forall k | 0 <= k < |head| ensures head[k].seqNo != Some(anchor) {
      NumberAbsent(events[..u], MinVisible(latest), anchor, k);
    }
    var after := ProjectEvents(events, anchor - 1);
    PositionFirst(summary + head, after, anchor);
    assert summary + (head + after) == (summary + head) + after;
  }

  // ---------------------------------------------------------------- theorems about compaction

  /** Event `u` is the user message in front of which the plan cuts. */
  ghost predicate CutsInFrontOf(plan: Plan, events: seq<LedgerEvent>, u: nat) {
    && u < |events| && events[u].payload.UserMessage? && plan.replacesThroughSeq + 1 == events[u].seqNo
    && plan.retained != [] && plan.retained[0] == User(events[u].payload.content)
  }

  /** Compacting replaces a non-empty prefix of the old projection, cut in front of a user message that stays
      visible, and never moves the boundary back. */
  lemma PlanCutsAtUserMessage(events: seq<LedgerEvent>, latest: Option<CompactionMarker>)
    requires Sorted(events) && BuildPlan(events, latest).Ok?
    ensures BuildPlan(events, latest).value.compactable + BuildPlan(events, latest).value.retained
              == Rebuild(events, latest)
    ensures BuildPlan(events, latest).value.compactable != []
    ensures BuildPlan(events, latest).value.retained
              == MessagesOf(ProjectEvents(events, BuildPlan(events, latest).value.replacesThroughSeq))
    ensures BuildPlan(events, latest).value.replacesThroughSeq >= MinVisible(latest)
    ensures exists u :: CutsInFrontOf(BuildPlan(events, latest).value, events, u)
  {
    hide ProjectEvents, BuildPlan, Rebuild;
    var u := PlanCut(events, latest);
    assert CutsInFrontOf(BuildPlan(events, latest).value, events, u);
  }

  lemma PlanCut(events: seq<LedgerEvent>, latest: Option<CompactionMarker>) returns (u: nat)
    requires Sorted(events) && BuildPlan(events, latest).Ok?
    ensures
      var plan := BuildPlan(events, latest).value;
      && plan.replacesThroughSeq >= MinVisible(latest)
      && plan.compactable != []
      && plan.compactable + plan.retained == Rebuild(events, latest)
      && plan.retained == MessagesOf(ProjectEvents(events, plan.replacesThroughSeq))
    ensures CutsInFrontOf(BuildPlan(events, latest).value, events, u)
  {
    hide ProjectEvents, FindAnchor, Position;
    u := AnchorIndex(events, MinVisible(latest));
    SplitAtAnchor(events, latest, u);
    ProjectFrom(events, MinVisible(latest), u);
    var before := SummaryEntry(latest) + ProjectEvents(events[..u], MinVisible(latest));
    SplitMessages(before, ProjectEvents(events, events[u].seqNo - 1));
  }

  lemma SplitMessages(before: seq<Entry>, after: seq<Entry>)
    ensures (before + after)[..|before|] == before && (before + after)[|before|..] == after
    ensures MessagesOf(before + after) == MessagesOf(before) + MessagesOf(after)
  {
  }

  /** The fit check is honest. Once a generated marker has been appended and applied, the rebuilt
      context is exactly the list that was measured, so it is within the window, or within three tenths
      of it for the truncation fallback. */
  lemma FitCheckIsHonest(events: seq<LedgerEvent>, latest: Option<CompactionMarker>, window: nat, answer: SummaryAnswer)
    requires Sorted(events) && GenerateMarker(events, latest, window, answer).Ok?
    ensures
      var plan := BuildPlan(events, latest).value;
      var marker := GenerateMarker(events, latest, window, answer).value;
      var appended := events + [LedgerEvent(NextSeq(events), Metadata(ContextCompactionKey, MarkerValue(marker)))];
      && marker.replacesThroughSeq == plan.replacesThroughSeq
      && LatestMarker(appended) == Ok(Some(marker))
      && Rebuild(appended, Some(marker)) == [System(marker.renderedSummary)] + plan.retained
      && EstimateTokens(Rebuild(appended, Some(marker))) <= window
      && (marker.renderedSummary.TruncationSummary? ==>
          EstimateTokens(Rebuild(appended, Some(marker))) * 10 <= window * 3)
      && (!answer.Summarised? ==> marker.renderedSummary.TruncationSummary?)
  {
    hide BuildPlan, ProjectEvents, Rebuild, EstimateTokens, Trim, LatestMarker;
    var marker := GenerateMarker(events, latest, window, answer).value;
    var u := PlanCut(events, latest);
    MarkerApplied(events, LedgerEvent(NextSeq(events), Metadata(ContextCompactionKey, MarkerValue(marker))));
  }

  /** Compaction progress: a generated boundary lies just below a user message of the ledger, at or above
      the old boundary. */
  lemma GeneratedCut(events: seq<LedgerEvent>, latest: Option<CompactionMarker>, window: nat, answer: SummaryAnswer)
    returns (u: nat)
    requires Sorted(events) && GenerateMarker(events, latest, window, answer).Ok?
    ensures u < |events| && events[u].payload.UserMessage?
    ensures GenerateMarker(events, latest, window, answer).value.replacesThroughSeq + 1 == events[u].seqNo
    ensures GenerateMarker(events, latest, window, answer).value.replacesThroughSeq >= MinVisible(latest)
  {
    hide BuildPlan, EstimateTokens, Trim;
    u := PlanCut(events, latest);
  }

  /** A marker takes effect as soon as its own event is appended, and that event adds no message. */
  lemma MarkerApplied(events: seq<LedgerEvent>, event: LedgerEvent)
    requires event.payload.Metadata? && event.payload.key.ContextCompactionKey? && event.payload.value.MarkerValue?
    ensures
      var marker := event.payload.value.marker;
      && LatestMarker(events + [event]) == Ok(Some(marker))
      && Rebuild(events + [event], Some(marker))
         == [System(marker.renderedSummary)] + MessagesOf(ProjectEvents(events, marker.replacesThroughSeq))
  {
    hide ProjectEvents;
    var marker := event.payload.value.marker;
    assert (events + [event])[..|events|] == events;
    ProjectConcat(events, [event], marker.replacesThroughSeq);
    ProjectOne(event, marker.replacesThroughSeq);
    SplitMessages(SummaryEntry(Some(marker)), ProjectEvents(events, marker.replacesThroughSeq));
  }

  /** Exactly when compaction has nothing to do inside a turn. With the turn's own user message in the
      ledger and above the boundary, building the plan cannot miss its anchor; it fails if and only if
      nothing was compacted yet and no message precedes that user message. */
  lemma PlanInsideTurn(events: seq<LedgerEvent>, latest: Option<CompactionMarker>, u: nat)
    requires Sorted(events) && u < |events| && events[u].payload.UserMessage?
    requires events[u].seqNo > MinVisible(latest)
    requires forall i :: u < i < |events| ==> !events[i].payload.UserMessage?
    ensures BuildPlan(events, latest).Err? <==>
              latest.None? && (forall i :: 0 <= i < u ==> events[i].payload.Metadata?)
    ensures BuildPlan(events, latest).Err? ==> BuildPlan(events, latest).error == NoEarlierHistory
    ensures BuildPlan(events, latest).Ok? ==> BuildPlan(events, latest).value.replacesThroughSeq == events[u].seqNo - 1
  {
    hide ProjectEvents, Position, FindAnchor;
    AnchorExists(events, MinVisible(latest), u);
    SplitAtAnchor(events, latest, u);
    if latest.None? {
      EmptyProjection(events[..u], 0);
      assert forall i :: 0 <= i < u ==> events[..u][i] == events[i];
    }
  }

  lemma {:induction false} EmptyProjection(events: seq<LedgerEvent>, min: nat)
    requires forall i :: 0 <= i < |events| ==> events[i].seqNo > min
    ensures ProjectEvents(events, min) == [] <==> forall i :: 0 <= i < |events| ==> events[i].payload.Metadata?
  {
    if events != [] {
      EmptyProjection(events[..|events| - 1], min);
      var last := events[|events| - 1];
      assert ProjectEvent(last, min) == [] <==> last.payload.Metadata?;
    }
  }

  /** Planning fails for want of an anchor exactly when no user message lies above the boundary; it never misses the
      anchor it found. */
  lemma NoAnchorExactly(events: seq<LedgerEvent>, latest: Option<CompactionMarker>)
    requires Sorted(events)
    ensures BuildPlan(events, latest) == Err(NoAnchor) <==>
              forall i :: 0 <= i < |events| && events[i].payload.UserMessage? ==> events[i].seqNo <= MinVisible(latest)
    ensures BuildPlan(events, latest) != Err(AnchorMissing)
  {
    hide ProjectEvents, Position, FindAnchor;
    AnchorAbove(events, MinVisible(latest));
    if FindAnchor(events, MinVisible(latest)).Some? {
      var u := AnchorIndex(events, MinVisible(latest));
      SplitAtAnchor(events, latest, u);
    }
  }

  lemma {:induction false} AnchorAbove(events: seq<LedgerEvent>, min: nat)
    ensures FindAnchor(events, min).None? <==>
              forall i :: 0 <= i < |events| && events[i].payload.UserMessage? ==> events[i].seqNo <= min
  {
    if events != [] {
      AnchorAbove(events[..|events| - 1], min);
    }
  }

  // ---------------------------------------------------------------- the truncation fallback

  /** Exactly when the fallback succeeds inside a turn: there is something to compact, and the notice and all of
      the current turn fit three tenths of the window. It never drops part of the turn to make it fit. */
  lemma {:induction false} FallbackSucceedsExactly(events: seq<LedgerEvent>, latest: Option<CompactionMarker>,
                                                   window: nat, u: nat)
    requires Sorted(events) && u < |events| && events[u].payload.UserMessage?
    requires events[u].seqNo > MinVisible(latest)
    requires forall i :: u < i < |events| ==> !events[i].payload.UserMessage?
    ensures GenerateMarker(events, latest, window, SummaryFailed).Ok? <==>
              && (latest.Some? || exists i :: 0 <= i < u && !events[i].payload.Metadata?)
              && EstimateTokens([System(TruncationSummary)] + MessagesOf(ProjectEvents(events, events[u].seqNo - 1)))
                 <= TruncationTarget(window)
    ensures GenerateMarker(events, latest, window, SummaryFailed).Ok? ==>
              GenerateMarker(events, latest, window, SummaryFailed).value
              == CompactionMarker(events[u].seqNo - 1, TruncationSummary)
  {
    hide BuildPlan, EstimateTokens, ProjectEvents, TruncationTarget;
    PlanInsideTurn(events, latest, u);
    if BuildPlan(events, latest).Ok? {
      PlanCutsAtUserMessage(events, latest);
    }
  }

  /** The notice and the messages from position `k` on fit three tenths of the window. */
  predicate SuffixFits(messages: seq<Message>, k: nat, window: nat)
    requires k <= |messages|
  {
    Fits(TruncationSummary, messages[k..], TruncationTarget(window))
  }

  /** Where the newest messages that fit begin: the smallest position whose suffix fits. */
  ghost predicate NewestThatFit(messages: seq<Message>, k: nat, window: nat)
    requires k <= |messages|
  {
    SuffixFits(messages, k, window) && forall j :: 0 <= j < k ==> !SuffixFits(messages, j, window)
  }

  lemma {:induction false} CharsGrow(messages: seq<Message>, j: nat, k: nat)
    requires j <= k <= |messages|
    ensures TotalChars(messages[k..]) <= TotalChars(messages[j..])
    decreases k - j
  {
    if j < k {
      CharsGrow(messages, j + 1, k);
      assert messages[j..][1..] == messages[j + 1..];
    }
  }

  lemma LongerSuffixFitsLess(messages: seq<Message>, j: nat, k: nat, window: nat)
    requires j <= k <= |messages| && SuffixFits(messages, j, window)
    ensures SuffixFits(messages, k, window)
  {
    hide TotalChars, MessageChars;
    CharsGrow(messages, j, k);
    WithSummary(messages[j..]);
    WithSummary(messages[k..]);
  }

  lemma WithSummary(messages: seq<Message>)
    ensures TotalChars(ProjectedMessages(TruncationSummary, messages))
         == MessageChars(System(TruncationSummary)) + TotalChars(messages)
  {
    assert ProjectedMessages(TruncationSummary, messages)[1..] == messages;
  }

  /** Exactly when the fallback keeps the newest messages that fit: when the message just before the current
      turn does not fit any more. Otherwise it drops messages there was room for. */
  lemma FallbackKeepsNewestExactly(events: seq<LedgerEvent>, latest: Option<CompactionMarker>, window: nat)
    requires Sorted(events) && GenerateMarker(events, latest, window, SummaryFailed).Ok?
    ensures
      var plan, shown := BuildPlan(events, latest).value, Rebuild(events, latest);
      var cut := |plan.compactable|;
      && 0 < cut <= |shown| && plan.retained == shown[cut..] && SuffixFits(shown, cut, window)
      && (NewestThatFit(shown, cut, window) <==> !SuffixFits(shown, cut - 1, window))
  {
    hide BuildPlan, Rebuild, SuffixFits, Fits;
    PlanCutsAtUserMessage(events, latest);
    var plan, shown := BuildPlan(events, latest).value, Rebuild(events, latest);
    var cut := |plan.compactable|;
    assert shown[cut..] == plan.retained;
    FallbackFits(events, latest, window);
    if !SuffixFits(shown, cut - 1, window) {
      forall j | 0 <= j < cut ensures !SuffixFits(shown, j, window) {
        if SuffixFits(shown, j, window) {
          LongerSuffixFitsLess(shown, j, cut - 1, window);
        }
      }
    }
  }

  lemma SomeSuffixFits(messages: seq<Message>, window: nat)
    requires messages != []
    ensures (exists k :: 0 <= k < |messages| && SuffixFits(messages, k, window))
       <==> SuffixFits(messages, |messages| - 1, window)
  {
    hide SuffixFits;
    forall k | 0 <= k < |messages| && SuffixFits(messages, k, window)
      ensures SuffixFits(messages, |messages| - 1, window)
    {
      LongerSuffixFitsLess(messages, k, |messages| - 1, window);
    }
  }

  /** Exactly when the fallback gives up inside a turn although it could have kept some of the newest messages:
      the last message fits, and either nothing precedes the turn or the turn as a whole does not fit. */
  lemma FallbackGivesUpExactly(events: seq<LedgerEvent>, latest: Option<CompactionMarker>, window: nat, u: nat)
    requires Sorted(events) && u < |events| && events[u].payload.UserMessage?
    requires events[u].seqNo > MinVisible(latest)
    requires forall i :: u < i < |events| ==> !events[i].payload.UserMessage?
    ensures
      var shown, turn := Rebuild(events, latest), MessagesOf(ProjectEvents(events, events[u].seqNo - 1));
      && shown != []
      && ((&& GenerateMarker(events, latest, window, SummaryFailed).Err?
           && exists k :: 0 <= k < |shown| && SuffixFits(shown, k, window))
          <==>
          (&& SuffixFits(shown, |shown| - 1, window)
           && ((latest.None? && forall i :: 0 <= i < u ==> events[i].payload.Metadata?)
               || !Fits(TruncationSummary, turn, TruncationTarget(window)))))
  {
    hide GenerateMarker, ProjectEvents, EstimateTokens, TruncationTarget, SuffixFits, Position;
    FallbackSucceedsExactly(events, latest, window, u);
    SplitAtAnchor(events, latest, u);
    SomeSuffixFits(Rebuild(events, latest), window);
  }

  lemma FallbackFits(events: seq<LedgerEvent>, latest: Option<CompactionMarker>, window: nat)
    requires GenerateMarker(events, latest, window, SummaryFailed).Ok?
    ensures BuildPlan(events, latest).Ok?
    ensures Fits(TruncationSummary, BuildPlan(events, latest).value.retained, TruncationTarget(window))
    ensures forall messages: seq<Message>, k: nat ::
              (k <= |messages| && messages[k..] == BuildPlan(events, latest).value.retained) ==>
              SuffixFits(messages, k, window)
  {
    hide BuildPlan, EstimateTokens, TruncationTarget;
  }

  /** A ledger of one answered message and the current turn's message. */
  function ShortLedger(input: string, answer: string): seq<LedgerEvent> {
    [LedgerEvent(1, UserMessage([Text("a")])),
     LedgerEvent(2, UserMessage([Text(input)])),
     LedgerEvent(3, AssistantMessage([Text(answer)], Complete))]
  }

  lemma ShortProjection(input: string, answer: string)
    ensures
      var events := ShortLedger(input, answer);
      && Sorted(events)
      && Rebuild(events, None) == [User([Text("a")]), User([Text(input)]), Assistant([Text(answer)], Complete)]
      && MessagesOf(ProjectEvents(events, 1)) == [User([Text(input)]), Assistant([Text(answer)], Complete)]
  {
    hide ProjectEvents;
    var events := ShortLedger(input, answer);
    var e0, e1, e2 := events[0], events[1], events[2];
    assert events == ([e0] + [e1]) + [e2];
    forall min | 0 <= min <= 1
      ensures ProjectEvents(events, min) == (ProjectEvent(e0, min) + ProjectEvent(e1, min)) + ProjectEvent(e2, min)
    {
      ProjectConcat([e0] + [e1], [e2], min);
      ProjectConcat([e0], [e1], min);
      ProjectOne(e0, min);
      ProjectOne(e1, min);
      ProjectOne(e2, min);
    }
    assert ProjectEvents(events, 0) == [Entry(Some(1), User([Text("a")])), Entry(Some(2), User([Text(input)])),
                                        Entry(Some(3), Assistant([Text(answer)], Complete))];
    assert ProjectEvents(events, 1)
        == [Entry(Some(2), User([Text(input)])), Entry(Some(3), Assistant([Text(answer)], Complete))];
  }

  lemma CharsOf(message: Message, rest: seq<Message>)
    ensures TotalChars([message] + rest) == MessageChars(message) + TotalChars(rest) && TotalChars([]) == 0
  {
    assert ([message] + rest)[1..] == rest;
  }

  lemma TextChars(text: string)
    ensures BlocksChars([Text(text)]) == ByteLen(text)
  {
    hide ByteLen;
    assert [Text(text)][1..] == [];
  }

  lemma ShortChars(input: string, answer: string)
    ensures TotalChars([Assistant([Text(answer)], Complete)]) == ByteLen(answer)
    ensures TotalChars([User([Text(input)]), Assistant([Text(answer)], Complete)]) == ByteLen(input) + ByteLen(answer)
    ensures TotalChars([User([Text("a")]), User([Text(input)]), Assistant([Text(answer)], Complete)])
         == ByteLen("a") + ByteLen(input) + ByteLen(answer)
  {
    hide TotalChars, BlocksChars, ByteLen;
    var m0, m1, m2 := User([Text("a")]), User([Text(input)]), Assistant([Text(answer)], Complete);
    TextChars("a");
    TextChars(input);
    TextChars(answer);
    CharsOf(m2, []);
    CharsOf(m1, [m2]);
    CharsOf(m0, [m1, m2]);
    assert [m2] + [] == [m2] && [m1] + [m2] == [m1, m2] && [m0] + [m1, m2] == [m0, m1, m2];
  }

  /** The fallback drops newer history there is room for: with a window of 1000 tokens all three messages of
      this ledger would fit, and only the current turn is kept. */
  lemma RoomLeftUnused()
    ensures
      var events := ShortLedger("b", "c");
      && GenerateMarker(events, None, 1000, SummaryFailed) == Ok(CompactionMarker(1, TruncationSummary))
      && BuildPlan(events, None).value.retained == Rebuild(events, None)[1..]
      && SuffixFits(Rebuild(events, None), 0, 1000)
  {
    hide BuildPlan, ProjectEvents, TotalChars, ByteLen;
    var events := ShortLedger("b", "c");
    ByteLenAscii("a");
    ByteLenAscii("b");
    ByteLenAscii("c");
    ShortProjection("b", "c");
    ShortChars("b", "c");
    WithSummary(Rebuild(events, None));
    WithSummary(MessagesOf(ProjectEvents(events, 1)));
    FallbackSucceedsExactly(events, None, 1000, 1);
    assert !events[0].payload.Metadata?;
    PlanInsideTurn(events, None, 1);
    PlanCutsAtUserMessage(events, None);
    assert Rebuild(events, None)[0..] == Rebuild(events, None);
  }

  /** The fallback gives up although a shorter suffix would fit: with a window of 500 tokens the answer of this
      ledger fits, the current turn as a whole does not. */
  lemma GivesUpThoughSuffixFits()
    ensures
      var events := ShortLedger("bbbbbbbbbbbbbbbbbbbb", "c");
      && GenerateMarker(events, None, 500, SummaryFailed) == Err(CompactFailed(DoesNotFit))
      && SuffixFits(Rebuild(events, None), 2, 500)
  {
    hide BuildPlan, ProjectEvents, TotalChars, ByteLen;
    var input := "bbbbbbbbbbbbbbbbbbbb";
    var events := ShortLedger(input, "c");
    ByteLenAscii(input);
    ByteLenAscii("c");
    ShortProjection(input, "c");
    ShortChars(input, "c");
    WithSummary(Rebuild(events, None)[2..]);
    WithSummary(MessagesOf(ProjectEvents(events, 1)));
    FallbackSucceedsExactly(events, None, 500, 1);
    assert !events[0].payload.Metadata?;
    PlanInsideTurn(events, None, 1);
    assert Rebuild(events, None)[2..] == [Assistant([Text("c")], Complete)];
  }

  /** The other way of giving up: on a first turn nothing precedes the user message, so with a window of 1000
      tokens the fallback fails although the whole context would fit. */
  lemma FirstTurnGivesUp()
    ensures
      var events := [LedgerEvent(1, UserMessage([Text("a")]))];
      && GenerateMarker(events, None, 1000, SummaryFailed) == Err(CompactFailed(NoEarlierHistory))
      && SuffixFits(Rebuild(events, None), 0, 1000)
  {
    hide BuildPlan, ProjectEvents, TotalChars, ByteLen, BlocksChars;
    var event := LedgerEvent(1, UserMessage([Text("a")]));
    PlanInsideTurn([event], None, 0);
    ProjectOne(event, 0);
    var message := User([Text("a")]);
    assert Rebuild([event], None) == [message];
    ByteLenAscii("a");
    TextChars("a");
    CharsOf(message, []);
    assert [message] + [] == [message] && [message][0..] == [message];
    WithSummary([message]);
  }

  // ---------------------------------------------------------------- the mutable projection

  /** The fields of a `ContextManager`. `rebuiltAt` records how many events the last rebuild covered. */
  datatype ContextState = ContextState(
    latest: Option<CompactionMarker>, visible: seq<Message>, tokens: nat, window: nat, rebuiltAt: nat)

  function EmptyContext(window: nat): ContextState {
    ContextState(None, [], 0, window, 0)
  }

  function Rebuilt(events: seq<LedgerEvent>, latest: Option<CompactionMarker>, window: nat): ContextState {
    ContextState(latest, Rebuild(events, latest), EstimateTokens(Rebuild(events, latest)), window, |events|)
  }

  function Pushed(state: ContextState, message: Message): ContextState {
    state.(visible := state.visible + [message], tokens := EstimateTokens(state.visible + [message]))
  }

  /** Grows the projection event by event. */
  method ProjectVisibleEntries(events: seq<LedgerEvent>, latest: Option<CompactionMarker>)
    returns (projected: seq<Entry>)
    ensures projected == ProjectVisible(events, latest)
  {
    hide ProjectEvents;
    projected := [];
    NothingProjected(events);
    var minVisible := if latest.None? then 0 else latest.value.replacesThroughSeq;
    if latest.Some? {
      projected := projected + [Entry(None, System(latest.value.renderedSummary))];
    }
    for i := 0 to |events|
      invariant projected == SummaryEntry(latest) + ProjectEvents(events[..i], minVisible)
    {
      ProjectedNext(events, i, minVisible);
      Associative(SummaryEntry(latest), ProjectEvents(events[..i], minVisible), ProjectEvent(events[i], minVisible));
      ProjectedOnto(projected, events[i], minVisible);
      if events[i].seqNo > minVisible {
        var message := PayloadToMessage(events[i].payload);
        if message.Some? {
          projected := PushProjected(projected, Some(events[i].seqNo), message.value);
        }
      }
    }
    assert events[..|events|] == events;
  }

  lemma NothingProjected(events: seq<LedgerEvent>)
    ensures forall min :: ProjectEvents(events[..0], min) == []
  {
  }

  lemma ProjectedNext(events: seq<LedgerEvent>, i: nat, min: nat)
    requires i < |events|
    ensures ProjectEvents(events[..i + 1], min) == ProjectEvents(events[..i], min) + ProjectEvent(events[i], min)
  {
    assert events[..i + 1][..i] == events[..i];
  }

  lemma ProjectedOnto(projected: seq<Entry>, event: LedgerEvent, min: nat)
    ensures projected + ProjectEvent(event, min) ==
              if event.seqNo <= min || PayloadToMessage(event.payload).None? then projected
              else PushProjected(projected, Some(event.seqNo), PayloadToMessage(event.payload).value)
  {
  }

  class ContextManager {
    var latestCompaction: Option<CompactionMarker>
    var visibleMessages: seq<Message>
    var estimatedTokens: nat
    const contextWindow: nat
    ghost var rebuiltAt: nat

    ghost function View(): ContextState
      reads this
    {
      ContextState(latestCompaction, visibleMessages, estimatedTokens, contextWindow, rebuiltAt)
    }

    constructor (window: nat)
      ensures View() == EmptyContext(window)
    {
      latestCompaction, visibleMessages, estimatedTokens, contextWindow := None, [], 0, window;
      rebuiltAt := 0;
    }

    /** Whether the estimate, with a quarter of what prompt and tools add, exceeds `limit`, the configured share of
        the window. The sums saturate at the end of `usize`. */
    method NeedsCompaction(promptChars: nat, toolsChars: nat, limit: nat) returns (needed: bool)
      ensures needed <==> limit < U64_MAX && estimatedTokens + promptChars / 4 + toolsChars / 4 > limit
    {
      var total := estimatedTokens;
      total := if total + promptChars / 4 > U64_MAX then U64_MAX else total + promptChars / 4;
      total := if total + toolsChars / 4 > U64_MAX then U64_MAX else total + toolsChars / 4;
      needed := total > limit;
    }

    /** Reads the newest marker and rebuilds; fails exactly when that marker does not decode. */
    static method RebuildFromLedger(ledger: SessionLedger, window: nat) returns (r: Result<ContextManager, AgentError>)
      ensures r.Ok? <==> LatestMarker(ledger.events).Ok?
      ensures r.Ok? ==>
                fresh(r.value) && r.value.View() == Rebuilt(ledger.events, LatestMarker(ledger.events).value, window)
      ensures r.Err? ==> r.error == StorageError
    {
      var marker := LatestMarker(ledger.events);
      if marker.Err? {
        return Err(StorageError);
      }
      var manager := new ContextManager.Showing(ledger, marker.value, window);
      r := Ok(manager);
    }

    constructor Showing(ledger: SessionLedger, latest: Option<CompactionMarker>, window: nat)
      ensures View() == Rebuilt(ledger.events, latest, window)
    {
      var projected := ProjectVisibleEntries(ledger.events, latest);
      latestCompaction := latest;
      visibleMessages := MessagesOf(projected);
      estimatedTokens := EstimateTokens(MessagesOf(projected));
      contextWindow := window;
      rebuiltAt := |ledger.events|;
    }

    method RecalculateTokens()
      modifies this`estimatedTokens
      ensures estimatedTokens == EstimateTokens(visibleMessages)
    {
      estimatedTokens := EstimateTokens(visibleMessages);
    }

    method Push(message: Message)
      modifies this
      ensures View() == Pushed(old(View()), message)
    {
      visibleMessages := visibleMessages + [message];
      RecalculateTokens();
    }

    method ApplyCompactionMarker(ledger: SessionLedger, marker: CompactionMarker)
      modifies this
      ensures View() == Rebuilt(ledger.events, Some(marker), old(View()).window)
    {
      latestCompaction := Some(marker);
      var projected := ProjectVisibleEntries(ledger.events, latestCompaction);
      visibleMessages := MessagesOf(projected);
      rebuiltAt := |ledger.events|;
      RecalculateTokens();
    }
  }
}
