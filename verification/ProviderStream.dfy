/** What a model provider may answer, read as one stream of items (src/application/turn_engine.rs). */
module ProviderStream {
  import opened Domain
  import opened Cancellation
  import opened Context
  import opened Dispatcher
  import opened TurnLog

  datatype ChatEvent =
    | TextChunk(text: string)
    | ReasoningChunk(text: string)
    | CallChunk(call: RequestedCall)
    | Done
    | ErrorChunk(contextLengthExceeded: bool)

  /** One item of a provider stream; `Broken` is a transport error. */
  datatype StreamItem = Chunk(event: ChatEvent) | Broken

  /** What one model request produced. */
  datatype Answer = Answer(text: string, calls: seq<RequestedCall>, cancelled: bool)

  datatype RequestError = AgentFailure(error: AgentError) | ContextLengthExceeded

  // ---------------------------------------------------------------- streams as values

  function StreamText(items: seq<StreamItem>): string {
    if items == [] then ""
    else
      var last := items[|items| - 1];
      StreamText(items[..|items| - 1]) + if last.Chunk? && last.event.TextChunk? then last.event.text else ""
  }

  function StreamCalls(items: seq<StreamItem>): seq<RequestedCall> {
    if items == [] then []
    else
      var last := items[|items| - 1];
      StreamCalls(items[..|items| - 1]) + if last.Chunk? && last.event.CallChunk? then [last.event.call] else []
  }

  function StreamEvents(items: seq<StreamItem>): seq<EventPayload> {
    if items == [] then []
    else
      var last := items[|items| - 1];
      StreamEvents(items[..|items| - 1])
      + if last.Chunk? && last.event.TextChunk? then [TextDelta(last.event.text)]
        else if last.Chunk? && last.event.ReasoningChunk? then [ReasoningDelta(last.event.text)]
        else []
  }

  /** An item after which reading goes on. */
  predicate Continues(item: StreamItem, allowTools: bool) {
    item.Chunk? && (item.event.TextChunk? || item.event.ReasoningChunk? || (item.event.CallChunk? && allowTools))
  }

  ghost predicate AllContinue(items: seq<StreamItem>, allowTools: bool) {
    forall i :: 0 <= i < |items| ==> Continues(items[i], allowTools)
  }

  /** What a stream read up to item `read` amounts to. Only `Done` completes it; a call while tools are
      disabled, a provider error or a missing `Done` fails it, except that a cancelled turn takes what is
      there as its answer. */
  ghost predicate StreamResult(items: seq<StreamItem>, allowTools: bool, read: nat, r: Result<Answer, RequestError>) {
    && read <= |items| && AllContinue(items[..read], allowTools)
        && (read < |items| ==> !Continues(items[read], allowTools))
    && (r.Ok? ==> r.value.text == StreamText(items[..read]) && r.value.calls == StreamCalls(items[..read]))
    && (r.Ok? && !r.value.cancelled ==> read < |items| && items[read] == Chunk(Done))
    && (r == Err(ContextLengthExceeded) ==> read < |items| && items[read] == Chunk(ErrorChunk(true)))
    && (read < |items| && items[read] == Chunk(ErrorChunk(true)) ==> r.Ok? || r == Err(ContextLengthExceeded))
    && (r.Err? ==> r.error == ContextLengthExceeded || r.error == AgentFailure(ProviderError))
    && (read < |items| && items[read] == Chunk(Done) ==> r.Ok? && !r.value.cancelled)
    && (read < |items| && items[read].Chunk? && items[read].event.CallChunk? ==> r == Err(AgentFailure(ProviderError)))
  }

  lemma StreamStep(items: seq<StreamItem>, read: nat, allowTools: bool)
    requires read < |items| && AllContinue(items[..read], allowTools)
    ensures items[..read + 1] == items[..read] + [items[read]]
    ensures items[read].Chunk? && (items[read].event.TextChunk? || items[read].event.ReasoningChunk?
                                   || (items[read].event.CallChunk? && allowTools))
            ==> AllContinue(items[..read + 1], allowTools)
    ensures StreamText(items[..read + 1]) == StreamText(items[..read])
              + (if items[read].Chunk? && items[read].event.TextChunk? then items[read].event.text else "")
    ensures StreamCalls(items[..read + 1]) == StreamCalls(items[..read])
              + (if items[read].Chunk? && items[read].event.CallChunk? then [items[read].event.call] else [])
    ensures StreamEvents(items[..read + 1]) == StreamEvents(items[..read])
              + (if items[read].Chunk? && items[read].event.TextChunk? then [TextDelta(items[read].event.text)]
                 else if items[read].Chunk? && items[read].event.ReasoningChunk?
                     then [ReasoningDelta(items[read].event.text)]
                 else [])
  {
    assert items[..read + 1][..read] == items[..read];
  }

  /** How reading may end at `read`. */
  lemma StreamEnd(items: seq<StreamItem>, allowTools: bool, read: nat)
    requires read <= |items| && AllContinue(items[..read], allowTools)
    ensures
      var got := Answer(StreamText(items[..read]), StreamCalls(items[..read]), true);
      && (read == |items| || items[read].Broken? || items[read].event.ErrorChunk? ==>
            StreamResult(items, allowTools, read, Ok(got)))
      && (read == |items| || items[read].Broken? || items[read].event == ErrorChunk(false) ==>
            StreamResult(items, allowTools, read, Err(AgentFailure(ProviderError))))
      && (read < |items| && items[read] == Chunk(ErrorChunk(true)) ==>
            StreamResult(items, allowTools, read, Err(ContextLengthExceeded)))
      && (read < |items| && items[read] == Chunk(Done) ==>
            StreamResult(items, allowTools, read, Ok(got.(cancelled := false))))
      && (read < |items| && items[read].Chunk? && items[read].event.CallChunk? && !allowTools ==>
            StreamResult(items, allowTools, read, Err(AgentFailure(ProviderError))))
  {
    hide StreamText, StreamCalls, AllContinue;
  }

  lemma StreamStart(items: seq<StreamItem>, allowTools: bool)
    ensures items[..0] == [] && AllContinue(items[..0], allowTools) && items[..|items|] == items
    ensures StreamText(items[..0]) == "" && StreamCalls(items[..0]) == [] && StreamEvents(items[..0]) == []
  {
  }

  lemma {:induction false} TextConcat(a: seq<StreamItem>, b: seq<StreamItem>)
    ensures StreamText(a + b) == StreamText(a) + StreamText(b)
    decreases |b|
  {
    if b == [] {
      assert a + b == a;
    } else {
      var init, last := b[..|b| - 1], b[|b| - 1];
      assert (a + b)[..|a + b| - 1] == a + init && (a + b)[|a + b| - 1] == last;
      TextConcat(a, init);
      Associative(StreamText(a), StreamText(init),
                  if last.Chunk? && last.event.TextChunk? then last.event.text else "");
    }
  }

  lemma {:induction false} CallsConcat(a: seq<StreamItem>, b: seq<StreamItem>)
    ensures StreamCalls(a + b) == StreamCalls(a) + StreamCalls(b)
    decreases |b|
  {
    if b == [] {
      assert a + b == a;
    } else {
      var init, last := b[..|b| - 1], b[|b| - 1];
      assert (a + b)[..|a + b| - 1] == a + init && (a + b)[|a + b| - 1] == last;
      CallsConcat(a, init);
      Associative(StreamCalls(a), StreamCalls(init),
                  if last.Chunk? && last.event.CallChunk? then [last.event.call] else []);
    }
  }

  lemma {:induction false} EventsConcat(a: seq<StreamItem>, b: seq<StreamItem>)
    ensures StreamEvents(a + b) == StreamEvents(a) + StreamEvents(b)
    decreases |b|
  {
    if b == [] {
      assert a + b == a;
    } else {
      var init, last := b[..|b| - 1], b[|b| - 1];
      assert (a + b)[..|a + b| - 1] == a + init && (a + b)[|a + b| - 1] == last;
      EventsConcat(a, init);
      Associative(StreamEvents(a), StreamEvents(init),
                  if last.Chunk? && last.event.TextChunk? then [TextDelta(last.event.text)]
                  else if last.Chunk? && last.event.ReasoningChunk? then [ReasoningDelta(last.event.text)]
                  else []);
    }
  }

  /** Text, calls and deltas are those of the items, in order: of a stream read in two parts, first those of the
      first part, then those of the second. */
  lemma StreamConcat(a: seq<StreamItem>, b: seq<StreamItem>)
    ensures StreamText(a + b) == StreamText(a) + StreamText(b)
    ensures StreamCalls(a + b) == StreamCalls(a) + StreamCalls(b)
    ensures StreamEvents(a + b) == StreamEvents(a) + StreamEvents(b)
  {
    hide *;
    TextConcat(a, b);
    CallsConcat(a, b);
    EventsConcat(a, b);
  }

  /** What each single item contributes. */
  lemma StreamOne(text: string, call: RequestedCall, item: StreamItem)
    ensures StreamText([Chunk(TextChunk(text))]) == text && StreamCalls([Chunk(TextChunk(text))]) == []
    ensures StreamEvents([Chunk(TextChunk(text))]) == [TextDelta(text)]
    ensures StreamText([Chunk(ReasoningChunk(text))]) == "" && StreamCalls([Chunk(ReasoningChunk(text))]) == []
    ensures StreamEvents([Chunk(ReasoningChunk(text))]) == [ReasoningDelta(text)]
    ensures StreamText([Chunk(CallChunk(call))]) == "" && StreamCalls([Chunk(CallChunk(call))]) == [call]
    ensures StreamEvents([Chunk(CallChunk(call))]) == []
    ensures item.Broken? || item.event.Done? || item.event.ErrorChunk? ==>
              StreamText([item]) == "" && StreamCalls([item]) == [] && StreamEvents([item]) == []
  {
    assert forall one: StreamItem :: [one][..0] == [];
  }

  lemma {:induction false} StreamProperties(items: seq<StreamItem>, allowTools: bool)
    ensures Quiet(StreamEvents(items))
    ensures AllContinue(items, allowTools) && !allowTools ==> StreamCalls(items) == []
  {
    if items != [] {
      StreamProperties(items[..|items| - 1], allowTools);
    }
  }

  /** An answer that a stream, or no stream at all, can give. */
  ghost predicate FromStream(answer: Answer, allowTools: bool) {
    exists items :: FromItems(answer, allowTools, items)
  }

  ghost predicate FromItems(answer: Answer, allowTools: bool, items: seq<StreamItem>) {
    exists read :: StreamResult(items, allowTools, read, Ok(answer))
  }

  lemma NoStream(allowTools: bool)
    ensures StreamResult([], allowTools, 0, Ok(Answer("", [], true))) && StreamEvents([]) == []
    ensures FromStream(Answer("", [], true), allowTools)
  {
    var none: seq<StreamItem> := [];
    assert none[..0] == none && AllContinue(none[..0], allowTools);
    assert StreamResult(none, allowTools, 0, Ok(Answer("", [], true)));
    assert FromItems(Answer("", [], true), allowTools, none);
  }

  /** Nothing a tool-free request answers contains a call. */
  lemma NoToolsNoCalls(answer: Answer)
    requires FromStream(answer, false)
    ensures answer.calls == []
  {
    var items :| FromItems(answer, false, items);
    var read :| StreamResult(items, false, read, Ok(answer));
    StreamProperties(items[..read], false);
  }

  /** What a pass answered comes from the last stream it was given, or it was cancelled before any text. */
  ghost predicate ReadFrom(answer: Answer, allowTools: bool, given: seq<seq<StreamItem>>) {
    || answer == Answer("", [], true)
    || (given != [] && FromItems(answer, allowTools, given[|given| - 1]))
  }

  lemma ReadIsFromStream(answer: Answer, allowTools: bool, given: seq<seq<StreamItem>>)
    requires ReadFrom(answer, allowTools, given)
    ensures FromStream(answer, allowTools)
  {
    hide FromItems;
    NoStream(allowTools);
  }

  /** Each answer was read in its own pass: the passes are disjoint segments, in order, of the streams given
      after the first `before` ones. */
  ghost predicate Sourced(answers: seq<Answer>, given: seq<seq<StreamItem>>, before: nat)
    decreases |answers|, 1
  {
    if answers == [] then before <= |given|
    else exists j: nat, k: nat, allowTools: bool :: SourcedAt(answers, given, before, j, k, allowTools)
  }

  ghost predicate SourcedAt(answers: seq<Answer>, given: seq<seq<StreamItem>>, before: nat, j: nat, k: nat,
                            allowTools: bool)
    requires answers != []
    decreases |answers|, 0
  {
    && j <= k <= |given| && ReadFrom(answers[|answers| - 1], allowTools, given[j..k])
    && Sourced(answers[..|answers| - 1], given[..j], before)
  }

  lemma SourcedMore(answers: seq<Answer>, given: seq<seq<StreamItem>>, before: nat, more: seq<seq<StreamItem>>)
    requires Sourced(answers, given, before)
    ensures Sourced(answers, given + more, before)
  {
    hide ReadFrom;
    if answers != [] {
      var j: nat, k: nat, allowTools: bool :| SourcedAt(answers, given, before, j, k, allowTools);
      assert (given + more)[j..k] == given[j..k] && (given + more)[..j] == given[..j];
      assert SourcedAt(answers, given + more, before, j, k, allowTools);
    }
  }

  lemma SourcedSnoc(answers: seq<Answer>, given: seq<seq<StreamItem>>, before: nat, answer: Answer, allowTools: bool,
                    more: seq<seq<StreamItem>>)
    requires Sourced(answers, given, before) && ReadFrom(answer, allowTools, more)
    ensures Sourced(answers + [answer], given + more, before)
  {
    hide ReadFrom;
    var all := given + more;
    assert all[|given|..|all|] == more && all[..|given|] == given;
    assert (answers + [answer])[..|answers|] == answers;
    assert SourcedAt(answers + [answer], all, before, |given|, |all|, allowTools);
  }

  // ---------------------------------------------------------------- the provider

  /** The model provider: `streams` says what it answers to each request, any stream or a refusal to start one.
      `given` lists the streams it has handed out. */
  class Provider {
    const streams: nat -> Option<seq<StreamItem>>
    var chats: nat
    ghost var given: seq<seq<StreamItem>>

    constructor (streams: nat -> Option<seq<StreamItem>>)
      ensures this.streams == streams && chats == 0 && given == []
    {
      this.streams, chats, given := streams, 0, [];
    }

    /** What the provider answered to its last request. */
    function LastStream(): Option<seq<StreamItem>>
      requires chats > 0
      reads `chats
    {
      streams(chats - 1)
    }

    method Chat() returns (r: Option<seq<StreamItem>>)
      modifies this
      ensures chats == old(chats) + 1 && r == LastStream()
      ensures given == if r.Some? then old(given) + [r.value] else old(given)
    {
      r := streams(chats);
      chats := chats + 1;
      given := if r.Some? then given + [r.value] else given;
    }
  }

  // ---------------------------------------------------------------- text alone

  /** What the compact model's stream amounts to: its text, or nothing usable, or a cancelled request. */
  datatype Collected = Collected(text: string) | Unusable | CollectionCancelled

  /** A text stream read up to item `read`: only `Done` completes it; a call makes it unusable; at an error or a
      missing `Done` it depends on the token. */
  ghost predicate CollectResult(items: seq<StreamItem>, read: nat, cancelled: bool, r: Collected) {
    && read <= |items| && AllContinue(items[..read], false)
    && (read < |items| ==> !Continues(items[read], false))
    && r == if read < |items| && items[read] == Chunk(Done) then Collected(StreamText(items[..read]))
            else if read < |items| && items[read].Chunk? && items[read].event.CallChunk? then Unusable
            else if cancelled then CollectionCancelled
            else Unusable
  }

  /** Reads a stream for its text; nothing of it is told. */
  method CollectText(items: seq<StreamItem>, cancel: CancelToken) returns (r: Collected, ghost read: nat)
    modifies cancel
    ensures CollectResult(items, read, old(cancel.Due()), r)
    ensures r == CollectionCancelled ==> cancel.Fired()
    ensures old(cancel.Fired()) ==> cancel.Fired()
  {
    hide *;
    var text: string, i := "", 0;
    StreamStart(items, false);
    while i < |items|
      invariant i <= |items| && AllContinue(items[..i], false) && text == StreamText(items[..i])
      invariant (old(cancel.Fired()) ==> cancel.Fired()) && cancel.Due() == old(cancel.Due())
      decreases |items| - i
    {
      StreamStep(items, i, false);
      CollectEnd(items, i, true);
      CollectEnd(items, i, false);
      read := i;
      match items[i] {
        case Broken =>
          var cancelled := cancel.Poll();
          return if cancelled then CollectionCancelled else Unusable, i;
        case Chunk(TextChunk(more)) => text := text + more;
        case Chunk(ReasoningChunk(_)) =>
        case Chunk(CallChunk(_)) => return Unusable, i;
        case Chunk(Done) => return Collected(text), i;
        case Chunk(ErrorChunk(_)) =>
          var cancelled := cancel.Poll();
          return if cancelled then CollectionCancelled else Unusable, i;
      }
      i := i + 1;
    }
    CollectEnd(items, i, true);
    CollectEnd(items, i, false);
    var cancelled := cancel.Poll();
    return if cancelled then CollectionCancelled else Unusable, i;
  }

  lemma CollectEnd(items: seq<StreamItem>, read: nat, cancelled: bool)
    requires read <= |items| && AllContinue(items[..read], false)
    ensures
      && (read == |items| || items[read].Broken? || items[read].event.ErrorChunk? ==>
            CollectResult(items, read, cancelled, if cancelled then CollectionCancelled else Unusable))
      && (read < |items| && items[read] == Chunk(Done) ==>
            CollectResult(items, read, cancelled, Collected(StreamText(items[..read]))))
      && (read < |items| && items[read].Chunk? && items[read].event.CallChunk? ==>
            CollectResult(items, read, cancelled, Unusable))
  {
    hide StreamText, AllContinue;
  }
}
