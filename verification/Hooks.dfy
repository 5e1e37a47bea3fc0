/** Hook dispatch and the algebra of hook patches (src/application/hook_registry.rs). */
module Hooks {
  import opened Domain
  import opened Text

  datatype HookEvent = SessionStart | SessionEnd | TurnStart | TurnEnd | BeforeToolUse | AfterToolUse | BeforeCompact

  datatype HookData =
    | SessionStartData(modelId: string)
    | SessionEndData(messageCount: nat)
    | TurnStartData(input: seq<ContentBlock>, sections: seq<string>)
    | TurnEndData(assistantOutput: string, toolCallsCount: nat, cancelled: bool)
    | BeforeToolUseData(toolName: string, arguments: Json)
    | AfterToolUseData(toolName: string, output: ToolOutput, durationMs: nat, success: bool)
    | BeforeCompactData(messageCount: nat, estimatedTokens: nat)

  datatype HookPatch = AppendSections(sections: seq<string>) | ReplaceArguments(arguments: Json)

  datatype HookResult = Continue | ContinueWith(patch: HookPatch) | Abort(reason: string)

  datatype HookError = Violation(pluginId: string) | Aborted(event: HookEvent, reason: string)

  /** A handler is a closure with state of its own: it answers from the data it is shown and the moment it is
      called, no two calls sharing a moment. Event, session and plugin configuration are fixed per registration. */
  datatype Registration = Registration(pluginId: string, event: HookEvent, handler: (HookData, nat) -> HookResult)

  predicate Matches(patch: HookPatch, event: HookEvent) {
    (patch.AppendSections? && event.TurnStart?) || (patch.ReplaceArguments? && event.BeforeToolUse?)
  }

  predicate SupportsPatch(event: HookEvent) {
    event.TurnStart? || event.BeforeToolUse?
  }

  function NonBlank(sections: seq<string>): seq<string> {
    if sections == [] then []
    else NonBlank(sections[..|sections| - 1])
         + if IsBlank(sections[|sections| - 1]) then [] else [sections[|sections| - 1]]
  }

  function ApplyPatch(data: HookData, patch: HookPatch): HookData {
    match (data, patch)
    case (TurnStartData(input, sections), AppendSections(more)) => TurnStartData(input, sections + NonBlank(more))
    case (BeforeToolUseData(toolName, _), ReplaceArguments(arguments)) => BeforeToolUseData(toolName, arguments)
    case (_, _) => data
  }

  function MergePatch(existing: Option<HookPatch>, patch: HookPatch): HookPatch {
    match (existing, patch)
    case (Some(AppendSections(sections)), AppendSections(more)) => AppendSections(sections + NonBlank(more))
    case (_, ReplaceArguments(arguments)) => ReplaceArguments(arguments)
    case (None, AppendSections(more)) => AppendSections(NonBlank(more))
    case (Some(other), _) => other
  }

  // ---------------------------------------------------------------- the algebra

  function ApplyMerged(data: HookData, patch: Option<HookPatch>): HookData {
    if patch.None? then data else ApplyPatch(data, patch.value)
  }

  lemma {:induction false} NonBlankConcat(a: seq<string>, b: seq<string>)
    ensures NonBlank(a + b) == NonBlank(a) + NonBlank(b)
    decreases |b|
  {
    if b == [] {
      assert a + b == a;
    } else {
      assert (a + b)[..|a + b| - 1] == a + b[..|b| - 1];
      NonBlankConcat(a, b[..|b| - 1]);
    }
  }

  lemma {:induction false} NonBlankTwice(a: seq<string>)
    ensures NonBlank(NonBlank(a)) == NonBlank(a)
  {
    if a != [] {
      var init, last := NonBlank(a[..|a| - 1]), a[|a| - 1];
      NonBlankTwice(a[..|a| - 1]);
      NonBlankConcat(init, if IsBlank(last) then [] else [last]);
      assert [last][..0] == [];
    }
  }

  /** Applying one more patch after the merged ones is applying the newly merged patch once. */
  lemma MergeThenApply(data: HookData, merged: Option<HookPatch>, patch: HookPatch, event: HookEvent)
    requires Matches(patch, event) && (merged.Some? ==> Matches(merged.value, event))
    ensures ApplyPatch(ApplyMerged(data, merged), patch) == ApplyPatch(data, MergePatch(merged, patch))
    ensures Matches(MergePatch(merged, patch), event)
  {
    hide NonBlank;
    if patch.AppendSections? && data.TurnStartData? {
      var more := NonBlank(patch.sections);
      NonBlankTwice(patch.sections);
      if merged.Some? {
        var earlier := merged.value.sections;
        NonBlankConcat(earlier, more);
        assert (data.sections + NonBlank(earlier)) + more == data.sections + (NonBlank(earlier) + more);
      }
    }
  }

  /** The patch merged from the results of the handlers called so far. */
  function MergeAll(results: seq<HookResult>): Option<HookPatch> {
    if results == [] then None
    else
      var merged, last := MergeAll(results[..|results| - 1]), results[|results| - 1];
      if last.ContinueWith? then Some(MergePatch(merged, last.patch)) else merged
  }

  predicate Accepted(result: HookResult, event: HookEvent) {
    result.Continue? || (result.ContinueWith? && SupportsPatch(event) && Matches(result.patch, event))
  }

  /** Which answers let a dispatch go on: sections for TurnStart, arguments for BeforeToolUse, and no patch at all for
      any other hook. */
  lemma WhichPatches(result: HookResult, event: HookEvent)
    ensures Accepted(result, event) <==>
              match result
              case Continue => true
              case ContinueWith(AppendSections(_)) => event == TurnStart
              case ContinueWith(ReplaceArguments(_)) => event == BeforeToolUse
              case Abort(_) => false
  {
  }

  /** All sections the handlers appended, in order, without the blank ones. */
  function AllSections(results: seq<HookResult>): seq<string> {
    if results == [] then []
    else
      var last := results[|results| - 1];
      AllSections(results[..|results| - 1])
      + if last.ContinueWith? && last.patch.AppendSections? then NonBlank(last.patch.sections) else []
  }

  /** A section is dropped exactly when it is blank; each is judged by itself. */
  lemma NonBlankOne(section: string)
    ensures NonBlank([section]) == if forall c :: c in section ==> IsWhitespace(c) then [] else [section]
  {
    hide IsWhitespace;
    assert [section][..0] == [];
  }

  /** A patch for the hook's own data replaces the arguments, or adds the kept sections behind those that are
      there. */
  lemma PatchMeaning(input: seq<ContentBlock>, sections: seq<string>, more: seq<string>, toolName: string, before: Json,
                     arguments: Json)
    ensures ApplyPatch(TurnStartData(input, sections), AppendSections(more))
         == TurnStartData(input, sections + NonBlank(more))
    ensures ApplyPatch(BeforeToolUseData(toolName, before), ReplaceArguments(arguments))
         == BeforeToolUseData(toolName, arguments)
  {
    hide NonBlank;
  }

  /** What the handlers appended, one answer after the other. */
  lemma SectionsSnoc(results: seq<HookResult>, result: HookResult)
    ensures AllSections([]) == []
    ensures AllSections(results + [result])
         == AllSections(results)
            + if result.ContinueWith? && result.patch.AppendSections? then NonBlank(result.patch.sections) else []
  {
    hide NonBlank;
    assert (results + [result])[..|results|] == results;
  }

  lemma {:induction false} SectionsNonBlank(results: seq<HookResult>)
    ensures NonBlank(AllSections(results)) == AllSections(results)
  {
    hide NonBlank;
    if results == [] {
      NothingBlank();
    } else {
      var init, last := AllSections(results[..|results| - 1]), results[|results| - 1];
      SectionsNonBlank(results[..|results| - 1]);
      assert init + [] == init;
      if last.ContinueWith? && last.patch.AppendSections? {
        NonBlankConcat(init, NonBlank(last.patch.sections));
        NonBlankTwice(last.patch.sections);
      }
    }
  }

  lemma NothingBlank()
    ensures NonBlank([]) == []
  {
  }

  /** What a merged patch is: the concatenation of all non-blank sections, or the arguments written last. */
  lemma {:induction false} MergeMeaning(results: seq<HookResult>, event: HookEvent)
    requires forall i :: 0 <= i < |results| ==> Accepted(results[i], event)
    ensures MergeAll(results).None? <==> forall i :: 0 <= i < |results| ==> results[i].Continue?
    ensures MergeAll(results).Some? ==> Matches(MergeAll(results).value, event)
    ensures MergeAll(results).Some? && event.TurnStart? ==> MergeAll(results).value.sections == AllSections(results)
    ensures event.TurnStart? && MergeAll(results).None? ==> AllSections(results) == []
    ensures MergeAll(results).Some? && event.BeforeToolUse? ==>
              exists i :: 0 <= i < |results| && results[i] == ContinueWith(MergeAll(results).value)
                          && forall j :: i < j < |results| ==> results[j].Continue?
  {
    if results != [] {
      var init := results[..|results| - 1];
      MergeMeaning(init, event);
      if results[|init|].Continue? && event.BeforeToolUse? && MergeAll(results).Some? {
        var i :| 0 <= i < |init| && init[i] == ContinueWith(MergeAll(init).value)
                 && forall j :: i < j < |init| ==> init[j].Continue?;
        assert results[i] == ContinueWith(MergeAll(results).value);
      }
    }
  }

  /** Dispatching from handler `k` on, on the original data and one merged patch: no working copy. */
  function DispatchFrom(regs: seq<Registration>, k: nat, merged: Option<HookPatch>, event: HookEvent, data: HookData,
                        now: nat)
    : Result<Option<HookPatch>, HookError>
    requires k <= |regs|
    decreases |regs| - k
  {
    if k == |regs| then Ok(merged)
    else
      match regs[k].handler(ApplyMerged(data, merged), now + k)
      case Continue => DispatchFrom(regs, k + 1, merged, event, data, now)
      case ContinueWith(patch) =>
        if SupportsPatch(event) && Matches(patch, event)
        then DispatchFrom(regs, k + 1, Some(MergePatch(merged, patch)), event, data, now)
        else Err(Violation(regs[k].pluginId))
      case Abort(reason) => Err(Aborted(event, reason))
  }

  // ---------------------------------------------------------------- the registry

  class HookRegistry {
    var handlers: map<HookEvent, seq<Registration>>

    constructor ()
      ensures handlers == map[]
    {
      handlers := map[];
    }

    function HandlersFor(event: HookEvent): seq<Registration>
      reads this
    {
      if event in handlers then handlers[event] else []
    }

    method Register(registration: Registration)
      modifies this
      ensures HandlersFor(registration.event) == old(HandlersFor(registration.event)) + [registration]
      ensures forall event :: event != registration.event ==> HandlersFor(event) == old(HandlersFor(event))
    {
      handlers := handlers[registration.event := HandlersFor(registration.event) + [registration]];
    }

    /** Calls the handlers in registration order, each on the data patched so far; the k-th call is at `now + k`. */
    method Dispatch(event: HookEvent, data: HookData, now: nat)
      returns (r: Result<Option<HookPatch>, HookError>, ghost seen: seq<HookData>, ghost results: seq<HookResult>)
      ensures r == DispatchFrom(HandlersFor(event), 0, None, event, data, now)
      ensures Called(HandlersFor(event), event, data, now, seen, results)
      ensures EndsWith(HandlersFor(event), event, results, r)
    {
      hide *;
      seen, results := [], [];
      NothingCalled(HandlersFor(event), event, data, now);
      if event !in handlers {
        NoHandlers(event);
        return Ok(None), seen, results;
      }
      var regs := handlers[event];
      HasHandlers(event);
      var workingData, accumulated := data, None;
      for i := 0 to |regs|
        invariant |results| == i && Dispatching(regs, event, data, now, seen, results, workingData, accumulated)
      {
        HandlerCalled(regs, event, data, now, seen, results, workingData, accumulated);
        var result := regs[i].handler(workingData, now + i);
        seen, results := seen + [workingData], results + [result];
        match result {
          case Continue =>
          case ContinueWith(patch) =>
            if !SupportsPatch(event) || !Matches(patch, event) {
              return Err(Violation(regs[i].pluginId)), seen, results;
            }
            workingData := ApplyPatch(workingData, patch);
            accumulated := Some(MergePatch(accumulated, patch));
          case Abort(reason) =>
            return Err(Aborted(event, reason)), seen, results;
        }
      }
      AllCalled(regs, event, data, now, seen, results, workingData, accumulated);
      r := Ok(accumulated);
    }

    lemma NoHandlers(event: HookEvent)
      requires event !in handlers
      ensures HandlersFor(event) == []
    {
    }

    lemma HasHandlers(event: HookEvent)
      requires event in handlers
      ensures HandlersFor(event) == handlers[event]
    {
    }
  }

  /** Handler `i` was shown the original data with the patch merged so far applied once. */
  ghost predicate CalledWith(regs: seq<Registration>, data: HookData, now: nat, seen: seq<HookData>,
                             results: seq<HookResult>, i: nat)
    requires i < |seen| == |results| <= |regs|
  {
    seen[i] == ApplyMerged(data, MergeAll(results[..i])) && results[i] == regs[i].handler(seen[i], now + i)
  }

  /** `seen` is what each called handler was shown, `results` what they answered; only the last answer may have
      stopped the dispatch. */
  ghost predicate Called(regs: seq<Registration>, event: HookEvent, data: HookData, now: nat, seen: seq<HookData>,
                         results: seq<HookResult>) {
    && |seen| == |results| <= |regs|
    && (forall i :: 0 <= i < |seen| ==> CalledWith(regs, data, now, seen, results, i))
    && (forall i :: 0 <= i < |seen| - 1 ==> Accepted(results[i], event))
  }

  /** What handler `i` is shown, by the fields of its data: a TurnStart handler all sections appended before it, behind
      the original ones; a BeforeToolUse handler the arguments written last, or the original ones if nobody wrote any;
      any other handler the original data. */
  lemma ShownToHandler(regs: seq<Registration>, event: HookEvent, data: HookData, now: nat, seen: seq<HookData>,
                       results: seq<HookResult>, i: nat)
    requires Called(regs, event, data, now, seen, results) && i < |seen|
    ensures results[i] == regs[i].handler(seen[i], now + i)
    ensures event.TurnStart? && data.TurnStartData? ==>
              seen[i] == TurnStartData(data.input, data.sections + AllSections(results[..i]))
    ensures event.BeforeToolUse? && data.BeforeToolUseData? ==>
              && seen[i].BeforeToolUseData? && seen[i].toolName == data.toolName
              && if forall j :: 0 <= j < i ==> results[j].Continue? then seen[i].arguments == data.arguments
                 else exists j :: 0 <= j < i && results[j] == ContinueWith(ReplaceArguments(seen[i].arguments))
                                  && forall k :: j < k < i ==> results[k].Continue?
    ensures !event.TurnStart? && !event.BeforeToolUse? ==> seen[i] == data
  {
    hide NonBlank, AllSections, MergeAll;
    var earlier := results[..i];
    assert CalledWith(regs, data, now, seen, results, i);
    assert forall j :: 0 <= j < i ==> earlier[j] == results[j] && Accepted(results[j], event);
    MergeMeaning(earlier, event);
    SectionsNonBlank(earlier);
    assert data.TurnStartData? && AllSections(earlier) == [] ==> data.sections + AllSections(earlier) == data.sections;
    if event.BeforeToolUse? && MergeAll(earlier).Some? {
      var j :| 0 <= j < |earlier| && earlier[j] == ContinueWith(MergeAll(earlier).value)
               && forall k :: j < k < |earlier| ==> earlier[k].Continue?;
      assert results[j] == earlier[j];
    }
  }

  /** Success means every handler was called and accepted; an error is the last answer: an abort, or a patch
      of the wrong kind. */
  ghost predicate EndsWith(regs: seq<Registration>, event: HookEvent, results: seq<HookResult>,
                           r: Result<Option<HookPatch>, HookError>) {
    match r
    case Ok(merged) =>
      |results| == |regs| && merged == MergeAll(results) && (results != [] ==> Accepted(results[|results| - 1], event))
    case Err(error) =>
      && 0 < |results| <= |regs| && !Accepted(results[|results| - 1], event)
      && error == if results[|results| - 1].Abort? then Aborted(event, results[|results| - 1].reason)
                  else Violation(regs[|results| - 1].pluginId)
  }

  /** In front of handler `|results|`. */
  ghost predicate Dispatching(regs: seq<Registration>, event: HookEvent, data: HookData, now: nat, seen: seq<HookData>,
                              results: seq<HookResult>, working: HookData, merged: Option<HookPatch>)
  {
    && Called(regs, event, data, now, seen, results)
    && (forall i :: 0 <= i < |results| ==> Accepted(results[i], event))
    && merged == MergeAll(results) && working == ApplyMerged(data, merged)
    && (merged.Some? ==> Matches(merged.value, event))
    && DispatchFrom(regs, 0, None, event, data, now) == DispatchFrom(regs, |results|, merged, event, data, now)
  }

  lemma NothingCalled(regs: seq<Registration>, event: HookEvent, data: HookData, now: nat)
    ensures Dispatching(regs, event, data, now, [], [], data, None) && Called(regs, event, data, now, [], [])
    ensures regs == [] ==>
              DispatchFrom(regs, 0, None, event, data, now) == Ok(None) && EndsWith(regs, event, [], Ok(None))
  {
    NothingMerged(data);
  }

  lemma HandlerCalled(regs: seq<Registration>, event: HookEvent, data: HookData, now: nat, seen: seq<HookData>,
                      results: seq<HookResult>, working: HookData, merged: Option<HookPatch>)
    requires |results| < |regs| && Dispatching(regs, event, data, now, seen, results, working, merged)
    ensures
      var i := |results|;
      var result := regs[i].handler(working, now + i);
      var seen', results' := seen + [working], results + [result];
      if result.Continue? then Dispatching(regs, event, data, now, seen', results', working, merged)
      else if result.ContinueWith? && SupportsPatch(event) && Matches(result.patch, event) then
        Dispatching(regs, event, data, now, seen', results', ApplyPatch(working, result.patch),
                    Some(MergePatch(merged, result.patch)))
      else
        var error := if result.Abort? then Aborted(event, result.reason) else Violation(regs[i].pluginId);
        && Called(regs, event, data, now, seen', results') && EndsWith(regs, event, results', Err(error))
        && DispatchFrom(regs, 0, None, event, data, now) == Err(error)
  {
    hide ApplyMerged, ApplyPatch, MergePatch, MergeAll, DispatchFrom, Matches;
    var i, result := |results|, regs[|results|].handler(working, now + |results|);
    DispatchStep(regs, i, merged, event, data, now);
    MergeSnoc(results, result);
    OneMoreCalled(regs, event, data, now, seen, results, working);
    if result.ContinueWith? && SupportsPatch(event) && Matches(result.patch, event) {
      MergedOnce(data, merged, result.patch, event);
    }
  }

  lemma OneMoreCalled(regs: seq<Registration>, event: HookEvent, data: HookData, now: nat, seen: seq<HookData>,
                      results: seq<HookResult>,
                      working: HookData)
    requires |results| < |regs| && Called(regs, event, data, now, seen, results)
    requires forall i :: 0 <= i < |results| ==> Accepted(results[i], event)
    requires working == ApplyMerged(data, MergeAll(results))
    ensures Called(regs, event, data, now, seen + [working],
                   results + [regs[|results|].handler(working, now + |results|)])
  {
    hide CalledWith, ApplyMerged, MergeAll, Accepted;
    var seen', results' := seen + [working], results + [regs[|results|].handler(working, now + |results|)];
    forall i | 0 <= i < |seen'| ensures CalledWith(regs, data, now, seen', results', i) {
      if i < |seen| {
        StillCalled(regs, data, now, seen, results, working, results'[|results|], i);
      } else {
        JustCalled(regs, data, now, seen, results, working);
      }
    }
  }

  lemma StillCalled(regs: seq<Registration>, data: HookData, now: nat, seen: seq<HookData>, results: seq<HookResult>,
                    shown: HookData, result: HookResult, i: nat)
    requires i < |seen| == |results| < |regs| && CalledWith(regs, data, now, seen, results, i)
    ensures CalledWith(regs, data, now, seen + [shown], results + [result], i)
  {
    hide ApplyMerged, MergeAll;
    assert (results + [result])[..i] == results[..i];
  }

  lemma JustCalled(regs: seq<Registration>, data: HookData, now: nat, seen: seq<HookData>, results: seq<HookResult>,
                   shown: HookData)
    requires |seen| == |results| < |regs| && shown == ApplyMerged(data, MergeAll(results))
    ensures CalledWith(regs, data, now, seen + [shown], results + [regs[|results|].handler(shown, now + |results|)],
                       |seen|)
  {
    hide ApplyMerged, MergeAll;
    assert (results + [regs[|results|].handler(shown, now + |results|)])[..|results|] == results;
  }

  lemma AllCalled(regs: seq<Registration>, event: HookEvent, data: HookData, now: nat, seen: seq<HookData>,
                  results: seq<HookResult>, working: HookData, merged: Option<HookPatch>)
    requires |results| == |regs| && Dispatching(regs, event, data, now, seen, results, working, merged)
    ensures Called(regs, event, data, now, seen, results) && EndsWith(regs, event, results, Ok(merged))
    ensures DispatchFrom(regs, 0, None, event, data, now) == Ok(merged)
  {
    hide ApplyMerged, MergeAll, Accepted;
  }

  lemma DispatchStep(regs: seq<Registration>, k: nat, merged: Option<HookPatch>, event: HookEvent, data: HookData,
                     now: nat)
    requires k < |regs|
    ensures DispatchFrom(regs, k, merged, event, data, now) == match regs[k].handler(ApplyMerged(data, merged), now + k)
      case Continue => DispatchFrom(regs, k + 1, merged, event, data, now)
      case ContinueWith(patch) =>
        if SupportsPatch(event) && Matches(patch, event)
        then DispatchFrom(regs, k + 1, Some(MergePatch(merged, patch)), event, data, now)
        else Err(Violation(regs[k].pluginId))
      case Abort(reason) => Err(Aborted(event, reason))
  {
  }

  lemma NothingMerged(data: HookData)
    ensures MergeAll([]) == None && ApplyMerged(data, None) == data
  {
  }

  lemma MergeSnoc(results: seq<HookResult>, result: HookResult)
    ensures MergeAll(results + [result]) ==
              if result.ContinueWith? then Some(MergePatch(MergeAll(results), result.patch)) else MergeAll(results)
  {
    assert (results + [result])[..|results|] == results;
  }

  lemma MergedOnce(data: HookData, merged: Option<HookPatch>, patch: HookPatch, event: HookEvent)
    requires Matches(patch, event) && (merged.Some? ==> Matches(merged.value, event))
    ensures ApplyMerged(data, Some(MergePatch(merged, patch))) == ApplyPatch(ApplyMerged(data, merged), patch)
    ensures Matches(MergePatch(merged, patch), event)
  {
    hide ApplyPatch, MergePatch;
    MergeThenApply(data, merged, patch, event);
  }
}
