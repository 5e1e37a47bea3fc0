/** Whole sessions: messages sent one after the other, processes that die anywhere inside a turn, sessions
    resumed, checkpoints written at a close. */
module SessionRuns {
  import opened Domain
  import opened Context
  import opened Runtime
  import opened Resume
  import opened TurnGrammar
  import opened TurnLog
  import opened TurnHistory

  /** `Sent` is a whole call of `send_message` that wrote `log`, whether its turn returned or failed. `Died` is
      one whose process ended when `written` events were stored; the last of them may not have been appended
      yet. The next process resumes. `Reopened` resumes between turns. */
  datatype Step =
    | Sent(log: seq<Payload>)
    | Died(log: seq<Payload>, written: nat)
    | Reopened
    | Checkpointed(payload: Payload)

  function Announced(rt: RuntimeState): RuntimeState {
    rt.(turnIndex := SaturatingInc(rt.turnIndex))
  }

  /** A log that a turn may write from here, as the turn engine's contract says. */
  ghost predicate TurnLogs(rt: RuntimeState, log: seq<Payload>) {
    LegalLog(rt, log) && IsTurnPrefix(LogMessages(log))
  }

  /** The session when `k` events of the log are written. */
  function During(rt: RuntimeState, log: seq<Payload>, k: nat): RuntimeState
    requires k <= |log|
  {
    AppendAll(Announced(rt), log[..k])
  }

  ghost predicate Steps(w: World, step: Step, w': World, agent: AgentDefaults) {
    match step
    case Sent(log) =>
      TurnLogs(Announced(w.live), log) && w' == World(During(w.live, log, |log|), During(w.live, log, |log|).events)
    case Died(log, written) =>
      && TurnLogs(Announced(w.live), log) && written <= |log|
      && ResumesFrom(During(w.live, log, written).events, w', agent)
    case Reopened => ResumesFrom(w.stored, w', agent)
    case Checkpointed(payload) =>
      && payload.Metadata? && payload.key == MemoryCheckpointKey && LegalPayload(w.live, payload)
      && w' == World(Append(w.live, payload), Append(w.live, payload).events)
  }

  ghost predicate ResumesFrom(stored: seq<LedgerEvent>, w: World, agent: AgentDefaults) {
    Restore(stored, agent).Ok? && w == Resumed(stored, agent)
  }

  /** A run from a session that was just created. */
  ghost predicate IsRun(trace: seq<World>, steps: seq<Step>, agent: AgentDefaults) {
    && |trace| == |steps| + 1 && Mirrored(trace[0], agent) && RawMessages(trace[0].live.events) == []
    && forall i :: 0 <= i < |steps| ==> Steps(trace[i], steps[i], trace[i + 1], agent)
  }

  /** No list a model may be shown from this state has a tool result without its own batch's call. */
  ghost predicate NoOrphanVisible(rt: RuntimeState) {
    && Answered(rt.context.visible)
    && Answered(Rebuild(rt.events, rt.context.latest))
    && (BuildPlan(rt.events, rt.context.latest).Ok? ==>
        Answered(BuildPlan(rt.events, rt.context.latest).value.compactable))
  }

  /** What every state of a session satisfies. */
  ghost predicate Sound(w: World, agent: AgentDefaults) {
    && Mirrored(w, agent) && TurnByTurn(RawMessages(w.live.events))
    && (w.live.nextSeq < U64_MAX ==> NoOrphanVisible(w.live))
  }

  lemma SoundFrom(w: World, agent: AgentDefaults)
    requires Mirrored(w, agent) && TurnByTurn(RawMessages(w.live.events))
    ensures Sound(w, agent)
  {
    hide SessionInvariant, TurnByTurn, Answered, Rebuild, BuildPlan, RawMessages;
    if w.live.nextSeq < U64_MAX {
      NeverAnOrphan(w.live, agent);
    }
  }

  lemma {:induction false} LogKeepsInvariant(rt: RuntimeState, log: seq<Payload>, agent: AgentDefaults)
    requires SessionInvariant(rt, agent) && LegalLog(rt, log)
    ensures SessionInvariant(AppendAll(rt, log), agent)
  {
    hide SessionInvariant, LegalPayload, Append, TurnAnnounced;
    if log != [] {
      LogKeepsInvariant(rt, log[..|log| - 1], agent);
      AppendInvariant(AppendAll(rt, log[..|log| - 1]), log[|log| - 1], agent);
    }
  }

  lemma {:induction false} LegalSoFar(rt: RuntimeState, log: seq<Payload>, k: nat)
    requires LegalLog(rt, log) && k <= |log|
    ensures LegalLog(rt, log[..k])
  {
    hide LegalPayload, AppendAll, TurnAnnounced;
    if k < |log| {
      LegalSoFar(rt, log[..|log| - 1], k);
      assert log[..|log| - 1][..k] == log[..k];
    } else {
      assert log[..k] == log;
    }
  }

  lemma AnnouncedKeeps(w: World, agent: AgentDefaults)
    requires Mirrored(w, agent)
    ensures SessionInvariant(Announced(w.live), agent) && Announced(w.live).events == w.live.events
  {
    hide SessionInvariant;
    StepKeepsMirror(w, TurnAllocated, World(Announced(w.live), w.stored), agent);
  }

  /** At every moment of every turn the session is sound, and if the process dies there, what is stored can be
      resumed into a sound session. */
  lemma EveryMoment(w: World, log: seq<Payload>, k: nat, agent: AgentDefaults)
    requires Sound(w, agent) && TurnLogs(Announced(w.live), log) && k <= |log|
    ensures
      var rt := During(w.live, log, k);
      && Sound(World(rt, rt.events), agent)
      && Restore(rt.events, agent).Ok? && Sound(Resumed(rt.events, agent), agent)
  {
    hide SessionInvariant, TurnByTurn, Answered, RawMessages, LegalLog, IsTurnPrefix, AppendAll, Restore,
        NoOrphanVisible;
    var rt := During(w.live, log, k);
    AnnouncedKeeps(w, agent);
    LegalSoFar(Announced(w.live), log, k);
    LogKeepsInvariant(Announced(w.live), log[..k], agent);
    NextTurn(Announced(w.live), log[..k], log);
    SoundFrom(World(rt, rt.events), agent);
    ResumedIsSound(World(rt, rt.events), agent);
  }

  lemma ResumedIsSound(w: World, agent: AgentDefaults)
    requires Sound(w, agent)
    ensures Restore(w.stored, agent).Ok? && Sound(Resumed(w.stored, agent), agent)
  {
    hide SessionInvariant, TurnByTurn, RawMessages, Restore, NoOrphanVisible, SameSession;
    ResumeIsLive(w.live, agent);
    RestoredEvents(w.stored, agent);
    SoundFrom(Resumed(w.stored, agent), agent);
  }

  lemma CheckpointKeeps(w: World, payload: Payload, agent: AgentDefaults)
    requires Sound(w, agent) && payload.Metadata? && LegalPayload(w.live, payload)
    ensures Sound(World(Append(w.live, payload), Append(w.live, payload).events), agent)
  {
    hide SessionInvariant, TurnByTurn, RawMessages, LegalPayload, Append, NoOrphanVisible;
    AppendInvariant(w.live, payload, agent);
    RawSnoc(w.live.events, LedgerEvent(w.live.nextSeq, payload));
    assert RawMessages(w.live.events) + [] == RawMessages(w.live.events);
    SoundFrom(World(Append(w.live, payload), Append(w.live, payload).events), agent);
  }

  lemma StepKeepsSound(w: World, step: Step, w': World, agent: AgentDefaults)
    requires Sound(w, agent) && Steps(w, step, w', agent)
    ensures Sound(w', agent)
  {
    hide Sound, TurnLogs, During, Restore, LegalPayload, Append;
    match step
    case Sent(log) => EveryMoment(w, log, |log|, agent);
    case Died(log, written) => EveryMoment(w, log, written, agent);
    case Reopened =>
      StoredIsLive(w, agent);
      ResumedIsSound(w, agent);
    case Checkpointed(payload) => CheckpointKeeps(w, payload, agent);
  }

  lemma StoredIsLive(w: World, agent: AgentDefaults)
    requires Sound(w, agent)
    ensures w.stored == w.live.events
  {
  }

  /** Over every run of every session: the stored log is the ledger, the ledger is a list of turns, and no model
      is ever shown a tool result without its own batch's call. */
  lemma {:induction false} EveryRunIsSound(trace: seq<World>, steps: seq<Step>, i: nat, agent: AgentDefaults)
    requires IsRun(trace, steps, agent) && i < |trace|
    ensures Sound(trace[i], agent)
  {
    hide Sound, Steps, SessionInvariant, RawMessages;
    if i == 0 {
      NothingSaid(trace[0], agent);
    } else {
      EveryRunIsSound(trace, steps, i - 1, agent);
      StepKeepsSound(trace[i - 1], steps[i - 1], trace[i], agent);
    }
  }

  lemma NothingSaid(w: World, agent: AgentDefaults)
    requires Mirrored(w, agent) && RawMessages(w.live.events) == []
    ensures Sound(w, agent)
  {
    hide SessionInvariant, RawMessages, IsTurnPrefix;
    var none: seq<seq<Message>> := [];
    assert Flatten(none) == [] && EachATurn(none);
    SoundFrom(w, agent);
  }

  /** So it is at every moment inside a run: when `k` events of a turn are written, and in a process that resumes
      after dying there. */
  lemma EveryMomentOfEveryRun(trace: seq<World>, steps: seq<Step>, i: nat, k: nat, agent: AgentDefaults)
    requires IsRun(trace, steps, agent) && i < |steps| && (steps[i].Sent? || steps[i].Died?) && k <= |steps[i].log|
    ensures
      var rt := During(trace[i].live, steps[i].log, k);
      && Sound(World(rt, rt.events), agent)
      && Restore(rt.events, agent).Ok? && Sound(Resumed(rt.events, agent), agent)
  {
    hide Sound, SessionInvariant, RawMessages, TurnLogs, During, Restore;
    EveryRunIsSound(trace, steps, i, agent);
    assert Steps(trace[i], steps[i], trace[i + 1], agent);
    EveryMoment(trace[i], steps[i].log, k, agent);
  }
}
