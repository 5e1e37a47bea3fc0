/** Every interleaving of opening, sending, closing and shutting down over one control plane. Each step is
    one critical section, or one event between two of them. */
module ControlRuns {
  import opened Domain
  import opened ControlPlane

  // ---------------------------------------------------------------- tasks

  /** A turn from `start_turn` on: `Cleared` when its supervisor has given the turn state
      back, `Finished` when it has also told whoever waits. Its dependencies always resolve, see module
      `Registry`, so a started turn is always spawned. */
  datatype TurnPhase = Starting | Live | Cleared | Finished

  datatype TurnTask = TurnTask(sessionId: string, phase: TurnPhase)

  /** A close after `begin_close`: waiting for the turn it cancelled, in the SessionEnd hook, about to give
      the session back after an aborting hook, extracting memories, over. */
  datatype ClosePhase = Waiting(awaited: Option<nat>) | InEndHook | HookFailed | Extracting | Closed(ok: bool)

  datatype CloseTask = CloseTask(sessionId: string, phase: ClosePhase)

  datatype ShutdownPhase =
    | NoShutdown
    | ToClose(sessionId: string)
    | AwaitingClose(closer: nat)
    | Failing
    | StoppingPlugins

  /** `openers` are the creations and resumptions that hold a reservation. */
  datatype Plane = Plane(
    control: Control, openers: map<nat, string>, turns: map<nat, TurnTask>, closers: map<nat, CloseTask>,
    shutdown: ShutdownPhase)

  datatype Step =
    | Claims(reservation: nat, sessionId: string)
    | OpenFails(reservation: nat)
    | Opens(reservation: nat)
    | Starts(turn: nat, sessionId: string)
    | Spawns(turn: nat)
    | Clears(turn: nat)
    | Finishes(turn: nat)
    | BeginsClose(closer: nat, sessionId: string)
    | Awakens(closer: nat)
    | HookEnds(closer: nat, ok: bool)
    | AbortsClose(closer: nat)
    | FinishesClose(closer: nat)
    | BeginsShutdown
    | ShutdownCloses(closer: nat)
    | ShutdownResumes
    | ShutdownFails
    | CompletesShutdown

  predicate TurnIn(s: Plane, turn: nat, phase: TurnPhase) {
    turn in s.turns && s.turns[turn].phase == phase
  }

  predicate CloseIn(s: Plane, closer: nat, phase: ClosePhase) {
    closer in s.closers && s.closers[closer].phase == phase
  }

  /** The turn has told whoever waits for it. */
  predicate TurnOver(s: Plane, awaited: Option<nat>) {
    awaited.Some? ==> TurnIn(s, awaited.value, Finished)
  }

  /** Identifiers are drawn fresh; every other task step needs its task in the right phase. */
  predicate Enabled(s: Plane, step: Step) {
    match step
    case Claims(reservation, _) => reservation !in s.openers
    case OpenFails(reservation) => reservation in s.openers
    case Opens(reservation) => reservation in s.openers
    case Starts(turn, _) => turn !in s.turns
    case Spawns(turn) => TurnIn(s, turn, Starting)
    case Clears(turn) => TurnIn(s, turn, Live)
    case Finishes(turn) => TurnIn(s, turn, Cleared)
    case BeginsClose(closer, _) => closer !in s.closers
    case Awakens(closer) =>
      closer in s.closers && s.closers[closer].phase.Waiting? && TurnOver(s, s.closers[closer].phase.awaited)
    case HookEnds(closer, _) => CloseIn(s, closer, InEndHook)
    case AbortsClose(closer) => CloseIn(s, closer, HookFailed)
    case FinishesClose(closer) => CloseIn(s, closer, Extracting)
    case BeginsShutdown => true
    case ShutdownCloses(closer) => s.shutdown.ToClose? && closer !in s.closers
    case ShutdownResumes =>
      s.shutdown.AwaitingClose? && s.shutdown.closer in s.closers && s.closers[s.shutdown.closer].phase.Closed?
    case ShutdownFails => s.shutdown == Failing
    case CompletesShutdown => s.shutdown == StoppingPlugins
  }

  function WithTurnPhase(s: Plane, turn: nat, phase: TurnPhase): Plane
    requires turn in s.turns
  {
    s.(turns := s.turns[turn := s.turns[turn].(phase := phase)])
  }

  function WithClosePhase(s: Plane, closer: nat, phase: ClosePhase): Plane
    requires closer in s.closers
  {
    s.(closers := s.closers[closer := s.closers[closer].(phase := phase)])
  }

  function CloseStarted(s: Plane, closer: nat, sessionId: string): Plane {
    s.(control := CloseBegun(s.control, sessionId),
       closers := s.closers[closer := CloseTask(sessionId, Waiting(TurnToAwait(s.control)))])
  }

  /** What the step makes of the system; a refused operation changes nothing. */
  function Apply(s: Plane, step: Step): Plane
    requires Enabled(s, step)
  {
    match step
    case Claims(reservation, sessionId) =>
      if ClaimError(s.control).Some? then s
      else s.(control := Claimed(s.control, reservation, sessionId), openers := s.openers[reservation := sessionId])
    case OpenFails(reservation) =>
      s.(control := RolledBack(s.control, reservation), openers := s.openers - {reservation})
    case Opens(reservation) =>
      s.(control := Activated(s.control, reservation), openers := s.openers - {reservation})
    case Starts(turn, sessionId) =>
      if StartError(s.control, sessionId).Some? then s
      else s.(control := TurnStarted(s.control, sessionId, turn),
              turns := s.turns[turn := TurnTask(sessionId, Starting)])
    case Spawns(turn) => WithTurnPhase(s, turn, Live)
    case Clears(turn) => WithTurnPhase(s, turn, Cleared).(control := TurnCleared(s.control, s.turns[turn].sessionId))
    case Finishes(turn) => WithTurnPhase(s, turn, Finished)
    case BeginsClose(closer, sessionId) =>
      if CloseError(s.control, sessionId).Some? then s else CloseStarted(s, closer, sessionId)
    case Awakens(closer) => WithClosePhase(s, closer, InEndHook)
    case HookEnds(closer, ok) => WithClosePhase(s, closer, if ok then Extracting else HookFailed)
    case AbortsClose(closer) =>
      WithClosePhase(s, closer, Closed(false)).(control := CloseAborted(s.control, s.closers[closer].sessionId))
    case FinishesClose(closer) =>
      WithClosePhase(s, closer, Closed(FinishError(s.control, s.closers[closer].sessionId).None?))
        .(control := CloseFinished(s.control, s.closers[closer].sessionId))
    case BeginsShutdown =>
      if s.control.lifecycle != Running then s
      else s.(control := ShutdownBegun(s.control),
              shutdown := if s.control.slot.Active? then ToClose(s.control.slot.sessionId) else StoppingPlugins)
    case ShutdownCloses(closer) =>
      if CloseError(s.control, s.shutdown.sessionId).Some? then s.(shutdown := Failing)
      else CloseStarted(s, closer, s.shutdown.sessionId).(shutdown := AwaitingClose(closer))
    case ShutdownResumes => s.(shutdown := if s.closers[s.shutdown.closer].phase.ok then StoppingPlugins else Failing)
    case ShutdownFails => s.(control := s.control.(lifecycle := Running), shutdown := NoShutdown)
    case CompletesShutdown => s.(control := Control(Shutdown, Empty), shutdown := NoShutdown)
  }

  const INITIAL: Plane := Plane(Control(Running, Empty), map[], map[], map[], NoShutdown)

  ghost predicate IsRun(trace: seq<Plane>, steps: seq<Step>) {
    && |trace| == |steps| + 1 && trace[0] == INITIAL
    && forall i :: 0 <= i < |steps| ==> Enabled(trace[i], steps[i]) && trace[i + 1] == Apply(trace[i], steps[i])
  }

  // ---------------------------------------------------------------- invariant

  /** The turn's supervisor has not given the turn state back. */
  predicate Uncleared(s: Plane, turn: nat) {
    TurnIn(s, turn, Starting) || TurnIn(s, turn, Live)
  }

  predicate Pending(s: Plane, closer: nat) {
    closer in s.closers && !s.closers[closer].phase.Closed?
  }

  ghost predicate LifecycleFits(s: Plane) {
    && (s.shutdown == NoShutdown <==> s.control.lifecycle != ShuttingDown)
    && (s.control.lifecycle == Shutdown ==> s.control.slot == Empty)
  }

  /** Until the agent is shut down, opening tasks and the reservation are one and the same thing. */
  ghost predicate OpenersFit(s: Plane) {
    s.control.lifecycle != Shutdown ==>
      && (forall r :: r in s.openers ==> s.control.slot == Reserved(r, s.openers[r]))
      && (s.control.slot.Reserved? ==> s.control.slot.reservation in s.openers)
  }

  ghost predicate TurnsFit(s: Plane) {
    s.control.lifecycle != Shutdown ==>
      && (forall t :: Uncleared(s, t) ==>
            && IsActive(s.control, s.turns[t].sessionId)
            && s.control.slot.turnState in {InTurn(t), Closing})
      && (s.control.slot.Active? && s.control.slot.turnState.InTurn? ==>
            var t := s.control.slot.turnState.turn;
            && t in s.turns && s.turns[t].sessionId == s.control.slot.sessionId
            && Uncleared(s, t))
  }

  ghost predicate ClosersFit(s: Plane) {
    s.control.lifecycle != Shutdown ==>
      && (forall c :: Pending(s, c) ==>
          IsActive(s.control, s.closers[c].sessionId) && s.control.slot.turnState == Closing)
      && (s.control.slot.Active? && s.control.slot.turnState == Closing ==> exists c :: Pending(s, c))
  }

  /** These hold for ever, shut down or not. */
  ghost predicate Exclusive(s: Plane) {
    && (forall t, t' :: Uncleared(s, t) && Uncleared(s, t') ==> t == t')
    && (forall c, c' :: Pending(s, c) && Pending(s, c') ==> c == c')
    && (forall c, t :: Pending(s, c) && Uncleared(s, t) ==> s.closers[c].phase == Waiting(Some(t)))
    && (forall c :: Pending(s, c) && s.closers[c].phase.Waiting? ==>
          s.closers[c].phase.awaited.Some? ==> s.closers[c].phase.awaited.value in s.turns)
  }

  ghost predicate Inv(s: Plane) {
    LifecycleFits(s) && OpenersFit(s) && TurnsFit(s) && ClosersFit(s) && Exclusive(s)
  }

  lemma OpeningKeeps(s: Plane, step: Step)
    requires Inv(s) && Enabled(s, step) && (step.Claims? || step.OpenFails? || step.Opens?)
    ensures LifecycleFits(Apply(s, step))
    ensures OpenersFit(Apply(s, step))
    ensures TurnsFit(Apply(s, step))
    ensures ClosersFit(Apply(s, step))
    ensures Exclusive(Apply(s, step))
  {
    var s' := Apply(s, step);
    assert forall c :: Pending(s', c) == Pending(s, c);
    assert forall t :: Uncleared(s', t) == Uncleared(s, t);
  }

  lemma TurnStarts(s: Plane, step: Step)
    requires Inv(s) && Enabled(s, step) && (step.Starts?)
    ensures LifecycleFits(Apply(s, step))
    ensures OpenersFit(Apply(s, step))
    ensures TurnsFit(Apply(s, step))
    ensures ClosersFit(Apply(s, step))
    ensures Exclusive(Apply(s, step))
  {
    var s' := Apply(s, step);
    assert forall c :: Pending(s', c) == Pending(s, c);
    assert forall t :: t != step.turn ==> Uncleared(s', t) == Uncleared(s, t);
    if step.turn in s'.turns {
      assert forall t :: !Uncleared(s, t);
    }
  }

  lemma MovedTurn(s: Plane, turn: nat, phase: TurnPhase)
    requires Inv(s) && turn in s.turns
    requires (s.turns[turn].phase == Starting && phase == Live) || (s.turns[turn].phase == Cleared && phase == Finished)
    ensures Inv(WithTurnPhase(s, turn, phase))
  {
    var s' := WithTurnPhase(s, turn, phase);
    assert forall c :: Pending(s', c) == Pending(s, c);
    assert forall t :: Uncleared(s', t) ==> Uncleared(s, t);
  }

  lemma TurnMoves(s: Plane, step: Step)
    requires Inv(s) && Enabled(s, step) && (step.Spawns? || step.Finishes?)
    ensures Inv(Apply(s, step))
  {
    hide Inv;
    MovedTurn(s, step.turn, if step.Spawns? then Live else Finished);
  }

  lemma TurnClears(s: Plane, step: Step)
    requires Inv(s) && Enabled(s, step) && (step.Clears?)
    ensures LifecycleFits(Apply(s, step))
    ensures OpenersFit(Apply(s, step))
    ensures TurnsFit(Apply(s, step))
    ensures ClosersFit(Apply(s, step))
    ensures Exclusive(Apply(s, step))
  {
    var s' := Apply(s, step);
    assert forall c :: Pending(s', c) == Pending(s, c);
    var turn := step.turn;
    assert Uncleared(s, turn);
    assert forall t :: Uncleared(s', t) ==> Uncleared(s, t) && t != turn;
  }

  lemma StartedClose(s: Plane, closer: nat, sessionId: string, s': Plane)
    requires Inv(s) && CloseError(s.control, sessionId).None? && closer !in s.closers
    requires s' == CloseStarted(s, closer, sessionId).(shutdown := s'.shutdown)
    ensures OpenersFit(s')
    ensures TurnsFit(s')
    ensures ClosersFit(s')
    ensures Exclusive(s')
  {
    assert forall t :: Uncleared(s', t) == Uncleared(s, t);
    assert forall c :: !Pending(s, c);
    assert Pending(s', closer);
    assert forall c :: Pending(s', c) ==> c == closer;
  }

  lemma CloseStarts(s: Plane, step: Step)
    requires Inv(s) && Enabled(s, step) && (step.BeginsClose? || step.ShutdownCloses?)
    ensures Inv(Apply(s, step))
  {
    hide OpenersFit, TurnsFit, ClosersFit, Exclusive;
    var s' := Apply(s, step);
    var sessionId := if step.BeginsClose? then step.sessionId else s.shutdown.sessionId;
    if CloseError(s.control, sessionId).None? {
      StartedClose(s, step.closer, sessionId, s');
    } else {
      SameTasks(s, s');
    }
  }

  /** Only the lifecycle and the shutdown task may differ. */
  lemma SameTasks(s: Plane, s': Plane)
    requires Inv(s) && s' == s.(shutdown := s'.shutdown, control := s.control.(lifecycle := s'.control.lifecycle))
    requires s.control.lifecycle == Shutdown <==> s'.control.lifecycle == Shutdown
    ensures OpenersFit(s') && TurnsFit(s') && ClosersFit(s') && Exclusive(s')
  {
    assert forall c :: Pending(s', c) == Pending(s, c);
    assert forall t :: Uncleared(s', t) == Uncleared(s, t);
  }

  lemma CloseMoves(s: Plane, step: Step)
    requires Inv(s) && Enabled(s, step) && (step.Awakens? || step.HookEnds?)
    ensures LifecycleFits(Apply(s, step))
    ensures OpenersFit(Apply(s, step))
    ensures TurnsFit(Apply(s, step))
    ensures ClosersFit(Apply(s, step))
    ensures Exclusive(Apply(s, step))
  {
    var s' := Apply(s, step);
    assert forall t :: Uncleared(s', t) == Uncleared(s, t);
    assert forall c :: Pending(s', c) == Pending(s, c);
    assert Pending(s', step.closer);
  }

  lemma CloseEnds(s: Plane, step: Step)
    requires Inv(s) && Enabled(s, step) && (step.AbortsClose? || step.FinishesClose?)
    ensures LifecycleFits(Apply(s, step))
    ensures OpenersFit(Apply(s, step))
    ensures TurnsFit(Apply(s, step))
    ensures ClosersFit(Apply(s, step))
    ensures Exclusive(Apply(s, step))
  {
    var s' := Apply(s, step);
    assert forall t :: Uncleared(s', t) == Uncleared(s, t);
    assert Pending(s, step.closer);
    assert forall c :: Pending(s', c) <==> Pending(s, c) && c != step.closer;
  }

  lemma ShutdownKeeps(s: Plane, step: Step)
    requires Inv(s) && Enabled(s, step)
    requires step.BeginsShutdown? || step.ShutdownResumes? || step.ShutdownFails? || step.CompletesShutdown?
    ensures Inv(Apply(s, step))
  {
    hide OpenersFit, TurnsFit, ClosersFit, Exclusive;
    var s' := Apply(s, step);
    if step.CompletesShutdown? {
      DroppedSlot(s, s');
    } else {
      SameTasks(s, s');
    }
  }

  lemma DroppedSlot(s: Plane, s': Plane)
    requires Exclusive(s) && s' == s.(control := Control(Shutdown, Empty), shutdown := NoShutdown)
    ensures OpenersFit(s') && TurnsFit(s') && ClosersFit(s') && Exclusive(s')
  {
    assert forall c :: Pending(s', c) == Pending(s, c);
    assert forall t :: Uncleared(s', t) == Uncleared(s, t);
  }

  lemma StepKeeps(s: Plane, step: Step)
    requires Inv(s) && Enabled(s, step)
    ensures Inv(Apply(s, step))
  {
    hide Apply, Enabled, LifecycleFits, OpenersFit, TurnsFit, ClosersFit, Exclusive;
    match step
    case Claims(_, _) => OpeningKeeps(s, step);
    case OpenFails(_) => OpeningKeeps(s, step);
    case Opens(_) => OpeningKeeps(s, step);
    case Starts(_, _) => TurnStarts(s, step);
    case Spawns(_) => TurnMoves(s, step);
    case Clears(_) => TurnClears(s, step);
    case Finishes(_) => TurnMoves(s, step);
    case BeginsClose(_, _) => CloseStarts(s, step);
    case Awakens(_) => CloseMoves(s, step);
    case HookEnds(_, _) => CloseMoves(s, step);
    case AbortsClose(_) => CloseEnds(s, step);
    case FinishesClose(_) => CloseEnds(s, step);
    case ShutdownCloses(_) => CloseStarts(s, step);
    case BeginsShutdown => ShutdownKeeps(s, step);
    case ShutdownResumes => ShutdownKeeps(s, step);
    case ShutdownFails => ShutdownKeeps(s, step);
    case CompletesShutdown => ShutdownKeeps(s, step);
  }

  lemma {:induction false} Reachable(trace: seq<Plane>, steps: seq<Step>, i: nat)
    requires IsRun(trace, steps) && i < |trace|
    ensures Inv(trace[i])
  {
    hide Inv, Apply, Enabled;
    if i == 0 {
      InitialFits();
    } else {
      Reachable(trace, steps, i - 1);
      StepKeeps(trace[i - 1], steps[i - 1]);
    }
  }

  lemma InitialFits()
    ensures Inv(INITIAL)
  {
  }

  // ---------------------------------------------------------------- theorems over all runs

  /** At most one live turn: in every interleaving, at most one turn has not given the turn state back. Until
      the agent is shut down it belongs to the active session. */
  lemma AtMostOneLiveTurn(trace: seq<Plane>, steps: seq<Step>, i: nat, t: nat, t': nat)
    requires IsRun(trace, steps) && i < |trace| && Uncleared(trace[i], t) && Uncleared(trace[i], t')
    ensures t == t'
    ensures trace[i].control.lifecycle != Shutdown ==> IsActive(trace[i].control, trace[i].turns[t].sessionId)
  {
    hide OpenersFit, ClosersFit, LifecycleFits, Apply, Enabled;
    Reachable(trace, steps, i);
  }

  /** Clearing never touches another turn, although it only compares session ids: until the agent is shut
      down the session it finds is its own, either in this very turn, which becomes idle, or closing, which
      stays as it is. */
  lemma ClearsItsOwnTurn(trace: seq<Plane>, steps: seq<Step>, i: nat)
    requires IsRun(trace, steps) && i < |steps| && steps[i].Clears?
    ensures
      var before, after, t := trace[i].control, trace[i + 1].control, steps[i].turn;
      && (after == before || (before.slot.Active? && before.slot.turnState == InTurn(t)
                              && after == WithTurn(before, Idle)))
      && (before.lifecycle != Shutdown ==>
            && IsActive(before, trace[i].turns[t].sessionId) && IsActive(after, trace[i].turns[t].sessionId)
            && after.slot.turnState == if before.slot.turnState == InTurn(t) then Idle else Closing)
  {
    hide OpenersFit, ClosersFit;
    Reachable(trace, steps, i);
    assert Uncleared(trace[i], steps[i].turn);
  }

  /** The SessionEnd hook never runs beside a live turn, from its start to the end of the close. */
  lemma NoEndHookDuringATurn(trace: seq<Plane>, steps: seq<Step>, i: nat, closer: nat, turn: nat)
    requires IsRun(trace, steps) && i < |trace|
    requires || CloseIn(trace[i], closer, InEndHook)
             || CloseIn(trace[i], closer, HookFailed)
             || CloseIn(trace[i], closer, Extracting)
    ensures !Uncleared(trace[i], turn)
  {
    hide OpenersFit, ClosersFit, TurnsFit, LifecycleFits, Apply, Enabled;
    Reachable(trace, steps, i);
    assert Pending(trace[i], closer);
  }

  /** The turn state is exact. Until the agent is shut down, the slot says "in turn t" if and only if t is the
      live turn and nobody is closing; it says "closing" if and only if somebody is; and it is idle if and only
      if neither is the case. */
  lemma TurnStateIsExact(trace: seq<Plane>, steps: seq<Step>, i: nat, t: nat)
    requires IsRun(trace, steps) && i < |trace| && trace[i].control.lifecycle != Shutdown
    ensures
      var s, slot := trace[i], trace[i].control.slot;
      && ((slot.Active? && slot.turnState == InTurn(t)) <==> (Uncleared(s, t) && !SomePending(s)))
      && ((slot.Active? && slot.turnState == Closing) <==> SomePending(s))
      && ((slot.Active? && slot.turnState == Idle) <==> (slot.Active? && !SomePending(s) && !SomeUncleared(s)))
      && (Uncleared(s, t) ==> IsActive(s.control, s.turns[t].sessionId))
  {
    hide OpenersFit, Apply, Enabled;
    Reachable(trace, steps, i);
    var slot := trace[i].control.slot;
    assert slot.Active? && slot.turnState.InTurn? ==> Uncleared(trace[i], slot.turnState.turn);
  }

  ghost predicate SomePending(s: Plane) {
    exists c :: Pending(s, c)
  }

  ghost predicate SomeUncleared(s: Plane) {
    exists t :: Uncleared(s, t)
  }

  lemma ReservationStep(s: Plane, step: Step)
    requires OpenersFit(s) && Enabled(s, step)
    ensures
      var before, after := s.control.slot, Apply(s, step).control.slot;
      && (after.Reserved? && after != before ==>
            s.control.lifecycle == Running && before.Empty? && step == Claims(after.reservation, after.sessionId))
      && (before.Reserved? && after != before ==>
            || (step == OpenFails(before.reservation) && after == Empty)
            || (step == Opens(before.reservation) && after == Active(before.sessionId, Idle))
            || (step.CompletesShutdown? && Apply(s, step).control == Control(Shutdown, Empty)))
      && (step.Opens? && s.control.lifecycle != Shutdown ==> Holds(s.control, step.reservation))
  {
  }

  /** A reservation is made only while the agent is running and the slot is empty; it goes away only by the
      step of its own task, or when the agent has shut down. Until then that task's step always succeeds. */
  lemma ReservationIsOwned(trace: seq<Plane>, steps: seq<Step>, i: nat)
    requires IsRun(trace, steps) && i < |steps|
    ensures
      var before, after, step := trace[i].control, trace[i + 1].control, steps[i];
      && (after.slot.Reserved? && after.slot != before.slot ==>
            && before.lifecycle == Running && before.slot.Empty?
            && step == Claims(after.slot.reservation, after.slot.sessionId))
      && (before.slot.Reserved? && after.slot != before.slot ==>
            || (step == OpenFails(before.slot.reservation) && after.slot == Empty)
            || (step == Opens(before.slot.reservation) && after.slot == Active(before.slot.sessionId, Idle))
            || (step.CompletesShutdown? && after == Control(Shutdown, Empty)))
      && (step.Opens? && before.lifecycle != Shutdown ==> Holds(before, step.reservation))
  {
    hide Exclusive, TurnsFit, ClosersFit, LifecycleFits;
    Reachable(trace, steps, i);
    ReservationStep(trace[i], steps[i]);
  }

  /** A close that got this far is never disturbed: until the agent is shut down it finds its session closing
      and gives the slot, or the session, back. */
  lemma CloseIsNotDisturbed(trace: seq<Plane>, steps: seq<Step>, i: nat)
    requires IsRun(trace, steps) && i < |steps| && (steps[i].FinishesClose? || steps[i].AbortsClose?)
    requires trace[i].control.lifecycle != Shutdown
    ensures
      var sessionId := trace[i].closers[steps[i].closer].sessionId;
      && trace[i].control.slot == Active(sessionId, Closing)
      && trace[i + 1].control.slot == (if steps[i].FinishesClose? then Empty else Active(sessionId, Idle))
      && trace[i + 1].closers[steps[i].closer].phase == Closed(steps[i].FinishesClose?)
  {
    hide Exclusive, OpenersFit;
    Reachable(trace, steps, i);
    assert Pending(trace[i], steps[i].closer);
  }

  lemma ShutdownStep(s: Plane, step: Step)
    requires Inv(s) && Enabled(s, step) && s.control == Control(Shutdown, Empty)
    ensures Apply(s, step).control == Control(Shutdown, Empty)
    ensures forall t :: Uncleared(Apply(s, step), t) ==> Uncleared(s, t)
  {
  }

  /** Shut down is for ever: the slot is empty and stays empty, against stale activations, rollbacks, closes
      and starts, and no turn is started any more. */
  lemma {:induction false} ShutdownIsFinal(trace: seq<Plane>, steps: seq<Step>, i: nat, j: nat)
    requires IsRun(trace, steps) && i <= j < |trace| && trace[i].control.lifecycle == Shutdown
    ensures trace[j].control == Control(Shutdown, Empty)
    ensures forall t :: Uncleared(trace[j], t) ==> Uncleared(trace[i], t)
    decreases j
  {
    hide Apply, Enabled, TurnsFit, ClosersFit, OpenersFit, Exclusive, Uncleared;
    Reachable(trace, steps, i);
    if i < j {
      ShutdownIsFinal(trace, steps, i, j - 1);
      Reachable(trace, steps, j - 1);
      ShutdownStep(trace[j - 1], steps[j - 1]);
    }
  }

  /** A shutdown that found no reservation: once it has closed what it found, the slot is empty. */
  ghost predicate ClosingOrderly(s: Plane) {
    && s.control.lifecycle == ShuttingDown && !s.control.slot.Reserved?
    && (s.shutdown == StoppingPlugins ==> s.control.slot == Empty)
    && (s.shutdown.AwaitingClose? ==>
          && s.shutdown.closer in s.closers
          && (s.closers[s.shutdown.closer].phase == Closed(true) ==> s.control.slot == Empty))
  }

  lemma OrderlyStep(s: Plane, step: Step)
    requires Inv(s) && Enabled(s, step) && Apply(s, step).control.lifecycle == ShuttingDown
    requires ClosingOrderly(s) || (s.control.lifecycle == Running && !s.control.slot.Reserved?)
    ensures ClosingOrderly(Apply(s, step))
  {
    hide TurnsFit, Exclusive;
    if step.FinishesClose? || step.AbortsClose? {
      assert Pending(s, step.closer);
    }
  }

  lemma {:induction false} OrderlySince(trace: seq<Plane>, steps: seq<Step>, b: nat, e: nat)
    requires IsRun(trace, steps) && b < e < |trace|
    requires trace[b].control.lifecycle == Running && !trace[b].control.slot.Reserved?
    requires forall k :: b < k <= e ==> trace[k].control.lifecycle == ShuttingDown
    ensures ClosingOrderly(trace[e])
    decreases e
  {
    hide Inv, Apply, Enabled, ClosingOrderly;
    Reachable(trace, steps, e - 1);
    if b + 1 < e {
      OrderlySince(trace, steps, b, e - 1);
    }
    assert Enabled(trace[e - 1], steps[e - 1]) && trace[e] == Apply(trace[e - 1], steps[e - 1]);
    assert trace[e].control.lifecycle == ShuttingDown;
    OrderlyStep(trace[e - 1], steps[e - 1]);
  }

  lemma NothingLeftToDrop(trace: seq<Plane>, steps: seq<Step>, b: nat, e: nat)
    requires IsRun(trace, steps) && b < e < |steps| && steps[e].CompletesShutdown?
    requires trace[b].control.lifecycle == Running && !trace[b].control.slot.Reserved?
    requires forall k :: b < k <= e ==> trace[k].control.lifecycle == ShuttingDown
    ensures trace[e].control.slot == Empty && !SomeUncleared(trace[e]) && !SomeUncleared(trace[e + 1])
  {
    hide OpenersFit, ClosersFit, Exclusive;
    OrderlySince(trace, steps, b, e);
    Reachable(trace, steps, e);
    assert forall t :: Uncleared(trace[e], t) ==> IsActive(trace[e].control, trace[e].turns[t].sessionId);
    var s, s' := trace[e], trace[e + 1];
    assert forall t :: Uncleared(s', t) == Uncleared(s, t);
  }

  /** The shutdown begun after step `b` completes at step `e` and drops an active session or a live turn. */
  ghost predicate Drops(trace: seq<Plane>, steps: seq<Step>, b: nat, e: nat) {
    && IsRun(trace, steps) && b < e < |steps| && steps[b].BeginsShutdown? && steps[e].CompletesShutdown?
    && (forall k :: b < k <= e ==> trace[k].control.lifecycle == ShuttingDown)
    && (trace[e].control.slot.Active? || SomeUncleared(trace[e + 1]))
  }

  /** Some continuation of this run begins a shutdown at once, and that shutdown drops something. */
  ghost predicate ShutdownCanDrop(trace: seq<Plane>, steps: seq<Step>) {
    exists trace', steps', e :: trace <= trace' && Drops(trace', steps', |steps|, e)
  }

  ghost predicate Leads(s: Plane, step: Step, s': Plane) {
    Enabled(s, step) && s' == Apply(s, step)
  }

  lemma OneMore(trace: seq<Plane>, steps: seq<Step>, step: Step, s: Plane)
    requires IsRun(trace, steps) && Leads(trace[|trace| - 1], step, s)
    ensures IsRun(trace + [s], steps + [step])
  {
    hide Apply, Enabled;
  }

  /** Activation does not look at the lifecycle: whatever reservation a shutdown meets, the session can still be
      activated, start any new turn, and be dropped with that turn live. */
  lemma ReservedCanBeDropped(trace: seq<Plane>, steps: seq<Step>, t: nat)
    returns (trace': seq<Plane>, steps': seq<Step>)
    requires IsRun(trace, steps)
    requires
      var end := trace[|trace| - 1];
      end.control.lifecycle == Running && end.control.slot.Reserved? && t !in end.turns
    ensures
      var slot := trace[|trace| - 1].control.slot;
      steps' == steps + [BeginsShutdown, Opens(slot.reservation), Starts(t, slot.sessionId), CompletesShutdown]
    ensures trace <= trace' && Drops(trace', steps', |steps|, |steps| + 3)
    ensures Uncleared(trace'[|trace'| - 1], t) && trace'[|trace'| - 1].control == Control(Shutdown, Empty)
  {
    hide IsRun, Leads;
    RunLength(trace, steps);
    var s := trace[|trace| - 1];
    var s1, s2, s3, s4 := DropStates(trace, steps, t);
    var open, start := Opens(s.control.slot.reservation), Starts(t, s.control.slot.sessionId);
    OneMore(trace, steps, BeginsShutdown, s1);
    OneMore(trace + [s1], steps + [BeginsShutdown], open, s2);
    OneMore(trace + [s1] + [s2], steps + [BeginsShutdown] + [open], start, s3);
    OneMore(trace + [s1] + [s2] + [s3], steps + [BeginsShutdown] + [open] + [start], CompletesShutdown, s4);
    trace' := trace + [s1, s2, s3, s4];
    steps' := steps + [BeginsShutdown, open, start, CompletesShutdown];
    assert trace' == trace + [s1] + [s2] + [s3] + [s4];
    assert steps' == steps + [BeginsShutdown] + [open] + [start] + [CompletesShutdown];
  }

  lemma RunLength(trace: seq<Plane>, steps: seq<Step>)
    requires IsRun(trace, steps)
    ensures |trace| == |steps| + 1
  {
  }

  lemma DropStates(trace: seq<Plane>, steps: seq<Step>, t: nat) returns (s1: Plane, s2: Plane, s3: Plane, s4: Plane)
    requires IsRun(trace, steps)
    requires
      var end := trace[|trace| - 1];
      end.control.lifecycle == Running && end.control.slot.Reserved? && t !in end.turns
    ensures
      var s := trace[|trace| - 1];
      && Leads(s, BeginsShutdown, s1)
      && Leads(s1, Opens(s.control.slot.reservation), s2)
      && Leads(s2, Starts(t, s.control.slot.sessionId), s3)
      && Leads(s3, CompletesShutdown, s4)
    ensures s1.control.lifecycle == s2.control.lifecycle == s3.control.lifecycle == ShuttingDown
    ensures s3.control.slot.Active? && Uncleared(s4, t) && s4.control == Control(Shutdown, Empty)
  {
    hide TurnsFit, ClosersFit, Exclusive;
    Reachable(trace, steps, |trace| - 1);
    var s := trace[|trace| - 1];
    var r, id := s.control.slot.reservation, s.control.slot.sessionId;
    s1 := s.(control := Control(ShuttingDown, Reserved(r, id)), shutdown := StoppingPlugins);
    s2 := s1.(control := Control(ShuttingDown, Active(id, Idle)), openers := s.openers - {r});
    s3 := s2.(control := Control(ShuttingDown, Active(id, InTurn(t))), turns := s.turns[t := TurnTask(id, Starting)]);
    s4 := s3.(control := Control(Shutdown, Empty), shutdown := NoShutdown);
  }

  /** Exactly when a shutdown may drop a session or a live turn: when a session is being opened as it begins. */
  lemma ShutdownDropsExactly(trace: seq<Plane>, steps: seq<Step>)
    requires IsRun(trace, steps) && trace[|trace| - 1].control.lifecycle == Running
    ensures ShutdownCanDrop(trace, steps) <==> trace[|trace| - 1].control.slot.Reserved?
  {
    hide Apply, Enabled, IsRun;
    RunLength(trace, steps);
    var end := trace[|steps|];
    if end.control.slot.Reserved? {
      var t := FreshTurn(end.turns);
      var trace', steps' := ReservedCanBeDropped(trace, steps, t);
      assert Drops(trace', steps', |steps|, |steps| + 3);
    } else if ShutdownCanDrop(trace, steps) {
      var trace', steps', e :| trace <= trace' && Drops(trace', steps', |steps|, e);
      assert trace'[|steps|] == end;
      NothingLeftToDrop(trace', steps', |steps|, e);
    }
  }

  /** There is always an identifier not drawn yet. */
  lemma FreshTurn(turns: map<nat, TurnTask>) returns (t: nat)
    ensures t !in turns
  {
    var drawn := turns.Keys;
    t := 0;
    while t in turns
      invariant forall x :: x in drawn <==> x in turns && x >= t
      decreases |drawn|
    {
      drawn := drawn - {t};
      t := t + 1;
    }
  }

  // ---------------------------------------------------------------- what can happen

  /** A session can be opened on an empty slot, and then run a turn. */
  lemma OpensAndRuns(s: Plane, r: nat, id: string, t: nat) returns (s1: Plane, s2: Plane, s3: Plane, s4: Plane)
    requires s.control == Control(Running, Empty) && r !in s.openers && t !in s.turns
    ensures Leads(s, Claims(r, id), s1) && s1.control == Control(Running, Reserved(r, id))
    ensures Leads(s1, Opens(r), s2) && s2.control == Control(Running, Active(id, Idle))
    ensures Leads(s2, Starts(t, id), s3) && s3.control == Control(Running, Active(id, InTurn(t)))
    ensures Leads(s3, Spawns(t), s4) && s4.control == s3.control && s4.turns[t] == TurnTask(id, Live)
  {
    s1, s2 := Apply(s, Claims(r, id)), Apply(Apply(s, Claims(r, id)), Opens(r));
    s3 := Apply(s2, Starts(t, id));
    s4 := Apply(s3, Spawns(t));
  }

  /** A turn that ends by itself leaves its session idle. */
  lemma TurnEnds(s: Plane, id: string, t: nat) returns (s1: Plane, s2: Plane)
    requires s.control == Control(Running, Active(id, InTurn(t))) && t in s.turns && s.turns[t] == TurnTask(id, Live)
    ensures Leads(s, Clears(t), s1) && s1.control == Control(Running, Active(id, Idle))
    ensures Leads(s1, Finishes(t), s2) && s2.control == s1.control && s2.turns[t] == TurnTask(id, Finished)
  {
    s1 := Apply(s, Clears(t));
    s2 := Apply(s1, Finishes(t));
  }

  /** A close begun during a turn waits until the turn has told that it is over, and only then asks the SessionEnd
      hook. */
  lemma CloseWaitsForTurn(s: Plane, id: string, t: nat, c: nat) returns (s1: Plane, s2: Plane, s3: Plane, s4: Plane)
    requires s.control == Control(Running, Active(id, InTurn(t))) && t in s.turns && s.turns[t] == TurnTask(id, Live)
    requires c !in s.closers
    ensures Leads(s, BeginsClose(c, id), s1) && s1.control == Control(Running, Active(id, Closing))
    ensures s1.closers[c] == CloseTask(id, Waiting(Some(t))) && !Enabled(s1, Awakens(c))
    ensures Leads(s1, Clears(t), s2) && s2.control == s1.control && !Enabled(s2, Awakens(c))
    ensures Leads(s2, Finishes(t), s3)
    ensures Leads(s3, Awakens(c), s4) && s4.control == s1.control && s4.closers[c] == CloseTask(id, InEndHook)
  {
    s1 := Apply(s, BeginsClose(c, id));
    s2 := Apply(s1, Clears(t));
    s3 := Apply(s2, Finishes(t));
    s4 := Apply(s3, Awakens(c));
  }

  /** When the hook passed, the close frees the slot after the extraction; otherwise it gives the session back. */
  lemma CloseDecides(s: Plane, id: string, c: nat, passed: bool) returns (s1: Plane, s2: Plane)
    requires s.control.slot == Active(id, Closing) && c in s.closers && s.closers[c] == CloseTask(id, InEndHook)
    ensures Leads(s, HookEnds(c, passed), s1) && s1.control == s.control
    ensures Leads(s1, if passed then FinishesClose(c) else AbortsClose(c), s2)
    ensures s2.control == s.control.(slot := if passed then Empty else Active(id, Idle))
    ensures s2.closers[c] == CloseTask(id, Closed(passed))
  {
    s1 := Apply(s, HookEnds(c, passed));
    s2 := Apply(s1, if passed then FinishesClose(c) else AbortsClose(c));
  }

  /** A shutdown of an idle session first closes it. */
  lemma ShutdownClosesFirst(s: Plane, id: string, c: nat) returns (s1: Plane, s2: Plane, s3: Plane)
    requires s.control == Control(Running, Active(id, Idle)) && c !in s.closers
    ensures Leads(s, BeginsShutdown, s1) && s1.control == Control(ShuttingDown, Active(id, Idle))
    ensures Leads(s1, ShutdownCloses(c), s2) && s2.control == Control(ShuttingDown, Active(id, Closing))
    ensures s2.shutdown == AwaitingClose(c) && s2.closers[c] == CloseTask(id, Waiting(None))
    ensures Leads(s2, Awakens(c), s3) && s3.control == s2.control && s3.closers[c] == CloseTask(id, InEndHook)
  {
    s1 := Apply(s, BeginsShutdown);
    s2 := Apply(s1, ShutdownCloses(c));
    s3 := Apply(s2, Awakens(c));
  }

  /** It goes on to the plugins and ends when that close succeeded, and lets the agent run again when it failed. */
  lemma ShutdownDecides(s: Plane, c: nat) returns (s1: Plane, s2: Plane)
    requires s.shutdown == AwaitingClose(c) && c in s.closers && s.closers[c].phase.Closed?
    ensures Leads(s, ShutdownResumes, s1)
    ensures Leads(s1, if s.closers[c].phase.ok then CompletesShutdown else ShutdownFails, s2)
    ensures s2.shutdown == NoShutdown
    ensures s2.control
         == if s.closers[c].phase.ok then Control(Shutdown, Empty) else s.control.(lifecycle := Running)
  {
    s1 := Apply(s, ShutdownResumes);
    s2 := Apply(s1, if s.closers[c].phase.ok then CompletesShutdown else ShutdownFails);
  }

  /** A shutdown that finds no session needs no close. */
  lemma ShutdownOfNothing(s: Plane) returns (s1: Plane, s2: Plane)
    requires s.control == Control(Running, Empty)
    ensures Leads(s, BeginsShutdown, s1) && s1.control == Control(ShuttingDown, Empty)
    ensures Leads(s1, CompletesShutdown, s2) && s2.control == Control(Shutdown, Empty)
  {
    s1 := Apply(s, BeginsShutdown);
    s2 := Apply(s1, CompletesShutdown);
  }
}
