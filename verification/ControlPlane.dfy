/** The control plane: the agent's lifecycle, its single session slot and the slot's turn state. Each
    function is one critical section under the agent's mutex (src/application/session_service.rs,
    src/api/session.rs). */
module ControlPlane {
  import opened Domain

  datatype Lifecycle = Running | ShuttingDown | Shutdown

  /** `InTurn` holds the running turn's handle, known by the turn it belongs to. */
  datatype TurnState = Idle | InTurn(turn: nat) | Closing

  datatype Slot =
    | Empty
    | Reserved(reservation: nat, sessionId: string)
    | Active(sessionId: string, turnState: TurnState)

  datatype Control = Control(lifecycle: Lifecycle, slot: Slot)

  datatype ControlError = AgentIsShutdown | SessionBusy | SessionNotFound | TurnBusy

  // ---------------------------------------------------------------- critical sections as functions

  predicate Holds(c: Control, reservation: nat) {
    c.slot.Reserved? && c.slot.reservation == reservation
  }

  predicate IsActive(c: Control, sessionId: string) {
    c.slot.Active? && c.slot.sessionId == sessionId
  }

  /** The slot with its turn state replaced. */
  function WithTurn(c: Control, turnState: TurnState): Control
    requires c.slot.Active?
  {
    c.(slot := Active(c.slot.sessionId, turnState))
  }

  function ClaimError(c: Control): Option<ControlError> {
    if c.lifecycle != Running then Some(AgentIsShutdown) else if !c.slot.Empty? then Some(SessionBusy) else None
  }

  function Claimed(c: Control, reservation: nat, sessionId: string): Control {
    if ClaimError(c).None? then c.(slot := Reserved(reservation, sessionId)) else c
  }

  function RolledBack(c: Control, reservation: nat): Control {
    if Holds(c, reservation) then c.(slot := Empty) else c
  }

  function Activated(c: Control, reservation: nat): Control {
    if Holds(c, reservation) then c.(slot := Active(c.slot.sessionId, Idle)) else c
  }

  function CloseError(c: Control, sessionId: string): Option<ControlError> {
    if !IsActive(c, sessionId) then Some(SessionNotFound)
    else if c.slot.turnState == Closing then Some(SessionBusy)
    else None
  }

  function CloseBegun(c: Control, sessionId: string): Control {
    if CloseError(c, sessionId).None? then WithTurn(c, Closing) else c
  }

  /** The turn a close has to wait for. */
  function TurnToAwait(c: Control): Option<nat> {
    if c.slot.Active? && c.slot.turnState.InTurn? then Some(c.slot.turnState.turn) else None
  }

  function CloseAborted(c: Control, sessionId: string): Control {
    if IsActive(c, sessionId) && c.slot.turnState == Closing then WithTurn(c, Idle) else c
  }

  function FinishError(c: Control, sessionId: string): Option<ControlError> {
    if !IsActive(c, sessionId) then Some(SessionNotFound)
    else if c.slot.turnState != Closing then Some(SessionBusy)
    else None
  }

  function CloseFinished(c: Control, sessionId: string): Control {
    if FinishError(c, sessionId).None? then c.(slot := Empty) else c
  }

  /** Starting a turn looks at the slot only, not at the lifecycle. */
  function StartError(c: Control, sessionId: string): Option<ControlError> {
    if !IsActive(c, sessionId) then Some(SessionNotFound)
    else match c.slot.turnState
         case InTurn(_) => Some(TurnBusy)
         case Closing => Some(SessionBusy)
         case Idle => None
  }

  function TurnStarted(c: Control, sessionId: string, turn: nat): Control {
    if StartError(c, sessionId).None? then WithTurn(c, InTurn(turn)) else c
  }

  /** Clearing knows the session id only, not the turn. */
  function TurnCleared(c: Control, sessionId: string): Control {
    if IsActive(c, sessionId) && c.slot.turnState.InTurn? then WithTurn(c, Idle) else c
  }

  function ShutdownBegun(c: Control): Control {
    if c.lifecycle == Running then c.(lifecycle := ShuttingDown) else c
  }

  // ---------------------------------------------------------------- the shared object

  class AgentControl {
    var lifecycle: Lifecycle
    var slot: Slot

    ghost function View(): Control
      reads this
    {
      Control(lifecycle, slot)
    }

    constructor ()
      ensures View() == Control(Running, Empty)
    {
      lifecycle, slot := Running, Empty;
    }

    /** `drawn` is the identifier drawn for the reservation. */
    method ClaimSessionSlot(sessionId: string, drawn: nat) returns (r: Result<nat, ControlError>)
      modifies this
      ensures View() == Claimed(old(View()), drawn, sessionId)
      ensures lifecycle == old(lifecycle)
      ensures if old(lifecycle) != Running then r == Err(AgentIsShutdown) && slot == old(slot)
              else if !old(slot).Empty? then r == Err(SessionBusy) && slot == old(slot)
              else r == Ok(drawn) && slot == Reserved(drawn, sessionId)
    {
      match lifecycle {
        case Shutdown => return Err(AgentIsShutdown);
        case ShuttingDown => return Err(AgentIsShutdown);
        case Running =>
      }
      match slot {
        case Empty =>
          slot := Reserved(drawn, sessionId);
          r := Ok(drawn);
        case Reserved(_, _) => r := Err(SessionBusy);
        case Active(_, _) => r := Err(SessionBusy);
      }
    }

    method RollbackReservation(reservation: nat)
      modifies this
      ensures View() == RolledBack(old(View()), reservation)
      ensures lifecycle == old(lifecycle)
      ensures slot == if old(slot).Reserved? && old(slot).reservation == reservation then Empty else old(slot)
    {
      if slot.Reserved? && slot.reservation == reservation {
        slot := Empty;
      }
    }

    method ActivateSession(reservation: nat) returns (r: Result<(), ControlError>)
      modifies this
      ensures View() == Activated(old(View()), reservation)
      ensures lifecycle == old(lifecycle)
      ensures if old(slot).Reserved? && old(slot).reservation == reservation
              then r == Ok(()) && slot == Active(old(slot).sessionId, Idle)
              else r == Err(SessionBusy) && slot == old(slot)
    {
      if !slot.Reserved? {
        return Err(SessionBusy);
      }
      if slot.reservation != reservation {
        return Err(SessionBusy);
      }
      slot := Active(slot.sessionId, Idle);
      r := Ok(());
    }

    method BeginClose(sessionId: string) returns (r: Result<Option<nat>, ControlError>)
      modifies this
      ensures View() == CloseBegun(old(View()), sessionId)
      ensures lifecycle == old(lifecycle)
      ensures if !(old(slot).Active? && old(slot).sessionId == sessionId)
              then r == Err(SessionNotFound) && slot == old(slot)
              else
                && slot == Active(sessionId, Closing)
                && r == match old(slot).turnState
                        case Idle => Ok(None)
                        case InTurn(turn) => Ok(Some(turn))
                        case Closing => Err(SessionBusy)
    {
      if !slot.Active? || slot.sessionId != sessionId {
        return Err(SessionNotFound);
      }
      var previous := slot.turnState;
      slot := Active(slot.sessionId, Closing);
      match previous {
        case Idle => r := Ok(None);
        case InTurn(turn) => r := Ok(Some(turn));
        case Closing => r := Err(SessionBusy);
      }
    }

    method AbortClose(sessionId: string) returns (r: Result<(), ControlError>)
      modifies this
      ensures View() == CloseAborted(old(View()), sessionId)
      ensures lifecycle == old(lifecycle)
      ensures if !(old(slot).Active? && old(slot).sessionId == sessionId)
              then r == Err(SessionNotFound) && slot == old(slot)
              else
                && r == Ok(())
                && slot == if old(slot).turnState == Closing then Active(sessionId, Idle) else old(slot)
    {
      if !slot.Active? || slot.sessionId != sessionId {
        return Err(SessionNotFound);
      }
      if slot.turnState == Closing {
        slot := Active(slot.sessionId, Idle);
      }
      r := Ok(());
    }

    method FinishClose(sessionId: string) returns (r: Result<(), ControlError>)
      modifies this
      ensures View() == CloseFinished(old(View()), sessionId)
      ensures lifecycle == old(lifecycle)
      ensures if !(old(slot).Active? && old(slot).sessionId == sessionId)
              then r == Err(SessionNotFound) && slot == old(slot)
              else if old(slot).turnState == Closing then r == Ok(()) && slot == Empty
              else r == Err(SessionBusy) && slot == old(slot)
    {
      if slot.Active? && slot.sessionId == sessionId && slot.turnState == Closing {
        slot := Empty;
        r := Ok(());
      } else if slot.Active? && slot.sessionId == sessionId {
        r := Err(SessionBusy);
      } else {
        r := Err(SessionNotFound);
      }
    }

    method StartTurn(sessionId: string, turn: nat) returns (r: Result<(), ControlError>)
      modifies this
      ensures View() == TurnStarted(old(View()), sessionId, turn)
      ensures lifecycle == old(lifecycle)
      ensures if !(old(slot).Active? && old(slot).sessionId == sessionId)
              then r == Err(SessionNotFound) && slot == old(slot)
              else match old(slot).turnState
                   case Idle => r == Ok(()) && slot == Active(sessionId, InTurn(turn))
                   case InTurn(_) => r == Err(TurnBusy) && slot == old(slot)
                   case Closing => r == Err(SessionBusy) && slot == old(slot)
    {
      if !slot.Active? || slot.sessionId != sessionId {
        return Err(SessionNotFound);
      }
      match slot.turnState {
        case InTurn(_) => return Err(TurnBusy);
        case Closing => return Err(SessionBusy);
        case Idle =>
      }
      slot := Active(slot.sessionId, InTurn(turn));
      r := Ok(());
    }

    method ClearRunningTurn(sessionId: string)
      modifies this
      ensures View() == TurnCleared(old(View()), sessionId)
      ensures lifecycle == old(lifecycle)
      ensures slot == if old(slot).Active? && old(slot).sessionId == sessionId && old(slot).turnState.InTurn?
                      then Active(sessionId, Idle) else old(slot)
    {
      if !slot.Active? {
        return;
      }
      if slot.sessionId == sessionId && slot.turnState.InTurn? {
        slot := Active(slot.sessionId, Idle);
      }
    }

    /** The first critical section of a shutdown: which session has to be closed. `None` at the outside when
        the agent is already shutting down. */
    method BeginShutdown() returns (r: Option<Option<string>>)
      modifies this
      ensures View() == ShutdownBegun(old(View()))
      ensures slot == old(slot)
      ensures if old(lifecycle) != Running then r == None && lifecycle == old(lifecycle)
              else
                && lifecycle == ShuttingDown
                && r == Some(if slot.Active? then Some(slot.sessionId) else None)
    {
      if lifecycle != Running {
        return None;
      }
      lifecycle := ShuttingDown;
      match slot {
        case Active(sessionId, _) => r := Some(Some(sessionId));
        case Empty => r := Some(None);
        case Reserved(_, _) => r := Some(None);
      }
    }

    method FailShutdown()
      modifies this
      ensures View() == old(View()).(lifecycle := Running)
    {
      lifecycle := Running;
    }

    method CompleteShutdown()
      modifies this
      ensures View() == Control(Shutdown, Empty)
    {
      lifecycle, slot := Shutdown, Empty;
    }
  }
}
