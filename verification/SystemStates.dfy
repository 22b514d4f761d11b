/** The system states and the changes allowed between them. */
module SystemStates {

  datatype StateEnum = OFFLINESTATE | STARTUPSTATE | STANDBYSTATE | IDLESTATE | PAUSESTATE | INMOTIONSTATE

  /** A pointer to a state object, as callers may pass it. */
  datatype StatePtr = Null | Foreign(id: StateEnum) | Member(id: StateEnum)

  const SAFE_STATES := [STANDBYSTATE, OFFLINESTATE]

  predicate IsSafe(s: StateEnum) { s == STANDBYSTATE || s == OFFLINESTATE }

  /** Changes allowed from `from` to a different state, ignoring an unfinished startup. */
  predicate Acceptable(from: StateEnum, next: StateEnum) {
    || IsSafe(next)
    || match from
       case IDLESTATE => next == INMOTIONSTATE || next == PAUSESTATE
       case INMOTIONSTATE => next == INMOTIONSTATE || next == PAUSESTATE || next == IDLESTATE
       case PAUSESTATE => next == INMOTIONSTATE || next == IDLESTATE
       case _ => next == IDLESTATE
  }

  /** The outcome of `_changeState`: `next` is entered, again if it was current. */
  predicate Enters(current: StateEnum, next: StateEnum, finished: bool) {
    current == next || ((current == STARTUPSTATE ==> finished) && Acceptable(current, next))
  }

  function StateAfter(current: StateEnum, next: StateEnum, finished: bool): StateEnum {
    if Enters(current, next, finished) then next else current
  }

  /** `goToASafeState`: the state that is asked for, and the value returned. */
  function SafeTarget(current: StateEnum, desired: StateEnum): StateEnum {
    if current == OFFLINESTATE || desired == OFFLINESTATE then OFFLINESTATE
    else if IsSafe(desired) then desired
    else STANDBYSTATE
  }

  function SafeAnswer(current: StateEnum, desired: StateEnum): bool {
    if current == OFFLINESTATE || desired == OFFLINESTATE then desired == OFFLINESTATE else IsSafe(desired)
  }

  /** By the state that is asked for: standby, offline and idle can be entered from every state, motion and pause
      from idle and from each other, startup from none; every state from itself, and nothing else from a startup
      that is not finished. */
  lemma EnteredFrom(current: StateEnum, next: StateEnum, finished: bool)
    ensures Enters(current, next, finished) <==>
            current == next || ((current != STARTUPSTATE || finished)
                                && match next
                                   case STANDBYSTATE | OFFLINESTATE | IDLESTATE => true
                                   case INMOTIONSTATE => current == IDLESTATE || current == PAUSESTATE
                                   case PAUSESTATE => current == IDLESTATE || current == INMOTIONSTATE
                                   case STARTUPSTATE => false)
  {}

  /** `changeState` answers true exactly when the requested state is current afterwards. */
  lemma ChangeAnswersCorrectly(current: StateEnum, next: StateEnum, finished: bool)
    ensures Enters(current, next, finished) <==> StateAfter(current, next, finished) == next
  {}

  /** `goToASafeState` answers correctly, that is, true exactly when the desired state is current
      afterwards, except during an unfinished startup, where a request for standby, offline or startup
      is answered wrongly because the refusal of the change is ignored. */
  lemma SafeAnswerIsCorrectIff(current: StateEnum, desired: StateEnum, finished: bool)
    ensures var after := StateAfter(current, SafeTarget(current, desired), finished);
            (SafeAnswer(current, desired) == (after == desired))
            <==> !(current == STARTUPSTATE && !finished && (IsSafe(desired) || desired == STARTUPSTATE))
  {}

  /** Outside an unfinished startup `goToASafeState` ends in a safe state; it never leaves offline. */
  lemma SafeStateIsReached(current: StateEnum, desired: StateEnum, finished: bool)
    ensures var after := StateAfter(current, SafeTarget(current, desired), finished);
            && (IsSafe(after) <==> !(current == STARTUPSTATE && !finished))
            && (current == OFFLINESTATE ==> after == OFFLINESTATE)
  {}

  // ---- Runs ----

  datatype Event = ChangeTo(next: StateEnum) | GoSafe(desired: StateEnum) | FinishSetup

  datatype Status = Status(current: StateEnum, finished: bool)

  function Next(s: Status, e: Event): Status {
    match e
    case ChangeTo(next) => s.(current := StateAfter(s.current, next, s.finished))
    case GoSafe(desired) => s.(current := StateAfter(s.current, SafeTarget(s.current, desired), s.finished))
    case FinishSetup => s.(finished := true)
  }

  ghost predicate IsRun(states: seq<Status>, events: seq<Event>) {
    && |states| == |events| + 1
    && states[0] == Status(STARTUPSTATE, false)
    && forall i | 0 <= i < |events| :: states[i + 1] == Next(states[i], events[i])
  }

  predicate Moving(s: StateEnum) { s == INMOTIONSTATE || s == PAUSESTATE }

  /** Startup is not left before setup finishes. */
  lemma {:induction false} StartupUntilFinished(states: seq<Status>, events: seq<Event>, i: nat)
    requires IsRun(states, events) && i < |states|
    ensures !states[i].finished ==> states[i].current == STARTUPSTATE
  {
    if i > 0 {
      StartupUntilFinished(states, events, i - 1);
    }
  }

  /** Once left, startup is never entered again. */
  lemma {:induction false} StartupIsNotReentered(states: seq<Status>, events: seq<Event>, i: nat, j: nat)
    requires IsRun(states, events) && i <= j < |states| && states[i].current != STARTUPSTATE
    ensures states[j].current != STARTUPSTATE
  {
    if i < j {
      StartupIsNotReentered(states, events, i, j - 1);
    }
  }

  /** Motion and pause are reached only through idle, after the last safe state. */
  lemma {:induction false} IdleBeforeMotion(states: seq<Status>, events: seq<Event>, j: nat) returns (i: nat)
    requires IsRun(states, events) && j < |states| && Moving(states[j].current)
    ensures i < j && states[i].current == IDLESTATE
    ensures forall k | i < k <= j :: Moving(states[k].current)
  {
    assert j > 0;
    if states[j - 1].current == IDLESTATE {
      i := j - 1;
    } else {
      assert Moving(states[j - 1].current);
      i := IdleBeforeMotion(states, events, j - 1);
    }
  }

  /** The state map. Entering a state has effects on the model, so each change also says whether a
      state was entered; whether startup is finished is the model's to know. */
  class StateMap {
    var currentState: StateEnum
    var safeStates: seq<StateEnum>

    ghost predicate Valid()
      reads this
    {
      safeStates == SAFE_STATES
    }

    constructor ()
      ensures Valid() && currentState == STARTUPSTATE
    {
      currentState := STARTUPSTATE;
      safeStates := [STANDBYSTATE, OFFLINESTATE];
    }

    method IsASafeState(stateId: StateEnum) returns (r: bool)
      requires Valid()
      ensures r == IsSafe(stateId)
    {
      for i := 0 to |safeStates|
        invariant forall k | 0 <= k < i :: safeStates[k] != stateId
      {
        if stateId == safeStates[i] {
          return true;
        }
      }
      assert safeStates[0] == STANDBYSTATE && safeStates[1] == OFFLINESTATE;
      return false;
    }

    method ChangeToMember(newState: StateEnum, startupFinished: bool) returns (acceptable: bool)
      requires Valid()
      modifies this`currentState
      ensures currentState == StateAfter(old(currentState), newState, startupFinished)
      ensures acceptable == Enters(old(currentState), newState, startupFinished)
    {
      if newState == currentState {
        return true;
      }
      if currentState == STARTUPSTATE {
        if !startupFinished {
          return false;
        }
      }
      acceptable := false;
      var newIsSafe := IsASafeState(newState);
      var currentIsSafe := IsASafeState(currentState);
      if newIsSafe {
        acceptable := true;
      } else if currentState == IDLESTATE {
        if newState == INMOTIONSTATE || newState == PAUSESTATE {
          acceptable := true;
        }
      } else if currentState == INMOTIONSTATE {
        if newState == INMOTIONSTATE || newState == PAUSESTATE || newState == IDLESTATE {
          acceptable := true;
        }
      } else if currentState == PAUSESTATE {
        if newState == INMOTIONSTATE || newState == IDLESTATE {
          acceptable := true;
        }
      } else if currentIsSafe || currentState == STARTUPSTATE {
        if newState == IDLESTATE {
          acceptable := true;
        }
      }
      if acceptable {
        currentState := newState;
      }
    }

    /** A null pointer, or one to a state that is not in the map, changes nothing. */
    method ChangeState(newState: StatePtr, startupFinished: bool) returns (acceptable: bool)
      requires Valid()
      modifies this`currentState
      ensures acceptable == (newState.Member? && Enters(old(currentState), newState.id, startupFinished))
      ensures currentState == if acceptable then newState.id else old(currentState)
    {
      match newState {
        case Null => acceptable := false;
        case Foreign(_) => acceptable := false;
        case Member(id) => acceptable := ChangeToMember(id, startupFinished);
      }
    }

    method GoToASafeState(desiredState: StateEnum, startupFinished: bool) returns (r: bool, entered: bool)
      requires Valid()
      modifies this`currentState
      ensures currentState ==
              StateAfter(old(currentState), SafeTarget(old(currentState), desiredState), startupFinished)
      ensures entered == Enters(old(currentState), SafeTarget(old(currentState), desiredState), startupFinished)
      ensures r == SafeAnswer(old(currentState), desiredState)
    {
      if currentState == OFFLINESTATE || desiredState == OFFLINESTATE {
        entered := ChangeToMember(OFFLINESTATE, startupFinished);
        return desiredState == OFFLINESTATE, entered;
      }
      var safe := IsASafeState(desiredState);
      if safe {
        entered := ChangeToMember(desiredState, startupFinished);
        return true, entered;
      }
      entered := ChangeToMember(STANDBYSTATE, startupFinished);
      return false, entered;
    }
  }
}
