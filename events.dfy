/**
 * The component as the user drives it: the play/pause button, the clicks
 * on the two duration controls, and the seconds that pass. Every state
 * reachable from the initial one satisfies the component invariant, so a
 * running timer always has a session and the durations stay in range.
 */
module Events {
  import opened Pomodoro
  import FocusTimer
  import BreakTimer

  datatype Event = PlayPause | SecondElapsed | FocusClick(b: Button) | BreakClick(b: Button)

  /** The state after one event. */
  function Step(e: EngineState, ev: Event): (r: EngineState)
    requires Inv(e)
    ensures Inv(r)
  {
    match ev
    case PlayPause => AfterPlayPause(e)
    case SecondElapsed => AfterSecond(e)
    case FocusClick(b) => FocusTimer.Click(e, b)
    case BreakClick(b) => BreakTimer.Click(e, b)
  }

  /** The state after a sequence of events, first to last. */
  function Replay(e: EngineState, evs: seq<Event>): (r: EngineState)
    requires Inv(e)
    ensures Inv(r)
    decreases |evs|
  {
    if evs == [] then e else Replay(Step(e, evs[0]), evs[1..])
  }

  /**
   * From the initial state, whatever the user does: a running timer has a
   * session, the focus duration is in [5, 60] on the 5-minute grid, the
   * break duration is in [1, 15], and the remaining time is never negative.
   */
  lemma Reachable(evs: seq<Event>)
    ensures var r := Replay(Initial(), evs);
      (r.isTimerRunning ==> r.session.Some?) &&
      FOCUS_MIN <= r.focusDuration <= FOCUS_MAX && r.focusDuration % FOCUS_STEP == 0 &&
      BREAK_MIN <= r.breakDuration <= BREAK_MAX &&
      (r.session.Some? ==> r.session.value.timeRemaining >= 0)
  {
  }

  /** While the timer runs, no event but play/pause changes either duration. */
  lemma {:induction false} DurationsLockedWhileRunning(e: EngineState, evs: seq<Event>)
    requires Inv(e) && e.isTimerRunning
    requires forall i :: 0 <= i < |evs| ==> evs[i] != PlayPause
    ensures Replay(e, evs).isTimerRunning
    ensures Replay(e, evs).focusDuration == e.focusDuration
    ensures Replay(e, evs).breakDuration == e.breakDuration
    decreases |evs|
  {
    if evs != [] {
      DurationsLockedWhileRunning(Step(e, evs[0]), evs[1..]);
    }
  }
}
