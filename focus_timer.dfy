/**
 * The focus-duration control. Its two click handlers do nothing while the
 * timer is running; otherwise each asks the component to adjust the focus
 * duration once.
 */
module FocusTimer {
  import opened Pomodoro

  /** The effect of one click on the component's state. */
  function Click(e: EngineState, b: Button): (r: EngineState)
    ensures e.isTimerRunning ==> r == e
    ensures r == e.(focusDuration := r.focusDuration)
    ensures !e.isTimerRunning && b == Plus ==> r.focusDuration == IncreasedFocus(e.focusDuration)
    ensures !e.isTimerRunning && b == Minus ==> r.focusDuration == DecreasedFocus(e.focusDuration)
    ensures Inv(e) ==> Inv(r)
  {
    if e.isTimerRunning then e
    else
      match b
      case Plus => e.(focusDuration := IncreasedFocus(e.focusDuration))
      case Minus => e.(focusDuration := DecreasedFocus(e.focusDuration))
  }

  /** The effect of a sequence of clicks, first to last. */
  function Clicks(e: EngineState, bs: seq<Button>): (r: EngineState)
    decreases |bs|
  {
    if bs == [] then e else Clicks(Click(e, bs[0]), bs[1..])
  }

  /**
   * Whatever the clicks, the focus duration stays in [5, 60] on the 5-minute
   * grid, and nothing but the focus duration changes; while the timer
   * runs, the clicks are all ignored.
   */
  lemma {:induction false} ClicksKeepFocusInRange(e: EngineState, bs: seq<Button>)
    requires Inv(e)
    ensures Inv(Clicks(e, bs))
    ensures FocusInRange(Clicks(e, bs).focusDuration)
    ensures Clicks(e, bs) == e.(focusDuration := Clicks(e, bs).focusDuration)
    ensures e.isTimerRunning ==> Clicks(e, bs) == e
    decreases |bs|
  {
    if bs != [] {
      ClicksKeepFocusInRange(Click(e, bs[0]), bs[1..]);
    }
  }

  /**
   * The guard looks only at the running flag: while paused in the middle of
   * a session, a click still changes the focus duration and keeps the session.
   */
  lemma PausedSessionAdjustable(e: EngineState, b: Button)
    requires !e.isTimerRunning && e.session.Some?
    ensures Click(e, b).session == e.session
    ensures b == Plus ==> Click(e, b).focusDuration == IncreasedFocus(e.focusDuration)
    ensures b == Minus ==> Click(e, b).focusDuration == DecreasedFocus(e.focusDuration)
  {
  }

  /** The handler of the plus button. */
  method IncreaseClick(p: Pomodoro)
    modifies p
    ensures p.State() == Click(old(p.State()), Plus)
    ensures p.completionSignals == old(p.completionSignals)
  {
    if p.isTimerRunning {
      return;
    } else {
      p.IncreaseFocus();
    }
  }

  /** The handler of the minus button. */
  method DecreaseClick(p: Pomodoro)
    modifies p
    ensures p.State() == Click(old(p.State()), Minus)
    ensures p.completionSignals == old(p.completionSignals)
  {
    if p.isTimerRunning {
      return;
    } else {
      p.DecreaseFocus();
    }
  }
}
