/**
 * The break-duration control. Its two click handlers do nothing while the
 * timer is running; otherwise each asks the component to adjust the break
 * duration once.
 */
module BreakTimer {
  import opened Pomodoro

  /** The effect of one click on the component's state. */
  function Click(e: EngineState, b: Button): (r: EngineState)
    ensures e.isTimerRunning ==> r == e
    ensures r == e.(breakDuration := r.breakDuration)
    ensures !e.isTimerRunning && b == Plus ==> r.breakDuration == IncreasedBreak(e.breakDuration)
    ensures !e.isTimerRunning && b == Minus ==> r.breakDuration == DecreasedBreak(e.breakDuration)
    ensures Inv(e) ==> Inv(r)
  {
    if e.isTimerRunning then e
    else
      match b
      case Plus => e.(breakDuration := IncreasedBreak(e.breakDuration))
      case Minus => e.(breakDuration := DecreasedBreak(e.breakDuration))
  }

  /** The effect of a sequence of clicks, first to last. */
  function Clicks(e: EngineState, bs: seq<Button>): (r: EngineState)
    decreases |bs|
  {
    if bs == [] then e else Clicks(Click(e, bs[0]), bs[1..])
  }

  /**
   * Whatever the clicks, the break duration stays in [1, 15]
   * and nothing but the break duration changes; while the timer runs, the
   * clicks are all ignored.
   */
  lemma {:induction false} ClicksKeepBreakInRange(e: EngineState, bs: seq<Button>)
    requires Inv(e)
    ensures Inv(Clicks(e, bs))
    ensures BreakInRange(Clicks(e, bs).breakDuration)
    ensures Clicks(e, bs) == e.(breakDuration := Clicks(e, bs).breakDuration)
    ensures e.isTimerRunning ==> Clicks(e, bs) == e
    decreases |bs|
  {
    if bs != [] {
      ClicksKeepBreakInRange(Click(e, bs[0]), bs[1..]);
    }
  }

  /**
   * The guard looks only at the running flag: while paused in the middle of
   * a session, a click still changes the break duration and keeps the session.
   */
  lemma PausedSessionAdjustable(e: EngineState, b: Button)
    requires !e.isTimerRunning && e.session.Some?
    ensures Click(e, b).session == e.session
    ensures b == Plus ==> Click(e, b).breakDuration == IncreasedBreak(e.breakDuration)
    ensures b == Minus ==> Click(e, b).breakDuration == DecreasedBreak(e.breakDuration)
  {
  }

  /** The handler of the plus button. */
  method IncreaseClick(p: Pomodoro)
    modifies p
    ensures p.State() == Click(old(p.State()), Plus)
    ensures p.completionSignals == old(p.completionSignals)
  {
    if p.isTimerRunning {
      return;
    } else {
      p.IncreaseBreak();
    }
  }

  /** The handler of the minus button. */
  method DecreaseClick(p: Pomodoro)
    modifies p
    ensures p.State() == Click(old(p.State()), Minus)
    ensures p.completionSignals == old(p.completionSignals)
  {
    if p.isTimerRunning {
      return;
    } else {
      p.DecreaseBreak();
    }
  }
}
