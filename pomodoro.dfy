/**
 * The Pomodoro component: whether the timer is running, the current session
 * (none before the first start), and the configured focus and break lengths
 * in minutes. Its handlers are the play/pause toggle, the per-second interval
 * callback and the four clamped duration adjusters.
 *
 * The component's state is the class `Pomodoro`; its methods update the
 * fields in place. Each method is specified by a pure function on the value
 * `EngineState`, and the properties of the timer are lemmas about those
 * functions.
 */
module Pomodoro {
  import opened Wrappers
  import opened Sessions

  const INITIAL_FOCUS := 25
  const INITIAL_BREAK := 5
  const FOCUS_MIN := 5
  const FOCUS_MAX := 60
  const FOCUS_STEP := 5
  const BREAK_MIN := 1
  const BREAK_MAX := 15
  const BREAK_STEP := 1
  /** Interval period, in milliseconds, while the timer runs. */
  const TICK_MS := 1000

  /** The two buttons of each duration control. */
  datatype Button = Plus | Minus

  /** A snapshot of the component's state. */
  datatype EngineState = EngineState(
    isTimerRunning: bool,
    session: Option<Session>,
    focusDuration: int,
    breakDuration: int)

  predicate FocusInRange(d: int) {
    FOCUS_MIN <= d <= FOCUS_MAX && d % FOCUS_STEP == 0
  }

  predicate BreakInRange(d: int) {
    BREAK_MIN <= d <= BREAK_MAX
  }

  /**
   * What every reachable state satisfies: a running timer has a session,
   * both durations are within their ranges (focus on the 5-minute grid),
   * and the remaining time lies between zero and the longest session.
   */
  predicate Inv(e: EngineState) {
    (e.isTimerRunning ==> e.session.Some?) &&
    FocusInRange(e.focusDuration) &&
    BreakInRange(e.breakDuration) &&
    (e.session.Some? ==>
      0 <= e.session.value.timeRemaining <= FOCUS_MAX * SECONDS_PER_MINUTE)
  }

  /** The state when the component mounts: paused, no session, 25 and 5 minutes. */
  function Initial(): (e: EngineState)
    ensures Inv(e)
    ensures !e.isTimerRunning && e.session == None
    ensures e.focusDuration == INITIAL_FOCUS && e.breakDuration == INITIAL_BREAK
  {
    EngineState(false, None, INITIAL_FOCUS, INITIAL_BREAK)
  }

  // The four duration updaters, as passed to the duration setters.

  function IncreasedFocus(d: int): (r: int)
    ensures d < FOCUS_MAX ==> r == d + FOCUS_STEP
    ensures d >= FOCUS_MAX ==> r == d
    ensures FocusInRange(d) ==> FocusInRange(r)
  {
    if d < FOCUS_MAX then d + FOCUS_STEP else d
  }

  function DecreasedFocus(d: int): (r: int)
    ensures d > FOCUS_MIN ==> r == d - FOCUS_STEP
    ensures d <= FOCUS_MIN ==> r == d
    ensures FocusInRange(d) ==> FocusInRange(r)
  {
    if d > FOCUS_MIN then d - FOCUS_STEP else d
  }

  function IncreasedBreak(d: int): (r: int)
    ensures d < BREAK_MAX ==> r == d + BREAK_STEP
    ensures d >= BREAK_MAX ==> r == d
    ensures BreakInRange(d) ==> BreakInRange(r)
  {
    if d < BREAK_MAX then d + BREAK_STEP else d
  }

  function DecreasedBreak(d: int): (r: int)
    ensures d > BREAK_MIN ==> r == d - BREAK_STEP
    ensures d <= BREAK_MIN ==> r == d
    ensures BreakInRange(d) ==> BreakInRange(r)
  {
    if d > BREAK_MIN then d - BREAK_STEP else d
  }

  /**
   * The play/pause toggle: the running flag flips; when the timer starts and
   * there is no session yet, a focusing session of the configured focus
   * length begins; an existing session is kept as it is.
   */
  function AfterPlayPause(e: EngineState): (r: EngineState)
    ensures r.isTimerRunning == !e.isTimerRunning
    ensures r.focusDuration == e.focusDuration && r.breakDuration == e.breakDuration
    ensures e.session.Some? ==> r.session == e.session
    ensures !r.isTimerRunning ==> r.session == e.session
    ensures r.isTimerRunning && e.session.None? ==>
      r.session == Some(Session(Focusing, e.focusDuration * SECONDS_PER_MINUTE))
    ensures r.isTimerRunning ==> r.session.Some?
    ensures Inv(e) ==> Inv(r)
  {
    var running := !e.isTimerRunning;
    if running && e.session.None? then
      e.(isTimerRunning := running,
         session := Some(Session(Focusing, e.focusDuration * SECONDS_PER_MINUTE)))
    else
      e.(isTimerRunning := running)
  }

  /** Pausing and resuming (or resuming and pausing) an existing session changes nothing. */
  lemma PlayPauseTwiceKeepsSession(e: EngineState)
    requires e.session.Some?
    ensures AfterPlayPause(AfterPlayPause(e)) == e
  {
  }

  /** Whether the interval callback takes the time-out branch, which also plays the completion sound. */
  function SessionCompletes(e: EngineState): (completes: bool)
    requires e.session.Some?
  {
    e.session.value.timeRemaining == 0
  }

  /**
   * The interval callback: at zero remaining time the session switches to
   * the other type with the currently configured length; otherwise it
   * counts down by one second.
   */
  function AfterInterval(e: EngineState): (r: EngineState)
    requires e.session.Some?
    ensures r.isTimerRunning == e.isTimerRunning
    ensures r.focusDuration == e.focusDuration && r.breakDuration == e.breakDuration
    ensures r.session.Some?
    ensures r.session.value.kind != e.session.value.kind <==> SessionCompletes(e)
    ensures SessionCompletes(e) ==>
      r.session.value == NextSession(e.focusDuration, e.breakDuration, e.session.value)
    ensures e.session.value.timeRemaining > 0 ==>
      r.session.value == e.session.value.(timeRemaining := e.session.value.timeRemaining - 1)
    ensures Inv(e) ==> Inv(r)
  {
    var s := e.session.value;
    if s.timeRemaining == 0 then
      e.(session := Some(NextSession(e.focusDuration, e.breakDuration, s)))
    else
      e.(session := Some(NextTick(s)))
  }

  /**
   * Once a session exists, its remaining time either drops by one second or
   * is reset to the full length of the next session type.
   */
  lemma IntervalDecreasesOrResets(e: EngineState)
    requires Inv(e) && e.session.Some?
    ensures var s, t := e.session.value, AfterInterval(e).session.value;
      t.timeRemaining == s.timeRemaining - 1 ||
      (s.timeRemaining == 0 &&
       t.timeRemaining == FullDuration(t.kind, e.focusDuration, e.breakDuration))
  {
  }

  /** The interval delay: one second while running, none (no callback at all) while paused. */
  function IntervalDelay(isTimerRunning: bool): (delay: Option<int>)
    ensures delay.Some? <==> isTimerRunning
    ensures delay.Some? ==> delay.value == TICK_MS
  {
    if isTimerRunning then Some(TICK_MS) else None
  }

  /** One second of wall-clock time: the callback runs exactly when the interval is scheduled. */
  function AfterSecond(e: EngineState): (r: EngineState)
    requires e.isTimerRunning ==> e.session.Some?
    ensures !e.isTimerRunning ==> r == e
    ensures e.isTimerRunning ==> r == AfterInterval(e)
    ensures Inv(e) ==> Inv(r)
  {
    match IntervalDelay(e.isTimerRunning)
    case None => e
    case Some(_) => AfterInterval(e)
  }

  /** Whether the completion sound plays during this second. */
  function SignalsCompletion(e: EngineState): (signals: bool)
    requires e.isTimerRunning ==> e.session.Some?
  {
    e.isTimerRunning && SessionCompletes(e)
  }

  /** The state after `k` seconds. */
  function Run(e: EngineState, k: nat): (r: EngineState)
    requires Inv(e)
    ensures Inv(r)
    ensures r.isTimerRunning == e.isTimerRunning
    ensures r.focusDuration == e.focusDuration && r.breakDuration == e.breakDuration
    decreases k
  {
    if k == 0 then e else Run(AfterSecond(e), k - 1)
  }

  /** How many completion sounds play during the first `k` seconds. */
  function Signals(e: EngineState, k: nat): (count: nat)
    requires Inv(e)
    decreases k
  {
    if k == 0 then 0
    else (if SignalsCompletion(e) then 1 else 0) + Signals(AfterSecond(e), k - 1)
  }

  /** While paused, no time passes for the session and no sound plays. */
  lemma {:induction false} PausedIsFrozen(e: EngineState, k: nat)
    requires Inv(e) && !e.isTimerRunning
    ensures Run(e, k) == e
    ensures Signals(e, k) == 0
    decreases k
  {
    if k > 0 {
      PausedIsFrozen(AfterSecond(e), k - 1);
    }
  }

  /**
   * While running, the first `k` seconds, up to the remaining time, count
   * the session down by `k` without changing its type or playing a sound.
   */
  lemma {:induction false} CountsDown(e: EngineState, k: nat)
    requires Inv(e) && e.isTimerRunning
    requires k <= e.session.value.timeRemaining
    ensures Run(e, k) == e.(session := Some(e.session.value.(
      timeRemaining := e.session.value.timeRemaining - k)))
    ensures Signals(e, k) == 0
    decreases k
  {
    if k > 0 {
      var next := AfterSecond(e);
      CountsDown(next, k - 1);
    }
  }

  /**
   * A running session with `n` seconds left switches to the next session
   * type after exactly `n + 1` seconds, and the completion sound plays
   * exactly once on the way.
   */
  lemma {:induction false} CompletesExactlyOnce(e: EngineState)
    requires Inv(e) && e.isTimerRunning
    ensures var n := e.session.value.timeRemaining;
      Run(e, n + 1) ==
        e.(session := Some(NextSession(e.focusDuration, e.breakDuration, e.session.value))) &&
      Signals(e, n + 1) == 1
  {
    var n := e.session.value.timeRemaining;
    var z := e.(session := Some(e.session.value.(timeRemaining := 0)));
    CountsDown(e, n);
    assert Run(e, n) == z;
    RunSplit(e, n, 1);
    SignalsSplit(e, n, 1);
  }

  /** Running `a + b` seconds is running `a` seconds, then `b` more. */
  lemma {:induction false} RunSplit(e: EngineState, a: nat, b: nat)
    requires Inv(e)
    ensures Run(e, a + b) == Run(Run(e, a), b)
    decreases a
  {
    if a > 0 {
      RunSplit(AfterSecond(e), a - 1, b);
    }
  }

  /** The sounds of `a + b` seconds are those of the first `a` and of the `b` after them. */
  lemma {:induction false} SignalsSplit(e: EngineState, a: nat, b: nat)
    requires Inv(e)
    ensures Signals(e, a + b) == Signals(e, a) + Signals(Run(e, a), b)
    decreases a
  {
    if a > 0 {
      SignalsSplit(AfterSecond(e), a - 1, b);
    }
  }

  /**
   * The component's state, updated in place by its handlers.
   * `completionSignals` counts the completion sounds played so far.
   */
  class Pomodoro {
    var isTimerRunning: bool
    var session: Option<Session>
    var focusDuration: int
    var breakDuration: int
    ghost var completionSignals: nat

    function State(): EngineState
      reads this
    {
      EngineState(isTimerRunning, session, focusDuration, breakDuration)
    }

    constructor ()
      ensures State() == Initial()
      ensures completionSignals == 0
    {
      isTimerRunning := false;
      session := None;
      focusDuration := INITIAL_FOCUS;
      breakDuration := INITIAL_BREAK;
      completionSignals := 0;
    }

    /** Called whenever the play/pause button is clicked. */
    method PlayPause()
      modifies this
      ensures State() == AfterPlayPause(old(State()))
      ensures completionSignals == old(completionSignals)
    {
      var nextState := !isTimerRunning;
      if nextState {
        if session == None {
          session := Some(Session(Focusing, focusDuration * SECONDS_PER_MINUTE));
        }
      }
      isTimerRunning := nextState;
    }

    /** The interval callback; it reads the session, so there must be one. */
    method OnInterval()
      requires session.Some?
      modifies this
      ensures State() == AfterInterval(old(State()))
      ensures completionSignals == old(completionSignals) + (if old(SessionCompletes(State())) then 1 else 0)
    {
      if session.value.timeRemaining == 0 {
        completionSignals := completionSignals + 1;
        session := Some(NextSession(focusDuration, breakDuration, session.value));
        return;
      }
      session := Some(NextTick(session.value));
    }

    /** One second elapses: the callback runs only while the interval is scheduled. */
    method SecondElapsed()
      requires isTimerRunning ==> session.Some?
      modifies this
      ensures State() == AfterSecond(old(State()))
      ensures completionSignals == old(completionSignals) + (if old(SignalsCompletion(State())) then 1 else 0)
    {
      var delay := IntervalDelay(isTimerRunning);
      if delay.Some? {
        OnInterval();
      }
    }

    method IncreaseFocus()
      modifies this
      ensures State() == old(State()).(focusDuration := IncreasedFocus(old(focusDuration)))
      ensures completionSignals == old(completionSignals)
    {
      focusDuration := IncreasedFocus(focusDuration);
    }

    method DecreaseFocus()
      modifies this
      ensures State() == old(State()).(focusDuration := DecreasedFocus(old(focusDuration)))
      ensures completionSignals == old(completionSignals)
    {
      focusDuration := DecreasedFocus(focusDuration);
    }

    method IncreaseBreak()
      modifies this
      ensures State() == old(State()).(breakDuration := IncreasedBreak(old(breakDuration)))
      ensures completionSignals == old(completionSignals)
    {
      breakDuration := IncreasedBreak(breakDuration);
    }

    method DecreaseBreak()
      modifies this
      ensures State() == old(State()).(breakDuration := DecreasedBreak(old(breakDuration)))
      ensures completionSignals == old(completionSignals)
    {
      breakDuration := DecreasedBreak(breakDuration);
    }
  }
}
