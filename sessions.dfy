/**
 * The two pure session transitions that Pomodoro.js defines outside the
 * component, so that they cannot reach the component's state: the
 * per-second countdown step and the switch to the other session type.
 */
module Sessions {

  /** Seconds in one minute: durations are configured in minutes, counted down in seconds. */
  const SECONDS_PER_MINUTE := 60

  /** The session type; Pomodoro.js spells these "Focusing" and "On Break". */
  datatype Label = Focusing | OnBreak

  /** One immutable snapshot of the current session. */
  datatype Session = Session(kind: Label, timeRemaining: int)

  function Max(a: int, b: int): (m: int) {
    if a < b then b else a
  }

  /** The full length, in seconds, of a session of the given type. */
  function FullDuration(kind: Label, focusDuration: int, breakDuration: int): (seconds: int) {
    match kind
    case Focusing => focusDuration * SECONDS_PER_MINUTE
    case OnBreak => breakDuration * SECONDS_PER_MINUTE
  }

  /** The other session type. */
  function Other(kind: Label): (r: Label)
    ensures r != kind
  {
    if kind == Focusing then OnBreak else Focusing
  }

  /**
   * One second of countdown: the remaining time drops by one and is clamped
   * at zero; every other field of the session is carried over.
   */
  function NextTick(prev: Session): (next: Session)
    ensures next.kind == prev.kind
    ensures next.timeRemaining >= 0
    ensures prev.timeRemaining > 0 ==> next.timeRemaining == prev.timeRemaining - 1
    ensures prev.timeRemaining <= 0 ==> next.timeRemaining == 0
  {
    prev.(timeRemaining := Max(0, prev.timeRemaining - 1))
  }

  /**
   * The session that follows `current` when it times out: a focusing
   * session is followed by a break of `breakDuration` minutes, anything
   * else by a focusing session of `focusDuration` minutes. The durations
   * are the ones configured at the instant of the switch.
   */
  function NextSession(focusDuration: int, breakDuration: int, current: Session): (next: Session)
    ensures next.kind == Other(current.kind)
    ensures next.timeRemaining == FullDuration(next.kind, focusDuration, breakDuration)
    ensures current.kind == Focusing ==> next == Session(OnBreak, breakDuration * SECONDS_PER_MINUTE)
    ensures current.kind != Focusing ==> next == Session(Focusing, focusDuration * SECONDS_PER_MINUTE)
  {
    if current.kind == Focusing then
      Session(OnBreak, breakDuration * SECONDS_PER_MINUTE)
    else
      Session(Focusing, focusDuration * SECONDS_PER_MINUTE)
  }

  /**
   * Two switches in a row, with the same configuration, come back to the
   * original session type with its full duration.
   */
  lemma NextSessionTwice(focusDuration: int, breakDuration: int, s: Session)
    ensures NextSession(focusDuration, breakDuration, NextSession(focusDuration, breakDuration, s))
         == Session(s.kind, FullDuration(s.kind, focusDuration, breakDuration))
  {
  }
}
