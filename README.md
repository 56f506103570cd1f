# Pomodoro session engine in Dafny

This project models the session engine of a Pomodoro countdown timer, a React app. The timer alternates between a
"Focusing" session and an "On Break" session. Each second while it runs, the remaining time drops by one. When the
remaining time is zero, the next tick plays a completion sound and switches to the other session type. The new
session gets the full length configured at that moment. A play/pause button toggles the timer, and the first start
creates a focusing session. The focus length (5 to 60 minutes, step 5) and the break length (1 to 15 minutes, step 1)
are adjusted by plus/minus buttons. These buttons do nothing while the timer is running.

Modules:

- `Sessions` (`sessions.dfy`): the session snapshot (`Session`, with a `kind` and a `timeRemaining`). It also holds
  the two pure transitions defined outside the component: `NextTick` and `NextSession`.
- `Pomodoro` (`pomodoro.dfy`): the component. The class `Pomodoro` holds the four state fields (`isTimerRunning`,
  `session`, `focusDuration`, `breakDuration`). Its handlers update those fields in place. Each handler is specified
  by a pure function on the value `EngineState` (`AfterPlayPause`, `AfterInterval`, `AfterSecond` and the four
  duration updaters). The timing properties are lemmas about these functions, for example the countdown, the switch
  after exactly `n + 1` seconds, and exactly one completion sound.
- `FocusTimer`, `BreakTimer` (`focus_timer.dfy`, `break_timer.dfy`): the guarded click handlers of the two duration
  controls. Each acts on the component object. A pure `Click` function says what one click does, and there are
  lemmas about any sequence of clicks.
- `Events` (`events.dfy`): every handler as one event type. It proves that every state reachable from the initial
  one satisfies the invariant: a running timer has a session, both durations are in range, and the remaining time
  is between 0 and 3600 seconds.
- `Wrappers` (`wrappers.dfy`): `Option`, standing for the JavaScript `null`.

The click guards in FocusTimer.js and BreakTimer.js test only `isTimerRunning`. A paused timer with a session in
progress therefore still accepts duration changes (`FocusTimer.PausedSessionAdjustable`,
`BreakTimer.PausedSessionAdjustable`). The completion sound carries no session types, so the model only counts
completions (`completionSignals`, `Signals`).

## Model

| member | source | states |
|---|---|---|
| `Sessions.NextTick` | src/pomodoro/Pomodoro.js:19-25 | The remaining time is never negative. It drops by exactly 1 when positive and is 0 otherwise. The session type is carried over unchanged. |
| `Sessions.NextSession` | src/pomodoro/Pomodoro.js:36-52 | A focusing session is followed by `Session(OnBreak, breakDuration*60)`. Any other session is followed by `Session(Focusing, focusDuration*60)`. The type always changes, and the new remaining time is the full length of the new type. |
| `Sessions.NextSessionTwice` | src/pomodoro/Pomodoro.js:40-51 | Two switches with the same configuration return to the original session type, with that type's full length. |
| `Pomodoro.Initial` | src/pomodoro/Pomodoro.js:56-102 | The initial state: not running, no session, focus 25 and break 5. It satisfies the invariant. |
| `Pomodoro.IncreasedFocus` | src/pomodoro/Pomodoro.js:106 | Adds 5 below 60 and is a no-op at or above 60. It keeps a focus length in [5,60] on the 5-minute grid. |
| `Pomodoro.DecreasedFocus` | src/pomodoro/Pomodoro.js:108 | Subtracts 5 above 5 and is a no-op at or below 5. It keeps a focus length in [5,60] on the 5-minute grid. |
| `Pomodoro.IncreasedBreak` | src/pomodoro/Pomodoro.js:107 | Adds 1 below 15 and is a no-op at or above 15. It keeps a break length in [1,15]. |
| `Pomodoro.DecreasedBreak` | src/pomodoro/Pomodoro.js:109 | Subtracts 1 above 1 and is a no-op at or below 1. It keeps a break length in [1,15]. |
| `Pomodoro.AfterPlayPause` | src/pomodoro/Pomodoro.js:81-99 | Flips the running flag and leaves the durations unchanged. Starting with no session creates `Session(Focusing, focusDuration*60)`. An existing session is kept. A started timer always has a session. The invariant is preserved. |
| `Pomodoro.PlayPauseTwiceKeepsSession` | src/pomodoro/Pomodoro.js:81-98 | Pausing then resuming (or the reverse) an existing session gives back exactly the same state. |
| `Pomodoro.AfterInterval` | src/pomodoro/Pomodoro.js:68-74 | The session type changes exactly when the remaining time is 0. The switch produces `NextSession` with the current durations. A positive remaining time drops by one, with the type kept. The running flag and durations are unchanged. The invariant is preserved. |
| `Pomodoro.IntervalDecreasesOrResets` | src/pomodoro/Pomodoro.js:68-74 | The remaining time either drops by one second or, only from 0, resets to the full length of the new session type. |
| `Pomodoro.IntervalDelay` | src/pomodoro/Pomodoro.js:75 | The delay is 1000 ms while running and absent (no callback) while paused. |
| `Pomodoro.AfterSecond` | src/pomodoro/Pomodoro.js:68-76 | While paused, a second leaves the whole state unchanged. While running, it runs the interval callback. The invariant is preserved. |
| `Pomodoro.Run` | src/pomodoro/Pomodoro.js:68-76 | After any number of seconds, the invariant holds and the running flag and durations are unchanged. |
| `Pomodoro.PausedIsFrozen` | src/pomodoro/Pomodoro.js:75 | While paused, any number of seconds leaves the state unchanged and plays no sound. |
| `Pomodoro.CountsDown` | src/pomodoro/Pomodoro.js:68-73 | While running, k seconds (k at most the remaining time) lower the remaining time by exactly k. The session type stays the same and no sound plays. |
| `Pomodoro.CompletesExactlyOnce` | src/pomodoro/Pomodoro.js:68-73 | A running session with n seconds left becomes `NextSession` of itself after exactly n+1 seconds. The completion sound plays exactly once in those seconds. |
| `Pomodoro.Pomodoro.constructor` | src/pomodoro/Pomodoro.js:56-102 | The component's fields start at the initial state, with no completion sound played. |
| `Pomodoro.Pomodoro.PlayPause` | src/pomodoro/Pomodoro.js:81-99 | The new fields are `AfterPlayPause` of the old ones. |
| `Pomodoro.Pomodoro.OnInterval` | src/pomodoro/Pomodoro.js:68-74 | The new fields are `AfterInterval` of the old ones. The completion counter goes up by one exactly on the zero branch. |
| `Pomodoro.Pomodoro.SecondElapsed` | src/pomodoro/Pomodoro.js:68-76 | The new fields are `AfterSecond` of the old ones. The counter goes up only when a running session times out. |
| `Pomodoro.Pomodoro.IncreaseFocus` | src/pomodoro/Pomodoro.js:106 | Only `focusDuration` changes, to `IncreasedFocus` of its old value. |
| `Pomodoro.Pomodoro.DecreaseFocus` | src/pomodoro/Pomodoro.js:108 | Only `focusDuration` changes, to `DecreasedFocus` of its old value. |
| `Pomodoro.Pomodoro.IncreaseBreak` | src/pomodoro/Pomodoro.js:107 | Only `breakDuration` changes, to `IncreasedBreak` of its old value. |
| `Pomodoro.Pomodoro.DecreaseBreak` | src/pomodoro/Pomodoro.js:109 | Only `breakDuration` changes, to `DecreasedBreak` of its old value. |
| `FocusTimer.Click` | src/pomodoro/FocusTimer.js:6-20 | While running, a click changes nothing. Otherwise it applies the matching focus updater exactly once. Nothing but the focus length changes, and the invariant is preserved. |
| `FocusTimer.ClicksKeepFocusInRange` | src/pomodoro/FocusTimer.js:6-20 | Any sequence of focus clicks keeps the focus length in [5,60] on the 5-minute grid and changes nothing else. While running, the clicks leave the state unchanged. |
| `FocusTimer.PausedSessionAdjustable` | src/pomodoro/FocusTimer.js:6-20 | The guard tests only the running flag. For every paused state with a session, either button applies its focus updater and keeps the session. |
| `FocusTimer.IncreaseClick` | src/pomodoro/FocusTimer.js:6-12 | The new fields are `Click(old, Plus)`. The handler returns early while running and otherwise calls `IncreaseFocus` once. |
| `FocusTimer.DecreaseClick` | src/pomodoro/FocusTimer.js:14-20 | The new fields are `Click(old, Minus)`. The handler returns early while running and otherwise calls `DecreaseFocus` once. |
| `BreakTimer.Click` | src/pomodoro/BreakTimer.js:7-21 | While running, a click changes nothing. Otherwise it applies the matching break updater exactly once. Nothing but the break length changes, and the invariant is preserved. |
| `BreakTimer.ClicksKeepBreakInRange` | src/pomodoro/BreakTimer.js:7-21 | Any sequence of break clicks keeps the break length in [1,15] and changes nothing else. While running, the clicks leave the state unchanged. |
| `BreakTimer.PausedSessionAdjustable` | src/pomodoro/BreakTimer.js:7-21 | The guard tests only the running flag. For every paused state with a session, either button applies its break updater and keeps the session. |
| `BreakTimer.IncreaseClick` | src/pomodoro/BreakTimer.js:7-13 | The new fields are `Click(old, Plus)`. The handler returns early while running and otherwise calls `IncreaseBreak` once. |
| `BreakTimer.DecreaseClick` | src/pomodoro/BreakTimer.js:15-21 | The new fields are `Click(old, Minus)`. The handler returns early while running and otherwise calls `DecreaseBreak` once. |
| `Events.Step` | src/pomodoro/Pomodoro.js:115-126 | Every handler (play/pause, a second, a focus click, a break click) preserves the invariant. |
| `Events.Replay` | src/pomodoro/Pomodoro.js:115-126 | Any sequence of handler events preserves the invariant. |
| `Events.Reachable` | src/pomodoro/Pomodoro.js:54-109 | From the initial state, under any events: a running timer has a session, focus is in [5,60] and a multiple of 5, break is in [1,15], and the remaining time is never negative. |
| `Events.DurationsLockedWhileRunning` | src/pomodoro/Pomodoro.js:115-120 | While running, any events other than play/pause leave both durations unchanged and the timer running. |

## Left out

- Reset/stop: this lives in `PausePlayButton.js`, which receives the state setters. That file is not part of this model, so the engine has no reset operation.
- `SessionInfo.js`: presentation only. Its labels depend on `utils/duration`, which is not part of this model. Its progress-bar width uses floating-point division.
- Rendering: JSX, class names and test ids are not modelled.
- Audio: `new Audio(...).play()` is foreign I/O. The model only counts completion sounds, in the ghost field `completionSignals` of the class and in the function `Signals`.
- `useInterval` (in `utils/useInterval`, not part of this model): wall-clock timing is not modelled. One second is an explicit call, `SecondElapsed` / `AfterSecond`, which runs the callback exactly when the delay is not null.
- React runtime: asynchronous batching of state updates, the stale closure read of `session` and `focusDuration` inside the interval callback, and hook ordering are not modelled. Each handler is one atomic sequential update of the current state.
- Session labels: Pomodoro.js compares strings and treats "any label other than Focusing" as a break. Only "Focusing" and "On Break" are ever created, so the model uses a two-valued `Label`. The field is called `kind` because `label` is a Dafny keyword.
- `NextSession`: the JavaScript `nextSession(focusDuration, breakDuration)` returns the update function. The model takes the current session as a third argument instead.
- Numbers: JavaScript numbers are doubles. Every value here is a small integer, so the model uses unbounded `int`.
- The null session in the interval callback: the JavaScript code dereferences `session` without a check, and the model's callback method requires a session. The callback is scheduled only while running, and the invariant ensures a session exists then.
