# Pomodoro session timer, modelled in Dafny

This project models the core of a Pomodoro-technique timer. The timer runs
fixed-length focus periods, with short breaks between them and a single long
break near the end. Each period runs on its own timer that is polled until it
runs out. Every change of period sends one notification.

- `timing.dfy` (module `Timing`): the `Timer` class. It holds the duration, the
  start reading, the running flag and the progress bar's counter `n`. The
  module also has the pure clamping and expiry functions that specify it.
- `schedule.dfy` (module `Schedule`): the state machine on values.
  - `Begin` is the round counting at the top of the run loop.
  - `NextState` and `Announcement` are the state change's branch table.
  - `After(k)` is the configuration after `k` periods, and `Visited(k)` and
    `Log(k)` are the states and notifications so far.
  - `PlannedState` and `PlannedRound` are a reference schedule written
    independently of the transitions.
  - The lemmas cover the whole session.
- `pomodoro.dfy` (module `Pomodoro`): the `PomodoroManager` class.
  - Its fields are the three durations, `currentRound`, `state`, the installed
    `timer`, and the notification log.
  - Its methods are the loop body's parts (`StartPeriod`, `WaitForTimer`,
    `ChangeState`), one whole pass (`RunPeriod`) and the whole session (`Run`).
  - Each method is specified by the functions of `Schedule` and `Timing`.

Time is an integer clock reading passed in as `now`. In the polling loop each
one-second sleep advances the reading by exactly one. The process exit at the
end of a session is the terminal state `Finished`. The notifier is reduced
to appending a (message, sound file) record to the manager's `log`.

Behaviours of the code that the model keeps as they are:

- A timer can be started more than once; the code does not forbid it.
- Progress is the bar's integer counter, not a fraction of the duration.
- Using a timer before `start` fails in whichever operation touches the unset
  start time or bar first. The model returns `NotStarted` there.

## Model

| member | source | states |
|---|---|---|
| `Schedule.Begin` | pomodoro.py:44-46 | definition, no contract: starting a focus period adds one to the round; starting a break leaves the configuration as it is |
| `Schedule.NextState` | pomodoro.py:60-74 | definition, no contract: the state change's branch table (short break below round 4, long break at 4, finished at 5, otherwise focus) |
| `Schedule.Announcement` | pomodoro.py:63-74 | definition, no contract: the notification each branch of the state change sends |
| `Schedule.Change` | pomodoro.py:59-74 | definition, no contract: the new configuration after a state change; the round is unchanged |
| `Schedule.After` | pomodoro.py:43-57 | definition, no contract: the configuration after `k` passes of the run loop, kept once finished |
| `Schedule.Visited` | pomodoro.py:44-50 | definition, no contract: the kinds of the periods started in the first `k` passes, in order |
| `Schedule.Log` | pomodoro.py:42-74 | definition, no contract: the session-start notification followed by one announcement per pass |
| `Timing.Expired` | pomodoro.py:29 | definition, no contract: at least `duration` has elapsed since `start` |
| `Pomodoro.PomodoroManager.DurationOf` | pomodoro.py:37-73 | definition, no contract: the duration each kind of period runs for, as chosen when its timer is built |
| `Timing.ProgressAt` | pomodoro.py:18-20 | the counter is the smaller of the elapsed time and the duration: never above the duration, never above the elapsed time, equal to one of them, not negative when time has not gone back and the duration is not negative, and equal to the duration once the timer has run out |
| `Timing.ProgressMonotone` | pomodoro.py:18-20 | the counter never goes back as the clock reading goes forward |
| `Timing.Timer.constructor` | pomodoro.py:7-11 | a new timer has the given duration, no start time, is not running and has no bar |
| `Timing.Timer.Start` | pomodoro.py:13-16 | records `now` as the start time, sets running, and opens a bar at 0 |
| `Timing.Timer.UpdateProgress` | pomodoro.py:18-21 | on a started timer sets the counter to `ProgressAt` of the elapsed time (so it stays within 0..duration when `now` is not before the start); on an unstarted one fails with `NotStarted` and changes nothing |
| `Timing.Timer.StopProgress` | pomodoro.py:23-26 | forces the counter to the duration and closes the bar; fails with `NotStarted` when there is no bar |
| `Timing.Timer.IsFinished` | pomodoro.py:28-29 | an error exactly when the timer was never started; otherwise true iff `now >= start + duration` |
| `Timing.ExpiredStaysExpired` | pomodoro.py:28-29 | once a timer has run out it stays run out at every later reading |
| `Timing.ExpiresExactlyAtDuration` | pomodoro.py:28-29 | a timer is not finished one second before `start + duration` and is finished at it |
| `Schedule.ShortBreakBeforeRoundFour` | pomodoro.py:60-63 | from focus with round below 4 the next state is the short break, the round is unchanged, and the short-break notification is sent |
| `Schedule.LongBreakAtRoundFour` | pomodoro.py:64-67 | from focus at round 4 the next state is the long break with the long-break notification |
| `Schedule.FinishedAtRoundFive` | pomodoro.py:68-70 | from focus at round 5 the session is finished with the completion notification |
| `Schedule.FocusAfterBreak` | pomodoro.py:71-74 | from either break the next state is focus with the focus notification |
| `Schedule.AfterFollowsPlan` | pomodoro.py:43-74 | after `k` periods the state and round are those of the reference plan: focus at even positions, long break at 7, short breaks at other odd positions, round `(k+1)/2`, and finished at round 5 from 9 periods on |
| `Schedule.RoundCountsFocusPeriods` | pomodoro.py:44-46 | the round counter always equals the number of focus periods begun: it starts at 0 and goes up by one with each focus period and at no other step |
| `Schedule.RoundNeverDecreases` | pomodoro.py:36-46 | the round counter never goes down from one period to a later one |
| `Schedule.SessionVisits` | pomodoro.py:43-70 | a session visits exactly F, S, F, S, F, S, F, L, F and then is finished at round 5 |
| `Schedule.VisitedStopsAtFinish` | pomodoro.py:68-70 | once the session has finished no further period is visited and nothing more is sent |
| `Schedule.SessionPeriodCounts` | pomodoro.py:43-70 | a session has five focus periods, three short breaks and one long break |
| `Schedule.SessionLog` | pomodoro.py:42-74 | a session sends: session started, then short, focus, short, focus, short, focus, long, focus, then session completed, in that order |
| `Pomodoro.PomodoroManager.constructor` | pomodoro.py:32-39 | a new manager keeps the given durations (by default 1500, 300 and 600 seconds), is in focus at round 0, with an empty log and a fresh, unstarted timer of the focus duration |
| `Pomodoro.PomodoroManager.StartPeriod` | pomodoro.py:44-50 | starts the installed timer at `now`; the round goes up by one exactly when the period is a focus period |
| `Pomodoro.PomodoroManager.WaitForTimer` | pomodoro.py:52-54 | returns the first one-second poll at which the timer has run out, leaves the start time alone, and leaves the bar at the clamped progress of the last poll |
| `Pomodoro.PomodoroManager.ChangeState` | pomodoro.py:59-74 | the new state and round are `Change` of the old ones, exactly one announcement is appended to the log, and every new period gets a fresh, unstarted timer of its own duration |
| `Pomodoro.PomodoroManager.RunPeriod` | pomodoro.py:44-57 | one pass of the loop body moves the configuration by one step of the schedule, logs one announcement, takes exactly the period's (non-negative) duration, leaves the ended period's bar filled to its duration and closed, and installs a fresh, unstarted timer unless the session has finished |
| `Pomodoro.PomodoroManager.Run` | pomodoro.py:41-57 | a whole session run by a just-built manager ends finished at round 5, having started exactly the periods `Visited(9)`, sent exactly `Log(9)` and taken `TimeSpent(9)` seconds, with the last period's bar filled and closed |
| `Pomodoro.PomodoroManager.SessionDuration` | pomodoro.py:41-57 | a session lasts five focus durations, three short-break durations and one long-break duration |
| `Pomodoro.SessionWithDefaults` | pomodoro.py:82-84 | the script's session, with the default durations, sends the ten notifications of `Log(9)` and lasts 9000 seconds |

## Left out

- Progress-bar rendering, its format and colour (pomodoro.py:16, 21, 25-26): third-party display. Only the counter `n` and whether the bar is open are kept.
- Printing, the time stamp and sound playback in `Notifier` (pomodoro.py:76-80): I/O. A notification is recorded as a (message, sound file) pair in `log`.
- The wall clock and `time.sleep(1)` (pomodoro.py:14, 19, 29, 54): the clock is an integer parameter. Each sleep advances it by exactly one second. The time spent refreshing the bar is not modelled.
- Floating-point elapsed time and its truncation by `int()` (pomodoro.py:20): time is integer seconds.
- `exit()` (pomodoro.py:70): the session ends in the terminal state `Finished`; the process is not modelled. `ChangeState` requires a state other than `Finished`, since nothing runs after the exit in the original.
- Pomodoro.PomodoroManager.Run: requires the configuration of a just-built manager (focus, round 0, a timer of the focus duration, an empty log). In the original, nothing but `run` changes the manager, and it is called right after construction.
- The `while current_round <= 5` guard (pomodoro.py:43) is modelled as a proved loop invariant. That guard is never false while the loop runs, and the loop is left only by the exit.
