/** The session controller: it runs each period on a fresh timer, counts the
    focus rounds, changes state along the branch table of module Schedule and
    records every notification it sends. */
module Pomodoro {
  import opened Timing
  import opened Schedule

  /** A negative duration makes a period last no time at all. */
  function Pos(d: int): nat
  {
    if d > 0 then d else 0
  }

  class PomodoroManager {
    const focusDuration: int
    const shortBreak: int
    const longBreak: int
    var currentRound: int
    var timer: Timer
    var state: State
    /** The notifications sent so far, in order. */
    var log: seq<Notification>
    /** The kinds of the periods whose timers have been started, in order. */
    ghost var periods: seq<State>

    /** The target duration of a period of the given kind. */
    function DurationOf(s: State): int
    {
      match s
      case Focus => focusDuration
      case ShortBreak => shortBreak
      case LongBreak => longBreak
      case Finished => 0
    }

    /** The installed timer belongs to the current period. */
    ghost predicate Valid()
      reads this, timer
    {
      state != Finished ==> timer.duration == DurationOf(state)
    }

    ghost function Current(): Config
      reads this
    {
      Config(state, currentRound)
    }

    /** The seconds the first `k` periods of a session take when every poll
        sleeps exactly one second. */
    function TimeSpent(k: nat): int
    {
      if k == 0 then 0 else TimeSpent(k - 1) + Pos(DurationOf(After(k - 1).state))
    }

    /** A session lasts five focus periods, three short breaks and one long break. */
    lemma SessionDuration()
      ensures TimeSpent(9) == 5 * Pos(focusDuration) + 3 * Pos(shortBreak) + Pos(longBreak)
    {
      forall j: nat | j <= 9
        ensures After(j) == Config(PlannedState(j), PlannedRound(j))
      {
        AfterFollowsPlan(j);
      }
      assert TimeSpent(4) == 2 * Pos(focusDuration) + 2 * Pos(shortBreak);
      assert TimeSpent(8) == 4 * Pos(focusDuration) + 3 * Pos(shortBreak) + Pos(longBreak);
    }

    /** The defaults are 25 minutes of focus, 5 of short break and 10 of long break. */
    constructor (focusDuration: int := 1500, shortBreak: int := 300, longBreak: int := 600)
      ensures this.focusDuration == focusDuration && this.shortBreak == shortBreak
      ensures this.longBreak == longBreak
      ensures Current() == Initial && log == [] && periods == []
      ensures fresh(timer) && timer.IsFresh() && timer.duration == focusDuration
      ensures Valid()
    {
      this.focusDuration := focusDuration;
      this.shortBreak := shortBreak;
      this.longBreak := longBreak;
      currentRound := 0;
      timer := new Timer(focusDuration);
      log := [];
      state := Focus;
      periods := [];
    }

    /** The top of the run loop: start the installed timer and, for a focus
        period, count one more round. */
    method StartPeriod(now: int)
      requires state != Finished
      modifies this, timer
      ensures Current() == Begin(old(Current()))
      ensures currentRound == old(currentRound) + (if old(state) == Focus then 1 else 0)
      ensures timer == old(timer) && timer.duration == old(timer.duration)
      ensures timer.startTime == Some(now) && timer.running && timer.progress == Some(Bar(0, true))
      ensures log == old(log) && periods == old(periods) + [state]
    {
      if state == Focus {
        timer.Start(now);
        currentRound := currentRound + 1;
      } else if state == ShortBreak {
        timer.Start(now);
      } else if state == LongBreak {
        timer.Start(now);
      }
      periods := periods + [state];
    }

    /** The polling loop: refresh the bar and sleep one second until the timer
        is finished. It returns the clock reading at which it stops, the first
        poll at which the timer has run out. */
    method WaitForTimer(now: int) returns (later: int)
      requires timer.Started()
      modifies timer
      ensures timer.startTime == old(timer.startTime) && timer.running == old(timer.running)
      ensures timer.Started() && timer.progress.value.open == old(timer.progress.value.open)
      ensures later >= now && Expired(timer.startTime.value, timer.duration, later)
      ensures later == now || !Expired(timer.startTime.value, timer.duration, later - 1)
      ensures later > now ==> timer.progress.value.n == ProgressAt(timer.startTime.value, timer.duration, later - 1)
      ensures later == now ==> timer.progress == old(timer.progress)
    {
      later := now;
      while !timer.IsFinished(later).value
        invariant later >= now && timer.Started()
        invariant timer.startTime == old(timer.startTime) && timer.running == old(timer.running)
        invariant timer.progress.value.open == old(timer.progress.value.open)
        invariant later == now || !Expired(timer.startTime.value, timer.duration, later - 1)
        invariant later > now ==> timer.progress.value.n == ProgressAt(timer.startTime.value, timer.duration, later - 1)
        invariant later == now ==> timer.progress == old(timer.progress)
        decreases timer.startTime.value + timer.duration - later
      {
        var outcome := timer.UpdateProgress(later);
        assert outcome == Pass;
        later := later + 1;
      }
    }

    /** The state change after a period: the branch table of Schedule, a fresh
        timer for the next period, and one notification. */
    method ChangeState()
      requires state != Finished
      modifies this
      ensures Current() == Change(old(Current()))
      ensures log == old(log) + [Announcement(old(Current()))]
      ensures periods == old(periods)
      ensures state != Finished ==> fresh(timer) && timer.IsFresh() && timer.duration == DurationOf(state)
      ensures state == Finished ==> timer == old(timer)
    {
      if currentRound < 4 && state == Focus {
        state := ShortBreak;
        timer := new Timer(shortBreak);
        log := log + [ShortBreakStarted];
      } else if currentRound == 4 && state == Focus {
        state := LongBreak;
        timer := new Timer(longBreak);
        log := log + [LongBreakStarted];
      } else if currentRound == 5 && state == Focus {
        log := log + [SessionCompleted];
        state := Finished;
      } else {
        state := Focus;
        timer := new Timer(focusDuration);
        log := log + [FocusStarted];
      }
    }

    /** One pass of the run loop's body: start the period, poll until its
        timer is finished, fill and close the bar, change state. */
    method RunPeriod(now: int) returns (later: int)
      requires Valid() && state != Finished
      modifies this, timer
      ensures Valid()
      ensures Current() == Change(Begin(old(Current())))
      ensures log == old(log) + [Announcement(Begin(old(Current())))]
      ensures periods == old(periods) + [old(state)]
      ensures later == now + Pos(DurationOf(old(state)))
      ensures old(timer).progress == Some(Bar(old(timer).duration, false))
      ensures state != Finished ==> fresh(timer) && timer.IsFresh()
      ensures state == Finished ==> timer == old(timer)
    {
      StartPeriod(now);
      later := WaitForTimer(now);
      var stopped := timer.StopProgress();
      assert stopped == Pass;
      ChangeState();
    }

    /** A whole session from the just-built manager, starting at clock reading
        `start`: it returns the reading at which the session ends. */
    method Run(start: int) returns (end: int)
      requires Valid() && Current() == Initial && log == [] && periods == []
      modifies this, timer
      ensures state == Finished && currentRound == 5
      ensures periods == Visited(9)
      ensures log == Log(9)
      ensures end == start + TimeSpent(9)
      ensures timer.progress == Some(Bar(timer.duration, false))
    {
      log := log + [SessionStarted];
      var now := start;
      ghost var k: nat := 0;
      // The original loops while the round counter is at most 5 and leaves
      // only through the process exit in the state change; here the exit is
      // the Finished state, and the counter bound is an invariant.
      while state != Finished
        invariant k <= 9 && Valid() && Current() == After(k)
        invariant currentRound <= 5
        invariant timer == old(timer) || fresh(timer)
        invariant periods == Visited(k)
        invariant log == Log(k)
        invariant now == start + TimeSpent(k)
        invariant state == Finished ==> timer.progress == Some(Bar(timer.duration, false))
        decreases 9 - k
      {
        AfterFollowsPlan(k);
        Step(k);
        now := RunPeriod(now);
        k := k + 1;
      }
      AfterFollowsPlan(k);
      assert k == 9;
      end := now;
    }
  }

  /** The script's entry point: a manager with the default durations runs one
      session, which sends the ten notifications and lasts 9000 seconds. */
  method SessionWithDefaults(start: int) returns (end: int, log: seq<Notification>)
    ensures log == Log(9)
    ensures end == start + 9000
  {
    var manager := new PomodoroManager();
    end := manager.Run(start);
    manager.SessionDuration();
    log := manager.log;
  }
}
