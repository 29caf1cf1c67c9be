/** The period timer: a target duration, the clock reading at which it was
    started, a running flag and the counter of its progress bar. The wall
    clock is replaced by an integer reading `now` passed to every operation
    that looked at it. */
module Timing {

  datatype Option<T> = None | Some(value: T)

  /** Using a timer that was never started fails in the original (the
      arithmetic on an unset start time, or the access to an unset bar). */
  datatype TimerError = NotStarted

  datatype Outcome = Pass | Fail(error: TimerError)

  datatype Result<T> = Ok(value: T) | Err(error: TimerError)

  /** The progress bar, reduced to its counter `n` and whether it is still open. */
  datatype Bar = Bar(n: int, open: bool)

  /** A timer started at `start` with target `duration` has run out at `now`. */
  predicate Expired(start: int, duration: int, now: int)
  {
    now - start >= duration
  }

  /** The counter shown at `now`: the elapsed time, cut off at the duration. */
  function ProgressAt(start: int, duration: int, now: int): (n: int)
    ensures n <= duration && n <= now - start
    ensures n == duration || n == now - start
    ensures 0 <= duration && start <= now ==> 0 <= n
    ensures n == duration <== Expired(start, duration, now)
  {
    if now - start < duration then now - start else duration
  }

  /** The counter never goes back as the clock reading goes forward. */
  lemma ProgressMonotone(start: int, duration: int, now: int, later: int)
    requires now <= later
    ensures ProgressAt(start, duration, now) <= ProgressAt(start, duration, later)
  {
  }

  /** Being run out is monotone in time: once finished, finished at every later reading. */
  lemma ExpiredStaysExpired(start: int, duration: int, now: int, later: int)
    requires Expired(start, duration, now) && now <= later
    ensures Expired(start, duration, later)
  {
  }

  /** The first reading at which a timer is finished is exactly `start + duration`. */
  lemma ExpiresExactlyAtDuration(start: int, duration: int)
    ensures !Expired(start, duration, start + duration - 1)
    ensures Expired(start, duration, start + duration)
  {
  }

  class Timer {
    const duration: int
    var startTime: Option<int>
    var running: bool
    var progress: Option<Bar>

    /** The state a timer has before `Start`: nothing recorded yet. */
    predicate IsFresh()
      reads this
    {
      startTime == None && !running && progress == None
    }

    predicate Started()
      reads this
    {
      startTime.Some? && progress.Some?
    }

    constructor (duration: int)
      ensures this.duration == duration && IsFresh()
    {
      this.duration := duration;
      startTime := None;
      running := false;
      progress := None;
    }

    /** Records `now` as the start, marks the timer running and opens a bar at 0. */
    method Start(now: int)
      modifies this
      ensures startTime == Some(now) && running
      ensures progress == Some(Bar(0, true))
    {
      startTime := Some(now);
      running := true;
      progress := Some(Bar(0, true));
    }

    /** Sets the bar's counter to the elapsed time clamped to the duration. */
    method UpdateProgress(now: int) returns (r: Outcome)
      modifies this
      ensures r == if old(Started()) then Pass else Fail(NotStarted)
      ensures startTime == old(startTime) && running == old(running)
      ensures r.Fail? ==> progress == old(progress)
      ensures r.Pass? ==> progress == Some(Bar(ProgressAt(startTime.value, duration, now), old(progress).value.open))
      ensures r.Pass? && 0 <= duration && startTime.value <= now ==> 0 <= progress.value.n <= duration
    {
      match (startTime, progress)
      case (Some(start), Some(bar)) =>
        progress := Some(Bar(ProgressAt(start, duration, now), bar.open));
        r := Pass;
      case _ =>
        r := Fail(NotStarted);
    }

    /** Fills the bar to the full duration and closes it. */
    method StopProgress() returns (r: Outcome)
      modifies this
      ensures r == if old(progress).Some? then Pass else Fail(NotStarted)
      ensures startTime == old(startTime) && running == old(running)
      ensures r.Pass? ==> progress == Some(Bar(duration, false))
      ensures r.Fail? ==> progress == old(progress)
    {
      if progress.Some? {
        progress := Some(Bar(duration, false));
        r := Pass;
      } else {
        r := Fail(NotStarted);
      }
    }

    /** Whether at least `duration` has elapsed since the start; an error before `Start`. */
    function IsFinished(now: int): (r: Result<bool>)
      reads this
      ensures r.Ok? <==> startTime.Some?
      ensures r.Ok? ==> (r.value <==> now >= startTime.value + duration)
    {
      match startTime
      case None => Err(NotStarted)
      case Some(start) => Ok(Expired(start, duration, now))
    }
  }
}
