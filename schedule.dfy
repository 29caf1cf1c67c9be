/** The session's state machine on values: which period comes next, how the
    round counter moves, and which notification each transition sends. The
    manager class in module Pomodoro is specified by these functions. */
module Schedule {

  datatype State = Focus | ShortBreak | LongBreak | Finished

  /** The two fields the transitions branch on: the state and the round counter. */
  datatype Config = Config(state: State, round: int)

  /** One call of the notifier: the text printed and the sound file played. */
  datatype Notification = Notification(message: string, sound: string)

  const Initial := Config(Focus, 0)

  const SessionStarted := Notification("Pomodoro session started.", "session_start.wav")
  const ShortBreakStarted := Notification("Starting short break.", "break_start.wav")
  const LongBreakStarted := Notification("Starting long break.", "long_break_start.wav")
  const SessionCompleted := Notification("Pomodoro session completed.", "session_end.wav")
  const FocusStarted := Notification("Starting focus period.", "focus_start.wav")

  /** The top of the run loop: starting a focus period counts one more round;
      starting a break leaves the counter alone. */
  function Begin(c: Config): (b: Config)
  {
    if c.state == Focus then Config(Focus, c.round + 1) else c
  }

  /** The branch table of the state change, taken after a period ends. */
  function NextState(c: Config): State
    requires c.state != Finished
  {
    if c.round < 4 && c.state == Focus then ShortBreak
    else if c.round == 4 && c.state == Focus then LongBreak
    else if c.round == 5 && c.state == Focus then Finished
    else Focus
  }

  /** The notification the state change sends, one per branch. */
  function Announcement(c: Config): Notification
    requires c.state != Finished
  {
    if c.round < 4 && c.state == Focus then ShortBreakStarted
    else if c.round == 4 && c.state == Focus then LongBreakStarted
    else if c.round == 5 && c.state == Focus then SessionCompleted
    else FocusStarted
  }

  function Change(c: Config): Config
    requires c.state != Finished
  {
    Config(NextState(c), c.round)
  }

  /** The configuration after `k` periods have run from the initial one; the
      terminal state is kept once reached. */
  function After(k: nat): Config
  {
    if k == 0 then Initial
    else
      var p := After(k - 1);
      if p.state == Finished then p else Change(Begin(p))
  }

  /** The states of the periods among the first `k` steps, in the order they
      run; nothing is added once the session is finished. */
  function Visited(k: nat): seq<State>
  {
    if k == 0 then []
    else
      var p := After(k - 1);
      if p.state == Finished then Visited(k - 1) else Visited(k - 1) + [p.state]
  }

  /** How many times `x` occurs in `s`. */
  function Count(s: seq<State>, x: State): nat
  {
    if s == [] then 0 else (if s[0] == x then 1 else 0) + Count(s[1..], x)
  }

  lemma {:induction false} CountAppend(s: seq<State>, y: State, x: State)
    ensures Count(s + [y], x) == Count(s, x) + (if y == x then 1 else 0)
  {
    if s != [] {
      assert (s + [y])[1..] == s[1..] + [y];
      CountAppend(s[1..], y, x);
    }
  }

  /** Everything the notifier receives up to the end of the `k`-th period. */
  function Log(k: nat): seq<Notification>
  {
    if k == 0 then [SessionStarted]
    else
      var p := After(k - 1);
      if p.state == Finished then Log(k - 1) else Log(k - 1) + [Announcement(Begin(p))]
  }

  /** The planned schedule, written independently of the transitions: focus at
      even positions, the long break at position 7, short breaks at the other
      odd positions, and the end after nine periods. */
  function PlannedState(k: nat): State
  {
    if k >= 9 then Finished
    else if k % 2 == 0 then Focus
    else if k == 7 then LongBreak
    else ShortBreak
  }

  /** The rounds begun before position `k` of the plan: one per focus period. */
  function PlannedRound(k: nat): nat
  {
    if k >= 9 then 5 else (k + 1) / 2
  }

  // ---------------------------------------------------------------------------
  // The branch table, row by row

  lemma ShortBreakBeforeRoundFour(c: Config)
    requires c.state == Focus && c.round < 4
    ensures Change(c) == Config(ShortBreak, c.round) && Announcement(c) == ShortBreakStarted
  {
  }

  lemma LongBreakAtRoundFour(c: Config)
    requires c.state == Focus && c.round == 4
    ensures Change(c) == Config(LongBreak, 4) && Announcement(c) == LongBreakStarted
  {
  }

  lemma FinishedAtRoundFive(c: Config)
    requires c.state == Focus && c.round == 5
    ensures Change(c) == Config(Finished, 5) && Announcement(c) == SessionCompleted
  {
  }

  lemma FocusAfterBreak(c: Config)
    requires c.state == ShortBreak || c.state == LongBreak
    ensures Change(c) == Config(Focus, c.round) && Announcement(c) == FocusStarted
  {
  }

  // ---------------------------------------------------------------------------
  // The whole session

  /** The transitions follow the plan at every step, and stay finished after it. */
  lemma {:induction false} AfterFollowsPlan(k: nat)
    ensures After(k) == Config(PlannedState(k), PlannedRound(k))
  {
    if k > 0 {
      AfterFollowsPlan(k - 1);
    }
  }

  /** One more period extends the configuration, the visited states and the log by one step. */
  lemma Step(k: nat)
    requires After(k).state != Finished
    ensures After(k + 1) == Change(Begin(After(k)))
    ensures Visited(k + 1) == Visited(k) + [After(k).state]
    ensures Log(k + 1) == Log(k) + [Announcement(Begin(After(k)))]
  {
  }

  /** The round counter equals the number of focus periods begun so far: it goes
      up with each focus period and at no other step. */
  lemma {:induction false} RoundCountsFocusPeriods(k: nat)
    ensures After(k).round == Count(Visited(k), Focus)
  {
    if k > 0 {
      RoundCountsFocusPeriods(k - 1);
      var p := After(k - 1);
      if p.state != Finished {
        CountAppend(Visited(k - 1), p.state, Focus);
        assert After(k).round == p.round + (if p.state == Focus then 1 else 0);
      }
    }
  }

  /** The round counter never goes down. */
  lemma {:induction false} RoundNeverDecreases(j: nat, k: nat)
    requires j <= k
    ensures After(j).round <= After(k).round
  {
    if j < k {
      RoundNeverDecreases(j, k - 1);
      var p := After(k - 1);
      if p.state != Finished {
        assert After(k).round == Begin(p).round;
      }
    }
  }

  /** A session runs F, S, F, S, F, S, F, L, F and then ends at round 5. */
  lemma SessionVisits()
    ensures Visited(9) == [Focus, ShortBreak, Focus, ShortBreak, Focus, ShortBreak, Focus, LongBreak, Focus]
    ensures After(9) == Config(Finished, 5)
  {
    forall j: nat | j <= 9
      ensures After(j) == Config(PlannedState(j), PlannedRound(j))
    {
      AfterFollowsPlan(j);
    }
  }

  /** Nothing is visited after the session has finished. */
  lemma {:induction false} VisitedStopsAtFinish(k: nat)
    requires k >= 9
    ensures Visited(k) == Visited(9) && Log(k) == Log(9)
  {
    if k > 9 {
      VisitedStopsAtFinish(k - 1);
      AfterFollowsPlan(k - 1);
    }
  }

  /** A session has five focus periods, three short breaks and one long break. */
  lemma SessionPeriodCounts()
    ensures Count(Visited(9), Focus) == 5
    ensures Count(Visited(9), ShortBreak) == 3
    ensures Count(Visited(9), LongBreak) == 1
  {
    SessionVisits();
  }

  /** The notifier hears: the session start, then one announcement per state
      change (eight period starts and the completion), in this order. */
  lemma SessionLog()
    ensures Log(9) == [SessionStarted,
                       ShortBreakStarted, FocusStarted, ShortBreakStarted, FocusStarted,
                       ShortBreakStarted, FocusStarted, LongBreakStarted, FocusStarted,
                       SessionCompleted]
  {
    forall j: nat | j <= 9
      ensures After(j) == Config(PlannedState(j), PlannedRound(j))
    {
      AfterFollowsPlan(j);
    }
  }
}
