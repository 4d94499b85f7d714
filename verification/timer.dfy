/** The Pomodoro timer store: countdown, round counting, the focus /
    short-break / long-break cycle, duration settings and the
    most-recent-first log of completed sessions. */
module Timer {
  import opened Wrappers
  import opened Text

  datatype SessionType = Focus | ShortBreak | LongBreak

  /** The string a session type is stored and exported as. */
  function TypeName(t: SessionType): (r: string)
    ensures r != ""
  {
    match t
    case Focus => "focus"
    case ShortBreak => "shortBreak"
    case LongBreak => "longBreak"
  }

  /** One entry of the session log. Times are milliseconds since the epoch,
      `duration` is in seconds. */
  datatype SessionLog = SessionLog(
    id: string,
    sessionType: SessionType,
    startTime: int,
    endTime: int,
    duration: int,
    completed: bool)

  /** Every field of the store, as one value. Durations are in seconds. */
  datatype TimerState = TimerState(
    isRunning: bool,
    timeLeft: int,
    currentRound: int,
    totalRounds: int,
    sessionType: SessionType,
    focusDuration: int,
    shortBreakDuration: int,
    longBreakDuration: int,
    sessionsBeforeLongBreak: int,
    sessionLogs: seq<SessionLog>)

  /** The store's initial state: 25/5/15 minutes, a long break every 4, 8 rounds. */
  const Initial: TimerState :=
    TimerState(false, 25 * 60, 1, 8, Focus, 25 * 60, 5 * 60, 15 * 60, 4, [])

  /** The configured duration of a session type. */
  function DurationOf(s: TimerState, t: SessionType): int
  {
    match t
    case Focus => s.focusDuration
    case ShortBreak => s.shortBreakDuration
    case LongBreak => s.longBreakDuration
  }

  /** `currentSessionDuration()`: the configured duration of the active type. */
  function CurrentDuration(s: TimerState): int
  {
    DurationOf(s, s.sessionType)
  }

  /** `currentRound % sessionsBeforeLongBreak === 0` in JavaScript. A zero
      divisor gives NaN, which is never `=== 0`; for any other divisor the
      test is divisibility, whatever the signs. */
  predicate IsLongBreakRound(round: int, cadence: int)
  {
    cadence != 0 && round % cadence == 0
  }

  // ---------------------------------------------------------------------
  // The actions, as functions of the state before the call

  /** `logSession`: the entry gets the id `Date.now().toString()` and goes
      to the front of the log. */
  function Logged(s: TimerState, entry: SessionLog, now: nat): (r: TimerState)
    ensures |r.sessionLogs| == |s.sessionLogs| + 1
    ensures r.sessionLogs[0].id == NatToDecimal(now)
    ensures r.sessionLogs[0] == entry.(id := r.sessionLogs[0].id)
    ensures r.sessionLogs[1..] == s.sessionLogs
    ensures r == s.(sessionLogs := r.sessionLogs)
  {
    s.(sessionLogs := [entry.(id := NatToDecimal(now))] + s.sessionLogs)
  }

  /** `tick`: one second less while positive; no other field is read. */
  function Ticked(s: TimerState): (r: TimerState)
    ensures s.timeLeft > 0 ==> r.timeLeft == s.timeLeft - 1
    ensures s.timeLeft <= 0 ==> r.timeLeft == s.timeLeft
    ensures r == s.(timeLeft := r.timeLeft)
  {
    if s.timeLeft > 0 then s.(timeLeft := s.timeLeft - 1) else s
  }

  /** `completeSession`: log the finished session with its full planned
      duration, then move to the next session of the cycle. */
  function CompletedSession(s: TimerState, now: nat): (r: TimerState)
    // the log grows by exactly one entry, describing the finished session
    ensures |r.sessionLogs| == |s.sessionLogs| + 1 && r.sessionLogs[1..] == s.sessionLogs
    ensures r.sessionLogs[0].sessionType == s.sessionType
    ensures r.sessionLogs[0].duration == CurrentDuration(s)
    ensures r.sessionLogs[0].completed
    ensures r.sessionLogs[0].endTime == now
    ensures r.sessionLogs[0].endTime - r.sessionLogs[0].startTime == 1000 * r.sessionLogs[0].duration
    // settings are untouched and the new session starts full
    ensures r.totalRounds == s.totalRounds && r.sessionsBeforeLongBreak == s.sessionsBeforeLongBreak
    ensures forall t :: DurationOf(r, t) == DurationOf(s, t)
    ensures r.timeLeft == CurrentDuration(r)
    // end of the cycle: stop and start over
    ensures s.sessionType == Focus && s.currentRound >= s.totalRounds ==>
      !r.isRunning && r.currentRound == 1 && r.sessionType == Focus
    // focus: a break, long exactly on a multiple of the cadence
    ensures s.sessionType == Focus && s.currentRound < s.totalRounds ==>
      && r.isRunning == s.isRunning
      && r.currentRound == s.currentRound + 1
      && r.sessionType != Focus
      && (r.sessionType == LongBreak <==> IsLongBreakRound(s.currentRound, s.sessionsBeforeLongBreak))
    // break: back to focus, and the round still advances
    ensures s.sessionType != Focus ==>
      r.isRunning == s.isRunning && r.currentRound == s.currentRound + 1 && r.sessionType == Focus
  {
    var duration := CurrentDuration(s);
    var s1 := Logged(s, SessionLog("", s.sessionType, now - duration * 1000, now, duration, true), now);
    if s.currentRound >= s.totalRounds && s.sessionType == Focus then
      s1.(isRunning := false, currentRound := 1, sessionType := Focus, timeLeft := s1.focusDuration)
    else if s.sessionType == Focus then
      var next := if IsLongBreakRound(s.currentRound, s1.sessionsBeforeLongBreak) then LongBreak else ShortBreak;
      s1.(currentRound := s.currentRound + 1, sessionType := next, timeLeft := DurationOf(s1, next))
    else
      s1.(currentRound := s.currentRound + 1, sessionType := Focus, timeLeft := s1.focusDuration)
  }

  /** `nextSession` (manual skip): stops the timer, never logs, never picks
      a long break, and coming back from a break keeps the round. */
  function Skipped(s: TimerState): (r: TimerState)
    ensures r.sessionLogs == s.sessionLogs
    ensures !r.isRunning
    ensures r.sessionType != LongBreak
    ensures r.timeLeft == CurrentDuration(r)
    ensures r.totalRounds == s.totalRounds && r.sessionsBeforeLongBreak == s.sessionsBeforeLongBreak
    ensures forall t :: DurationOf(r, t) == DurationOf(s, t)
    ensures s.sessionType != Focus ==> r.sessionType == Focus && r.currentRound == s.currentRound
    ensures s.sessionType == Focus && s.currentRound >= s.totalRounds ==>
      r.sessionType == Focus && r.currentRound == 1
    ensures s.sessionType == Focus && s.currentRound < s.totalRounds ==>
      r.sessionType == ShortBreak && r.currentRound == s.currentRound + 1
  {
    if s.currentRound >= s.totalRounds && s.sessionType == Focus then
      s.(currentRound := 1, sessionType := Focus, timeLeft := s.focusDuration, isRunning := false)
    else if s.sessionType == Focus then
      s.(currentRound := s.currentRound + 1, sessionType := ShortBreak, timeLeft := s.shortBreakDuration, isRunning := false)
    else
      s.(sessionType := Focus, timeLeft := s.focusDuration, isRunning := false)
  }

  /** `resetTimer`: refill the active session and stop. */
  function Reset(s: TimerState): (r: TimerState)
    ensures r.timeLeft == CurrentDuration(s) && !r.isRunning
    ensures r.sessionType == s.sessionType && r.currentRound == s.currentRound
    ensures r == s.(timeLeft := r.timeLeft, isRunning := false)
  {
    s.(timeLeft := CurrentDuration(s), isRunning := false)
  }

  /** `setFocusDuration` / `setShortBreakDuration` / `setLongBreakDuration`:
      store `minutes * 60` seconds for type `t`; the countdown follows only
      when `t` is the active type. */
  function Reconfigured(s: TimerState, t: SessionType, minutes: int): (r: TimerState)
    ensures DurationOf(r, t) == minutes * 60
    ensures forall u :: u != t ==> DurationOf(r, u) == DurationOf(s, u)
    ensures r.timeLeft == if s.sessionType == t then minutes * 60 else s.timeLeft
    ensures r.sessionType == s.sessionType && r.currentRound == s.currentRound
    ensures r.isRunning == s.isRunning && r.sessionLogs == s.sessionLogs
    ensures r.totalRounds == s.totalRounds && r.sessionsBeforeLongBreak == s.sessionsBeforeLongBreak
  {
    var timeLeft := if s.sessionType == t then minutes * 60 else s.timeLeft;
    match t
    case Focus => s.(focusDuration := minutes * 60, timeLeft := timeLeft)
    case ShortBreak => s.(shortBreakDuration := minutes * 60, timeLeft := timeLeft)
    case LongBreak => s.(longBreakDuration := minutes * 60, timeLeft := timeLeft)
  }

  /** Every way the store can be changed. */
  datatype Action =
    | Start | Pause | Toggle | Tick
    | Complete(now: nat)
    | Next
    | ResetTimer
    | SetDuration(kind: SessionType, minutes: int)
    | SetCadence(count: int)
    | ClearLogs

  function Apply(s: TimerState, a: Action): TimerState
  {
    match a
    case Start => s.(isRunning := true)
    case Pause => s.(isRunning := false)
    case Toggle => s.(isRunning := !s.isRunning)
    case Tick => Ticked(s)
    case Complete(now) => CompletedSession(s, now)
    case Next => Skipped(s)
    case ResetTimer => Reset(s)
    case SetDuration(t, m) => Reconfigured(s, t, m)
    case SetCadence(c) => s.(sessionsBeforeLongBreak := c)
    case ClearLogs => s.(sessionLogs := [])
  }

  /** The actions applied in order. */
  function Run(s: TimerState, actions: seq<Action>): TimerState
    decreases |actions|
  {
    if actions == [] then s else Run(Apply(s, actions[0]), actions[1..])
  }

  // ---------------------------------------------------------------------
  // Properties

  /** The countdown never runs past the active session's duration nor below
      zero, and rounds are counted from 1. */
  ghost predicate Sane(s: TimerState)
  {
    && s.focusDuration >= 0 && s.shortBreakDuration >= 0 && s.longBreakDuration >= 0
    && 0 <= s.timeLeft <= CurrentDuration(s)
    && s.currentRound >= 1
  }

  /** Settings that keep durations non-negative. */
  predicate Admissible(a: Action)
  {
    a.SetDuration? ==> a.minutes >= 0
  }

  lemma SaneStep(s: TimerState, a: Action)
    requires Sane(s) && Admissible(a)
    ensures Sane(Apply(s, a))
  {
  }

  lemma {:induction false} SaneRun(s: TimerState, actions: seq<Action>)
    requires Sane(s)
    requires forall i :: 0 <= i < |actions| ==> Admissible(actions[i])
    ensures Sane(Run(s, actions))
    decreases |actions|
  {
    if actions != [] {
      SaneStep(s, actions[0]);
      SaneRun(Apply(s, actions[0]), actions[1..]);
    }
  }

  /** `n` ticks from a non-negative countdown leave `max(0, timeLeft - n)`
      and nothing else changed. */
  lemma {:induction false} TicksCountDown(s: TimerState, n: nat)
    requires s.timeLeft >= 0
    ensures Run(s, seq(n, _ => Tick)) == s.(timeLeft := if s.timeLeft >= n then s.timeLeft - n else 0)
    decreases n
  {
    if n > 0 {
      var ticks := seq(n, _ => Tick);
      assert ticks[0] == Tick && ticks[1..] == seq(n - 1, _ => Tick);
      TicksCountDown(Ticked(s), n - 1);
    }
  }

  /** Focus sessions sit on odd rounds and breaks on even ones, and no long
      break has happened. */
  ghost predicate FocusOnOddRounds(s: TimerState)
  {
    && (s.sessionType == Focus <==> s.currentRound % 2 == 1)
    && s.sessionType != LongBreak
  }

  /** Everything except a manual skip or a cadence change. */
  predicate KeepsParity(a: Action)
  {
    !a.Next? && !a.SetCadence?
  }

  /** An even divisor leaves a remainder of the same parity. */
  lemma RemainderKeepsParity(r: int, c: int)
    requires c != 0 && c % 2 == 0
    ensures (r % c) % 2 == r % 2
  {
    var q, k, m := r / c, c / 2, r % c;
    assert c == 2 * k;
    assert r == c * q + m;
    var t := k * q;
    assert c * q == 2 * t;
    assert r == 2 * t + m;
    EvenShiftKeepsParity(t, m);
  }

  lemma EvenShiftKeepsParity(t: int, m: int)
    ensures (2 * t + m) % 2 == m % 2
  {
  }

  lemma ParityStep(s: TimerState, a: Action)
    requires FocusOnOddRounds(s) && s.sessionsBeforeLongBreak % 2 == 0 && KeepsParity(a)
    ensures FocusOnOddRounds(Apply(s, a))
    ensures Apply(s, a).sessionsBeforeLongBreak == s.sessionsBeforeLongBreak
  {
    if a.Complete? && s.sessionType == Focus {
      if s.sessionsBeforeLongBreak != 0 {
        RemainderKeepsParity(s.currentRound, s.sessionsBeforeLongBreak);
      }
    }
  }

  /** `completeSession` bumps the round on every transition, so when the
      round counter is only advanced through it, focus sessions always sit
      on odd rounds; with an even cadence (the default is 4) the long-break
      test `round % cadence == 0` can then never succeed. */
  lemma {:induction false} NoLongBreakWithEvenCadence(s: TimerState, actions: seq<Action>)
    requires FocusOnOddRounds(s) && s.sessionsBeforeLongBreak % 2 == 0
    requires forall i :: 0 <= i < |actions| ==> KeepsParity(actions[i])
    ensures FocusOnOddRounds(Run(s, actions))
    ensures Run(s, actions).sessionType != LongBreak
    decreases |actions|
  {
    if actions != [] {
      ParityStep(s, actions[0]);
      NoLongBreakWithEvenCadence(Apply(s, actions[0]), actions[1..]);
    }
  }

  /** From the initial state, no sequence of completions, ticks, pauses,
      resets or duration changes ever reaches a long break. */
  lemma InitialNeverReachesLongBreak(actions: seq<Action>)
    requires forall i :: 0 <= i < |actions| ==> KeepsParity(actions[i])
    ensures Run(Initial, actions).sessionType != LongBreak
  {
    NoLongBreakWithEvenCadence(Initial, actions);
  }

  /** With an odd cadence the long break is reachable: three completions
      with cadence 3 end on a long break. */
  lemma OddCadenceReachesLongBreak(now: nat)
    ensures Run(Initial.(sessionsBeforeLongBreak := 3), [Complete(now), Complete(now), Complete(now)]).sessionType == LongBreak
  {
    var s0 := Initial.(sessionsBeforeLongBreak := 3);
    var s1 := CompletedSession(s0, now);
    assert s1.currentRound == 2 && s1.sessionType == ShortBreak;
    var s2 := CompletedSession(s1, now);
    assert s2.currentRound == 3 && s2.sessionType == Focus;
    var s3 := CompletedSession(s2, now);
    assert IsLongBreakRound(3, 3);
    assert s3.sessionType == LongBreak;
    var three := [Complete(now), Complete(now), Complete(now)];
    assert three[1..] == [Complete(now), Complete(now)];
    assert three[1..][1..] == [Complete(now)];
    assert three[1..][1..][1..] == [];
    assert Run(s3, []) == s3;
    assert Run(s2, [Complete(now)]) == s3;
    assert Run(s1, three[1..]) == s3;
  }

  // ---------------------------------------------------------------------
  // Display

  /** `formatTime`: zero-padded minutes, a colon, zero-padded seconds, with
      JavaScript's floor division and truncating remainder. */
  function FormatSeconds(t: int): string
  {
    PadStart2(IntToString(t / 60)) + ":" + PadStart2(IntToString(JsRem(t, 60)))
  }

  /** `r` reads as `MM:SS` and denotes `t` seconds. */
  ghost predicate ShowsSeconds(r: string, t: int)
  {
    && |r| == 5 && r[2] == ':'
    && IsDigit(r[0]) && IsDigit(r[1]) && IsDigit(r[3]) && IsDigit(r[4])
    && 60 * (10 * DigitValue(r[0]) + DigitValue(r[1])) + 10 * DigitValue(r[3]) + DigitValue(r[4]) == t
  }

  /** A number below 100 pads to two digits that read back as the number. */
  lemma TwoDigits(n: nat)
    requires n < 100
    ensures var p := PadStart2(NatToDecimal(n));
      |p| == 2 && IsDigit(p[0]) && IsDigit(p[1]) && 10 * DigitValue(p[0]) + DigitValue(p[1]) == n
  {
    if n >= 10 {
      assert NatToDecimal(n) == NatToDecimal(n / 10) + [DigitChar(n % 10)];
      assert NatToDecimal(n / 10) == [DigitChar(n / 10)];
    }
  }

  /** Below 100 minutes the display is `MM:SS`, five characters, and reading
      the two fields back gives the number of seconds. */
  lemma FormatRoundTrip(t: int)
    requires 0 <= t < 6000
    ensures ShowsSeconds(FormatSeconds(t), t)
  {
    var m, sec := t / 60, t % 60;
    assert JsRem(t, 60) == sec;
    var a, b := PadStart2(NatToDecimal(m)), PadStart2(NatToDecimal(sec));
    TwoDigits(m);
    TwoDigits(sec);
    var r := FormatSeconds(t);
    assert r == a + ":" + b;
    assert r[0] == a[0] && r[1] == a[1] && r[2] == ':' && r[3] == b[0] && r[4] == b[1];
  }

  // ---------------------------------------------------------------------
  // The store

  class TimerStore {
    var isRunning: bool
    var timeLeft: int
    var currentRound: int
    var totalRounds: int
    var sessionType: SessionType
    var focusDuration: int
    var shortBreakDuration: int
    var longBreakDuration: int
    var sessionsBeforeLongBreak: int
    var sessionLogs: seq<SessionLog>

    function State(): TimerState
      reads this
    {
      TimerState(isRunning, timeLeft, currentRound, totalRounds, sessionType,
                 focusDuration, shortBreakDuration, longBreakDuration,
                 sessionsBeforeLongBreak, sessionLogs)
    }

    constructor ()
      ensures State() == Initial
    {
      isRunning, timeLeft, currentRound, totalRounds, sessionType := false, 25 * 60, 1, 8, Focus;
      focusDuration, shortBreakDuration, longBreakDuration := 25 * 60, 5 * 60, 15 * 60;
      sessionsBeforeLongBreak, sessionLogs := 4, [];
    }

    method StartTimer()
      modifies this
      ensures State() == Apply(old(State()), Start)
    {
      isRunning := true;
    }

    method PauseTimer()
      modifies this
      ensures State() == Apply(old(State()), Pause)
    {
      isRunning := false;
    }

    method ToggleTimer()
      modifies this
      ensures State() == Apply(old(State()), Toggle)
    {
      isRunning := !isRunning;
    }

    method Tick()
      modifies this
      ensures State() == Ticked(old(State()))
    {
      if timeLeft > 0 {
        timeLeft := timeLeft - 1;
      }
    }

    /** `currentSessionDuration()`. */
    function CurrentSessionDuration(): (r: int)
      reads this
      ensures r == DurationOf(State(), sessionType)
    {
      if sessionType == Focus then focusDuration
      else if sessionType == ShortBreak then shortBreakDuration
      else longBreakDuration
    }

    method LogSession(entry: SessionLog, now: nat)
      modifies this
      ensures State() == Logged(old(State()), entry, now)
    {
      sessionLogs := [entry.(id := NatToDecimal(now))] + sessionLogs;
    }

    method CompleteSession(now: nat)
      modifies this
      ensures State() == CompletedSession(old(State()), now)
    {
      var round, total, kind := currentRound, totalRounds, sessionType;
      var isLastRound := round >= total;
      var isFocusSession := kind == Focus;
      var duration := CurrentSessionDuration();
      LogSession(SessionLog("", kind, now - duration * 1000, now, duration, true), now);
      if isLastRound && isFocusSession {
        isRunning, currentRound, sessionType, timeLeft := false, 1, Focus, focusDuration;
      } else if isFocusSession {
        var nextBreak := if sessionsBeforeLongBreak != 0 && round % sessionsBeforeLongBreak == 0
                         then LongBreak else ShortBreak;
        var breakDuration := if nextBreak == LongBreak then longBreakDuration else shortBreakDuration;
        currentRound, sessionType, timeLeft := round + 1, nextBreak, breakDuration;
      } else {
        currentRound, sessionType, timeLeft := round + 1, Focus, focusDuration;
      }
    }

    method ResetTimer()
      modifies this
      ensures State() == Reset(old(State()))
    {
      timeLeft := CurrentSessionDuration();
      isRunning := false;
    }

    method NextSession()
      modifies this
      ensures State() == Skipped(old(State()))
    {
      var isFocusSession := sessionType == Focus;
      var isLastRound := currentRound >= totalRounds;
      if isLastRound && isFocusSession {
        currentRound, sessionType, timeLeft, isRunning := 1, Focus, focusDuration, false;
      } else if isFocusSession {
        currentRound, sessionType, timeLeft, isRunning := currentRound + 1, ShortBreak, shortBreakDuration, false;
      } else {
        sessionType, timeLeft, isRunning := Focus, focusDuration, false;
      }
    }

    method SetFocusDuration(minutes: int)
      modifies this
      ensures State() == Reconfigured(old(State()), Focus, minutes)
    {
      timeLeft := if sessionType == Focus then minutes * 60 else timeLeft;
      focusDuration := minutes * 60;
    }

    method SetShortBreakDuration(minutes: int)
      modifies this
      ensures State() == Reconfigured(old(State()), ShortBreak, minutes)
    {
      timeLeft := if sessionType == ShortBreak then minutes * 60 else timeLeft;
      shortBreakDuration := minutes * 60;
    }

    method SetLongBreakDuration(minutes: int)
      modifies this
      ensures State() == Reconfigured(old(State()), LongBreak, minutes)
    {
      timeLeft := if sessionType == LongBreak then minutes * 60 else timeLeft;
      longBreakDuration := minutes * 60;
    }

    /** No validation: any count is stored as given. */
    method SetSessionsBeforeLongBreak(count: int)
      modifies this
      ensures State() == Apply(old(State()), SetCadence(count))
    {
      sessionsBeforeLongBreak := count;
    }

    method ClearSessionLogs()
      modifies this
      ensures State() == Apply(old(State()), ClearLogs)
    {
      sessionLogs := [];
    }

    /** `getRecentSessions(limit)`: `sessionLogs.slice(0, limit)`, the most
      recent entries first. */
    function GetRecentSessions(limit: int): (r: seq<SessionLog>)
      reads this
      ensures r <= sessionLogs
      ensures limit >= 0 ==> |r| == if limit < |sessionLogs| then limit else |sessionLogs|
      ensures limit < 0 ==> |r| == if |sessionLogs| + limit > 0 then |sessionLogs| + limit else 0
    {
      Slice(sessionLogs, 0, limit)
    }

    /** `formatTime(seconds?)`: formats `seconds`, or the countdown when
      no argument is given. */
    function FormatTime(seconds: Option<int>): (r: string)
      reads this
      ensures r == FormatSeconds(seconds.GetOr(timeLeft))
      ensures seconds.None? && 0 <= timeLeft < 6000 ==> ShowsSeconds(r, timeLeft)
    {
      var t := seconds.GetOr(timeLeft);
      if 0 <= t < 6000 then
        FormatRoundTrip(t);
        FormatSeconds(t)
      else
        FormatSeconds(t)
    }
  }
}
