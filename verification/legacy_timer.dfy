/** The older timer store of the first app version: durations in minutes
    and a cyclic session counter that decides when a long break comes. */
module LegacyTimer {
  import opened Timer

  datatype LegacyTimerState = LegacyTimerState(
    isRunning: bool,
    timeLeft: int,
    sessionType: SessionType,
    sessionCount: int,
    focusDuration: int,
    shortBreakDuration: int,
    longBreakDuration: int,
    sessionsBeforeLongBreak: int)

  const Defaults := LegacyTimerState(false, 25 * 60, Focus, 0, 25, 5, 15, 4)

  /** The states the store can be in: the counter is never negative and the
      cycle length `sessionsBeforeLongBreak + 1` is not zero. */
  ghost predicate Valid(s: LegacyTimerState)
  {
    s.sessionCount >= 0 && s.sessionsBeforeLongBreak != -1
  }

  /** Configured minutes of a session type. */
  function MinutesOf(s: LegacyTimerState, t: SessionType): int
  {
    match t
    case Focus => s.focusDuration
    case ShortBreak => s.shortBreakDuration
    case LongBreak => s.longBreakDuration
  }

  /** `resetTimer`: the full time of the current type; the running flag,
      type and counter are kept. */
  function Rewound(s: LegacyTimerState): (r: LegacyTimerState)
    ensures r.timeLeft == MinutesOf(s, s.sessionType) * 60
    ensures r.isRunning == s.isRunning && r.sessionType == s.sessionType && r.sessionCount == s.sessionCount
    ensures r == s.(timeLeft := r.timeLeft)
  {
    s.(timeLeft := MinutesOf(s, s.sessionType) * 60)
  }

  /** `nextSession`: the counter advances cyclically; wrapping to 0 from a
      positive count gives a long break, otherwise focus and breaks
      alternate. The timer stops on the new type's full time. With a
      non-negative setting the counter stays within `0..setting`. The
      remainder is taken of non-negative numbers, where JavaScript's `%`
      agrees with Dafny's (for a negative divisor both give the remainder
      modulo its absolute value). */
  function Advanced(s: LegacyTimerState): (r: LegacyTimerState)
    requires Valid(s)
    ensures Valid(r)
    ensures r.sessionCount == (s.sessionCount + 1) % (s.sessionsBeforeLongBreak + 1)
    ensures s.sessionsBeforeLongBreak >= 0 ==> r.sessionCount <= s.sessionsBeforeLongBreak
    ensures r.sessionType == LongBreak <==> r.sessionCount == 0 && s.sessionCount > 0
    ensures r.sessionType != LongBreak ==>
      r.sessionType == if s.sessionType == Focus then ShortBreak else Focus
    ensures r.timeLeft == MinutesOf(s, r.sessionType) * 60 && !r.isRunning
    ensures r.sessionsBeforeLongBreak == s.sessionsBeforeLongBreak
    ensures r.focusDuration == s.focusDuration && r.shortBreakDuration == s.shortBreakDuration
    ensures r.longBreakDuration == s.longBreakDuration
  {
    var count := (s.sessionCount + 1) % (s.sessionsBeforeLongBreak + 1);
    var isLong := count == 0 && s.sessionCount > 0;
    var next := if isLong then LongBreak else if s.sessionType == Focus then ShortBreak else Focus;
    s.(sessionCount := count, sessionType := next, timeLeft := MinutesOf(s, next) * 60, isRunning := false)
  }

  /** `k` calls of `nextSession`. */
  function Iterate(s: LegacyTimerState, k: nat): (r: LegacyTimerState)
    requires Valid(s)
    ensures Valid(r) && r.sessionsBeforeLongBreak == s.sessionsBeforeLongBreak
  {
    if k == 0 then s else Advanced(Iterate(s, k - 1))
  }

  /** Below the setting, `nextSession` counts up by one and gives no long
      break. */
  lemma AdvanceBelowSetting(p: LegacyTimerState)
    requires Valid(p) && p.sessionCount < p.sessionsBeforeLongBreak
    ensures Advanced(p).sessionCount == p.sessionCount + 1
    ensures Advanced(p).sessionType != LongBreak
  {
    var m := p.sessionsBeforeLongBreak + 1;
    assert (p.sessionCount + 1) % m == p.sessionCount + 1 by {
      assert 0 <= p.sessionCount + 1 < m;
    }
  }

  /** From a zero counter, the first `n` calls count 1..n with no long break. */
  lemma {:induction false} CountsUp(s: LegacyTimerState, k: nat)
    requires Valid(s) && s.sessionCount == 0
    requires 1 <= k <= s.sessionsBeforeLongBreak
    ensures Iterate(s, k).sessionCount == k && Iterate(s, k).sessionType != LongBreak
  {
    var prev := Iterate(s, k - 1);
    if k > 1 {
      CountsUp(s, k - 1);
    }
    assert prev.sessionCount == k - 1 && prev.sessionsBeforeLongBreak == s.sessionsBeforeLongBreak;
    AdvanceBelowSetting(prev);
    assert Iterate(s, k) == Advanced(prev);
  }

  /** From a zero counter and a setting n >= 1, the long break comes on call
      n + 1 and the counter is back at 0. */
  lemma LongBreakCycle(s: LegacyTimerState)
    requires Valid(s) && s.sessionCount == 0 && s.sessionsBeforeLongBreak >= 1
    ensures forall k :: 1 <= k <= s.sessionsBeforeLongBreak ==> Iterate(s, k).sessionType != LongBreak
    ensures Iterate(s, s.sessionsBeforeLongBreak + 1).sessionType == LongBreak
    ensures Iterate(s, s.sessionsBeforeLongBreak + 1).sessionCount == 0
  {
    forall k | 1 <= k <= s.sessionsBeforeLongBreak
      ensures Iterate(s, k).sessionType != LongBreak
    {
      CountsUp(s, k);
    }
    var n := s.sessionsBeforeLongBreak;
    CountsUp(s, n);
    var last := Iterate(s, n);
    assert Iterate(s, n + 1) == Advanced(last);
    assert (last.sessionCount + 1) % (n + 1) == 0;
  }

  /** The default setting of 4 gives a long break on the fifth call. */
  lemma DefaultCycle()
    ensures Iterate(Defaults, 5).sessionType == LongBreak
    ensures forall k :: 1 <= k <= 4 ==> Iterate(Defaults, k).sessionType != LongBreak
  {
    LongBreakCycle(Defaults);
  }

  /** `toggleTimer`: only the running flag flips. */
  function Toggled(s: LegacyTimerState): (r: LegacyTimerState)
    ensures r.isRunning == !s.isRunning
    ensures r == s.(isRunning := r.isRunning)
  {
    s.(isRunning := !s.isRunning)
  }

  /** Toggling twice restores the state. */
  lemma ToggleTwice(s: LegacyTimerState)
    ensures Toggled(Toggled(s)) == s
  {
  }

  /** `set*Duration`: the minutes are stored; the remaining time follows
      only when the changed type is the current one. */
  function WithMinutes(s: LegacyTimerState, t: SessionType, minutes: int): (r: LegacyTimerState)
    ensures MinutesOf(r, t) == minutes
    ensures forall u :: u != t ==> MinutesOf(r, u) == MinutesOf(s, u)
    ensures r.timeLeft == if s.sessionType == t then minutes * 60 else s.timeLeft
    ensures r.isRunning == s.isRunning && r.sessionType == s.sessionType && r.sessionCount == s.sessionCount
    ensures r.sessionsBeforeLongBreak == s.sessionsBeforeLongBreak
  {
    var timeLeft := if s.sessionType == t then minutes * 60 else s.timeLeft;
    match t
    case Focus => s.(focusDuration := minutes, timeLeft := timeLeft)
    case ShortBreak => s.(shortBreakDuration := minutes, timeLeft := timeLeft)
    case LongBreak => s.(longBreakDuration := minutes, timeLeft := timeLeft)
  }

  class LegacyTimerStore {
    var isRunning: bool
    var timeLeft: int
    var sessionType: SessionType
    var sessionCount: int
    var focusDuration: int
    var shortBreakDuration: int
    var longBreakDuration: int
    var sessionsBeforeLongBreak: int

    function State(): LegacyTimerState
      reads this
    {
      LegacyTimerState(isRunning, timeLeft, sessionType, sessionCount, focusDuration,
                       shortBreakDuration, longBreakDuration, sessionsBeforeLongBreak)
    }

    constructor ()
      ensures State() == Defaults
    {
      isRunning, timeLeft, sessionType, sessionCount := false, 25 * 60, Focus, 0;
      focusDuration, shortBreakDuration, longBreakDuration := 25, 5, 15;
      sessionsBeforeLongBreak := 4;
    }

    method StartTimer()
      modifies this
      ensures State() == old(State()).(isRunning := true)
    {
      isRunning := true;
    }

    method PauseTimer()
      modifies this
      ensures State() == old(State()).(isRunning := false)
    {
      isRunning := false;
    }

    method ToggleTimer()
      modifies this
      ensures State() == Toggled(old(State()))
    {
      isRunning := !isRunning;
    }

    method ResetTimer()
      modifies this
      ensures State() == Rewound(old(State()))
    {
      var minutes := if sessionType == Focus then focusDuration
        else if sessionType == ShortBreak then shortBreakDuration
        else longBreakDuration;
      timeLeft := minutes * 60;
    }

    method NextSession()
      requires Valid(State())
      modifies this
      ensures State() == Advanced(old(State()))
    {
      var next := (sessionCount + 1) % (sessionsBeforeLongBreak + 1);
      var isLong := next == 0 && sessionCount > 0;
      if isLong {
        sessionType, timeLeft := LongBreak, longBreakDuration * 60;
      } else if sessionType == Focus {
        sessionType, timeLeft := ShortBreak, shortBreakDuration * 60;
      } else {
        sessionType, timeLeft := Focus, focusDuration * 60;
      }
      sessionCount, isRunning := next, false;
    }

    method SetFocusDuration(minutes: int)
      modifies this
      ensures State() == WithMinutes(old(State()), Focus, minutes)
    {
      timeLeft := if sessionType == Focus then minutes * 60 else timeLeft;
      focusDuration := minutes;
    }

    method SetShortBreakDuration(minutes: int)
      modifies this
      ensures State() == WithMinutes(old(State()), ShortBreak, minutes)
    {
      timeLeft := if sessionType == ShortBreak then minutes * 60 else timeLeft;
      shortBreakDuration := minutes;
    }

    method SetLongBreakDuration(minutes: int)
      modifies this
      ensures State() == WithMinutes(old(State()), LongBreak, minutes)
    {
      timeLeft := if sessionType == LongBreak then minutes * 60 else timeLeft;
      longBreakDuration := minutes;
    }

    method SetSessionsBeforeLongBreak(count: int)
      requires count != -1
      modifies this
      ensures State() == old(State()).(sessionsBeforeLongBreak := count)
    {
      sessionsBeforeLongBreak := count;
    }
  }
}
