# Focys client state, modelled in Dafny

Focys is a Pomodoro focus app with a progression layer. Its client state
lives in Zustand stores:

- a timer store (countdown, rounds, focus / short-break / long-break cycle,
  session log);
- a gamification store (an exponential XP curve, achievements unlocked by
  rules over session statistics, crystals);
- a session list store (the session in progress, finished sessions with
  tags, notes and a storage receipt);
- a user store with a linear level rule, a calendar-day streak, crystal and
  achievement unlocks;
- a wallet store holding a table of user profiles keyed by wallet address.

A session-persistence service adds time totals, a day-streak count, the
summary record written on save, and the validation filter applied to
imported JSON. An older copy of the app (`focys/`) has its own user and
timer stores.

Each store is a Dafny `class` with the store's fields. Each action is a
method that changes those fields, with a `modifies` clause, and its
`ensures` ties the new state (`State()`) to a pure function of the old
state. The properties the app relies on are proved about those functions:
contracts, invariants that whole action sequences keep, round trips and
idempotence. The clock (`Date.now()`), "today" as a day number, random ids,
remote profiles and upload receipts are parameters.

| file | module | source |
|---|---|---|
| `wrappers.dfy` | `Wrappers` | `Option`, standing for `T \| null` and `undefined` |
| `lists.dfy` | `Lists` | `[...new Set(xs)]`, `filter(x => x !== y)` |
| `text.dfy` | `Text` | `toString`, `padStart`, `slice`, `toLowerCase`, JavaScript `%` |
| `timer.dfy` | `Timer` | `src/stores/useTimerStore.ts` |
| `leveling.dfy` | `Leveling` | XP curve of `src/stores/useGamificationStore.ts` |
| `gamification.dfy` | `Gamification` | `src/stores/useGamificationStore.ts` |
| `persistence.dfy` | `SessionPersistence` | `src/utils/sessionPersistence.ts` |
| `session_store.dfy` | `SessionList` | `src/stores/useSessionStore.ts` |
| `user_store.dfy` | `UserProgress` | `src/stores/useUserStore.ts`, `focys/src/stores/useUserStore.ts` |
| `legacy_timer.dfy` | `LegacyTimer` | `focys/src/stores/useTimerStore.ts` |
| `wallet.dfy` | `Wallet` | `src/stores/useWalletStore.ts` |

The two user stores share one model. The older store's actions are the
newer store's local assignments without the remote writes, so
`UserProgress.UserStore` stands for both. Its rows below cite both files.

## Behaviour of the code as written

The model follows the code. Where the code does something its comments or
its names suggest it should not, the model keeps the code's behaviour and a
lemma states the consequence.

- **Timer: no long break with the default cadence.** `completeSession`
  advances `currentRound` on every transition, breaks included, and
  chooses a long break when `currentRound % sessionsBeforeLongBreak == 0`.
  When rounds advance only through `completeSession`, a focus session
  therefore always sits on an odd round. Then, with an even cadence,
  including the default of 4, the long break is never reached
  (`Timer.NoLongBreakWithEvenCadence`, `Timer.InitialNeverReachesLongBreak`).
  With an odd cadence it is reached (`Timer.OddCadenceReachesLongBreak`).
- **Timer: cadence is not validated.** `setSessionsBeforeLongBreak` stores
  any count. A cadence of 0 makes `x % 0` NaN, which is never `=== 0`, so
  every break is short. The model keeps this case, with no precondition
  (`Timer.IsLongBreakRound`).
- **Gamification: progress rewritten from a snapshot.** `checkAchievements`
  rewrites the achievement list from the array it read on entry in every
  iteration. Progress values and unlock times written by earlier
  iterations are lost. Only the last still-locked entry keeps its progress
  (`Gamification.OnlyLastPendingUpdated`). After the very first session,
  "first-session" is unlocked, but its entry keeps progress 0 and no unlock
  time (`Gamification.FirstSessionStampLost`). The unlocked ids and the XP
  are still right (`Gamification.CheckPrefixUnlocks`,
  `Gamification.CheckPrefixXp`).
- **Gamification: initial `xpToNextLevel`.** The initial value is 100.
  `addXp` sets it to the cost of the level after the next, which is
  `calculateXpForLevel(level + 1)`. So the first `addXp` changes it to 150
  even when no level is gained.
- **Session persistence: the streak count.** `calculateStreakDays` compares
  each gap with the running streak, not with the previous day. So sessions
  today, yesterday and three days ago count 3
  (`SessionPersistence.GapMatchingStreakCounts`).
- **Session persistence: what the import filter checks.** The filter only
  checks that `type` is truthy, not that it names a session type. A `null`
  entry makes the filter throw, so the whole import fails.
- **Wallet: `createProfile` does not deduplicate.** `createProfile`
  appends without a lookup and can enter an address twice
  (`Wallet.CreateAllowsDuplicates`). Only `setConnection`'s
  case-insensitive lookup keeps the table unique
  (`Wallet.ConnectKeepsTableValid`).

## Model

| member | source | states |
|---|---|---|
| Text.NatToDecimal | src/stores/useTimerStore.ts:228 | `Date.now().toString()` renders a non-negative number as a non-empty string of decimal digits, one digit exactly below 10 |
| Text.DecimalRoundTrip | src/stores/useTimerStore.ts:228 | reading the decimal rendering back gives the number |
| Text.PadStart2 | src/stores/useTimerStore.ts:135 | `padStart(2, '0')`: length is max(2, input length), the input is a suffix preceded only by `'0'` characters, strings of length 2 or more are unchanged |
| Text.JsRem | src/stores/useTimerStore.ts:134 | JavaScript `%` by a positive divisor: the mathematical remainder on non-negative dividends; on negative ones the negated remainder of the absolute value, so the sign follows the dividend and the result lies in (-b, 0] |
| Text.SliceIndex | src/stores/useWalletStore.ts:39 | how `slice` reads a bound: within [0, length] as is, past the length as the length, a negative bound counted from the end and clamped at 0 |
| Text.Slice | src/stores/useWalletStore.ts:39 | `slice(start, end)`: the elements from the clamped start up to the clamped end, in order, and empty when the clamped end is not past the clamped start; within bounds the plain subsequence |
| Text.LowerChar | src/stores/useWalletStore.ts:35 | an ASCII capital becomes its small letter, every other character is kept, and no capital is left |
| Text.Lower | src/stores/useWalletStore.ts:35 | `toLowerCase` maps each character and keeps the length |
| Text.LowerIdempotent | src/stores/useWalletStore.ts:55 | lower-casing twice equals lower-casing once, so stored lower-case addresses compare equal to their queries |
| Lists.Dedup | src/stores/useUserStore.ts:163 | `[...new Set(xs)]`: no duplicates, the same members, never longer |
| Lists.DedupSnoc | src/stores/useUserStore.ts:163 | deduplicating `xs + [x]` keeps the deduplicated `xs` and appends `x` exactly when it is new |
| Lists.DedupOfNoDup | src/stores/useUserStore.ts:163 | a duplicate-free list is left unchanged |
| Lists.DedupPrefix | src/stores/useUserStore.ts:163 | first-occurrence order: deduplicating a prefix gives a prefix of the whole result |
| Lists.AddUniqueIdempotent | src/stores/useSessionStore.ts:151 | after adding `x` the list holds `x` once, and adding it again changes nothing |
| Lists.Remove | src/stores/useSessionStore.ts:161 | `filter(t => t !== x)`: `x` is gone and exactly the other members remain |
| Lists.RemoveAppend | src/stores/useSessionStore.ts:161 | removing distributes over concatenation, so the remaining elements keep their order |
| Timer.TimerStore.constructor | src/stores/useTimerStore.ts:62-71 | the initial state: stopped, 25 minutes left, round 1 of 8, focus, durations 25/5/15 minutes in seconds, cadence 4, empty log |
| Timer.TimerStore.StartTimer | src/stores/useTimerStore.ts:74 | only `isRunning` changes, to true |
| Timer.TimerStore.PauseTimer | src/stores/useTimerStore.ts:75 | only `isRunning` changes, to false |
| Timer.TimerStore.ToggleTimer | src/stores/useTimerStore.ts:76 | only `isRunning` changes, to its negation |
| Timer.Ticked | src/stores/useTimerStore.ts:78-83 | one second less when positive, unchanged otherwise; no other field changes and `isRunning` is not consulted |
| Timer.TimerStore.Tick | src/stores/useTimerStore.ts:78-83 | the new state is `Ticked` of the old one |
| Timer.TicksCountDown | src/stores/useTimerStore.ts:78-83 | n ticks from a non-negative countdown leave max(0, timeLeft - n) and change nothing else |
| Timer.Logged | src/stores/useTimerStore.ts:225-233 | `logSession` prepends exactly one entry, whose id is the decimal time stamp; older entries follow in order; nothing else changes |
| Timer.TimerStore.LogSession | src/stores/useTimerStore.ts:225-233 | the new state is `Logged` of the old one |
| Timer.TimerStore.CurrentSessionDuration | src/stores/useTimerStore.ts:182-189 | the configured duration of the active session type |
| Timer.CompletedSession | src/stores/useTimerStore.ts:85-128 | one log entry prepended (pre-call type, that type's duration, completed, ends now, `endTime - startTime = 1000 * duration`). Last focus round: stop, round 1, focus. Other focus: round + 1, running flag kept, a break, long exactly when `round % cadence == 0` with a non-zero cadence. Break: focus, round + 1. Settings kept, countdown full |
| Timer.TimerStore.CompleteSession | src/stores/useTimerStore.ts:85-128 | the new state is `CompletedSession` of the old one |
| Timer.Skipped | src/stores/useTimerStore.ts:150-179 | `nextSession` keeps the log, stops the timer, never gives a long break. From a break: focus, same round. Last focus round: round 1. Other focus: short break, round + 1. Countdown full |
| Timer.TimerStore.NextSession | src/stores/useTimerStore.ts:150-179 | the new state is `Skipped` of the old one |
| Timer.Reset | src/stores/useTimerStore.ts:138-148 | countdown refilled to the active type's duration, timer stopped, type and round kept, nothing else changes |
| Timer.TimerStore.ResetTimer | src/stores/useTimerStore.ts:138-148 | the new state is `Reset` of the old one |
| Timer.Reconfigured | src/stores/useTimerStore.ts:205-218 | `minutes * 60` stored for one type, other durations kept, countdown follows only when that type is active, all else unchanged |
| Timer.TimerStore.SetFocusDuration | src/stores/useTimerStore.ts:205-208 | the new state is `Reconfigured` for focus |
| Timer.TimerStore.SetShortBreakDuration | src/stores/useTimerStore.ts:210-213 | the new state is `Reconfigured` for short breaks |
| Timer.TimerStore.SetLongBreakDuration | src/stores/useTimerStore.ts:215-218 | the new state is `Reconfigured` for long breaks |
| Timer.TimerStore.SetSessionsBeforeLongBreak | src/stores/useTimerStore.ts:220-222 | any count is stored, with no validation; nothing else changes |
| Timer.TimerStore.ClearSessionLogs | src/stores/useTimerStore.ts:239-241 | the log is emptied, nothing else changes |
| Timer.TimerStore.GetRecentSessions | src/stores/useTimerStore.ts:235-237 | `slice(0, limit)`: a prefix of the log (most recent first) of length min(limit, size), or size + limit for a negative limit |
| Timer.FormatRoundTrip | src/stores/useTimerStore.ts:131-136 | below 6000 seconds, `formatTime` gives five characters `MM:SS` whose digits read back as the number of seconds |
| Timer.TimerStore.FormatTime | src/stores/useTimerStore.ts:131-136 | formats the argument or, when absent, the countdown; the countdown below 6000 is shown as `MM:SS` reading back to it |
| Timer.SaneRun | src/stores/useTimerStore.ts:74-241 | any sequence of actions with non-negative duration settings keeps the countdown within [0, active duration] and the round at 1 or more |
| Timer.NoLongBreakWithEvenCadence | src/stores/useTimerStore.ts:109-128 | from a state where focus sits on odd rounds, with an even cadence and no manual skip or cadence change, focus stays on odd rounds and no long break occurs |
| Timer.InitialNeverReachesLongBreak | src/stores/useTimerStore.ts:62-71 | from the initial state (cadence 4), no such action sequence reaches a long break |
| Timer.OddCadenceReachesLongBreak | src/stores/useTimerStore.ts:109-120 | with cadence 3, three completions from the initial state end on a long break |
| Leveling.XpForLevel | src/stores/useGamificationStore.ts:66-68 | `floor(100 * 1.5^(L-1))` computed exactly as `100 * 3^(L-1) / 2^(L-1)`; never below 100 |
| Leveling.XpForLevelFirstValues | src/stores/useGamificationStore.ts:66-68 | the curve starts 100, 150, 225, 337 |
| Leveling.Cumulative | src/stores/useGamificationStore.ts:74-79 | XP needed in total to reach level n + 1 is at least 100 n |
| Leveling.CumulativeMonotone | src/stores/useGamificationStore.ts:74-79 | the cumulative thresholds never decrease |
| Leveling.LevelOf | src/stores/useGamificationStore.ts:70-82 | the level of an XP total: at least 1, its threshold reached and the next one not |
| Leveling.LevelUnique | src/stores/useGamificationStore.ts:70-82 | only one level fits a given XP total |
| Leveling.LevelMonotone | src/stores/useGamificationStore.ts:70-82 | more XP never gives a lower level |
| Leveling.LevelExamples | src/stores/useGamificationStore.ts:70-82 | 0 and 99 XP are level 1, 100 and 249 level 2, 250 level 3 |
| Leveling.CalculateLevelFromXp | src/stores/useGamificationStore.ts:70-82 | the loop terminates and returns exactly `LevelOf(totalXp)` |
| Gamification.InitialIsConsistent | src/stores/useGamificationStore.ts:166-176 | the initial store is at the level its XP calls for, with no duplicate unlocks and distinct achievement ids |
| Gamification.WithXp | src/stores/useGamificationStore.ts:179-189 | `addXp`: total grows by the amount, level is the curve's level for the total, `xpToNextLevel` is the cost of level + 1, achievements and statistics untouched |
| Gamification.GamificationStore.AddXp | src/stores/useGamificationStore.ts:179-197 | the new state is `WithXp` of the old one |
| Gamification.XpScenario | src/stores/useGamificationStore.ts:179-189 | from zero, adding 100, 149 and 1 XP gives levels 2, 2, 3 |
| Gamification.FindAchievement | src/stores/useGamificationStore.ts:203 | `find` by id: the first index holding the id, or none when no entry has it |
| Gamification.WithUnlocked | src/stores/useGamificationStore.ts:199-219 | no-op for an unlocked or unknown id; otherwise the id is added to the unlocked list, every entry with it is stamped with the time, XP grows by its reward and the level follows; duplicate-freedom, rules and statistics kept |
| Gamification.StampedChangesOnlyTheStamp | src/stores/useGamificationStore.ts:207-211 | `achievements.map(...)` in `unlockAchievement`: same length, only `unlockedAt` may change, set to now exactly on the entries with the id |
| Gamification.WithProgressChangesOnlyProgress | src/stores/useGamificationStore.ts:256-263 | `achievements.map(...)` in `checkAchievements`: same length, only `progress` may change, set exactly on the entries with the id |
| Gamification.RuleProgress | src/stores/useGamificationStore.ts:233-253 | the progress switch: 1 or 0 for "first-session" by whether a session exists; for the others the statistic capped at 3, 7, 10, 50 or 600 minutes; 0 for an id without a rule |
| Gamification.UnlockIdempotent | src/stores/useGamificationStore.ts:202 | unlocking the same id a second time, at any time, changes nothing |
| Gamification.GamificationStore.UnlockAchievement | src/stores/useGamificationStore.ts:199-219 | the new state is `WithUnlocked` of the old one |
| Gamification.CheckStepKeeps | src/stores/useGamificationStore.ts:230-268 | one iteration keeps statistics, rules, duplicate-free unlocks and a level matching the XP |
| Gamification.CheckStepUnlocks | src/stores/useGamificationStore.ts:230-268 | one iteration unlocks its own entry's id exactly when the entry is locked in the snapshot and qualifies, and no other id |
| Gamification.CheckPrefixInvariant | src/stores/useGamificationStore.ts:221-270 | after any number of iterations: statistics and rules kept, unlocks duplicate-free, level matches XP, unlocked ids are the earlier ones plus the qualifying ids seen |
| Gamification.CheckPrefixKeeps | src/stores/useGamificationStore.ts:221-270 | the keeping half of the invariant, by induction over the iterations |
| Gamification.CheckPrefixUnlocks | src/stores/useGamificationStore.ts:221-270 | the unlocking half of the invariant, by induction over the iterations |
| Gamification.Checked | src/stores/useGamificationStore.ts:221-270 | `checkAchievements`: statistics and rules kept, duplicate-free unlocks stay so, the level stays right, and an id ends up unlocked exactly when it was unlocked or some entry with it qualifies |
| Gamification.GamificationStore.CheckAchievements | src/stores/useGamificationStore.ts:221-270 | the `forEach` loop, with the invariant that the state after i iterations is the i-step prefix; the final state is `Checked` of the old one |
| Gamification.QuietPass | src/stores/useGamificationStore.ts:230-268 | when nothing locked qualifies, a pass changes only the achievement entries: no unlock, no XP |
| Gamification.CheckIdempotent | src/stores/useGamificationStore.ts:221-270 | a second check unlocks nothing more and awards no more XP; only the achievement entries may differ |
| Gamification.LastPending | src/stores/useGamificationStore.ts:231 | the last entry among the first n that is still locked in the snapshot: it is locked and every later one among the first n is unlocked; none when all of them are unlocked |
| Gamification.OnlyLastPendingUpdated | src/stores/useGamificationStore.ts:256-263 | every entry whose id differs from the last locked entry's leaves the pass exactly as it was in the snapshot |
| Gamification.FirstSessionStampLost | src/stores/useGamificationStore.ts:256-263 | after one session from the initial state, "first-session" is unlocked but its entry keeps progress 0 and no unlock time |
| Gamification.NotYetUnlocked | src/stores/useGamificationStore.ts:231 | with distinct ids, an entry locked in the snapshot is still locked when its own iteration comes |
| Gamification.CheckStepXp | src/stores/useGamificationStore.ts:265-268 | one iteration adds its entry's reward exactly when the entry is locked and qualifies |
| Gamification.CheckPrefixXp | src/stores/useGamificationStore.ts:221-270 | with distinct ids, a pass adds exactly the rewards of the locked entries that qualify |
| Gamification.CheckedUnlocksEntry | src/stores/useGamificationStore.ts:221-270 | with distinct ids, an entry's id is unlocked after a check exactly when it was before or the entry qualifies |
| Gamification.DefaultIdsDistinct | src/stores/useGamificationStore.ts:85-146 | the six default achievements have distinct ids |
| Gamification.DefaultRulesDistinct | src/stores/useGamificationStore.ts:85-146 | any table with the default rules has distinct ids |
| Gamification.SessionThresholds | src/stores/useGamificationStore.ts:236-250 | with the default rules, "first-session", "sessions-10" and "sessions-50" are unlocked after a check exactly when they were or sessions reach 1, 10, 50 |
| Gamification.StreakAndTimeThresholds | src/stores/useGamificationStore.ts:239-253 | with the default rules, "streak-3", "streak-7" and "hours-10" are unlocked after a check exactly when they were or the streak reaches 3, 7 or the minutes 600 |
| Gamification.DefaultThresholds | src/stores/useGamificationStore.ts:230-268 | all six thresholds of the default table, each in both directions |
| Gamification.Counted | src/stores/useGamificationStore.ts:283-300 | one more session, the minutes added; on a new day one more streak day and the longest streak `Math.max(longest, new streak)`, otherwise both kept; nothing else changes |
| Gamification.WithSessionStats | src/stores/useGamificationStore.ts:282-311 | `updateSessionStats`: the counter updates of `Counted`, including the longest streak, then XP, then a check; the level matches the XP and no unlock is lost |
| Gamification.SessionAward | src/stores/useGamificationStore.ts:302-304 | two XP per minute, plus five per streak day as it stood before the session when that streak is positive |
| Gamification.SessionStatsXp | src/stores/useGamificationStore.ts:282-311 | with distinct ids, the XP grows by exactly the session award, computed from the streak read before the increment, plus the rewards of the achievements the following check unlocks |
| Gamification.GamificationStore.UpdateSessionStats | src/stores/useGamificationStore.ts:282-311 | the new state is `WithSessionStats` of the old one |
| Gamification.FirstSessionReward | src/stores/useGamificationStore.ts:85-146 | with the default table, nothing unlocked and one 25-minute session on day one, the rewards still to collect total 50 XP: "first-session" alone |
| Gamification.FirstFocusSession | src/stores/useGamificationStore.ts:282-311 | a first 25-minute session from the fresh store: 50 XP for the session plus 50 for "first-session" make 100 XP, level 2, streak 1, "streak-3" still locked |
| Gamification.GamificationStore.AddCrystal | src/stores/useGamificationStore.ts:272-276 | the crystal is appended, nothing else changes |
| Gamification.GamificationStore.SetActiveCrystal | src/stores/useGamificationStore.ts:278-280 | only the active crystal changes |
| Gamification.GamificationStore.GetNextLevelXp | src/stores/useGamificationStore.ts:324 | `calculateXpForLevel(level + 1)`, the cost of the level after the next, so never below 100 |
| Gamification.UnlockedOnes | src/stores/useGamificationStore.ts:326-329 | the entries whose id is unlocked, and all of them |
| Gamification.PendingOnes | src/stores/useGamificationStore.ts:331-334 | the entries whose id is not unlocked, and all of them |
| Gamification.GettersPartition | src/stores/useGamificationStore.ts:326-334 | the two getters together hold every achievement exactly as often as the list does |
| Gamification.GamificationStore.GetUnlockedAchievements | src/stores/useGamificationStore.ts:326-329 | an achievement is returned exactly when it is in the list and its id is unlocked |
| Gamification.GamificationStore.GetPendingAchievements | src/stores/useGamificationStore.ts:331-334 | an achievement is returned exactly when it is in the list and its id is not unlocked |
| SessionPersistence.KeepValid | src/utils/sessionPersistence.ts:121-128 | exactly the entries passing the filter (truthy id and type, numeric times and duration, boolean completed) |
| SessionPersistence.FilterAcceptsAnyTruthyType | src/utils/sessionPersistence.ts:121-128 | the filter accepts an entry whose `type` names no session kind, and refuses the same entry with an empty `type` |
| SessionPersistence.KeepValidAppend | src/utils/sessionPersistence.ts:121-128 | filtering distributes over concatenation, so kept entries keep their order |
| SessionPersistence.KeepValidAllValid | src/utils/sessionPersistence.ts:121-128 | a list of valid entries passes unchanged |
| SessionPersistence.ImportSessions | src/utils/sessionPersistence.ts:111-136 | fails exactly when `sessions` is missing, not an array, or holds `null`, or when the first kept entry's `endTime` is not a valid date (saving it throws); otherwise the filtered entries |
| SessionPersistence.ImportChecksFirstDateOnly | src/utils/sessionPersistence.ts:26 | an import whose first entry ends past the Date range fails, while one whose later entry does is accepted |
| SessionPersistence.ImportRefusesMalformed | src/utils/sessionPersistence.ts:116-118 | a missing or non-array `sessions` is refused |
| SessionPersistence.FromJson | src/stores/useTimerStore.ts:4-11 | reading a stored entry back succeeds only on entries the import filter accepts, or with an empty id |
| SessionPersistence.JsonRoundTrip | src/stores/useTimerStore.ts:4-11 | a log entry read back from its stored object is the same entry |
| SessionPersistence.StoredEntryValid | src/utils/sessionPersistence.ts:121-128 | a stored entry passes the import filter exactly when its id is not empty |
| SessionPersistence.Encoded | src/utils/sessionPersistence.ts:95-97 | the stored objects of the log, one per entry, in order |
| SessionPersistence.ExportedSessionsField | src/utils/sessionPersistence.ts:95-101 | the export object's `sessions` are the loaded sessions, whatever the stored statistics hold |
| SessionPersistence.ExportImportRoundTrip | src/utils/sessionPersistence.ts:95-128 | importing an export whose entries have ids gives exactly the exported entries back, in order, unless the first entry's end time is not a valid date, when the import fails |
| SessionPersistence.TotalTime | src/utils/sessionPersistence.ts:151-156 | the summed durations of completed sessions of the given types; 0 on an empty list |
| SessionPersistence.TotalTimeAppend | src/utils/sessionPersistence.ts:151-156 | the total over a concatenation is the sum of the totals |
| SessionPersistence.TotalTimeSplit | src/utils/sessionPersistence.ts:151-156 | totals over disjoint type sets add up to the total over their union |
| SessionPersistence.FocusDays | src/utils/sessionPersistence.ts:161-162 | a day number is collected exactly when some completed focus session with a valid end date ends on that day (an invalid date gives a NaN difference that the loop skips); never more entries than sessions |
| SessionPersistence.Day | src/utils/sessionPersistence.ts:172-175 | the day number of a time stamp: the whole number of 86400000 ms days at or below it |
| SessionPersistence.Insert | src/utils/sessionPersistence.ts:163 | inserting into a latest-first list keeps it latest first and adds exactly the element |
| SessionPersistence.SortDesc | src/utils/sessionPersistence.ts:163 | the `sort` by descending end time: latest first, a permutation of the days |
| SessionPersistence.DescendingUnique | src/utils/sessionPersistence.ts:163 | two latest-first orderings of the same days are equal, so any such sort gives the same scan |
| SessionPersistence.Scan | src/utils/sessionPersistence.ts:171-183 | the loop from a position: the streak only grows, by at most one per remaining day |
| SessionPersistence.StreakDays | src/utils/sessionPersistence.ts:158-186 | `calculateStreakDays`: at most the number of completed focus sessions |
| SessionPersistence.StreakDependsOnlyOnFocusDays | src/utils/sessionPersistence.ts:161-185 | lists with the same completed focus days give the same streak |
| SessionPersistence.StaleStreakIsZero | src/utils/sessionPersistence.ts:171-182 | no completed focus session today or later means a streak of 0 |
| SessionPersistence.GapMatchingStreakCounts | src/utils/sessionPersistence.ts:175-182 | today, yesterday and three days ago count 3, because the gap is compared with the running streak |
| SessionPersistence.CalculateStreakDays | src/utils/sessionPersistence.ts:158-186 | the loop with its early `break` returns exactly `StreakDays` |
| SessionPersistence.Summarize | src/utils/sessionPersistence.ts:20-27 | the saved record: the sessions and their count, the focus total and the break total (together the total over all types), `calculateStreakDays` for today's day number, the first entry's end time or now |
| SessionPersistence.SaveSessions | src/utils/sessionPersistence.ts:18-43 | `saveSessions` fails exactly when the first session's end time is not a valid date, since its ISO string throws; otherwise it stores the summary |
| SessionList.Started | src/stores/useSessionStore.ts:37-52 | a session in progress with the given id, time, type and tags, no end, zero duration and XP, empty notes; the list untouched |
| SessionList.SessionStore.StartSession | src/stores/useSessionStore.ts:37-52 | the new state is `Started` of the old one and the id is returned |
| SessionList.ElapsedMinutes | src/stores/useSessionStore.ts:59 | whole minutes rounded down: 60000 r <= end - start < 60000 (r + 1) |
| SessionList.SessionXp | src/stores/useSessionStore.ts:62-65 | 0 for breaks; for focus at least 10, exactly 10 below 7 minutes, otherwise floor(1.5 d) |
| SessionList.Completed | src/stores/useSessionStore.ts:58-72 | the finished session: id, start time, type, tags and receipt kept; ends now; the whole minutes elapsed; the notes; the XP `SessionXp` gives for its type and minutes |
| SessionList.WithTxId | src/stores/useSessionStore.ts:167-173 | only the sessions with the id get the receipt |
| SessionList.Ended | src/stores/useSessionStore.ts:54-108 | no session in progress changes nothing; otherwise the finished session goes in front with its id, type, start time and tags, end now, whole minutes, the notes and the XP of `SessionXp`, and none is in progress; without a receipt the older sessions follow unchanged, with one the finished session carries it and older sessions with the same id get it too |
| SessionList.SessionStore.EndCurrentSession | src/stores/useSessionStore.ts:54-130 | the new state is `Ended` of the old one; the calls on the user store are the four updates then the achievement unlocks, none without a session |
| SessionList.PerformAllAppend | src/stores/useSessionStore.ts:114-130 | performing two request lists in a row is performing their concatenation |
| SessionList.PerformUnlocks | src/stores/useSessionStore.ts:121-130 | unlock requests set exactly their keys to true and change nothing else |
| SessionList.EndUnlocks | src/stores/useSessionStore.ts:121-130 | the achievement keys unlocked after a session, each once: "first_session" exactly when no session was counted before, "five_sessions" exactly when four or more were, "hour_long_session" exactly when the session lasted 60 minutes or more |
| SessionList.BaseRequestsEffect | src/stores/useSessionStore.ts:115-119 | the four unconditional calls add one session and the minutes, set the last session day, and leave achievements alone |
| SessionList.EndRequestsEffect | src/stores/useSessionStore.ts:114-130 | after finishing a session: one more session, the minutes added, and "first_session", "five_sessions", "hour_long_session" set exactly when set before or the prior count is 0, the prior count is at least 4, the session lasted at least 60 minutes |
| SessionList.WithNotes | src/stores/useSessionStore.ts:133-139 | only the sessions with the id get the notes |
| SessionList.SessionStore.UpdateSessionNotes | src/stores/useSessionStore.ts:133-139 | the list becomes `WithNotes` of the old one, nothing else changes |
| SessionList.Deleted | src/stores/useSessionStore.ts:141-145 | the list never grows |
| SessionList.DeletedMembers | src/stores/useSessionStore.ts:141-145 | exactly the sessions with another id remain |
| SessionList.DeletedAppend | src/stores/useSessionStore.ts:141-145 | deletion distributes over concatenation, so the rest keep their order |
| SessionList.DeletedCons | src/stores/useSessionStore.ts:141-145 | deletion from a list with a first session keeps that session in front exactly when its id differs |
| SessionList.DeletedAbsent | src/stores/useSessionStore.ts:141-145 | deleting an id no session has changes nothing |
| SessionList.SessionStore.DeleteSession | src/stores/useSessionStore.ts:141-145 | the list becomes `Deleted` of the old one, nothing else changes |
| SessionList.WithTagAdded | src/stores/useSessionStore.ts:147-155 | target sessions hold the tag, without duplicates, and exactly their old tags plus it; other sessions untouched |
| SessionList.TagAddIdempotent | src/stores/useSessionStore.ts:147-155 | adding a tag twice equals adding it once |
| SessionList.SessionStore.AddSessionTag | src/stores/useSessionStore.ts:147-155 | the list becomes `WithTagAdded` of the old one |
| SessionList.WithTagRemoved | src/stores/useSessionStore.ts:157-165 | target sessions keep exactly their other tags; other sessions untouched |
| SessionList.SessionStore.RemoveSessionTag | src/stores/useSessionStore.ts:157-165 | the list becomes `WithTagRemoved` of the old one |
| SessionList.SessionStore.SetIrysTxId | src/stores/useSessionStore.ts:167-173 | the list becomes `WithTxId` of the old one |
| SessionList.SessionStore.ClearSessions | src/stores/useSessionStore.ts:175-177 | no sessions and none in progress |
| SessionList.SessionStore.constructor | src/stores/useSessionStore.ts:34-35 | no sessions and none in progress |
| UserProgress.WithXp | src/stores/useUserStore.ts:113-129 | reaching `level * 100` gives exactly one more level and keeps the excess; otherwise the XP just grows; nothing else changes |
| UserProgress.OneLevelPerCall | focys/src/stores/useUserStore.ts:56-69 | 1000 XP at level 1 gives level 2 with 900 XP: at most one level per call |
| UserProgress.LevelUpKeepsXpNonNegative | focys/src/stores/useUserStore.ts:56-69 | non-negative XP and awards and a positive level stay so |
| UserProgress.StreakAfter | src/stores/useUserStore.ts:144-160 | same day: no change; otherwise the day is recorded and the streak is one more after yesterday, else 1 |
| UserProgress.StreakSameDayIdempotent | focys/src/stores/useUserStore.ts:79-93 | two updates on the same day equal one |
| UserProgress.ConsecutiveDaysStreak | focys/src/stores/useUserStore.ts:79-93 | sessions on n consecutive days after a gap give a streak of n ending on the last day |
| UserProgress.WithCrystal | src/stores/useUserStore.ts:162-166 | the crystal is present, no duplicates, exactly the old members plus it; appended when new, unchanged when present |
| UserProgress.CrystalIdempotent | focys/src/stores/useUserStore.ts:95-97 | unlocking a crystal twice equals unlocking it once |
| UserProgress.WithAchievement | src/stores/useUserStore.ts:174-178 | the key is set to true and every other key kept |
| UserProgress.Synced | src/stores/useUserStore.ts:199-212 | no profile: no change; otherwise username, level, XP, focus time, session count, streak and last day are the profile's; a missing crystal list becomes the base crystal; a non-empty active crystal is kept and a missing or empty one becomes the base crystal; missing achievements become none; the wallet address is kept |
| UserProgress.UserStore.constructor | focys/src/stores/useUserStore.ts:39-49 | the initial state: no wallet, "Focys User", level 1, zero counters, no last day, the base crystal unlocked and active, no achievements |
| UserProgress.UserStore.SetWalletAddress | focys/src/stores/useUserStore.ts:52 | only the wallet address changes |
| UserProgress.UserStore.SetUsername | src/stores/useUserStore.ts:111 | only the username changes |
| UserProgress.UserStore.AddXp | focys/src/stores/useUserStore.ts:56-69 | the new state is `WithXp` of the old one |
| UserProgress.UserStore.AddFocusTime | src/stores/useUserStore.ts:132-136 | only the focus time changes, by exactly the minutes |
| UserProgress.UserStore.IncrementSessions | focys/src/stores/useUserStore.ts:75-77 | only the session count changes, by one |
| UserProgress.UserStore.UpdateStreak | focys/src/stores/useUserStore.ts:79-93 | the new state is `StreakAfter` of the old one for today's day number |
| UserProgress.UserStore.UnlockCrystal | src/stores/useUserStore.ts:162-166 | the new state is `WithCrystal` of the old one |
| UserProgress.UserStore.SetActiveCrystal | focys/src/stores/useUserStore.ts:99 | only the active crystal changes |
| UserProgress.UserStore.UnlockAchievement | focys/src/stores/useUserStore.ts:101-103 | the new state is `WithAchievement` of the old one |
| UserProgress.UserStore.ResetUser | src/stores/useUserStore.ts:180-196 | every field is back at its initial value |
| UserProgress.UserStore.SyncFromRemote | src/stores/useUserStore.ts:199-213 | the new state is `Synced` of the old one |
| LegacyTimer.Rewound | focys/src/stores/useTimerStore.ts:47-54 | the active type's minutes times 60 left; running flag, type and count kept; nothing else changes |
| LegacyTimer.LegacyTimerStore.ResetTimer | focys/src/stores/useTimerStore.ts:47-54 | the new state is `Rewound` of the old one |
| LegacyTimer.Advanced | focys/src/stores/useTimerStore.ts:56-70 | count advanced modulo setting + 1, within [0, setting]; a long break exactly when the count wraps to 0 from a positive count; otherwise focus and short break alternate; stopped on the new type's full time; settings kept |
| LegacyTimer.LegacyTimerStore.NextSession | focys/src/stores/useTimerStore.ts:56-70 | the new state is `Advanced` of the old one |
| LegacyTimer.Iterate | focys/src/stores/useTimerStore.ts:56-70 | repeated `nextSession` keeps the count non-negative and the setting |
| LegacyTimer.AdvanceBelowSetting | focys/src/stores/useTimerStore.ts:57-59 | while the count is below the setting, one call raises it by exactly one and gives no long break |
| LegacyTimer.CountsUp | focys/src/stores/useTimerStore.ts:57-59 | from count 0, the first n calls count 1..n without a long break |
| LegacyTimer.LongBreakCycle | focys/src/stores/useTimerStore.ts:57-64 | from count 0 and a setting n >= 1, no long break in the first n calls, a long break on call n + 1 with the count back at 0 |
| LegacyTimer.DefaultCycle | focys/src/stores/useTimerStore.ts:32-40 | with the default setting 4 the long break comes on the fifth call |
| LegacyTimer.Toggled | focys/src/stores/useTimerStore.ts:45 | only the running flag flips |
| LegacyTimer.ToggleTwice | focys/src/stores/useTimerStore.ts:45 | toggling twice restores the state |
| LegacyTimer.LegacyTimerStore.ToggleTimer | focys/src/stores/useTimerStore.ts:45 | the new state is `Toggled` of the old one |
| LegacyTimer.LegacyTimerStore.StartTimer | focys/src/stores/useTimerStore.ts:43 | only the running flag changes, to true |
| LegacyTimer.LegacyTimerStore.PauseTimer | focys/src/stores/useTimerStore.ts:44 | only the running flag changes, to false |
| LegacyTimer.WithMinutes | focys/src/stores/useTimerStore.ts:73-86 | the minutes stored for one type, the others kept; the countdown becomes minutes times 60 only when that type is active |
| LegacyTimer.LegacyTimerStore.SetFocusDuration | focys/src/stores/useTimerStore.ts:73-76 | the new state is `WithMinutes` for focus |
| LegacyTimer.LegacyTimerStore.SetShortBreakDuration | focys/src/stores/useTimerStore.ts:78-81 | the new state is `WithMinutes` for short breaks |
| LegacyTimer.LegacyTimerStore.SetLongBreakDuration | focys/src/stores/useTimerStore.ts:83-86 | the new state is `WithMinutes` for long breaks |
| LegacyTimer.LegacyTimerStore.SetSessionsBeforeLongBreak | focys/src/stores/useTimerStore.ts:88 | only the setting changes |
| LegacyTimer.LegacyTimerStore.constructor | focys/src/stores/useTimerStore.ts:32-40 | the initial state: stopped, 25 minutes left, focus, count 0, 25/5/15 minutes, setting 4 |
| Wallet.ProfileId | src/stores/useWalletStore.ts:34-36 | `profile_<lower-cased address>_<digits>` |
| Wallet.IdNamesOneAddress | src/stores/useWalletStore.ts:34-36 | an id of that shape names one address only, so profiles of different addresses never share an id |
| Wallet.DefaultUsername | src/stores/useWalletStore.ts:38-40 | `Focuser_` then characters 2 to 7 of the address: 8 to 14 characters, exactly `Focuser_` + address[2..8] for addresses of 8 or more characters |
| Wallet.DefaultUsernameExample | src/stores/useWalletStore.ts:38-40 | "0xAbCdEf0123" gives "Focuser_AbCdEf" and "0x" gives "Focuser_" |
| Wallet.Created | src/stores/useWalletStore.ts:106-115 | lower-cased address, an id of the generated shape, connected and joined and logged in now, the ENS name as username unless absent or empty, then the default username |
| Wallet.FindByAddress | src/stores/useWalletStore.ts:55 | the first index whose address matches case-insensitively; none exactly when no address matches |
| Wallet.ProfileByAddress | src/stores/useWalletStore.ts:179-184 | `find`: the first profile whose address matches case-insensitively; none exactly when no address matches |
| Wallet.WalletStore.GetProfileByAddress | src/stores/useWalletStore.ts:179-184 | the same first match, read from the store without changing it |
| Wallet.ReplaceMatching | src/stores/useWalletStore.ts:68-72 | every entry with a matching address replaced, the others kept |
| Wallet.ReplaceId | src/stores/useWalletStore.ts:136-138 | every entry with the id replaced, the others kept |
| Wallet.MarkDisconnected | src/stores/useWalletStore.ts:88-94 | every entry with the id marked disconnected, the others kept |
| Wallet.InitialIsValid | src/stores/useWalletStore.ts:46-50 | the empty table satisfies the table invariant |
| Wallet.SameKeysKeepTable | src/stores/useWalletStore.ts:42-185 | a table change that keeps every entry's id and address keeps the invariant |
| Wallet.Connected | src/stores/useWalletStore.ts:53-81 | connected to the lower-cased address on the chain; an unknown address appends exactly the created profile and makes it current; for a known address the current profile is the first match with the login time now and the connected flag, and every matching entry becomes it while the size is kept |
| Wallet.WalletStore.SetConnection | src/stores/useWalletStore.ts:53-81 | the new state is `Connected` of the old one |
| Wallet.ConnectKeepsTableValid | src/stores/useWalletStore.ts:53-81 | connecting keeps at most one profile per address, lower-case addresses, distinct ids of the generated shape, and the current profile in the table |
| Wallet.ConnectNewKeepsTable | src/stores/useWalletStore.ts:57-60 | the invariant after appending a profile for a new address |
| Wallet.AppendKeepsTable | src/stores/useWalletStore.ts:117-119 | a profile with a fresh id and a new lower-cased address can be appended and made current |
| Wallet.ConnectKnownKeepsTable | src/stores/useWalletStore.ts:61-73 | the invariant after reconnecting a known address |
| Wallet.ReconnectFindsProfile | src/stores/useWalletStore.ts:53-103 | connect, disconnect and connect again with the same address finds the same profile and the table does not grow |
| Wallet.Disconnected | src/stores/useWalletStore.ts:84-103 | connection fields and current profile cleared; only the current profile's entries marked disconnected |
| Wallet.WalletStore.Disconnect | src/stores/useWalletStore.ts:84-103 | the new state is `Disconnected` of the old one |
| Wallet.DisconnectKeepsTableValid | src/stores/useWalletStore.ts:84-103 | disconnecting keeps the table invariant |
| Wallet.WalletStore.CreateProfile | src/stores/useWalletStore.ts:106-122 | returns the created profile and appends it, with no lookup |
| Wallet.CreateAllowsDuplicates | src/stores/useWalletStore.ts:117-119 | creating "0xab" then "0xAB" gives two entries whose addresses match case-insensitively, breaking address uniqueness |
| Wallet.Merge | src/stores/useWalletStore.ts:129-132 | `{ ...profile, ...updates }`: each field present in the update wins, each absent one keeps the profile's value; the id and the address never change |
| Wallet.MergeLaws | src/stores/useWalletStore.ts:129-132 | an empty update changes nothing, and an update applied twice equals it applied once |
| Wallet.Updated | src/stores/useWalletStore.ts:125-140 | no current profile: no change; otherwise the merged profile becomes current and replaces the entries with its id; connection fields kept |
| Wallet.WalletStore.UpdateProfile | src/stores/useWalletStore.ts:125-140 | the new state is `Updated` of the old one |
| Wallet.UpdateKeepsTableValid | src/stores/useWalletStore.ts:125-140 | updating keeps the table invariant |
| Wallet.ReplaceOwnEntry | src/stores/useWalletStore.ts:136-138 | with distinct ids, replacing an entry by one with its id and address keeps the keys and puts the new profile in |
| Wallet.MarkKeepsKeys | src/stores/useWalletStore.ts:152-158 | marking entries disconnected keeps ids and addresses |
| Wallet.Switched | src/stores/useWalletStore.ts:143-176 | unknown address: no change; otherwise the previous current profile's entry marked disconnected, the target marked connected and logged in now and made current, the address lower-cased, connected flag and chain kept |
| Wallet.WalletStore.SwitchProfile | src/stores/useWalletStore.ts:143-176 | the new state is `Switched` of the old one |
| Wallet.SwitchKeepsTableValid | src/stores/useWalletStore.ts:143-176 | switching keeps the table invariant |
| Wallet.WalletStore.constructor | src/stores/useWalletStore.ts:46-50 | not connected, no address, chain or current profile, an empty table |

## Left out

- Remote profile storage is not modelled. This covers the writes after each action of `src/stores/useUserStore.ts` and the profile load in its `setWalletAddress`. `UserProgress.UserStore.SetWalletAddress` only assigns the address. The load copies `unlocked_crystals` and `active_crystal` without the fallbacks of `syncFromRemote`; it is network I/O.
- The permanent-storage upload in `endCurrentSession` is not modelled. Its outcome is the parameter `upload`: a receipt, or none when it failed. The `await` interleaving between the upload and the user-store calls is not modelled either. The calls are returned as an ordered request list.
- Local storage, `JSON.parse` and `JSON.stringify`, the backup key, file download, and the stores' `persist` / `partialize` plumbing are not modelled; they are I/O. Import works on an already parsed JSON value.
- The percentage getters `getProgressPercentage` and `getXpProgress` are not modelled; they are floating point. `Math.pow(1.5, …)` is replaced by exact integer arithmetic.
- The trivial getters `getCurrentLevel`, `getSessionType`, `getRemainingTime`, `getTotalRounds` and `getCurrentRound` are not modelled; each returns one field.
- `Date.now()`, `new Date()`, `toDateString`, `toISOString` and `Math.random` become parameters: `now` in milliseconds, `today` as a day number, ids as strings. Day numbers are UTC days (`floor(ms / 86400000)`), so local midnight and daylight saving time are not modelled. `lastSessionDate` in the save summary is kept as the time stamp its ISO string is made from. The clock's own time is taken to lie within the Date range, so saving an empty list never fails. Timer log ids come from the clock and can collide; the model does not prevent this.
- JSON numbers are integers. NaN, fractions and `Infinity` are not modelled. `toLowerCase` is modelled on ASCII letters only.
- `Wallet.Merge`: an update field can only be present or absent. An explicit `undefined` in `updates`, which JavaScript's spread also copies, is not modelled.
- `LegacyTimer.LegacyTimerStore.SetSessionsBeforeLongBreak` requires `count != -1`. With -1 the older store's `nextSession` computes `x % 0`, which is NaN, and the count becomes NaN. Integers cannot hold that. For the same reason `LegacyTimer.LegacyTimerStore.NextSession` requires a non-negative count and a setting other than -1.
- `Gamification.GamificationStore.GetNextLevelXp` requires a non-negative level. The store only ever holds levels of 1 or more.
- Default arguments are not modelled: the limit 10 of `getRecentSessions`, the tags `[]` of `startSession` and the notes `''` of `endCurrentSession` are passed explicitly by the caller.
- Achievement descriptions and icons, crystal descriptions, and all UI, DOM, theme, wallet-connector and build code are not modelled.
