/** The gamification store: XP and levels, achievements unlocked by rules
    over the session statistics, and crystals. */
module Gamification {
  import opened Wrappers
  import opened Lists
  import opened Leveling

  datatype Category = FocusCategory | StreakCategory | MilestoneCategory | SpecialCategory

  /** An achievement; `unlockedAt` is the unlock time in milliseconds. The
      description and icon are display text and are not modelled. */
  datatype Achievement = Achievement(
    id: string,
    title: string,
    unlockedAt: Option<int>,
    progress: int,
    maxProgress: int,
    category: Category,
    xpReward: int)

  datatype CrystalKind = FocusKind | EnergyKind | WisdomKind | RareKind

  datatype Crystal = Crystal(
    id: string,
    name: string,
    kind: CrystalKind,
    level: int,
    xpToNext: int,
    totalXp: int,
    unlockedAt: int,
    color: string,
    abilities: seq<string>)

  datatype GameState = GameState(
    totalXp: int,
    level: int,
    xpToNextLevel: int,
    achievements: seq<Achievement>,
    unlockedAchievements: seq<string>,
    crystals: seq<Crystal>,
    activeCrystal: Option<string>,
    totalSessions: int,
    consecutiveDays: int,
    longestStreak: int,
    totalFocusMinutes: int)

  const DefaultAchievements: seq<Achievement> := [
    Achievement("first-session", "First Focus", None, 0, 1, MilestoneCategory, 50),
    Achievement("streak-3", "Getting Started", None, 0, 3, StreakCategory, 100),
    Achievement("streak-7", "Week Warrior", None, 0, 7, StreakCategory, 250),
    Achievement("sessions-10", "Dedicated Learner", None, 0, 10, FocusCategory, 150),
    Achievement("sessions-50", "Focus Master", None, 0, 50, FocusCategory, 500),
    Achievement("hours-10", "Time Keeper", None, 0, 600, MilestoneCategory, 300)
  ]

  /** The starter crystal; `loadedAt` is the time the store module loaded. */
  function StarterCrystal(loadedAt: int): Crystal
  {
    Crystal("starter-focus", "Focus Crystal", FocusKind, 1, 100, 0, loadedAt,
            "#3B82F6", ["Basic Focus", "Session Tracking"])
  }

  function InitialState(loadedAt: int): GameState
  {
    GameState(0, 1, 100, DefaultAchievements, [], [StarterCrystal(loadedAt)],
              Some("starter-focus"), 0, 0, 0, 0)
  }

  /** The fresh store is at the level its XP calls for, with no unlocks. */
  lemma InitialIsConsistent(loadedAt: int)
    ensures IsLevelFor(InitialState(loadedAt).totalXp, InitialState(loadedAt).level)
    ensures NoDup(InitialState(loadedAt).unlockedAchievements)
    ensures DistinctIds(InitialState(loadedAt).achievements)
  {
    XpForLevelFirstValues();
  }

  /** No two achievements share an id. */
  ghost predicate DistinctIds(achs: seq<Achievement>)
  {
    forall i, j :: 0 <= i < j < |achs| ==> achs[i].id != achs[j].id
  }

  /** The statistics and crystals, which achievement updates leave alone. */
  ghost predicate SameStats(g: GameState, h: GameState)
  {
    && h.crystals == g.crystals
    && h.activeCrystal == g.activeCrystal
    && h.totalSessions == g.totalSessions
    && h.consecutiveDays == g.consecutiveDays
    && h.longestStreak == g.longestStreak
    && h.totalFocusMinutes == g.totalFocusMinutes
  }

  /** Same achievements in the same order, up to progress and unlock time. */
  ghost predicate SameRules(a: seq<Achievement>, b: seq<Achievement>)
  {
    && |a| == |b|
    && forall k :: 0 <= k < |a| ==>
         && a[k].id == b[k].id
         && a[k].maxProgress == b[k].maxProgress
         && a[k].xpReward == b[k].xpReward
  }

  /** `addXp`: the total grows by `amount` and the level follows the curve. */
  function WithXp(g: GameState, amount: int): (r: GameState)
    ensures r.totalXp == g.totalXp + amount
    ensures IsLevelFor(r.totalXp, r.level)
    ensures r.xpToNextLevel == XpForLevel(r.level + 1)
    ensures r.achievements == g.achievements
    ensures r.unlockedAchievements == g.unlockedAchievements
    ensures SameStats(g, r)
  {
    var total := g.totalXp + amount;
    var level := LevelOf(total);
    g.(totalXp := total, level := level, xpToNextLevel := XpForLevel(level + 1))
  }

  /** `achievements.find(a => a.id === id)`, as the index of the first match. */
  function FindAchievement(achs: seq<Achievement>, id: string): (r: Option<nat>)
    ensures r.Some? ==> r.value < |achs| && achs[r.value].id == id
    ensures r.Some? ==> forall j :: 0 <= j < r.value ==> achs[j].id != id
    ensures r.None? ==> forall j :: 0 <= j < |achs| ==> achs[j].id != id
  {
    if |achs| == 0 then None
    else if achs[0].id == id then Some(0)
    else match FindAchievement(achs[1..], id)
      case None => None
      case Some(k) => Some(k + 1)
  }

  /** Every entry with this id gets the unlock time. */
  function Stamped(achs: seq<Achievement>, id: string, now: int): seq<Achievement>
  {
    seq(|achs|, k requires 0 <= k < |achs| =>
      if achs[k].id == id then achs[k].(unlockedAt := Some(now)) else achs[k])
  }

  /** Stamping changes only the unlock time, and exactly on the entries
      with the id. */
  lemma StampedChangesOnlyTheStamp(achs: seq<Achievement>, id: string, now: int)
    ensures var r := Stamped(achs, id, now);
      && |r| == |achs|
      && (forall k :: 0 <= k < |achs| ==> r[k] == achs[k].(unlockedAt := r[k].unlockedAt))
      && (forall k :: 0 <= k < |achs| ==> r[k].unlockedAt == if achs[k].id == id then Some(now) else achs[k].unlockedAt)
  {
  }

  /** Every entry with this id gets the progress value. */
  function WithProgress(achs: seq<Achievement>, id: string, p: int): seq<Achievement>
  {
    seq(|achs|, k requires 0 <= k < |achs| =>
      if achs[k].id == id then achs[k].(progress := p) else achs[k])
  }

  /** The progress update changes only the progress, and exactly on the
      entries with the id. */
  lemma WithProgressChangesOnlyProgress(achs: seq<Achievement>, id: string, p: int)
    ensures var r := WithProgress(achs, id, p);
      && |r| == |achs|
      && (forall k :: 0 <= k < |achs| ==> r[k] == achs[k].(progress := r[k].progress))
      && (forall k :: 0 <= k < |achs| ==> r[k].progress == if achs[k].id == id then p else achs[k].progress)
  {
  }

  /** `unlockAchievement`: a no-op for an id already unlocked or unknown;
      otherwise the id is appended, its entries stamped and its reward added. */
  function WithUnlocked(g: GameState, id: string, now: int): (r: GameState)
    ensures id in g.unlockedAchievements || FindAchievement(g.achievements, id).None? ==> r == g
    ensures forall x :: x in r.unlockedAchievements <==>
      x in g.unlockedAchievements || (x == id && exists k :: 0 <= k < |g.achievements| && g.achievements[k].id == id)
    ensures id !in g.unlockedAchievements && FindAchievement(g.achievements, id).Some? ==>
      && r.totalXp == g.totalXp + g.achievements[FindAchievement(g.achievements, id).value].xpReward
      && IsLevelFor(r.totalXp, r.level)
      && forall k :: 0 <= k < |r.achievements| && r.achievements[k].id == id ==> r.achievements[k].unlockedAt == Some(now)
    ensures NoDup(g.unlockedAchievements) ==> NoDup(r.unlockedAchievements)
    ensures SameRules(g.achievements, r.achievements) && SameStats(g, r)
    ensures forall k :: 0 <= k < |g.achievements| && g.achievements[k].id != id ==> r.achievements[k] == g.achievements[k]
  {
    if id in g.unlockedAchievements then g
    else match FindAchievement(g.achievements, id)
      case None => g
      case Some(k) =>
        var unlocked := g.unlockedAchievements + [id];
        assert NoDup(g.unlockedAchievements) ==> NoDup(unlocked) by {
          forall i, j | 0 <= i < j < |unlocked| && NoDup(g.unlockedAchievements)
            ensures unlocked[i] != unlocked[j]
          {
            if j == |unlocked| - 1 {
              assert unlocked[i] in g.unlockedAchievements;
            }
          }
        }
        WithXp(g.(unlockedAchievements := unlocked,
                  achievements := Stamped(g.achievements, id, now)),
               g.achievements[k].xpReward)
  }

  /** A second unlock of the same id, at any time, changes nothing. */
  lemma UnlockIdempotent(g: GameState, id: string, now: int, later: int)
    ensures WithUnlocked(WithUnlocked(g, id, now), id, later) == WithUnlocked(g, id, now)
  {
    var r := WithUnlocked(g, id, now);
    if id !in g.unlockedAchievements && FindAchievement(g.achievements, id).Some? {
      var k := FindAchievement(g.achievements, id).value;
      assert g.achievements[k].id == id;
      assert id in r.unlockedAchievements;
    }
  }

  function Min(a: int, b: int): int { if a <= b then a else b }

  function Max(a: int, b: int): int { if a >= b then a else b }

  /** The progress rule `checkAchievements` applies to an achievement id,
      from the session statistics; an id without a rule has progress 0. */
  function RuleProgress(id: string, sessions: int, days: int, minutes: int): (r: int)
    ensures id == "first-session" ==> (r == 1 <==> sessions >= 1) && (r == 0 <==> sessions < 1)
    ensures id == "streak-3" ==> r <= 3 && (days <= 3 ==> r == days) && (days >= 3 ==> r == 3)
    ensures id == "streak-7" ==> r <= 7 && (days <= 7 ==> r == days) && (days >= 7 ==> r == 7)
    ensures id == "sessions-10" ==> r <= 10 && (sessions <= 10 ==> r == sessions) && (sessions >= 10 ==> r == 10)
    ensures id == "sessions-50" ==> r <= 50 && (sessions <= 50 ==> r == sessions) && (sessions >= 50 ==> r == 50)
    ensures id == "hours-10" ==> r <= 600 && (minutes <= 600 ==> r == minutes) && (minutes >= 600 ==> r == 600)
    ensures id !in {"first-session", "streak-3", "streak-7", "sessions-10", "sessions-50", "hours-10"} ==> r == 0
  {
    if id == "first-session" then (if sessions >= 1 then 1 else 0)
    else if id == "streak-3" then Min(days, 3)
    else if id == "streak-7" then Min(days, 7)
    else if id == "sessions-10" then Min(sessions, 10)
    else if id == "sessions-50" then Min(sessions, 50)
    else if id == "hours-10" then Min(minutes, 600)
    else 0
  }

  function ProgressIn(g: GameState, id: string): int
  {
    RuleProgress(id, g.totalSessions, g.consecutiveDays, g.totalFocusMinutes)
  }

  /** The rule's progress has reached the achievement's maximum. */
  predicate Qualifies(a: Achievement, g: GameState)
  {
    ProgressIn(g, a.id) >= a.maxProgress
  }

  /** One iteration of the `forEach` in `checkAchievements`: `snap` is the
      state read before the loop, `g` the current state. The progress update
      rewrites the achievements from the snapshot, so an earlier iteration's
      progress and unlock time on other entries are overwritten. */
  function CheckStep(g: GameState, snap: GameState, i: nat, now: int): GameState
    requires i < |snap.achievements|
  {
    var a := snap.achievements[i];
    if a.id in snap.unlockedAchievements then g
    else
      var p := ProgressIn(snap, a.id);
      var g1 := g.(achievements := WithProgress(snap.achievements, a.id, p));
      if p >= a.maxProgress then WithUnlocked(g1, a.id, now) else g1
  }

  /** The state after the first `n` iterations. */
  function CheckPrefix(snap: GameState, n: nat, now: int): GameState
    requires n <= |snap.achievements|
  {
    if n == 0 then snap else CheckStep(CheckPrefix(snap, n - 1, now), snap, n - 1, now)
  }

  /** What the iterations keep: statistics and rules, duplicate-free
      unlocks, a level matching the XP, and the unlocked ids are those
      already unlocked plus the ids of the qualifying entries seen so far. */
  lemma CheckPrefixInvariant(snap: GameState, n: nat, now: int)
    requires n <= |snap.achievements|
    ensures SameStats(snap, CheckPrefix(snap, n, now))
    ensures SameRules(snap.achievements, CheckPrefix(snap, n, now).achievements)
    ensures NoDup(snap.unlockedAchievements) ==> NoDup(CheckPrefix(snap, n, now).unlockedAchievements)
    ensures IsLevelFor(snap.totalXp, snap.level) ==>
      IsLevelFor(CheckPrefix(snap, n, now).totalXp, CheckPrefix(snap, n, now).level)
    ensures forall x :: x in CheckPrefix(snap, n, now).unlockedAchievements <==>
      x in snap.unlockedAchievements ||
      exists k :: 0 <= k < n && snap.achievements[k].id == x && Qualifies(snap.achievements[k], snap)
  {
    CheckPrefixKeeps(snap, n, now);
    CheckPrefixUnlocks(snap, n, now);
  }

  lemma {:induction false} CheckPrefixKeeps(snap: GameState, n: nat, now: int)
    requires n <= |snap.achievements|
    ensures SameStats(snap, CheckPrefix(snap, n, now))
    ensures SameRules(snap.achievements, CheckPrefix(snap, n, now).achievements)
    ensures NoDup(snap.unlockedAchievements) ==> NoDup(CheckPrefix(snap, n, now).unlockedAchievements)
    ensures IsLevelFor(snap.totalXp, snap.level) ==>
      IsLevelFor(CheckPrefix(snap, n, now).totalXp, CheckPrefix(snap, n, now).level)
  {
    if n > 0 {
      CheckPrefixKeeps(snap, n - 1, now);
      var h := CheckPrefix(snap, n - 1, now);
      CheckStepKeeps(h, snap, n - 1, now);
      assert CheckPrefix(snap, n, now) == CheckStep(h, snap, n - 1, now);
    }
  }

  /** One iteration keeps statistics and rules, duplicate-free unlocks and
      a level matching the XP. */
  lemma CheckStepKeeps(h: GameState, snap: GameState, i: nat, now: int)
    requires i < |snap.achievements|
    requires SameRules(snap.achievements, h.achievements)
    ensures var r := CheckStep(h, snap, i, now);
      && SameStats(h, r) && SameRules(h.achievements, r.achievements)
      && (NoDup(h.unlockedAchievements) ==> NoDup(r.unlockedAchievements))
      && (IsLevelFor(h.totalXp, h.level) ==> IsLevelFor(r.totalXp, r.level))
  {
    var a := snap.achievements[i];
    if a.id !in snap.unlockedAchievements {
      var g1 := h.(achievements := WithProgress(snap.achievements, a.id, ProgressIn(snap, a.id)));
      assert SameRules(h.achievements, g1.achievements);
    }
  }

  lemma {:induction false} CheckPrefixUnlocks(snap: GameState, n: nat, now: int)
    requires n <= |snap.achievements|
    ensures forall x :: x in CheckPrefix(snap, n, now).unlockedAchievements <==>
      x in snap.unlockedAchievements ||
      exists k :: 0 <= k < n && snap.achievements[k].id == x && Qualifies(snap.achievements[k], snap)
  {
    if n > 0 {
      CheckPrefixUnlocks(snap, n - 1, now);
      var h := CheckPrefix(snap, n - 1, now);
      CheckStepUnlocks(h, snap, n - 1, now);
      var a := snap.achievements[n - 1];
      if Qualifies(a, snap) {
        assert snap.achievements[n - 1].id == a.id && Qualifies(snap.achievements[n - 1], snap);
      }
    }
  }

  /** One iteration unlocks at most its own entry's id, and does so when
      that entry is locked in the snapshot and qualifies. */
  lemma CheckStepUnlocks(h: GameState, snap: GameState, i: nat, now: int)
    requires i < |snap.achievements|
    ensures var a := snap.achievements[i];
      forall x :: x in CheckStep(h, snap, i, now).unlockedAchievements <==>
        x in h.unlockedAchievements || (x == a.id && a.id !in snap.unlockedAchievements && Qualifies(a, snap))
  {
    var a := snap.achievements[i];
    if a.id !in snap.unlockedAchievements && Qualifies(a, snap) {
      var g1 := h.(achievements := WithProgress(snap.achievements, a.id, ProgressIn(snap, a.id)));
      assert g1.achievements[i].id == a.id;
    }
  }

  /** `checkAchievements`: one pass over the achievements read at entry. */
  function Checked(g: GameState, now: int): (r: GameState)
    ensures SameStats(g, r) && SameRules(g.achievements, r.achievements)
    ensures NoDup(g.unlockedAchievements) ==> NoDup(r.unlockedAchievements)
    ensures IsLevelFor(g.totalXp, g.level) ==> IsLevelFor(r.totalXp, r.level)
    ensures forall x :: x in r.unlockedAchievements <==>
      x in g.unlockedAchievements ||
      exists k :: 0 <= k < |g.achievements| && g.achievements[k].id == x && Qualifies(g.achievements[k], g)
  {
    CheckPrefixInvariant(g, |g.achievements|, now);
    CheckPrefix(g, |g.achievements|, now)
  }

  /** A pass over a state where nothing qualifies that is not yet unlocked
      touches only the progress values. */
  lemma {:induction false} QuietPass(h: GameState, n: nat, now: int)
    requires n <= |h.achievements|
    requires forall k :: 0 <= k < |h.achievements| ==>
      h.achievements[k].id in h.unlockedAchievements || !Qualifies(h.achievements[k], h)
    ensures CheckPrefix(h, n, now) == h.(achievements := CheckPrefix(h, n, now).achievements)
  {
    if n > 0 {
      QuietPass(h, n - 1, now);
    }
  }

  /** Checking twice unlocks nothing more and awards no more XP. */
  lemma CheckIdempotent(g: GameState, now: int)
    ensures Checked(Checked(g, now), now) == Checked(g, now).(achievements := Checked(Checked(g, now), now).achievements)
  {
    var h := Checked(g, now);
    forall k | 0 <= k < |h.achievements| && Qualifies(h.achievements[k], h)
      ensures h.achievements[k].id in h.unlockedAchievements
    {
      assert Qualifies(g.achievements[k], g);
    }
    QuietPass(h, |h.achievements|, now);
  }

  /** The index of the last entry, among the first `n`, still locked in the
      snapshot: the only one whose progress update survives the pass. */
  function LastPending(snap: GameState, n: nat): (r: Option<nat>)
    requires n <= |snap.achievements|
    ensures r.Some? ==> r.value < n && snap.achievements[r.value].id !in snap.unlockedAchievements
    ensures r.None? ==> forall k :: 0 <= k < n ==> snap.achievements[k].id in snap.unlockedAchievements
    ensures r.Some? ==> forall k :: r.value < k < n ==> snap.achievements[k].id in snap.unlockedAchievements
  {
    if n == 0 then None
    else if snap.achievements[n - 1].id !in snap.unlockedAchievements then Some(n - 1)
    else LastPending(snap, n - 1)
  }

  /** Entry `k` does not share the id of the last locked entry before `n`. */
  ghost predicate Untouched(snap: GameState, n: nat, k: nat)
    requires n <= |snap.achievements| && k < |snap.achievements|
  {
    match LastPending(snap, n)
    case None => true
    case Some(j) => snap.achievements[k].id != snap.achievements[j].id
  }

  /** Every entry whose id differs from the last locked entry's id leaves
      the pass exactly as it was in the snapshot: no progress, no stamp. */
  lemma {:induction false} OnlyLastPendingUpdated(snap: GameState, n: nat, now: int)
    requires n <= |snap.achievements|
    ensures |CheckPrefix(snap, n, now).achievements| == |snap.achievements|
    ensures forall k :: 0 <= k < |snap.achievements| && Untouched(snap, n, k) ==>
      CheckPrefix(snap, n, now).achievements[k] == snap.achievements[k]
  {
    CheckPrefixInvariant(snap, n, now);
    if n > 0 {
      OnlyLastPendingUpdated(snap, n - 1, now);
    }
  }

  /** After the first focus session from the fresh state, "first-session" is
      unlocked yet its entry keeps progress 0 and no unlock time, because
      the later "hours-10" iteration rewrites the list from the snapshot. */
  lemma FirstSessionStampLost(loadedAt: int, now: int)
    ensures var h := Checked(InitialState(loadedAt).(totalSessions := 1), now);
      && "first-session" in h.unlockedAchievements
      && h.achievements[0].progress == 0
      && h.achievements[0].unlockedAt == None
  {
    var g := InitialState(loadedAt).(totalSessions := 1);
    assert Qualifies(g.achievements[0], g);
    assert LastPending(g, 6) == Some(5);
    OnlyLastPendingUpdated(g, 6, now);
  }

  /** The rewards of the locked entries among the first `n` that qualify. */
  function PendingRewards(snap: GameState, n: nat): int
    requires n <= |snap.achievements|
  {
    if n == 0 then 0
    else
      var a := snap.achievements[n - 1];
      PendingRewards(snap, n - 1)
        + (if a.id !in snap.unlockedAchievements && Qualifies(a, snap) then a.xpReward else 0)
  }

  /** With distinct ids, an entry still locked in the snapshot is still
      locked when its own iteration comes. */
  lemma NotYetUnlocked(snap: GameState, n: nat, now: int)
    requires n < |snap.achievements| && DistinctIds(snap.achievements)
    requires snap.achievements[n].id !in snap.unlockedAchievements
    ensures snap.achievements[n].id !in CheckPrefix(snap, n, now).unlockedAchievements
  {
    CheckPrefixUnlocks(snap, n, now);
  }

  /** One iteration adds the entry's reward when it is locked and
      qualifies, and nothing otherwise. */
  lemma CheckStepXp(h: GameState, snap: GameState, i: nat, now: int)
    requires i < |snap.achievements| && DistinctIds(snap.achievements)
    requires snap.achievements[i].id !in snap.unlockedAchievements ==>
      snap.achievements[i].id !in h.unlockedAchievements
    ensures var a := snap.achievements[i];
      CheckStep(h, snap, i, now).totalXp ==
        h.totalXp + (if a.id !in snap.unlockedAchievements && Qualifies(a, snap) then a.xpReward else 0)
  {
    var a := snap.achievements[i];
    if a.id !in snap.unlockedAchievements && Qualifies(a, snap) {
      var g1 := h.(achievements := WithProgress(snap.achievements, a.id, ProgressIn(snap, a.id)));
      assert g1.achievements[i].id == a.id;
      assert FindAchievement(g1.achievements, a.id) == Some(i);
    }
  }

  /** With distinct ids, a pass adds exactly the rewards of the locked
      achievements that qualify. */
  lemma {:induction false} CheckPrefixXp(snap: GameState, n: nat, now: int)
    requires n <= |snap.achievements|
    requires DistinctIds(snap.achievements)
    ensures CheckPrefix(snap, n, now).totalXp == snap.totalXp + PendingRewards(snap, n)
  {
    if n > 0 {
      var a := snap.achievements[n - 1];
      var h := CheckPrefix(snap, n - 1, now);
      var reward := if a.id !in snap.unlockedAchievements && Qualifies(a, snap) then a.xpReward else 0;
      assert CheckPrefix(snap, n, now).totalXp == CheckStep(h, snap, n - 1, now).totalXp by {
        assert CheckPrefix(snap, n, now) == CheckStep(h, snap, n - 1, now);
      }
      assert CheckStep(h, snap, n - 1, now).totalXp == h.totalXp + reward by {
        if a.id !in snap.unlockedAchievements {
          NotYetUnlocked(snap, n - 1, now);
        }
        CheckStepXp(h, snap, n - 1, now);
      }
      assert h.totalXp == snap.totalXp + PendingRewards(snap, n - 1) by {
        CheckPrefixXp(snap, n - 1, now);
      }
      assert PendingRewards(snap, n) == PendingRewards(snap, n - 1) + reward;
    }
  }

  /** With distinct ids, a check unlocks an entry's id exactly when it was
      unlocked already or the entry qualifies. */
  lemma CheckedUnlocksEntry(g: GameState, i: nat, now: int)
    requires DistinctIds(g.achievements) && i < |g.achievements|
    ensures g.achievements[i].id in Checked(g, now).unlockedAchievements <==>
      g.achievements[i].id in g.unlockedAchievements || Qualifies(g.achievements[i], g)
  {
    var x := g.achievements[i].id;
    if x in Checked(g, now).unlockedAchievements && x !in g.unlockedAchievements {
      var k :| 0 <= k < |g.achievements| && g.achievements[k].id == x && Qualifies(g.achievements[k], g);
      assert k == i;
    }
  }

  lemma DefaultIdsDistinct()
    ensures DistinctIds(DefaultAchievements)
  {
  }

  /** A table with the default rules has distinct ids. */
  lemma DefaultRulesDistinct(achs: seq<Achievement>)
    requires SameRules(achs, DefaultAchievements)
    ensures DistinctIds(achs)
  {
    DefaultIdsDistinct();
    forall i, j | 0 <= i < j < |achs| ensures achs[i].id != achs[j].id {
      assert achs[i].id == DefaultAchievements[i].id && achs[j].id == DefaultAchievements[j].id;
    }
  }

  /** The session-count achievements of the default table. */
  lemma SessionThresholds(g: GameState, now: int)
    requires SameRules(g.achievements, DefaultAchievements)
    ensures var h := Checked(g, now);
      && ("first-session" in h.unlockedAchievements <==> "first-session" in g.unlockedAchievements || g.totalSessions >= 1)
      && ("sessions-10" in h.unlockedAchievements <==> "sessions-10" in g.unlockedAchievements || g.totalSessions >= 10)
      && ("sessions-50" in h.unlockedAchievements <==> "sessions-50" in g.unlockedAchievements || g.totalSessions >= 50)
  {
    DefaultRulesDistinct(g.achievements);
    var achs := g.achievements;
    assert achs[0].id == "first-session" && achs[0].maxProgress == 1;
    CheckedUnlocksEntry(g, 0, now);
    assert achs[3].id == "sessions-10" && achs[3].maxProgress == 10;
    CheckedUnlocksEntry(g, 3, now);
    assert achs[4].id == "sessions-50" && achs[4].maxProgress == 50;
    CheckedUnlocksEntry(g, 4, now);
  }

  /** The streak and focus-time achievements of the default table. */
  lemma StreakAndTimeThresholds(g: GameState, now: int)
    requires SameRules(g.achievements, DefaultAchievements)
    ensures var h := Checked(g, now);
      && ("streak-3" in h.unlockedAchievements <==> "streak-3" in g.unlockedAchievements || g.consecutiveDays >= 3)
      && ("streak-7" in h.unlockedAchievements <==> "streak-7" in g.unlockedAchievements || g.consecutiveDays >= 7)
      && ("hours-10" in h.unlockedAchievements <==> "hours-10" in g.unlockedAchievements || g.totalFocusMinutes >= 600)
  {
    DefaultRulesDistinct(g.achievements);
    var achs := g.achievements;
    assert achs[1].id == "streak-3" && achs[1].maxProgress == 3;
    CheckedUnlocksEntry(g, 1, now);
    assert achs[2].id == "streak-7" && achs[2].maxProgress == 7;
    CheckedUnlocksEntry(g, 2, now);
    assert achs[5].id == "hours-10" && achs[5].maxProgress == 600;
    CheckedUnlocksEntry(g, 5, now);
  }

  /** With the default table, each achievement is unlocked by a check
      exactly when its statistic reaches the threshold. */
  lemma DefaultThresholds(g: GameState, now: int)
    requires SameRules(g.achievements, DefaultAchievements)
    ensures var h := Checked(g, now);
      && ("first-session" in h.unlockedAchievements <==> "first-session" in g.unlockedAchievements || g.totalSessions >= 1)
      && ("streak-3" in h.unlockedAchievements <==> "streak-3" in g.unlockedAchievements || g.consecutiveDays >= 3)
      && ("streak-7" in h.unlockedAchievements <==> "streak-7" in g.unlockedAchievements || g.consecutiveDays >= 7)
      && ("sessions-10" in h.unlockedAchievements <==> "sessions-10" in g.unlockedAchievements || g.totalSessions >= 10)
      && ("sessions-50" in h.unlockedAchievements <==> "sessions-50" in g.unlockedAchievements || g.totalSessions >= 50)
      && ("hours-10" in h.unlockedAchievements <==> "hours-10" in g.unlockedAchievements || g.totalFocusMinutes >= 600)
  {
    SessionThresholds(g, now);
    StreakAndTimeThresholds(g, now);
  }

  /** The XP a session of `minutes` earns: two per minute, plus five per day
      of the streak as it stood before the session. */
  function SessionAward(minutes: int, priorDays: int): (r: int)
    ensures priorDays <= 0 ==> r == 2 * minutes
    ensures priorDays > 0 ==> r - 2 * minutes == 5 * priorDays
  {
    2 * minutes + (if priorDays > 0 then 5 * priorDays else 0)
  }

  /** The counter part of `updateSessionStats`: one more session, the
      minutes added, and on a new day one more streak day with the longest
      streak raised to it. */
  function Counted(g: GameState, minutes: int, isNewDay: bool): (r: GameState)
    ensures r.totalSessions == g.totalSessions + 1
    ensures r.totalFocusMinutes == g.totalFocusMinutes + minutes
    ensures r.consecutiveDays == if isNewDay then g.consecutiveDays + 1 else g.consecutiveDays
    ensures r.longestStreak >= g.longestStreak
    ensures isNewDay ==> r.longestStreak >= r.consecutiveDays
    ensures isNewDay ==> r.longestStreak == Max(g.longestStreak, g.consecutiveDays + 1)
    ensures !isNewDay ==> r.longestStreak == g.longestStreak
    ensures r.(totalSessions := g.totalSessions, totalFocusMinutes := g.totalFocusMinutes,
               consecutiveDays := g.consecutiveDays, longestStreak := g.longestStreak) == g
  {
    var days := if isNewDay then g.consecutiveDays + 1 else g.consecutiveDays;
    g.(totalSessions := g.totalSessions + 1,
       totalFocusMinutes := g.totalFocusMinutes + minutes,
       consecutiveDays := days,
       longestStreak := if isNewDay then Max(g.longestStreak, days) else g.longestStreak)
  }

  /** `updateSessionStats`: counters, the session's XP, then a check. */
  function WithSessionStats(g: GameState, minutes: int, isNewDay: bool, now: int): (r: GameState)
    ensures r.totalSessions == g.totalSessions + 1
    ensures r.totalFocusMinutes == g.totalFocusMinutes + minutes
    ensures r.consecutiveDays == if isNewDay then g.consecutiveDays + 1 else g.consecutiveDays
    ensures r.longestStreak >= g.longestStreak
    ensures isNewDay ==> r.longestStreak >= r.consecutiveDays
    ensures isNewDay ==> r.longestStreak == Max(g.longestStreak, g.consecutiveDays + 1)
    ensures !isNewDay ==> r.longestStreak == g.longestStreak
    ensures IsLevelFor(r.totalXp, r.level)
    ensures forall x :: x in g.unlockedAchievements ==> x in r.unlockedAchievements
  {
    Checked(WithXp(Counted(g, minutes, isNewDay), SessionAward(minutes, g.consecutiveDays)), now)
  }

  /** The XP `updateSessionStats` adds: the session award, computed from
      the streak as it stood before the session, plus the rewards of the
      achievements the following check unlocks. */
  lemma SessionStatsXp(g: GameState, minutes: int, isNewDay: bool, now: int)
    requires DistinctIds(g.achievements)
    ensures var pre := WithXp(Counted(g, minutes, isNewDay), SessionAward(minutes, g.consecutiveDays));
      WithSessionStats(g, minutes, isNewDay, now).totalXp
        == g.totalXp + SessionAward(minutes, g.consecutiveDays) + PendingRewards(pre, |pre.achievements|)
  {
    var pre := WithXp(Counted(g, minutes, isNewDay), SessionAward(minutes, g.consecutiveDays));
    CheckPrefixXp(pre, |pre.achievements|, now);
  }

  /** A first 25-minute focus session from the fresh store: 50 XP for the
      session and 50 for "first-session" make 100 XP, which is level 2. */
  lemma FirstFocusSession(loadedAt: int, now: int)
    ensures var h := WithSessionStats(InitialState(loadedAt), 25, true, now);
      && h.totalSessions == 1 && h.consecutiveDays == 1 && h.longestStreak == 1
      && "first-session" in h.unlockedAchievements
      && "streak-3" !in h.unlockedAchievements
      && h.totalXp == 100 && h.level == 2
  {
    var g := InitialState(loadedAt);
    var g1 := WithXp(Counted(g, 25, true), 50);
    assert g1.totalXp == 50;
    assert g1 == g.(totalXp := 50, level := g1.level, xpToNextLevel := g1.xpToNextLevel,
                    totalSessions := 1, totalFocusMinutes := 25, consecutiveDays := 1, longestStreak := 1);
    DefaultThresholds(g1, now);
    FirstSessionReward(g1);
    DefaultRulesDistinct(g1.achievements);
    CheckPrefixXp(g1, 6, now);
    var h := Checked(g1, now);
    LevelExamples();
    LevelUnique(100, h.level, 2);
  }

  /** After one session of a day, only "first-session" (50 XP) qualifies. */
  lemma FirstSessionReward(g: GameState)
    requires g.achievements == DefaultAchievements && g.unlockedAchievements == []
    requires g.totalSessions == 1 && g.consecutiveDays == 1 && g.totalFocusMinutes == 25
    ensures PendingRewards(g, 6) == 50
  {
    var achs := g.achievements;
    assert !Qualifies(achs[1], g) && !Qualifies(achs[2], g) && !Qualifies(achs[3], g);
    assert !Qualifies(achs[4], g) && !Qualifies(achs[5], g) && Qualifies(achs[0], g);
    assert PendingRewards(g, 1) == 50;
    assert PendingRewards(g, 2) == 50;
    assert PendingRewards(g, 3) == 50;
    assert PendingRewards(g, 4) == 50;
    assert PendingRewards(g, 5) == 50;
  }

  /** `addXp(100)`, `addXp(149)`, `addXp(1)` from zero: levels 2, 2, 3. */
  lemma XpScenario(g: GameState)
    requires g.totalXp == 0
    ensures WithXp(g, 100).level == 2
    ensures WithXp(WithXp(g, 100), 149).level == 2
    ensures WithXp(WithXp(WithXp(g, 100), 149), 1).level == 3
  {
    LevelExamples();
    LevelUnique(100, WithXp(g, 100).level, 2);
    LevelUnique(249, WithXp(WithXp(g, 100), 149).level, 2);
    LevelUnique(250, WithXp(WithXp(WithXp(g, 100), 149), 1).level, 3);
  }

  /** `getUnlockedAchievements`. */
  function UnlockedOnes(achs: seq<Achievement>, unlocked: seq<string>): (r: seq<Achievement>)
    ensures forall a :: a in r ==> a in achs && a.id in unlocked
    ensures forall a :: a in achs && a.id in unlocked ==> a in r
  {
    if |achs| == 0 then []
    else (if achs[0].id in unlocked then [achs[0]] else []) + UnlockedOnes(achs[1..], unlocked)
  }

  /** `getPendingAchievements`. */
  function PendingOnes(achs: seq<Achievement>, unlocked: seq<string>): (r: seq<Achievement>)
    ensures forall a :: a in r ==> a in achs && a.id !in unlocked
    ensures forall a :: a in achs && a.id !in unlocked ==> a in r
  {
    if |achs| == 0 then []
    else (if achs[0].id !in unlocked then [achs[0]] else []) + PendingOnes(achs[1..], unlocked)
  }

  /** The two getters split the achievements between them. */
  lemma {:induction false} GettersPartition(achs: seq<Achievement>, unlocked: seq<string>)
    ensures multiset(UnlockedOnes(achs, unlocked)) + multiset(PendingOnes(achs, unlocked)) == multiset(achs)
  {
    if |achs| > 0 {
      var a, rest := achs[0], achs[1..];
      GettersPartition(rest, unlocked);
      assert achs == [a] + rest;
      var u, p := UnlockedOnes(rest, unlocked), PendingOnes(rest, unlocked);
      if a.id in unlocked {
        assert UnlockedOnes(achs, unlocked) == [a] + u;
        assert PendingOnes(achs, unlocked) == [] + p;
      } else {
        assert UnlockedOnes(achs, unlocked) == [] + u;
        assert PendingOnes(achs, unlocked) == [a] + p;
      }
    }
  }

  class GamificationStore {
    var totalXp: int
    var level: int
    var xpToNextLevel: int
    var achievements: seq<Achievement>
    var unlockedAchievements: seq<string>
    var crystals: seq<Crystal>
    var activeCrystal: Option<string>
    var totalSessions: int
    var consecutiveDays: int
    var longestStreak: int
    var totalFocusMinutes: int

    function State(): GameState
      reads this
    {
      GameState(totalXp, level, xpToNextLevel, achievements, unlockedAchievements,
                crystals, activeCrystal, totalSessions, consecutiveDays,
                longestStreak, totalFocusMinutes)
    }

    constructor (loadedAt: int)
      ensures State() == InitialState(loadedAt)
    {
      totalXp, level, xpToNextLevel := 0, 1, 100;
      achievements, unlockedAchievements := DefaultAchievements, [];
      crystals, activeCrystal := [StarterCrystal(loadedAt)], Some("starter-focus");
      totalSessions, consecutiveDays, longestStreak, totalFocusMinutes := 0, 0, 0, 0;
    }

    method AddXp(amount: int)
      modifies this
      ensures State() == WithXp(old(State()), amount)
    {
      var newTotal := totalXp + amount;
      var newLevel := CalculateLevelFromXp(newTotal);
      totalXp, level, xpToNextLevel := newTotal, newLevel, XpForLevel(newLevel + 1);
    }

    method UnlockAchievement(id: string, now: int)
      modifies this
      ensures State() == WithUnlocked(old(State()), id, now)
    {
      if id !in unlockedAchievements {
        var found := FindAchievement(achievements, id);
        if found.Some? {
          var reward := achievements[found.value].xpReward;
          unlockedAchievements := unlockedAchievements + [id];
          achievements := Stamped(achievements, id, now);
          AddXp(reward);
        }
      }
    }

    method CheckAchievements(now: int)
      modifies this
      ensures State() == Checked(old(State()), now)
    {
      var snap := State();
      var all, unlocked := achievements, unlockedAchievements;
      for i := 0 to |all|
        invariant State() == CheckPrefix(snap, i, now)
      {
        var a := all[i];
        if a.id !in unlocked {
          var p := RuleProgress(a.id, snap.totalSessions, snap.consecutiveDays, snap.totalFocusMinutes);
          achievements := WithProgress(all, a.id, p);
          if p >= a.maxProgress {
            UnlockAchievement(a.id, now);
          }
        }
      }
    }

    method AddCrystal(crystal: Crystal)
      modifies this
      ensures State() == old(State()).(crystals := old(crystals) + [crystal])
    {
      crystals := crystals + [crystal];
    }

    method SetActiveCrystal(id: string)
      modifies this
      ensures State() == old(State()).(activeCrystal := Some(id))
    {
      activeCrystal := Some(id);
    }

    method UpdateSessionStats(minutes: int, isNewDay: bool, now: int)
      modifies this
      ensures State() == WithSessionStats(old(State()), minutes, isNewDay, now)
    {
      var award := SessionAward(minutes, consecutiveDays);
      var days := if isNewDay then consecutiveDays + 1 else consecutiveDays;
      totalSessions, totalFocusMinutes := totalSessions + 1, totalFocusMinutes + minutes;
      consecutiveDays, longestStreak := days, if isNewDay then Max(longestStreak, days) else longestStreak;
      assert State() == Counted(old(State()), minutes, isNewDay);
      AddXp(award);
      CheckAchievements(now);
    }

    /** `getNextLevelXp`: the cost of the level after the next. */
    function GetNextLevelXp(): (r: int)
      reads this
      requires level >= 0
      ensures r == XpForLevel(level + 1)
      ensures r >= 100
    {
      XpForLevel(level + 1)
    }

    function GetUnlockedAchievements(): (r: seq<Achievement>)
      reads this
      ensures forall a :: a in r <==> a in achievements && a.id in unlockedAchievements
    {
      UnlockedOnes(achievements, unlockedAchievements)
    }

    function GetPendingAchievements(): (r: seq<Achievement>)
      reads this
      ensures forall a :: a in r <==> a in achievements && a.id !in unlockedAchievements
    {
      PendingOnes(achievements, unlockedAchievements)
    }
  }
}
