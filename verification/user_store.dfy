/** The user progression store: a linear levelling rule, focus time and
    session counters, a calendar-day streak, crystal and achievement
    unlocks. The remote profile database is outside the model; only the
    local state changes are modelled. Day numbers stand for the
    `toDateString()` strings the store compares. */
module UserProgress {
  import opened Wrappers
  import opened Lists

  datatype UserState = UserState(
    walletAddress: Option<string>,
    username: string,
    level: int,
    xp: int,
    totalFocusTime: int,
    totalSessions: int,
    streak: int,
    lastSessionDate: Option<int>,
    unlockedCrystals: seq<string>,
    activeCrystal: Option<string>,
    achievements: map<string, bool>)

  const BaseCrystal: string := "base_crystal"

  const Initial: UserState := UserState(
    None, "Focys User", 1, 0, 0, 0, 0, None, [BaseCrystal], Some(BaseCrystal), map[])

  /** `addXp`: reaching `level * 100` moves up exactly one level and keeps
      the excess, however large; otherwise the XP just grows. */
  function WithXp(u: UserState, amount: int): (r: UserState)
    ensures r.level == u.level + 1 <==> u.xp + amount >= u.level * 100
    ensures r.level == u.level || r.level == u.level + 1
    ensures r.xp + (r.level - u.level) * (u.level * 100) == u.xp + amount
    ensures r == u.(level := r.level, xp := r.xp)
  {
    var total := u.xp + amount;
    var threshold := u.level * 100;
    if total >= threshold then u.(xp := total - threshold, level := u.level + 1)
    else u.(xp := total)
  }

  /** A single large award still moves up only one level: 1000 XP at level
      1 gives level 2 with 900 XP, above level 2's threshold of 200. */
  lemma OneLevelPerCall()
    ensures WithXp(Initial, 1000).level == 2 && WithXp(Initial, 1000).xp == 900
  {
  }

  /** Non-negative XP and awards and a positive level stay so. */
  lemma LevelUpKeepsXpNonNegative(u: UserState, amount: int)
    requires u.xp >= 0 && amount >= 0 && u.level >= 1
    ensures WithXp(u, amount).xp >= 0 && WithXp(u, amount).level >= 1
  {
  }

  /** `updateStreak` on day `today`: nothing on a day already counted;
      one more after yesterday; otherwise a new streak of 1. */
  function StreakAfter(u: UserState, today: int): (r: UserState)
    ensures u.lastSessionDate == Some(today) ==> r == u
    ensures r.lastSessionDate == Some(today)
    ensures u.lastSessionDate != Some(today) ==>
      r.streak == if u.lastSessionDate == Some(today - 1) then u.streak + 1 else 1
    ensures r == u.(streak := r.streak, lastSessionDate := r.lastSessionDate)
  {
    if u.lastSessionDate == Some(today) then u
    else u.(lastSessionDate := Some(today),
            streak := if u.lastSessionDate == Some(today - 1) then u.streak + 1 else 1)
  }

  /** Two streak updates on the same day are one. */
  lemma StreakSameDayIdempotent(u: UserState, today: int)
    ensures StreakAfter(StreakAfter(u, today), today) == StreakAfter(u, today)
  {
  }

  /** Sessions on `n` consecutive days starting after a gap build a streak
      of `n`. */
  lemma {:induction false} ConsecutiveDaysStreak(u: UserState, first: int, n: nat)
    requires n >= 1
    requires u.lastSessionDate.None? || u.lastSessionDate.value < first - 1 || u.lastSessionDate.value > first
    ensures DailyStreak(u, first, n).streak == n
    ensures DailyStreak(u, first, n).lastSessionDate == Some(first + n - 1)
  {
    if n > 1 {
      ConsecutiveDaysStreak(u, first, n - 1);
    }
  }

  /** The state after `updateStreak` on each of the `n` days from `first`. */
  function DailyStreak(u: UserState, first: int, n: nat): UserState
  {
    if n == 0 then u else StreakAfter(DailyStreak(u, first, n - 1), first + n - 1)
  }

  /** `unlockCrystal`: `[...new Set([...crystals, id])]`. */
  function WithCrystal(u: UserState, id: string): (r: UserState)
    ensures id in r.unlockedCrystals && NoDup(r.unlockedCrystals)
    ensures forall c :: c in r.unlockedCrystals <==> c in u.unlockedCrystals || c == id
    ensures NoDup(u.unlockedCrystals) && id !in u.unlockedCrystals ==>
      r.unlockedCrystals == u.unlockedCrystals + [id]
    ensures NoDup(u.unlockedCrystals) && id in u.unlockedCrystals ==>
      r.unlockedCrystals == u.unlockedCrystals
    ensures r == u.(unlockedCrystals := r.unlockedCrystals)
  {
    var crystals := Dedup(u.unlockedCrystals + [id]);
    DedupSnoc(u.unlockedCrystals, id);
    assert NoDup(u.unlockedCrystals) ==> Dedup(u.unlockedCrystals) == u.unlockedCrystals by {
      if NoDup(u.unlockedCrystals) {
        DedupOfNoDup(u.unlockedCrystals);
      }
    }
    u.(unlockedCrystals := crystals)
  }

  /** Unlocking the same crystal twice is unlocking it once. */
  lemma CrystalIdempotent(u: UserState, id: string)
    ensures WithCrystal(WithCrystal(u, id), id) == WithCrystal(u, id)
  {
    AddUniqueIdempotent(u.unlockedCrystals, id);
  }

  /** `unlockAchievement`: the key is set to true, every other key kept. */
  function WithAchievement(u: UserState, id: string): (r: UserState)
    ensures id in r.achievements && r.achievements[id]
    ensures r.achievements.Keys == u.achievements.Keys + {id}
    ensures forall k :: k in u.achievements && k != id ==> r.achievements[k] == u.achievements[k]
    ensures r == u.(achievements := r.achievements)
  {
    u.(achievements := u.achievements[id := true])
  }

  /** A profile row as read from the remote database; `None` stands for a
      missing or null column. */
  datatype RemoteProfile = RemoteProfile(
    username: string,
    level: int,
    xp: int,
    totalFocusTime: int,
    totalSessions: int,
    streak: int,
    lastSessionDate: Option<int>,
    unlockedCrystals: Option<seq<string>>,
    activeCrystal: Option<string>,
    achievements: Option<map<string, bool>>)

  /** `syncFromRemote`: no profile changes nothing; otherwise the profile's
      fields are copied, a missing crystal list or a missing or empty active
      crystal falling back to the base crystal, missing achievements to none.
      The wallet address is kept. */
  function Synced(u: UserState, profile: Option<RemoteProfile>): (r: UserState)
    ensures profile.None? ==> r == u
    ensures profile.Some? ==>
      && r.walletAddress == u.walletAddress
      && r.unlockedCrystals == profile.value.unlockedCrystals.GetOr([BaseCrystal])
      && (r.activeCrystal == Some(BaseCrystal) <==>
            profile.value.activeCrystal.GetOr("") in {"", BaseCrystal})
      && r.achievements == profile.value.achievements.GetOr(map[])
      && r.level == profile.value.level && r.xp == profile.value.xp
      && r.username == profile.value.username
      && r.totalFocusTime == profile.value.totalFocusTime && r.totalSessions == profile.value.totalSessions
      && r.streak == profile.value.streak && r.lastSessionDate == profile.value.lastSessionDate
      && (profile.value.activeCrystal.GetOr("") != "" ==> r.activeCrystal == profile.value.activeCrystal)
      && r.activeCrystal.Some?
  {
    match profile
    case None => u
    case Some(p) =>
      UserState(
        u.walletAddress, p.username, p.level, p.xp, p.totalFocusTime,
        p.totalSessions, p.streak, p.lastSessionDate,
        p.unlockedCrystals.GetOr([BaseCrystal]),
        Some(if p.activeCrystal.GetOr("") == "" then BaseCrystal else p.activeCrystal.value),
        p.achievements.GetOr(map[]))
  }

  /** Calls made on the user store by other stores, in order. */
  datatype UserRequest =
    | AddXpRequest(amount: int)
    | AddFocusTimeRequest(minutes: int)
    | IncrementSessionsRequest
    | UpdateStreakRequest
    | UnlockAchievementRequest(id: string)

  function Perform(u: UserState, request: UserRequest, today: int): UserState
  {
    match request
    case AddXpRequest(amount) => WithXp(u, amount)
    case AddFocusTimeRequest(minutes) => u.(totalFocusTime := u.totalFocusTime + minutes)
    case IncrementSessionsRequest => u.(totalSessions := u.totalSessions + 1)
    case UpdateStreakRequest => StreakAfter(u, today)
    case UnlockAchievementRequest(id) => WithAchievement(u, id)
  }

  function PerformAll(u: UserState, requests: seq<UserRequest>, today: int): UserState
    decreases |requests|
  {
    if |requests| == 0 then u
    else PerformAll(Perform(u, requests[0], today), requests[1..], today)
  }

  class UserStore {
    var walletAddress: Option<string>
    var username: string
    var level: int
    var xp: int
    var totalFocusTime: int
    var totalSessions: int
    var streak: int
    var lastSessionDate: Option<int>
    var unlockedCrystals: seq<string>
    var activeCrystal: Option<string>
    var achievements: map<string, bool>

    function State(): UserState
      reads this
    {
      UserState(walletAddress, username, level, xp, totalFocusTime, totalSessions,
                streak, lastSessionDate, unlockedCrystals, activeCrystal, achievements)
    }

    constructor ()
      ensures State() == Initial
    {
      var i := Initial;
      walletAddress, username, level, xp := i.walletAddress, i.username, i.level, i.xp;
      totalFocusTime, totalSessions, streak := i.totalFocusTime, i.totalSessions, i.streak;
      lastSessionDate, unlockedCrystals := i.lastSessionDate, i.unlockedCrystals;
      activeCrystal, achievements := i.activeCrystal, i.achievements;
    }

    /** Only the local assignment; the remote profile fetch is not modelled. */
    method SetWalletAddress(address: Option<string>)
      modifies this
      ensures State() == old(State()).(walletAddress := address)
    {
      walletAddress := address;
    }

    method SetUsername(name: string)
      modifies this
      ensures State() == old(State()).(username := name)
    {
      username := name;
    }

    method AddXp(amount: int)
      modifies this
      ensures State() == WithXp(old(State()), amount)
    {
      var newXp := xp + amount;
      var threshold := level * 100;
      if newXp >= threshold {
        xp, level := newXp - threshold, level + 1;
      } else {
        xp := newXp;
      }
    }

    method AddFocusTime(minutes: int)
      modifies this
      ensures State() == old(State()).(totalFocusTime := old(totalFocusTime) + minutes)
    {
      totalFocusTime := totalFocusTime + minutes;
    }

    method IncrementSessions()
      modifies this
      ensures State() == old(State()).(totalSessions := old(totalSessions) + 1)
    {
      totalSessions := totalSessions + 1;
    }

    method UpdateStreak(today: int)
      modifies this
      ensures State() == StreakAfter(old(State()), today)
    {
      if lastSessionDate == Some(today) {
        return;
      }
      streak := if lastSessionDate == Some(today - 1) then streak + 1 else 1;
      lastSessionDate := Some(today);
    }

    method UnlockCrystal(id: string)
      modifies this
      ensures State() == WithCrystal(old(State()), id)
    {
      unlockedCrystals := Dedup(unlockedCrystals + [id]);
    }

    method SetActiveCrystal(id: Option<string>)
      modifies this
      ensures State() == old(State()).(activeCrystal := id)
    {
      activeCrystal := id;
    }

    method UnlockAchievement(id: string)
      modifies this
      ensures State() == WithAchievement(old(State()), id)
    {
      achievements := achievements[id := true];
    }

    method ResetUser()
      modifies this
      ensures State() == Initial
    {
      var i := Initial;
      walletAddress, username, level, xp := i.walletAddress, i.username, i.level, i.xp;
      totalFocusTime, totalSessions, streak := i.totalFocusTime, i.totalSessions, i.streak;
      lastSessionDate, unlockedCrystals := i.lastSessionDate, i.unlockedCrystals;
      activeCrystal, achievements := i.activeCrystal, i.achievements;
    }

    method SyncFromRemote(profile: Option<RemoteProfile>)
      modifies this
      ensures State() == Synced(old(State()), profile)
    {
      if profile.None? {
        return;
      }
      var p := profile.value;
      var crystal := if p.activeCrystal.GetOr("") == "" then BaseCrystal else p.activeCrystal.value;
      username, level, xp := p.username, p.level, p.xp;
      totalFocusTime, totalSessions, streak := p.totalFocusTime, p.totalSessions, p.streak;
      lastSessionDate := p.lastSessionDate;
      unlockedCrystals := p.unlockedCrystals.GetOr([BaseCrystal]);
      activeCrystal := Some(crystal);
      achievements := p.achievements.GetOr(map[]);
    }
  }
}
