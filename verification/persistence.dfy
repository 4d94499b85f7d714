/** The session-persistence service's pure helpers: time totals, the
    day-streak count, the summary record written on save, and the
    validation filter applied to imported JSON. Storage itself and JSON
    text are outside the model; import works on an already parsed value. */
module SessionPersistence {
  import opened Wrappers
  import opened Timer

  /** A parsed JSON value. Numbers are integers; NaN and fractions are not
      modelled. */
  datatype Json =
    | JNull
    | JBool(b: bool)
    | JNum(n: int)
    | JStr(s: string)
    | JArr(items: seq<Json>)
    | JObj(fields: map<string, Json>)

  /** JavaScript truthiness of a present value. */
  predicate Truthy(j: Json)
  {
    match j
    case JNull => false
    case JBool(b) => b
    case JNum(n) => n != 0
    case JStr(s) => s != ""
    case _ => true
  }

  /** Property access `j.key` on a non-null value; `None` is `undefined`. */
  function Get(j: Json, key: string): Option<Json>
  {
    if j.JObj? && key in j.fields then Some(j.fields[key]) else None
  }

  predicate TruthyField(j: Json, key: string)
  {
    Get(j, key).Some? && Truthy(Get(j, key).value)
  }

  predicate NumberField(j: Json, key: string)
  {
    Get(j, key).Some? && Get(j, key).value.JNum?
  }

  predicate BooleanField(j: Json, key: string)
  {
    Get(j, key).Some? && Get(j, key).value.JBool?
  }

  /** The import filter's test on one entry. */
  predicate IsValidEntry(j: Json)
  {
    && TruthyField(j, "id")
    && TruthyField(j, "type")
    && NumberField(j, "startTime")
    && NumberField(j, "endTime")
    && NumberField(j, "duration")
    && BooleanField(j, "completed")
  }

  /** The filter asks only for a truthy `type`: a type that names no
      session kind passes, an empty one does not. */
  lemma FilterAcceptsAnyTruthyType()
    ensures IsValidEntry(JObj(map["id" := JStr("a"), "type" := JStr("nap"), "startTime" := JNum(0),
                                  "endTime" := JNum(1), "duration" := JNum(1), "completed" := JBool(true)]))
    ensures !IsValidEntry(JObj(map["id" := JStr("a"), "type" := JStr(""), "startTime" := JNum(0),
                                   "endTime" := JNum(1), "duration" := JNum(1), "completed" := JBool(true)]))
  {
  }

  /** The entries that pass the filter, in their original order. */
  function KeepValid(items: seq<Json>): (r: seq<Json>)
    ensures |r| <= |items|
    ensures forall j :: j in r <==> j in items && IsValidEntry(j)
  {
    if |items| == 0 then []
    else (if IsValidEntry(items[0]) then [items[0]] else []) + KeepValid(items[1..])
  }

  /** Filtering a concatenation filters each part: the kept entries keep
      their relative order. */
  lemma {:induction false} KeepValidAppend(a: seq<Json>, b: seq<Json>)
    ensures KeepValid(a + b) == KeepValid(a) + KeepValid(b)
  {
    if |a| == 0 {
      assert a + b == b;
    } else {
      var head := if IsValidEntry(a[0]) then [a[0]] else [];
      assert KeepValid(a + b) == head + KeepValid(a[1..] + b) by {
        assert (a + b)[0] == a[0] && (a + b)[1..] == a[1..] + b;
      }
      assert KeepValid(a) == head + KeepValid(a[1..]);
      KeepValidAppend(a[1..], b);
      assert head + (KeepValid(a[1..]) + KeepValid(b)) == (head + KeepValid(a[1..])) + KeepValid(b);
    }
  }

  /** A list of valid entries passes unchanged. */
  lemma {:induction false} KeepValidAllValid(items: seq<Json>)
    requires forall k :: 0 <= k < |items| ==> IsValidEntry(items[k])
    ensures KeepValid(items) == items
  {
    if |items| > 0 {
      KeepValidAllValid(items[1..]);
    }
  }

  /** Whether the entries can be saved: `saveSessions` formats the first
      entry's `endTime` as an ISO date, which throws outside the Date range. */
  predicate FirstEndTimeSavable(entries: seq<Json>)
  {
    |entries| == 0 || (NumberField(entries[0], "endTime") && InDateRange(Get(entries[0], "endTime").value.n))
  }

  /** `importSessions` on the parsed value: `None` when it throws. It throws
      when `sessions` is missing or not an array, when an entry is `null`
      (reading a property of `null`), and when saving the kept entries
      throws because the first one's `endTime` is not a valid date. */
  function ImportSessions(data: Json): (r: Option<seq<Json>>)
    ensures r.Some? <==>
      && Get(data, "sessions").Some?
      && Get(data, "sessions").value.JArr?
      && JNull !in Get(data, "sessions").value.items
      && FirstEndTimeSavable(KeepValid(Get(data, "sessions").value.items))
    ensures r.Some? ==> r.value == KeepValid(Get(data, "sessions").value.items)
  {
    match Get(data, "sessions")
    case Some(JArr(items)) =>
      if JNull in items then None
      else
        var kept := KeepValid(items);
        if FirstEndTimeSavable(kept) then Some(kept) else None
    case _ => None
  }

  /** Only the first kept entry's date is formatted: an import whose first
      entry lies past the Date range fails, while a later one that does is
      imported. */
  lemma ImportChecksFirstDateOnly()
    ensures ImportSessions(JObj(map["sessions" := JArr([
      JObj(map["id" := JStr("a"), "type" := JStr("focus"), "startTime" := JNum(0),
               "endTime" := JNum(9000000000000000), "duration" := JNum(1), "completed" := JBool(true)])])])).None?
    ensures ImportSessions(JObj(map["sessions" := JArr([
      JObj(map["id" := JStr("a"), "type" := JStr("focus"), "startTime" := JNum(0),
               "endTime" := JNum(1), "duration" := JNum(1), "completed" := JBool(true)]),
      JObj(map["id" := JStr("b"), "type" := JStr("focus"), "startTime" := JNum(0),
               "endTime" := JNum(9000000000000000), "duration" := JNum(1), "completed" := JBool(true)])])])).Some?
  {
    var first := JObj(map["id" := JStr("a"), "type" := JStr("focus"), "startTime" := JNum(0),
                          "endTime" := JNum(9000000000000000), "duration" := JNum(1), "completed" := JBool(true)]);
    assert IsValidEntry(first);
    assert KeepValid([first]) == [first] by {
      KeepValidAllValid([first]);
    }
    var ok := JObj(map["id" := JStr("a"), "type" := JStr("focus"), "startTime" := JNum(0),
                       "endTime" := JNum(1), "duration" := JNum(1), "completed" := JBool(true)]);
    var late := JObj(map["id" := JStr("b"), "type" := JStr("focus"), "startTime" := JNum(0),
                         "endTime" := JNum(9000000000000000), "duration" := JNum(1), "completed" := JBool(true)]);
    assert IsValidEntry(ok) && IsValidEntry(late);
    assert KeepValid([ok, late]) == [ok, late] by {
      KeepValidAllValid([ok, late]);
    }
  }

  /** The JSON object a session log entry is stored as. */
  function ToJson(log: SessionLog): Json
  {
    JObj(map[
      "id" := JStr(log.id),
      "type" := JStr(TypeName(log.sessionType)),
      "startTime" := JNum(log.startTime),
      "endTime" := JNum(log.endTime),
      "duration" := JNum(log.duration),
      "completed" := JBool(log.completed)])
  }

  function ParseType(s: string): Option<SessionType>
  {
    if s == "focus" then Some(Focus)
    else if s == "shortBreak" then Some(ShortBreak)
    else if s == "longBreak" then Some(LongBreak)
    else None
  }

  /** Reads a stored entry back; `None` for anything `ToJson` cannot produce. */
  function FromJson(j: Json): (r: Option<SessionLog>)
    ensures r.Some? ==> IsValidEntry(j) || r.value.id == ""
  {
    if !j.JObj? then None
    else
      var f := j.fields;
      if && "id" in f && f["id"].JStr?
         && "type" in f && f["type"].JStr? && ParseType(f["type"].s).Some?
         && "startTime" in f && f["startTime"].JNum?
         && "endTime" in f && f["endTime"].JNum?
         && "duration" in f && f["duration"].JNum?
         && "completed" in f && f["completed"].JBool?
      then Some(SessionLog(f["id"].s, ParseType(f["type"].s).value, f["startTime"].n,
                           f["endTime"].n, f["duration"].n, f["completed"].b))
      else None
  }

  /** Reading back what was stored gives the entry back. */
  lemma JsonRoundTrip(log: SessionLog)
    ensures FromJson(ToJson(log)) == Some(log)
  {
    match log.sessionType
    case Focus =>
    case ShortBreak =>
      assert ParseType("shortBreak") == Some(ShortBreak);
    case LongBreak =>
      assert ParseType("longBreak") == Some(LongBreak);
  }

  /** A stored entry passes the import filter exactly when its id is not
      empty. */
  lemma StoredEntryValid(log: SessionLog)
    ensures IsValidEntry(ToJson(log)) <==> log.id != ""
  {
  }

  function Encoded(logs: seq<SessionLog>): (r: seq<Json>)
    ensures |r| == |logs|
    ensures forall k :: 0 <= k < |logs| ==> r[k] == ToJson(logs[k])
  {
    if |logs| == 0 then [] else [ToJson(logs[0])] + Encoded(logs[1..])
  }

  /** The object `exportSessions` serialises: the stored statistics (if
      any), overridden by the loaded sessions, the export time, the version
      and the app name. */
  function ExportObject(stats: Option<map<string, Json>>, logs: seq<SessionLog>, exportedAt: string): Json
  {
    JObj(stats.GetOr(map[]) + map[
      "sessions" := JArr(Encoded(logs)),
      "exportedAt" := JStr(exportedAt),
      "version" := JStr("1.0.0"),
      "app" := JStr("Focys")])
  }

  lemma ExportedSessionsField(stats: Option<map<string, Json>>, logs: seq<SessionLog>, exportedAt: string)
    ensures Get(ExportObject(stats, logs, exportedAt), "sessions") == Some(JArr(Encoded(logs)))
  {
    var extra := map[
      "sessions" := JArr(Encoded(logs)),
      "exportedAt" := JStr(exportedAt),
      "version" := JStr("1.0.0"),
      "app" := JStr("Focys")];
    assert "sessions" in extra && extra["sessions"] == JArr(Encoded(logs));
    var all := stats.GetOr(map[]) + extra;
    assert all["sessions"] == JArr(Encoded(logs));
  }

  /** Importing an export whose entries all have ids gives back exactly the
      exported entries, in order, unless the first end time is not a valid
      date, when it fails. */
  lemma {:induction false} ExportImportRoundTrip(stats: Option<map<string, Json>>, logs: seq<SessionLog>, exportedAt: string)
    requires forall k :: 0 <= k < |logs| ==> logs[k].id != ""
    ensures ImportSessions(ExportObject(stats, logs, exportedAt))
      == if |logs| == 0 || InDateRange(logs[0].endTime) then Some(Encoded(logs)) else None
  {
    var items := Encoded(logs);
    ExportedSessionsField(stats, logs, exportedAt);
    assert JNull !in items by {
      assert forall k :: 0 <= k < |items| ==> items[k].JObj?;
    }
    assert KeepValid(items) == items by {
      forall k | 0 <= k < |items| ensures IsValidEntry(items[k]) {
        StoredEntryValid(logs[k]);
      }
      KeepValidAllValid(items);
    }
    assert FirstEndTimeSavable(items) <==> |logs| == 0 || InDateRange(logs[0].endTime) by {
      if |logs| > 0 {
        assert items[0] == ToJson(logs[0]);
        assert Get(items[0], "endTime") == Some(JNum(logs[0].endTime));
      }
    }
  }

  /** An object whose `sessions` is missing or not an array is refused. */
  lemma ImportRefusesMalformed(data: Json)
    requires Get(data, "sessions").None? || !Get(data, "sessions").value.JArr?
    ensures ImportSessions(data).None?
  {
  }

  /** `calculateTotalTime`: total duration of the completed sessions whose
      type is one of `types`. */
  function TotalTime(sessions: seq<SessionLog>, types: set<SessionType>): (r: int)
    ensures |sessions| == 0 ==> r == 0
  {
    if |sessions| == 0 then 0
    else
      var s := sessions[|sessions| - 1];
      TotalTime(sessions[..|sessions| - 1], types) + (if s.sessionType in types && s.completed then s.duration else 0)
  }

  /** The total over a concatenation is the sum of the totals. */
  lemma {:induction false} TotalTimeAppend(a: seq<SessionLog>, b: seq<SessionLog>, types: set<SessionType>)
    ensures TotalTime(a + b, types) == TotalTime(a, types) + TotalTime(b, types)
    decreases |b|
  {
    if |b| == 0 {
      assert a + b == a;
    } else {
      TotalTimeAppend(a, b[..|b| - 1], types);
      assert (a + b)[..|a + b| - 1] == a + b[..|b| - 1];
    }
  }

  /** Totals over two disjoint type sets add up to the total over their
      union. */
  lemma {:induction false} TotalTimeSplit(sessions: seq<SessionLog>, t1: set<SessionType>, t2: set<SessionType>)
    requires t1 !! t2
    ensures TotalTime(sessions, t1) + TotalTime(sessions, t2) == TotalTime(sessions, t1 + t2)
  {
    if |sessions| > 0 {
      TotalTimeSplit(sessions[..|sessions| - 1], t1, t2);
    }
  }

  const BreakTypes: set<SessionType> := {ShortBreak, LongBreak}
  const AllTypes: set<SessionType> := {Focus, ShortBreak, LongBreak}

  /** The largest magnitude of a JavaScript time value: `new Date(ms)` is an
      invalid date beyond it (ECMA-262, Time Values and Time Range). */
  const MaxTimeValue := 8640000000000000

  predicate InDateRange(ms: int)
  {
    -MaxTimeValue <= ms <= MaxTimeValue
  }

  /** The day number of a millisecond time stamp (UTC days since the epoch). */
  function Day(ms: int): (r: int)
    ensures 86400000 * r <= ms < 86400000 * (r + 1)
  {
    ms / 86400000
  }

  /** Day numbers of the completed focus sessions, in list order. A session
      whose `endTime` is not a valid date is left out: its day difference is
      NaN, which matches neither test of the streak loop. */
  function FocusDays(sessions: seq<SessionLog>): (r: seq<int>)
    ensures |r| <= |sessions|
    ensures forall d :: d in r <==>
      exists k :: 0 <= k < |sessions| && sessions[k].completed && sessions[k].sessionType == Focus && InDateRange(sessions[k].endTime) && Day(sessions[k].endTime) == d
  {
    if |sessions| == 0 then []
    else
      var s := sessions[0];
      (if s.completed && s.sessionType == Focus && InDateRange(s.endTime) then [Day(s.endTime)] else []) + FocusDays(sessions[1..])
  }

  ghost predicate Descending(s: seq<int>)
  {
    forall i, j :: 0 <= i < j < |s| ==> s[i] >= s[j]
  }

  lemma AllAtMost(r: seq<int>, bound: int)
    requires forall y :: y in multiset(r) ==> y <= bound
    ensures forall k :: 0 <= k < |r| ==> r[k] <= bound
  {
    forall k | 0 <= k < |r|
      ensures r[k] <= bound
    {
      assert r[k] in multiset(r);
    }
  }

  lemma ConsDescending(h: int, t: seq<int>)
    requires Descending(t) && forall k :: 0 <= k < |t| ==> t[k] <= h
    ensures Descending([h] + t)
  {
    var s := [h] + t;
    forall i, j | 0 <= i < j < |s|
      ensures s[i] >= s[j]
    {
      if i > 0 {
        assert s[i] == t[i - 1] && s[j] == t[j - 1];
      } else {
        assert s[j] == t[j - 1];
      }
    }
  }

  function Insert(x: int, s: seq<int>): (r: seq<int>)
    requires Descending(s)
    ensures Descending(r) && multiset(r) == multiset(s) + multiset{x}
  {
    if |s| == 0 then [x]
    else if x >= s[0] then [x] + s
    else
      var rest := Insert(x, s[1..]);
      assert s == [s[0]] + s[1..];
      forall y | y in multiset(rest)
        ensures y <= s[0]
      {
        if y != x {
          var k :| 0 <= k < |s[1..]| && s[1..][k] == y;
        }
      }
      AllAtMost(rest, s[0]);
      ConsDescending(s[0], rest);
      [s[0]] + rest
  }

  /** The day numbers sorted latest first (the `sort` by descending end time,
      seen through the day numbers it is then used for). */
  function SortDesc(s: seq<int>): (r: seq<int>)
    ensures Descending(r) && multiset(r) == multiset(s)
  {
    if |s| == 0 then []
    else
      assert s == [s[0]] + s[1..];
      Insert(s[0], SortDesc(s[1..]))
  }

  /** Two latest-first orderings of the same days are the same sequence. */
  lemma {:induction false} DescendingUnique(s: seq<int>, t: seq<int>)
    requires Descending(s) && Descending(t) && multiset(s) == multiset(t)
    ensures s == t
    decreases |s|
  {
    if |s| == 0 {
      assert |multiset(t)| == 0;
    } else {
      assert |t| == |multiset(t)| > 0;
      assert s[0] in multiset(t) && t[0] in multiset(s);
      assert s[0] == t[0];
      assert s == [s[0]] + s[1..] && t == [t[0]] + t[1..];
      assert multiset(s) == multiset{s[0]} + multiset(s[1..]);
      assert multiset(t) == multiset{t[0]} + multiset(t[1..]);
      var a, b := multiset(s[1..]), multiset(t[1..]);
      forall y
        ensures a[y] == b[y]
      {
        assert multiset(s)[y] == multiset{s[0]}[y] + a[y];
        assert multiset(t)[y] == multiset{t[0]}[y] + b[y];
      }
      assert a == b;
      DescendingUnique(s[1..], t[1..]);
    }
  }

  /** The loop of `calculateStreakDays` from a given position: `cur` is the
      day currently compared against, `streak` the count so far. A gap equal
      to the streak extends it, a larger gap ends the scan, a smaller one
      (a day already counted, or a later day) is skipped. */
  function Scan(days: seq<int>, cur: int, streak: nat): (r: nat)
    ensures streak <= r <= streak + |days|
  {
    if |days| == 0 then streak
    else
      var diff := cur - days[0];
      if diff == streak then Scan(days[1..], days[0], streak + 1)
      else if diff > streak then streak
      else Scan(days[1..], cur, streak)
  }

  /** `calculateStreakDays`, with `today` the current day number. */
  function StreakDays(sessions: seq<SessionLog>, today: int): (r: nat)
    ensures r <= |FocusDays(sessions)|
  {
    if |sessions| == 0 then 0
    else
      var days := SortDesc(FocusDays(sessions));
      assert |days| == |multiset(days)| == |FocusDays(sessions)|;
      if |days| == 0 then 0 else Scan(days, today, 0)
  }

  /** Only the completed focus sessions' days matter. */
  lemma StreakDependsOnlyOnFocusDays(s1: seq<SessionLog>, s2: seq<SessionLog>, today: int)
    requires multiset(FocusDays(s1)) == multiset(FocusDays(s2))
    ensures StreakDays(s1, today) == StreakDays(s2, today)
  {
    DescendingUnique(SortDesc(FocusDays(s1)), SortDesc(FocusDays(s2)));
    if |s1| == 0 {
      assert |FocusDays(s2)| == |multiset(FocusDays(s2))| == 0;
    }
    if |s2| == 0 {
      assert |FocusDays(s1)| == |multiset(FocusDays(s1))| == 0;
    }
  }

  /** No completed focus session today (or later) means no streak. */
  lemma StaleStreakIsZero(sessions: seq<SessionLog>, today: int)
    requires forall d :: d in FocusDays(sessions) ==> d < today
    ensures StreakDays(sessions, today) == 0
  {
    if |sessions| > 0 {
      var days := SortDesc(FocusDays(sessions));
      if |days| > 0 {
        assert days[0] in multiset(days);
        assert days[0] in FocusDays(sessions);
        assert Scan(days, today, 0) == 0;
      }
    }
  }

  /** The gap test is against the running streak, not against the previous
      day: sessions today, yesterday and three days ago make a streak of 3. */
  lemma GapMatchingStreakCounts(today: int)
    ensures Scan([today, today - 1, today - 3], today, 0) == 3
  {
    assert Scan([today - 3], today - 1, 2) == 3;
  }

  /** `calculateStreakDays` as written: a loop over the sorted days that
      stops at the first gap larger than the streak. */
  method CalculateStreakDays(sessions: seq<SessionLog>, today: int) returns (streak: nat)
    ensures streak == StreakDays(sessions, today)
  {
    if |sessions| == 0 {
      return 0;
    }
    var days := SortDesc(FocusDays(sessions));
    if |days| == 0 {
      return 0;
    }
    streak := 0;
    var current := today;
    var i := 0;
    while i < |days|
      invariant 0 <= i <= |days|
      invariant Scan(days, today, 0) == Scan(days[i..], current, streak)
    {
      assert days[i..][1..] == days[i + 1..];
      var diff := current - days[i];
      if diff == streak {
        streak := streak + 1;
        current := days[i];
      } else if diff > streak {
        break;
      }
      i := i + 1;
    }
  }

  /** The record `saveSessions` stores; `lastSessionDate` is kept as the time
      stamp the ISO date string is formatted from. */
  datatype SessionData = SessionData(
    sessions: seq<SessionLog>,
    totalSessions: int,
    totalFocusTime: int,
    totalBreakTime: int,
    streakDays: int,
    lastSessionDate: int)

  /** The summary built by `saveSessions` at time `now`. */
  function Summarize(sessions: seq<SessionLog>, now: int): (r: SessionData)
    ensures r.sessions == sessions && r.totalSessions == |sessions|
    ensures r.totalFocusTime == TotalTime(sessions, {Focus})
    ensures r.totalBreakTime == TotalTime(sessions, BreakTypes)
    ensures r.totalFocusTime + r.totalBreakTime == TotalTime(sessions, AllTypes)
    ensures r.streakDays == StreakDays(sessions, Day(now))
    ensures 0 <= r.streakDays <= |FocusDays(sessions)|
    ensures r.lastSessionDate == if |sessions| > 0 then sessions[0].endTime else now
  {
    TotalTimeSplit(sessions, {Focus}, BreakTypes);
    assert {Focus} + BreakTypes == AllTypes;
    SessionData(
      sessions,
      |sessions|,
      TotalTime(sessions, {Focus}),
      TotalTime(sessions, BreakTypes),
      StreakDays(sessions, Day(now)),
      if |sessions| > 0 then sessions[0].endTime else now)
  }

  /** `saveSessions` at time `now`: `None` when it throws because the last
      session date is not a valid date, otherwise the summary it stores. */
  function SaveSessions(sessions: seq<SessionLog>, now: int): (r: Option<SessionData>)
    ensures r.Some? <==> |sessions| == 0 || InDateRange(sessions[0].endTime)
    ensures r.Some? ==> r.value == Summarize(sessions, now)
  {
    var data := Summarize(sessions, now);
    if |sessions| == 0 || InDateRange(data.lastSessionDate) then Some(data) else None
  }
}
