/** The session list store: the session in progress, the most-recent-first
    list of finished sessions with their tags, notes and storage receipt,
    and the calls finishing a session makes on the user store. */
module SessionList {
  import opened Wrappers
  import opened Lists
  import opened Timer
  import opened UserProgress

  /** A session; times in milliseconds, `duration` in whole minutes.
      `irysTxId` is the receipt of the permanent-storage upload. */
  datatype Session = Session(
    id: string,
    startTime: int,
    endTime: Option<int>,
    duration: int,
    sessionType: SessionType,
    xpEarned: int,
    tags: seq<string>,
    notes: string,
    irysTxId: Option<string>)

  datatype SessionStoreState = SessionStoreState(
    sessions: seq<Session>,
    currentSession: Option<Session>)

  /** `startSession`: a fresh session in progress; the list is untouched. */
  function Started(st: SessionStoreState, kind: SessionType, tags: seq<string>, id: string, now: int): (r: SessionStoreState)
    ensures r.sessions == st.sessions
    ensures r.currentSession.Some?
    ensures var c := r.currentSession.value;
      && c.id == id && c.startTime == now && c.sessionType == kind && c.tags == tags
      && c.endTime.None? && c.duration == 0 && c.xpEarned == 0 && c.notes == ""
  {
    st.(currentSession := Some(Session(id, now, None, 0, kind, 0, tags, "", None)))
  }

  /** Whole minutes between two time stamps, rounded down. */
  function ElapsedMinutes(start: int, end: int): (r: int)
    ensures 60000 * r <= end - start < 60000 * (r + 1)
  {
    (end - start) / 60000
  }

  /** XP for a finished session: at least 10 and otherwise one and a half
      per minute, rounded down, for focus; nothing for breaks. */
  function SessionXp(kind: SessionType, minutes: int): (r: int)
    ensures kind != Focus ==> r == 0
    ensures kind == Focus ==> r >= 10
    ensures kind == Focus && minutes >= 7 ==> 2 * r <= 3 * minutes < 2 * r + 2
    ensures kind == Focus && minutes < 7 ==> r == 10
  {
    if kind == Focus then (var x := (3 * minutes) / 2; if x >= 10 then x else 10) else 0
  }

  /** The finished session built from the one in progress. */
  function Completed(current: Session, notes: string, now: int): (r: Session)
    ensures r.id == current.id && r.startTime == current.startTime && r.sessionType == current.sessionType
    ensures r.tags == current.tags && r.irysTxId == current.irysTxId
    ensures r.endTime == Some(now) && r.notes == notes
    ensures 60000 * r.duration <= now - current.startTime < 60000 * (r.duration + 1)
    ensures r.xpEarned == SessionXp(current.sessionType, r.duration)
  {
    var minutes := ElapsedMinutes(current.startTime, now);
    current.(endTime := Some(now), duration := minutes,
             xpEarned := SessionXp(current.sessionType, minutes), notes := notes)
  }

  /** Every session with this id gets the storage receipt. */
  function WithTxId(sessions: seq<Session>, id: string, txId: string): (r: seq<Session>)
    ensures |r| == |sessions|
    ensures forall k :: 0 <= k < |sessions| ==>
      if sessions[k].id == id then r[k] == sessions[k].(irysTxId := Some(txId)) else r[k] == sessions[k]
  {
    seq(|sessions|, k requires 0 <= k < |sessions| =>
      if sessions[k].id == id then sessions[k].(irysTxId := Some(txId)) else sessions[k])
  }

  /** The local part of `endCurrentSession`: without a session in progress
      nothing changes; otherwise the finished session goes to the front and
      none is in progress. `upload` is the receipt of the upload that
      follows, if it succeeded. */
  function Ended(st: SessionStoreState, notes: string, now: int, upload: Option<string>): (r: SessionStoreState)
    ensures st.currentSession.None? ==> r == st
    ensures st.currentSession.Some? ==>
      && r.currentSession.None?
      && |r.sessions| == |st.sessions| + 1
      && r.sessions[0].id == st.currentSession.value.id
      && r.sessions[0].endTime == Some(now)
      && r.sessions[0].duration == ElapsedMinutes(st.currentSession.value.startTime, now)
      && r.sessions[0].notes == notes
      && r.sessions[0].tags == st.currentSession.value.tags
      && r.sessions[0].sessionType == st.currentSession.value.sessionType
      && r.sessions[0].startTime == st.currentSession.value.startTime
      && r.sessions[0].xpEarned == SessionXp(st.currentSession.value.sessionType, r.sessions[0].duration)
      && (upload.None? ==> r.sessions[1..] == st.sessions)
      && (upload.Some? ==> r.sessions[0].irysTxId == upload)
      && (upload.Some? ==> r.sessions[1..] == WithTxId(st.sessions, st.currentSession.value.id, upload.value))
  {
    match st.currentSession
    case None => st
    case Some(current) =>
      var done := Completed(current, notes, now);
      var sessions := [done] + st.sessions;
      SessionStoreState(
        if upload.Some? then WithTxId(sessions, done.id, upload.value) else sessions,
        None)
  }

  /** The calls `endCurrentSession` makes on the user store, in order, given
      the session count the user store held when it was read. */
  function EndRequests(xp: int, minutes: int, priorSessions: int): seq<UserRequest>
  {
    BaseRequests(xp, minutes) + UnlockRequests(EndUnlocks(minutes, priorSessions))
  }

  function BaseRequests(xp: int, minutes: int): seq<UserRequest>
  {
    [AddXpRequest(xp), AddFocusTimeRequest(minutes), IncrementSessionsRequest, UpdateStreakRequest]
  }

  lemma PerformAllAppend(u: UserState, a: seq<UserRequest>, b: seq<UserRequest>, today: int)
    ensures PerformAll(u, a + b, today) == PerformAll(PerformAll(u, a, today), b, today)
    decreases |a|
  {
    if |a| == 0 {
      assert a + b == b;
    } else {
      assert (a + b)[0] == a[0] && (a + b)[1..] == a[1..] + b;
      PerformAllAppend(Perform(u, a[0], today), a[1..], b, today);
    }
  }

  lemma PerformUnlocks(u: UserState, ids: seq<string>, today: int)
    ensures var r := PerformAll(u, UnlockRequests(ids), today);
      && r == u.(achievements := r.achievements)
      && r.achievements.Keys == u.achievements.Keys + (set x | x in ids)
      && (forall k :: 0 <= k < |ids| ==> r.achievements[ids[k]])
      && (forall key :: key in u.achievements && key !in ids ==> r.achievements[key] == u.achievements[key])
    decreases |ids|
  {
    var reqs := UnlockRequests(ids);
    if |ids| > 0 {
      var u1 := WithAchievement(u, ids[0]);
      var tail := ids[1..];
      var r := PerformAll(u, reqs, today);
      var r1 := PerformAll(u1, UnlockRequests(tail), today);
      assert r == r1 by {
        assert reqs[0] == UnlockAchievementRequest(ids[0]);
        assert reqs[1..] == UnlockRequests(tail);
      }
      PerformUnlocks(u1, tail, today);
      assert r.achievements.Keys == u.achievements.Keys + (set x | x in ids) by {
        assert (set x | x in ids) == {ids[0]} + (set x | x in tail) by {
          assert ids == [ids[0]] + tail;
        }
      }
      forall k | 0 <= k < |ids|
        ensures r.achievements[ids[k]]
      {
        if k > 0 {
          assert ids[k] == tail[k - 1];
        } else if ids[0] in tail {
          var j :| 0 <= j < |tail| && tail[j] == ids[0];
          assert r1.achievements[tail[j]];
        }
      }
      forall key | key in u.achievements && key !in ids
        ensures r.achievements[key] == u.achievements[key]
      {
        assert key != ids[0] && key !in tail;
      }
    }
  }

  /** The four unconditional calls. */
  lemma BaseRequestsEffect(u: UserState, xp: int, minutes: int, today: int)
    ensures var r := PerformAll(u, BaseRequests(xp, minutes), today);
      && r.totalSessions == u.totalSessions + 1
      && r.totalFocusTime == u.totalFocusTime + minutes
      && r.lastSessionDate == Some(today)
      && r.achievements == u.achievements
  {
    var base := BaseRequests(xp, minutes);
    var u1 := WithXp(u, xp);
    var u2 := u1.(totalFocusTime := u1.totalFocusTime + minutes);
    var u3 := u2.(totalSessions := u2.totalSessions + 1);
    var u4 := StreakAfter(u3, today);
    var rest1 := [AddFocusTimeRequest(minutes), IncrementSessionsRequest, UpdateStreakRequest];
    var rest2 := [IncrementSessionsRequest, UpdateStreakRequest];
    var rest3 := [UpdateStreakRequest];
    assert base[1..] == rest1 && rest1[1..] == rest2 && rest2[1..] == rest3 && rest3[1..] == [];
    assert PerformAll(u3, rest3, today) == u4;
    assert PerformAll(u2, rest2, today) == u4;
    assert PerformAll(u1, rest1, today) == u4;
  }

  /** The achievement ids `endCurrentSession` unlocks. */
  function EndUnlocks(minutes: int, priorSessions: int): (r: seq<string>)
    ensures "first_session" in r <==> priorSessions == 0
    ensures "five_sessions" in r <==> priorSessions >= 4
    ensures "hour_long_session" in r <==> minutes >= 60
    ensures NoDup(r) && forall x :: x in r ==> x in {"first_session", "five_sessions", "hour_long_session"}
  {
    (if priorSessions + 1 == 1 then ["first_session"] else [])
      + (if priorSessions + 1 >= 5 then ["five_sessions"] else [])
      + (if minutes >= 60 then ["hour_long_session"] else [])
  }

  function UnlockRequests(ids: seq<string>): seq<UserRequest>
  {
    seq(|ids|, k requires 0 <= k < |ids| => UnlockAchievementRequest(ids[k]))
  }

  /** Applying the requests of a finished session to the user store: one
      more session, the minutes added, and each achievement key set exactly
      when its rule holds (or it was set already). */
  lemma EndRequestsEffect(u: UserState, xp: int, minutes: int, today: int)
    ensures var r := PerformAll(u, EndRequests(xp, minutes, u.totalSessions), today);
      && r.totalSessions == u.totalSessions + 1
      && r.totalFocusTime == u.totalFocusTime + minutes
      && r.lastSessionDate == Some(today)
      && ("first_session" in r.achievements <==> "first_session" in u.achievements || u.totalSessions == 0)
      && ("five_sessions" in r.achievements <==> "five_sessions" in u.achievements || u.totalSessions >= 4)
      && ("hour_long_session" in r.achievements <==> "hour_long_session" in u.achievements || minutes >= 60)
  {
    var ids := EndUnlocks(minutes, u.totalSessions);
    assert EndRequests(xp, minutes, u.totalSessions) == BaseRequests(xp, minutes) + UnlockRequests(ids);
    PerformAllAppend(u, BaseRequests(xp, minutes), UnlockRequests(ids), today);
    BaseRequestsEffect(u, xp, minutes, today);
    PerformUnlocks(PerformAll(u, BaseRequests(xp, minutes), today), ids, today);
    assert "first_session" in ids <==> u.totalSessions == 0;
    assert "five_sessions" in ids <==> u.totalSessions >= 4;
    assert "hour_long_session" in ids <==> minutes >= 60;
  }

  /** `updateSessionNotes`. */
  function WithNotes(sessions: seq<Session>, id: string, notes: string): (r: seq<Session>)
    ensures |r| == |sessions|
    ensures forall k :: 0 <= k < |sessions| ==>
      if sessions[k].id == id then r[k] == sessions[k].(notes := notes) else r[k] == sessions[k]
  {
    seq(|sessions|, k requires 0 <= k < |sessions| =>
      if sessions[k].id == id then sessions[k].(notes := notes) else sessions[k])
  }

  /** `deleteSession`: every session with this id goes, the rest keep their
      order. */
  function Deleted(sessions: seq<Session>, id: string): (r: seq<Session>)
    ensures |r| <= |sessions|
  {
    if |sessions| == 0 then []
    else (if sessions[0].id != id then [sessions[0]] else []) + Deleted(sessions[1..], id)
  }

  /** Deleting from a concatenation deletes from each part, in place. */
  lemma {:induction false} DeletedAppend(a: seq<Session>, b: seq<Session>, id: string)
    ensures Deleted(a + b, id) == Deleted(a, id) + Deleted(b, id)
  {
    if |a| == 0 {
      assert a + b == b;
    } else {
      var x, tail := a[0], a[1..];
      var head := if x.id != id then [x] else [];
      var left, right := Deleted(tail, id), Deleted(b, id);
      assert Deleted(a + b, id) == head + Deleted(tail + b, id) by {
        assert a + b == [x] + (tail + b);
        DeletedCons(x, tail + b, id);
      }
      assert Deleted(a, id) == head + left by {
        assert a == [x] + tail;
        DeletedCons(x, tail, id);
      }
      assert Deleted(tail + b, id) == left + right by {
        DeletedAppend(tail, b, id);
      }
      assert head + (left + right) == (head + left) + right;
    }
  }

  /** Exactly the sessions with another id remain. */
  lemma {:induction false} DeletedMembers(sessions: seq<Session>, id: string)
    ensures forall s :: s in Deleted(sessions, id) <==> s in sessions && s.id != id
  {
    if |sessions| > 0 {
      DeletedMembers(sessions[1..], id);
      assert sessions == [sessions[0]] + sessions[1..];
    }
  }

  lemma DeletedCons(x: Session, rest: seq<Session>, id: string)
    ensures Deleted([x] + rest, id) == (if x.id != id then [x] else []) + Deleted(rest, id)
  {
    assert ([x] + rest)[1..] == rest;
  }

  /** Deleting an id no session has changes nothing. */
  lemma {:induction false} DeletedAbsent(sessions: seq<Session>, id: string)
    requires forall k :: 0 <= k < |sessions| ==> sessions[k].id != id
    ensures Deleted(sessions, id) == sessions
  {
    if |sessions| > 0 {
      DeletedAbsent(sessions[1..], id);
    }
  }

  /** `addSessionTag`: the target sessions hold the tag once, no tag is lost,
      other sessions are untouched. */
  function WithTagAdded(sessions: seq<Session>, id: string, tag: string): (r: seq<Session>)
    ensures |r| == |sessions|
    ensures forall k :: 0 <= k < |sessions| && sessions[k].id != id ==> r[k] == sessions[k]
    ensures forall k :: 0 <= k < |sessions| && sessions[k].id == id ==>
      && r[k] == sessions[k].(tags := r[k].tags)
      && tag in r[k].tags && NoDup(r[k].tags)
      && (forall t :: t in r[k].tags <==> t in sessions[k].tags || t == tag)
  {
    seq(|sessions|, k requires 0 <= k < |sessions| =>
      if sessions[k].id == id then sessions[k].(tags := Dedup(sessions[k].tags + [tag])) else sessions[k])
  }

  /** Adding a tag twice is adding it once. */
  lemma TagAddIdempotent(sessions: seq<Session>, id: string, tag: string)
    ensures WithTagAdded(WithTagAdded(sessions, id, tag), id, tag) == WithTagAdded(sessions, id, tag)
  {
    var once := WithTagAdded(sessions, id, tag);
    forall k | 0 <= k < |sessions| && sessions[k].id == id
      ensures Dedup(once[k].tags + [tag]) == once[k].tags
    {
      AddUniqueIdempotent(sessions[k].tags, tag);
    }
  }

  /** `removeSessionTag`: every occurrence of the tag leaves the target
      sessions, other tags and sessions stay. */
  function WithTagRemoved(sessions: seq<Session>, id: string, tag: string): (r: seq<Session>)
    ensures |r| == |sessions|
    ensures forall k :: 0 <= k < |sessions| && sessions[k].id != id ==> r[k] == sessions[k]
    ensures forall k :: 0 <= k < |sessions| && sessions[k].id == id ==>
      && r[k] == sessions[k].(tags := r[k].tags)
      && (forall t :: t in r[k].tags <==> t in sessions[k].tags && t != tag)
  {
    seq(|sessions|, k requires 0 <= k < |sessions| =>
      if sessions[k].id == id then sessions[k].(tags := Remove(sessions[k].tags, tag)) else sessions[k])
  }

  class SessionStore {
    var sessions: seq<Session>
    var currentSession: Option<Session>

    function State(): SessionStoreState
      reads this
    {
      SessionStoreState(sessions, currentSession)
    }

    constructor ()
      ensures State() == SessionStoreState([], None)
    {
      sessions, currentSession := [], None;
    }

    /** `id` stands for the random id and `now` for the clock. */
    method StartSession(kind: SessionType, tags: seq<string>, id: string, now: int) returns (sessionId: string)
      modifies this
      ensures State() == Started(old(State()), kind, tags, id, now)
      ensures sessionId == id
    {
      currentSession := Some(Session(id, now, None, 0, kind, 0, tags, "", None));
      sessionId := id;
    }

    /** Finishes the session in progress and returns the calls it makes on
      the user store; `userSessions` is the user store's session count when
      read. */
    method EndCurrentSession(notes: string, now: int, upload: Option<string>, userSessions: int)
      returns (requests: seq<UserRequest>)
      modifies this
      ensures State() == Ended(old(State()), notes, now, upload)
      ensures old(currentSession).None? ==> requests == []
      ensures old(currentSession).Some? ==>
        var done := Completed(old(currentSession).value, notes, now);
        requests == EndRequests(done.xpEarned, done.duration, userSessions)
    {
      if currentSession.None? {
        return [];
      }
      var done := Completed(currentSession.value, notes, now);
      sessions, currentSession := [done] + sessions, None;
      if upload.Some? {
        SetIrysTxId(done.id, upload.value);
      }
      requests := EndRequests(done.xpEarned, done.duration, userSessions);
    }

    method UpdateSessionNotes(id: string, notes: string)
      modifies this
      ensures State() == old(State()).(sessions := WithNotes(old(sessions), id, notes))
    {
      sessions := WithNotes(sessions, id, notes);
    }

    method DeleteSession(id: string)
      modifies this
      ensures State() == old(State()).(sessions := Deleted(old(sessions), id))
    {
      sessions := Deleted(sessions, id);
    }

    method AddSessionTag(id: string, tag: string)
      modifies this
      ensures State() == old(State()).(sessions := WithTagAdded(old(sessions), id, tag))
    {
      sessions := WithTagAdded(sessions, id, tag);
    }

    method RemoveSessionTag(id: string, tag: string)
      modifies this
      ensures State() == old(State()).(sessions := WithTagRemoved(old(sessions), id, tag))
    {
      sessions := WithTagRemoved(sessions, id, tag);
    }

    method SetIrysTxId(id: string, txId: string)
      modifies this
      ensures State() == old(State()).(sessions := WithTxId(old(sessions), id, txId))
    {
      sessions := WithTxId(sessions, id, txId);
    }

    method ClearSessions()
      modifies this
      ensures State() == SessionStoreState([], None)
    {
      sessions, currentSession := [], None;
    }
  }
}
