/**
 * Sources/Quanta/View+track.swift: screen-time tracking. A `ScreenSession`
 * accumulates the time a screen is visible across pauses; the
 * `ScreenTimeTracker` keeps the active sessions by screen id, stores an
 * estimate of each one so that a crash still leaves a record, and reports a
 * finished view when it lasted long enough. Times are integer milliseconds
 * and every method that reads the clock takes the current time `now`.
 */
module Screen {

  import opened Wrappers

  // ---------------------------------------------------------------------------
  // The timing state machine, as a value

  /** The timing fields of a session: when it last started or resumed, when it was
      paused (if it is), and the time accumulated before that. */
  datatype SessionClock = SessionClock(startTime: int, pauseTime: Option<int>, accumulated: int)

  /** `pause`: a paused clock stays as it is; otherwise the time since the start is banked. */
  function Paused(c: SessionClock, now: int): (r: SessionClock)
    ensures r.pauseTime.Some?
    ensures c.pauseTime.None? ==> r.pauseTime == Some(now) && r.accumulated == c.accumulated + (now - c.startTime)
    ensures c.pauseTime.Some? ==> r == c
  {
    if c.pauseTime.Some? then c else SessionClock(c.startTime, Some(now), c.accumulated + (now - c.startTime))
  }

  /** `resume`: a running clock stays as it is; otherwise it restarts now with the banked time kept. */
  function Resumed(c: SessionClock, now: int): (r: SessionClock)
    ensures r.pauseTime.None?
    ensures c.pauseTime.Some? ==> r.startTime == now && r.accumulated == c.accumulated
    ensures c.pauseTime.None? ==> r == c
  {
    if c.pauseTime.None? then c else SessionClock(now, None, c.accumulated)
  }

  /** `calculateDuration`: the banked time, plus the time since the start when running. */
  function DurationAt(c: SessionClock, now: int): (d: int)
    ensures c.pauseTime.Some? ==> d == c.accumulated
    ensures c.pauseTime.None? ==> d == c.accumulated + (now - c.startTime)
  {
    if c.pauseTime.Some? then c.accumulated else c.accumulated + (now - c.startTime)
  }

  /** Pausing does not change the duration at the pause instant, and the duration of a
      paused clock no longer moves. */
  lemma PauseFreezesDuration(c: SessionClock, now: int, later: int)
    ensures DurationAt(Paused(c, now), later) == DurationAt(c, now)
  {
  }

  /** A pause followed by a resume: at the resume instant the duration is the one at the pause. */
  lemma PauseResumeKeepsDuration(c: SessionClock, pausedAt: int, resumedAt: int)
    ensures DurationAt(Resumed(Paused(c, pausedAt), resumedAt), resumedAt) == DurationAt(c, pausedAt)
  {
  }

  lemma PauseIdempotent(c: SessionClock, t: int, t': int)
    ensures Paused(Paused(c, t), t') == Paused(c, t)
  {
  }

  lemma ResumeIdempotent(c: SessionClock, t: int, t': int)
    ensures Resumed(Resumed(c, t), t') == Resumed(c, t)
  {
  }

  /** A running clock gains exactly the time that passes. */
  lemma RunningDurationGrows(c: SessionClock, t: int, t': int)
    requires c.pauseTime.None?
    ensures DurationAt(c, t') - DurationAt(c, t) == t' - t
  {
  }

  // ---------------------------------------------------------------------------
  // Timelines of pauses and resumes

  /** The lifecycle calls a session sees: pause and resume, each at a time. */
  datatype Action = PauseAt(t: int) | ResumeAt(t: int)

  function Apply(c: SessionClock, a: Action): SessionClock
  {
    match a
    case PauseAt(t) => Paused(c, t)
    case ResumeAt(t) => Resumed(c, t)
  }

  /** The clock after the actions, in order. */
  function Replay(c: SessionClock, actions: seq<Action>): SessionClock
  {
    if actions == [] then c else Apply(Replay(c, actions[..|actions| - 1]), actions[|actions| - 1])
  }

  /** The actions come in time order, none before `last`. */
  predicate InTimeOrder(last: int, actions: seq<Action>)
  {
    (forall i :: 0 <= i < |actions| ==> last <= actions[i].t)
    && (forall i, j :: 0 <= i < j < |actions| ==> actions[i].t <= actions[j].t)
  }

  /** When the last of the actions happened (`last` without any). */
  function EndTime(last: int, actions: seq<Action>): int
  {
    if actions == [] then last else actions[|actions| - 1].t
  }

  /** A clock of a session that began at t0, seen at time `last` or after: the banked time
      is never negative and fits between t0 and the last start or pause. */
  predicate Timed(c: SessionClock, t0: int, last: int)
  {
    t0 <= last && 0 <= c.accumulated
    && match c.pauseTime
       case None => t0 + c.accumulated <= c.startTime <= last
       case Some(p) => t0 + c.accumulated <= p <= last
  }

  /** A fresh session: started now with nothing banked, paused at once or not. */
  lemma FreshSessionTimed(now: int, paused: bool)
    ensures Timed(SessionClock(now, if paused then Some(now) else None, 0), now, now)
  {
  }

  lemma ApplyTimed(c: SessionClock, t0: int, last: int, a: Action)
    requires Timed(c, t0, last) && last <= a.t
    ensures Timed(Apply(c, a), t0, a.t)
  {
  }

  /** Pauses and resumes in time order keep a clock timed. */
  lemma {:induction false} ReplayTimed(c: SessionClock, t0: int, last: int, actions: seq<Action>)
    requires Timed(c, t0, last) && InTimeOrder(last, actions)
    ensures Timed(Replay(c, actions), t0, EndTime(last, actions))
    decreases |actions|
  {
    if actions != [] {
      var init := actions[..|actions| - 1];
      assert InTimeOrder(last, init);
      ReplayTimed(c, t0, last, init);
      assert EndTime(last, init) <= actions[|actions| - 1].t;
      ApplyTimed(Replay(c, init), t0, EndTime(last, init), actions[|actions| - 1]);
    }
  }

  /** The duration of a timed clock is never negative, never more than the time since the
      session began, and never goes down as time passes. */
  lemma TimedDurationBounds(c: SessionClock, t0: int, last: int, t: int, t': int)
    requires Timed(c, t0, last) && last <= t <= t'
    ensures 0 <= DurationAt(c, t) <= t - t0
    ensures DurationAt(c, t) <= DurationAt(c, t')
  {
  }

  /** Any run of pauses and resumes in time order, from a fresh session: the duration
      reported afterwards lies between zero and the time since the session began. */
  lemma TimelineDurationBounds(now: int, paused: bool, actions: seq<Action>, t: int)
    requires InTimeOrder(now, actions) && EndTime(now, actions) <= t
    ensures var c := Replay(SessionClock(now, if paused then Some(now) else None, 0), actions);
      0 <= DurationAt(c, t) <= t - now
  {
    var c0 := SessionClock(now, if paused then Some(now) else None, 0);
    FreshSessionTimed(now, paused);
    ReplayTimed(c0, now, now, actions);
    TimedDurationBounds(Replay(c0, actions), now, EndTime(now, actions), t, t);
  }

  // ---------------------------------------------------------------------------
  // Arguments

  /** `updateArguments`: nothing new keeps the arguments; no arguments yet takes the new
      ones; otherwise the new keys are merged in, a new value winning over an old one. */
  function MergeArguments(current: Option<map<string, string>>, added: Option<map<string, string>>)
    : (r: Option<map<string, string>>)
    ensures added.None? ==> r == current
    ensures current.None? ==> r == added
    ensures current.Some? && added.Some? ==>
      r.Some? && r.value.Keys == current.value.Keys + added.value.Keys
      && (forall k :: k in added.value ==> r.value[k] == added.value[k])
      && (forall k :: k in current.value && k !in added.value ==> r.value[k] == current.value[k])
  {
    if added.None? then current
    else if current.None? then added
    else Some(current.value + added.value)
  }

  /** Merging the same arguments twice is merging them once. */
  lemma MergeIdempotent(current: Option<map<string, string>>, added: Option<map<string, string>>)
    ensures MergeArguments(MergeArguments(current, added), added) == MergeArguments(current, added)
  {
    if added.Some? {
      var once := MergeArguments(current, added).value;
      var twice := MergeArguments(MergeArguments(current, added), added).value;
      assert twice.Keys == once.Keys;
      assert forall k :: k in twice ==> twice[k] == once[k];
      assert twice == once;
    }
  }

  // ---------------------------------------------------------------------------
  // Sessions

  /** What a session holds, as a value. */
  datatype SessionState = SessionState(arguments: Option<map<string, string>>, clock: SessionClock, sessionStartTime: int)

  class ScreenSession {
    const screenId: string
    var arguments: Option<map<string, string>>
    var startTime: int
    var pauseTime: Option<int>
    var accumulatedTime: int
    const sessionStartTime: int

    /** `init`: a session that starts at `startTime`, paused at `now` when asked. */
    constructor(screenId: string, arguments: Option<map<string, string>>, startTime: int, accumulatedTime: int,
                paused: bool, now: int)
      ensures this.screenId == screenId && this.arguments == arguments
      ensures Clock() == SessionClock(startTime, if paused then Some(now) else None, accumulatedTime)
      ensures sessionStartTime == startTime
    {
      this.screenId := screenId;
      this.arguments := arguments;
      this.startTime := startTime;
      this.sessionStartTime := startTime;
      this.accumulatedTime := accumulatedTime;
      this.pauseTime := if paused then Some(now) else None;
    }

    function Clock(): SessionClock
      reads this
    {
      SessionClock(startTime, pauseTime, accumulatedTime)
    }

    function State(): SessionState
      reads this
    {
      SessionState(arguments, Clock(), sessionStartTime)
    }

    predicate IsPaused()
      reads this
    {
      pauseTime.Some?
    }

    method Pause(now: int)
      modifies this`pauseTime, this`accumulatedTime
      ensures Clock() == Paused(old(Clock()), now)
    {
      if pauseTime.Some? {
        return;
      }
      pauseTime := Some(now);
      accumulatedTime := accumulatedTime + (now - startTime);
    }

    method Resume(now: int)
      modifies this`startTime, this`pauseTime
      ensures Clock() == Resumed(old(Clock()), now)
    {
      if pauseTime.None? {
        return;
      }
      startTime := now;
      pauseTime := None;
    }

    method CalculateDuration(now: int) returns (duration: int)
      ensures duration == DurationAt(Clock(), now)
    {
      if pauseTime.Some? {
        duration := accumulatedTime;
      } else {
        duration := accumulatedTime + (now - startTime);
      }
    }

    /** Writes the new arguments in one key at a time. */
    method UpdateArguments(newArguments: Option<map<string, string>>)
      modifies this`arguments
      ensures arguments == MergeArguments(old(arguments), newArguments)
    {
      if newArguments.None? {
        return;
      }
      if arguments.None? {
        arguments := newArguments;
        return;
      }
      ghost var current := arguments.value;
      var added := newArguments.value;
      var rest := added.Keys;
      while rest != {}
        invariant rest <= added.Keys
        invariant arguments.Some?
        invariant arguments.value.Keys == current.Keys + (added.Keys - rest)
        invariant forall k :: k in arguments.value ==>
          arguments.value[k] == if k in added && k !in rest then added[k] else current[k]
        decreases |rest|
      {
        var key :| key in rest;
        arguments := Some(arguments.value[key := added[key]]);
        rest := rest - {key};
      }
      assert arguments.value == current + added;
    }
  }

  // ---------------------------------------------------------------------------
  // The tracker

  /** The period of the persistence timer. */
  const TimerInterval: int := 10000
  /** The duration stored for a session that has only just begun. */
  const MinimumEstimatedDuration: int := TimerInterval / 2
  /** Views shorter than this are not reported. */
  const MinimumTrackableDuration: int := 500

  /** One stored session record of "tools.quanta.sessions"; a record read back may lack a
      textual screen id. */
  datatype SessionEntry = SessionEntry(screenId: Option<string>, arguments: map<string, string>,
                                       accumulatedTime: int, lastUpdateTime: int, startTime: int,
                                       isEstimated: bool)

  /** A finished view handed to `sendAnalytics`. */
  datatype ViewReport = ViewReport(screenId: string, duration: int, arguments: Option<map<string, string>>,
                                   startTime: Option<int>)

  /** The duration `persistAllSessions` stores: the actual one when asked, else at least the estimate. */
  function PersistedDuration(current: int, useActualDurationOnly: bool): (d: int)
    ensures useActualDurationOnly ==> d == current
    ensures !useActualDurationOnly ==> d >= current && d >= MinimumEstimatedDuration
    ensures !useActualDurationOnly ==> d == current || d == MinimumEstimatedDuration
  {
    if useActualDurationOnly then current
    else if current >= MinimumEstimatedDuration then current else MinimumEstimatedDuration
  }

  /** The record `persistAllSessions` writes for one active session. */
  function PersistedEntry(screenId: string, s: SessionState, useActualDurationOnly: bool, now: int): (e: SessionEntry)
    ensures e.screenId == Some(screenId) && e.arguments == s.arguments.GetOr(map[])
    ensures e.accumulatedTime == PersistedDuration(DurationAt(s.clock, now), useActualDurationOnly)
    ensures e.isEstimated <==> e.accumulatedTime != DurationAt(s.clock, now)
  {
    var current := DurationAt(s.clock, now);
    SessionEntry(Some(screenId), s.arguments.GetOr(map[]), PersistedDuration(current, useActualDurationOnly),
                 now, s.sessionStartTime, !useActualDurationOnly && current < MinimumEstimatedDuration)
  }

  /** The record `persistSessionWithEstimatedDuration` writes for a new session. */
  function EstimatedEntry(screenId: string, arguments: Option<map<string, string>>, sessionStartTime: int, now: int)
    : SessionEntry
  {
    SessionEntry(Some(screenId), arguments.GetOr(map[]), MinimumEstimatedDuration, now, sessionStartTime, true)
  }

  /** The `filter` of `persistSessionWithEstimatedDuration`: records of other screens, and
      records without a textual screen id, are kept in order. */
  function WithoutScreen(entries: seq<SessionEntry>, screenId: string): (r: seq<SessionEntry>)
    ensures |r| <= |entries|
    ensures forall e :: e in r <==> e in entries && e.screenId != Some(screenId)
  {
    if entries == [] then []
    else
      var rest := WithoutScreen(entries[..|entries| - 1], screenId);
      var last := entries[|entries| - 1];
      if last.screenId == Some(screenId) then rest else rest + [last]
  }

  /** Filtering distributes over concatenation, so the kept records stay in their order. */
  lemma {:induction false} WithoutScreenConcat(a: seq<SessionEntry>, b: seq<SessionEntry>, screenId: string)
    ensures WithoutScreen(a + b, screenId) == WithoutScreen(a, screenId) + WithoutScreen(b, screenId)
    decreases |b|
  {
    if b == [] {
      assert a + b == a;
    } else {
      var init, last := b[..|b| - 1], b[|b| - 1];
      assert (a + b)[..|a + b| - 1] == a + init;
      assert (a + b)[|a + b| - 1] == last;
      WithoutScreenConcat(a, init, screenId);
    }
  }

  /** Records that do not name the screen are all kept, in order. */
  lemma {:induction false} WithoutScreenKeepsOthers(entries: seq<SessionEntry>, screenId: string)
    requires forall i :: 0 <= i < |entries| ==> entries[i].screenId != Some(screenId)
    ensures WithoutScreen(entries, screenId) == entries
    decreases |entries|
  {
    if entries != [] {
      WithoutScreenKeepsOthers(entries[..|entries| - 1], screenId);
    }
  }

  /** How many records name the screen. */
  function CountScreen(entries: seq<SessionEntry>, screenId: string): nat
  {
    if entries == [] then 0
    else CountScreen(entries[..|entries| - 1], screenId) + (if entries[|entries| - 1].screenId == Some(screenId) then 1 else 0)
  }

  lemma {:induction false} CountWithoutScreen(entries: seq<SessionEntry>, screenId: string)
    ensures CountScreen(WithoutScreen(entries, screenId), screenId) == 0
    decreases |entries|
  {
    if entries != [] {
      var init, last := entries[..|entries| - 1], entries[|entries| - 1];
      var rest := WithoutScreen(init, screenId);
      CountWithoutScreen(init, screenId);
      if last.screenId != Some(screenId) {
        assert (rest + [last])[..|rest|] == rest;
      }
    }
  }

  lemma CountSnoc(entries: seq<SessionEntry>, e: SessionEntry, screenId: string)
    ensures CountScreen(entries + [e], screenId)
         == CountScreen(entries, screenId) + (if e.screenId == Some(screenId) then 1 else 0)
  {
    assert (entries + [e])[..|entries|] == entries;
  }

  /** The stored records after a session starts: the others, then the new estimate. */
  function WithEstimate(entries: seq<SessionEntry>, screenId: string, arguments: Option<map<string, string>>,
                        sessionStartTime: int, now: int): seq<SessionEntry>
  {
    WithoutScreen(entries, screenId) + [EstimatedEntry(screenId, arguments, sessionStartTime, now)]
  }

  /** After a session starts exactly one stored record names its screen, the new estimate
      is last, and the records of other screens are all kept. */
  lemma WithEstimateSingleRecord(entries: seq<SessionEntry>, screenId: string, arguments: Option<map<string, string>>,
                                 sessionStartTime: int, now: int)
    ensures var r := WithEstimate(entries, screenId, arguments, sessionStartTime, now);
      CountScreen(r, screenId) == 1 && r[|r| - 1] == EstimatedEntry(screenId, arguments, sessionStartTime, now)
      && r[..|r| - 1] == WithoutScreen(entries, screenId)
      && forall e :: e in entries && e.screenId != Some(screenId) ==> e in r
  {
    var kept := WithoutScreen(entries, screenId);
    CountWithoutScreen(entries, screenId);
    CountSnoc(kept, EstimatedEntry(screenId, arguments, sessionStartTime, now), screenId);
    assert (kept + [EstimatedEntry(screenId, arguments, sessionStartTime, now)])[..|kept|] == kept;
  }

  /** The records `persistAllSessions` leaves: one per active session, each with the stored
      duration rule, no screen twice. */
  ghost predicate OnePerSession(entries: seq<SessionEntry>, sessions: map<string, SessionState>,
                                useActualDurationOnly: bool, now: int)
  {
    |entries| == |sessions.Keys|
    && (forall i :: 0 <= i < |entries| ==>
          entries[i].screenId.Some? && entries[i].screenId.value in sessions
          && entries[i] == PersistedEntry(entries[i].screenId.value, sessions[entries[i].screenId.value],
                                          useActualDurationOnly, now))
    && (forall i, j :: 0 <= i < j < |entries| ==> entries[i].screenId != entries[j].screenId)
    && (forall k :: k in sessions ==> Some(k) in ScreenIds(entries))
  }

  /** The screen ids of the records, in order. */
  function ScreenIds(entries: seq<SessionEntry>): (r: seq<Option<string>>)
    ensures |r| == |entries| && forall i :: 0 <= i < |r| ==> r[i] == entries[i].screenId
  {
    seq(|entries|, i requires 0 <= i < |entries| => entries[i].screenId)
  }

  /** Records written for distinct screen ids covering all the sessions are one per session. */
  lemma OnePerSessionFromIds(entries: seq<SessionEntry>, ids: seq<string>, sessions: map<string, SessionState>,
                             useActualDurationOnly: bool, now: int)
    requires |entries| == |ids| == |sessions.Keys|
    requires forall i :: 0 <= i < |ids| ==>
      ids[i] in sessions && entries[i] == PersistedEntry(ids[i], sessions[ids[i]], useActualDurationOnly, now)
    requires forall i, j :: 0 <= i < j < |ids| ==> ids[i] != ids[j]
    requires forall k :: k in sessions ==> k in ids
    ensures OnePerSession(entries, sessions, useActualDurationOnly, now)
  {
    var r := ScreenIds(entries);
    forall k | k in sessions
      ensures Some(k) in r
    {
      var i :| 0 <= i < |ids| && ids[i] == k;
      assert r[i] == Some(k);
    }
  }

  class ScreenTimeTracker {
    var activeScreens: map<string, ScreenSession>
    /** The "tools.quanta.sessions" records of the user defaults. */
    var stored: seq<SessionEntry>
    /** The finished views reported, in order. */
    var reported: seq<ViewReport>

    /** Every session is filed under its own screen id. */
    ghost predicate Valid()
      reads this`activeScreens, activeScreens.Values
    {
      forall k :: k in activeScreens ==> activeScreens[k].screenId == k
    }

    /** Every active session's state, by screen id. */
    ghost function Sessions(): map<string, SessionState>
      reads this`activeScreens, activeScreens.Values
    {
      map k | k in activeScreens :: activeScreens[k].State()
    }

    constructor(stored: seq<SessionEntry>)
      ensures Valid() && activeScreens == map[] && this.stored == stored && reported == []
    {
      activeScreens := map[];
      this.stored := stored;
      reported := [];
    }

    /** `startScreenView`: an active screen only takes the new arguments; otherwise a new
        session starts now and its estimate is stored. */
    method StartScreenView(screenId: string, arguments: Option<map<string, string>>, now: int)
      requires Valid()
      modifies this, activeScreens.Values
      ensures Valid() && reported == old(reported)
      ensures screenId in activeScreens && activeScreens.Keys == old(activeScreens.Keys) + {screenId}
      ensures forall k :: k in old(activeScreens) && k != screenId ==>
        activeScreens[k] == old(activeScreens[k]) && activeScreens[k].State() == old(activeScreens[k].State())
      ensures screenId in old(activeScreens) ==>
        activeScreens[screenId] == old(activeScreens[screenId])
        && activeScreens[screenId].arguments == MergeArguments(old(activeScreens[screenId].arguments), arguments)
        && activeScreens[screenId].Clock() == old(activeScreens[screenId].Clock())
        && stored == old(stored)
      ensures screenId !in old(activeScreens) ==>
        fresh(activeScreens[screenId])
        && activeScreens[screenId].State() == SessionState(arguments, SessionClock(now, None, 0), now)
        && stored == WithEstimate(old(stored), screenId, arguments, now, now)
    {
      if screenId in activeScreens {
        var existing := activeScreens[screenId];
        existing.UpdateArguments(arguments);
        return;
      }
      var session := new ScreenSession(screenId, arguments, now, 0, false, now);
      activeScreens := activeScreens[screenId := session];
      PersistSessionWithEstimatedDuration(session, now);
    }

    /** `persistSessionWithEstimatedDuration`. */
    method PersistSessionWithEstimatedDuration(session: ScreenSession, now: int)
      modifies this`stored
      ensures stored == WithEstimate(old(stored), session.screenId, session.arguments, session.sessionStartTime, now)
    {
      var sessionsData := WithoutScreen(stored, session.screenId);
      sessionsData := sessionsData + [EstimatedEntry(session.screenId, session.arguments, session.sessionStartTime, now)];
      stored := sessionsData;
    }

    /** `endScreenView`: an unknown screen is ignored; otherwise the view is reported when it
        lasted at least half a second, the session is dropped and the rest are stored. */
    method EndScreenView(screenId: string, now: int)
      requires Valid()
      modifies this
      ensures Valid()
      ensures screenId !in old(activeScreens) ==>
        activeScreens == old(activeScreens) && stored == old(stored) && reported == old(reported)
      ensures screenId in old(activeScreens) ==>
        var s := old(activeScreens[screenId].State());
        var duration := DurationAt(s.clock, now);
        activeScreens == old(activeScreens) - {screenId}
        && reported == old(reported) + (if duration >= MinimumTrackableDuration
                                        then [ViewReport(screenId, duration, s.arguments, Some(s.sessionStartTime))]
                                        else [])
        && OnePerSession(stored, Sessions(), false, now)
    {
      if screenId !in activeScreens {
        return;
      }
      var session := activeScreens[screenId];
      var duration := session.CalculateDuration(now);
      if duration >= MinimumTrackableDuration {
        SendAnalytics(screenId, duration, session.arguments, Some(session.sessionStartTime));
      }
      activeScreens := activeScreens - {screenId};
      PersistAllSessions(false, true, now);
    }

    /** `sendAnalytics`, up to the `log` call it makes. */
    method SendAnalytics(screenId: string, duration: int, arguments: Option<map<string, string>>, startTime: Option<int>)
      modifies this`reported
      ensures reported == old(reported) + (if duration >= MinimumTrackableDuration
                                           then [ViewReport(screenId, duration, arguments, startTime)] else [])
    {
      if duration < MinimumTrackableDuration {
        return;
      }
      reported := reported + [ViewReport(screenId, duration, arguments, startTime)];
    }

    /** `persistAllSessions`: unless there is nothing to do, the stored records become one
        fresh record per active session, taken in whatever order the dictionary yields. */
    method PersistAllSessions(useActualDurationOnly: bool, onDisappear: bool, now: int)
      requires Valid()
      modifies this`stored
      ensures activeScreens == map[] && !onDisappear ==> stored == old(stored)
      ensures activeScreens != map[] || onDisappear ==> OnePerSession(stored, Sessions(), useActualDurationOnly, now)
    {
      if activeScreens == map[] && !onDisappear {
        return;
      }
      stored := CurrentRecords(useActualDurationOnly, now);
    }

    /** The loop of `persistAllSessions`: a record for each active session. */
    method CurrentRecords(useActualDurationOnly: bool, now: int) returns (sessionsData: seq<SessionEntry>)
      requires Valid()
      ensures OnePerSession(sessionsData, Sessions(), useActualDurationOnly, now)
    {
      sessionsData := [];
      ghost var done: seq<string> := [];
      var rest := activeScreens.Keys;
      while rest != {}
        invariant rest <= activeScreens.Keys
        invariant |sessionsData| == |done| && |done| + |rest| == |activeScreens.Keys|
        invariant forall i :: 0 <= i < |done| ==>
          done[i] in activeScreens && done[i] !in rest
          && sessionsData[i] == PersistedEntry(done[i], activeScreens[done[i]].State(), useActualDurationOnly, now)
        invariant forall i, j :: 0 <= i < j < |done| ==> done[i] != done[j]
        invariant forall k :: k in activeScreens && k !in rest ==> k in done
        decreases |rest|
      {
        var key :| key in rest;
        var session := activeScreens[key];
        var currentDuration := session.CalculateDuration(now);
        var durationToStore := if useActualDurationOnly then currentDuration
                               else if currentDuration >= MinimumEstimatedDuration then currentDuration
                               else MinimumEstimatedDuration;
        var entry := SessionEntry(Some(session.screenId), session.arguments.GetOr(map[]), durationToStore, now,
                                  session.sessionStartTime,
                                  !useActualDurationOnly && currentDuration < MinimumEstimatedDuration);
        assert entry == PersistedEntry(key, session.State(), useActualDurationOnly, now);
        sessionsData := sessionsData + [entry];
        done := done + [key];
        rest := rest - {key};
      }
      ghost var sessions := Sessions();
      assert sessions.Keys == activeScreens.Keys;
      OnePerSessionFromIds(sessionsData, done, sessions, useActualDurationOnly, now);
    }
  }
}
