/**
 * `TimeTrackingService`: the start/stop state machine over the current
 * session, the idle and activity handlers that update it, and the daily,
 * weekly and export views over the finished sessions.
 *
 * Times are milliseconds since the epoch (`int`); a day is the UTC day
 * index of such a time, which is what `toISOString().split('T')[0]` names.
 * Session ids, project names and the clock are parameters.
 */
module TimeTracking {
  import opened Wrappers

  const MsPerDay: int := 86400000

  /** The UTC day a time falls on. */
  function DayOf(ms: int): int
  {
    ms / MsPerDay
  }

  /** A day is a half-open window of `MsPerDay` milliseconds. */
  lemma DayWindow(ms: int, d: int)
    ensures DayOf(ms) == d <==> d * MsPerDay <= ms < (d + 1) * MsPerDay
  {
    var q := ms / MsPerDay;
    assert ms == q * MsPerDay + ms % MsPerDay;
    if d < q {
      assert (d + 1) * MsPerDay <= q * MsPerDay;
    } else if d > q {
      assert (q + 1) * MsPerDay <= d * MsPerDay;
    }
  }

  /** One entry of a session's `activities`. */
  datatype ActivityRecord = ActivityRecord(kind: string, timestamp: int, score: int)

  /** `TimeTrackingSession`; `focusTime` and `idleTime` are in seconds. */
  datatype Session = Session(
    id: string,
    projectName: string,
    startTime: int,
    endTime: Option<int>,
    focusTime: nat,
    idleTime: nat,
    activities: seq<ActivityRecord>,
    isActive: bool)

  // ---------------------------------------------------------------- finishing a session

  /** Whole seconds from the session's start to `end`, rounded down. */
  function ElapsedSeconds(s: Session, end: int): int
  {
    (end - s.startTime) / 1000
  }

  /** The focus time `stopTracking` records: elapsed seconds less idle seconds, never below zero. */
  function FocusAfter(s: Session, end: int): nat
  {
    var total := ElapsedSeconds(s, end) - s.idleTime;
    if total > 0 then total else 0
  }

  /** The recorded focus time never exceeds the elapsed time, and with the idle time it covers it. */
  lemma FocusTimeBounds(s: Session, end: int)
    ensures FocusAfter(s, end) <= (if ElapsedSeconds(s, end) > 0 then ElapsedSeconds(s, end) else 0)
    ensures FocusAfter(s, end) + s.idleTime >= ElapsedSeconds(s, end)
    ensures ElapsedSeconds(s, end) >= s.idleTime ==> FocusAfter(s, end) + s.idleTime == ElapsedSeconds(s, end)
  {
  }

  /** The session as `stopTracking` finalizes it at `end`. */
  function Finished(s: Session, end: int): Session
  {
    s.(endTime := Some(end), isActive := false, focusTime := FocusAfter(s, end))
  }

  // ---------------------------------------------------------------- the service state

  /**
   * The service's fields, plus whether a webview provider is attached and
   * the `sessionUpdate` payloads sent to it, oldest first.
   */
  datatype TrackerState = TrackerState(
    current: Option<Session>,
    sessions: seq<Session>,
    tracking: bool,
    webview: bool,
    updates: seq<Option<Session>>)

  const Initial := TrackerState(None, [], false, false, [])

  /** `_notifyWebview({type: 'sessionUpdate', payload})`: sent only when a provider is attached. */
  function Notify(st: TrackerState, payload: Option<Session>): TrackerState
  {
    if st.webview then st.(updates := st.updates + [payload]) else st
  }

  /** What every step keeps: tracking exactly when a session is open, the open one active, the stored ones finished. */
  ghost predicate Inv(st: TrackerState)
  {
    && (st.tracking <==> st.current.Some?)
    && (st.current.Some? ==> st.current.value.isActive && st.current.value.endTime.None?)
    && forall i :: 0 <= i < |st.sessions| ==> !st.sessions[i].isActive && st.sessions[i].endTime.Some?
  }

  /** The session `startTracking` opens. */
  function NewSession(id: string, projectName: string, now: int): Session
  {
    Session(id, projectName, now, None, 0, 0, [], true)
  }

  /** `startTracking()`: a no-op while tracking. */
  function Start(st: TrackerState, id: string, projectName: string, now: int): TrackerState
  {
    if st.tracking then st
    else
      var s := NewSession(id, projectName, now);
      Notify(st.(current := Some(s), tracking := true), Some(s))
  }

  /** `stopTracking()`: a no-op unless tracking with a current session. */
  function Stop(st: TrackerState, now: int): TrackerState
  {
    if !st.tracking || st.current.None? then st
    else
      var done := Finished(st.current.value, now);
      Notify(st.(sessions := st.sessions + [done], current := None, tracking := false), None)
  }

  /** The `onIdleStateChange(isIdle, idleDuration)` handler. */
  function IdleChange(st: TrackerState, isIdle: bool, idleMs: nat): TrackerState
  {
    if st.current.None? then st
    else
      var s := st.current.value;
      var s' := if isIdle then s.(idleTime := s.idleTime + idleMs / 1000) else s;
      Notify(st.(current := Some(s')), Some(s'))
  }

  /** The `onActivityDetected(activity)` handler. */
  function ActivityDetected(st: TrackerState, kind: string, score: int, now: int): TrackerState
  {
    if st.current.None? then st
    else
      var s := st.current.value;
      st.(current := Some(s.(activities := s.activities + [ActivityRecord(kind, now, score)])))
  }

  /** `resetAllData()`: stop if tracking, then drop every session. */
  function Reset(st: TrackerState, now: int): TrackerState
  {
    var stopped := if st.tracking then Stop(st, now) else st;
    stopped.(sessions := [], current := None)
  }

  // ---------------------------------------------------------------- what the steps guarantee

  lemma StartWhileTrackingIsNoOp(st: TrackerState, id: string, projectName: string, now: int)
    requires st.tracking
    ensures Start(st, id, projectName, now) == st
  {
  }

  /** Starting opens an active session with no focus, idle time or activities, and keeps the stored sessions. */
  lemma StartOpensSession(st: TrackerState, id: string, projectName: string, now: int)
    requires !st.tracking
    ensures var r := Start(st, id, projectName, now);
            && r.tracking
            && r.current.Some?
            && r.current.value.id == id && r.current.value.projectName == projectName
            && r.current.value.startTime == now && r.current.value.endTime == None
            && r.current.value.focusTime == 0 && r.current.value.idleTime == 0
            && r.current.value.activities == [] && r.current.value.isActive
            && r.sessions == st.sessions
            && r.updates == (if st.webview then st.updates + [r.current] else st.updates)
  {
  }

  lemma StopWithoutSessionIsNoOp(st: TrackerState, now: int)
    requires !st.tracking || st.current.None?
    ensures Stop(st, now) == st
  {
  }

  /**
   * Stopping appends the open session, finished at `now` with its focus time
   * worked out, and leaves nothing open.
   */
  lemma StopStoresSession(st: TrackerState, now: int)
    requires st.tracking && st.current.Some?
    ensures var r := Stop(st, now);
            var s := st.current.value;
            && |r.sessions| == |st.sessions| + 1
            && r.sessions[..|st.sessions|] == st.sessions
            && r.current == None && !r.tracking
            && r.updates == (if st.webview then st.updates + [None] else st.updates)
            && (var done := r.sessions[|st.sessions|];
                && done.id == s.id && done.projectName == s.projectName && done.startTime == s.startTime
                && done.idleTime == s.idleTime && done.activities == s.activities
                && done.endTime == Some(now) && !done.isActive
                && done.focusTime == (if ElapsedSeconds(s, now) - s.idleTime > 0 then ElapsedSeconds(s, now) - s.idleTime else 0))
  {
    var r := Stop(st, now);
    assert r.sessions == st.sessions + [Finished(st.current.value, now)];
    assert r.sessions[..|st.sessions|] == st.sessions;
  }

  lemma IdleWithoutSessionIsNoOp(st: TrackerState, isIdle: bool, idleMs: nat)
    requires st.current.None?
    ensures IdleChange(st, isIdle, idleMs) == st
  {
  }

  /** Going idle adds the whole seconds of the idle spell; every other field of the session stays. */
  lemma IdleAddsWholeSeconds(st: TrackerState, isIdle: bool, idleMs: nat)
    requires st.current.Some?
    ensures var r := IdleChange(st, isIdle, idleMs);
            var s := st.current.value;
            && r.current.Some?
            && r.current.value.idleTime == s.idleTime + (if isIdle then idleMs / 1000 else 0)
            && r.current.value.idleTime * 1000 <= s.idleTime * 1000 + idleMs
            && r.current.value == s.(idleTime := r.current.value.idleTime)
            && r.sessions == st.sessions && r.tracking == st.tracking
            && r.updates == (if st.webview then st.updates + [r.current] else st.updates)
  {
  }

  /** An activity is appended to the open session's list, with the time it arrived. */
  lemma ActivityIsRecorded(st: TrackerState, kind: string, score: int, now: int)
    ensures var r := ActivityDetected(st, kind, score, now);
            && (st.current.None? ==> r == st)
            && (st.current.Some? ==>
                  && r.current.Some?
                  && r.current.value.activities == st.current.value.activities + [ActivityRecord(kind, now, score)]
                  && r.current.value == st.current.value.(activities := r.current.value.activities)
                  && r.sessions == st.sessions && r.tracking == st.tracking && r.updates == st.updates)
  {
  }

  /** Resetting leaves no sessions and nothing open, and stops an open session first. */
  lemma ResetClearsEverything(st: TrackerState, now: int)
    requires Inv(st)
    ensures var r := Reset(st, now);
            && r.sessions == [] && r.current == None && !r.tracking
            && r.updates == (if st.tracking && st.webview then st.updates + [None] else st.updates)
  {
  }

  lemma InitialIsValid()
    ensures Inv(Initial)
  {
  }

  /** Every step keeps the invariant. */
  lemma StepsPreserveInv(st: TrackerState, id: string, projectName: string, now: int,
                         isIdle: bool, idleMs: nat, kind: string, score: int)
    requires Inv(st)
    ensures Inv(Start(st, id, projectName, now))
    ensures Inv(Stop(st, now))
    ensures Inv(IdleChange(st, isIdle, idleMs))
    ensures Inv(ActivityDetected(st, kind, score, now))
    ensures Inv(Reset(st, now))
    ensures Inv(st.(webview := true))
  {
    var r := Stop(st, now);
    if st.tracking {
      assert forall i :: 0 <= i < |r.sessions| ==>
               r.sessions[i] == (if i < |st.sessions| then st.sessions[i] else Finished(st.current.value, now));
    }
  }

  /** Ten minutes with one idle minute record nine minutes of focus. */
  lemma TenMinutesWithOneIdle()
    ensures var st := Stop(IdleChange(Start(Initial, "s1", "demo", 0), true, 60000), 600000);
            |st.sessions| == 1 && st.sessions[0].focusTime == 540 && st.sessions[0].idleTime == 60
  {
    var a := Start(Initial, "s1", "demo", 0);
    var b := IdleChange(a, true, 60000);
    assert b.current.value.idleTime == 60;
    var c := Stop(b, 600000);
    assert ElapsedSeconds(b.current.value, 600000) == 600;
    assert c.sessions == [Finished(b.current.value, 600000)];
  }

  // ---------------------------------------------------------------- daily and weekly stats

  /** The sessions that started on `day`, in stored order. */
  function OnDay(ss: seq<Session>, day: int): (r: seq<Session>)
    ensures |r| <= |ss|
    ensures forall s :: s in r <==> s in ss && DayOf(s.startTime) == day
  {
    if ss == [] then []
    else (if DayOf(ss[0].startTime) == day then [ss[0]] else []) + OnDay(ss[1..], day)
  }

  /** Selecting a day's sessions distributes over concatenation. */
  lemma {:induction false} OnDayAppend(a: seq<Session>, b: seq<Session>, day: int)
    ensures OnDay(a + b, day) == OnDay(a, day) + OnDay(b, day)
  {
    if a != [] {
      assert (a + b)[1..] == a[1..] + b;
      OnDayAppend(a[1..], b, day);
    } else {
      assert a + b == b;
    }
  }

  /** The sum of the sessions' focus times. */
  function TotalFocus(ss: seq<Session>): nat
  {
    if ss == [] then 0 else ss[0].focusTime + TotalFocus(ss[1..])
  }

  lemma {:induction false} TotalFocusAppend(a: seq<Session>, b: seq<Session>)
    ensures TotalFocus(a + b) == TotalFocus(a) + TotalFocus(b)
  {
    if a != [] {
      assert (a + b)[1..] == a[1..] + b;
      TotalFocusAppend(a[1..], b);
    } else {
      assert a + b == b;
    }
  }

  /** The sessions' project names, in order. */
  function ProjectNames(ss: seq<Session>): (r: seq<string>)
    ensures |r| == |ss| && forall i :: 0 <= i < |ss| ==> r[i] == ss[i].projectName
  {
    seq(|ss|, i requires 0 <= i < |ss| => ss[i].projectName)
  }

  predicate NoDuplicates<T(==)>(xs: seq<T>)
  {
    forall i, j :: 0 <= i < j < |xs| ==> xs[i] != xs[j]
  }

  /** `[...new Set(xs)]`: each value once, in order of first appearance. */
  function Distinct(xs: seq<string>): (r: seq<string>)
    ensures NoDuplicates(r)
    ensures forall x :: x in r <==> x in xs
    ensures |r| <= |xs|
  {
    if xs == [] then []
    else
      var init := xs[..|xs| - 1];
      var d := Distinct(init);
      assert xs == init + [xs[|xs| - 1]];
      if xs[|xs| - 1] in d then d else d + [xs[|xs| - 1]]
  }

  /** The position of the first occurrence of `x` in `xs`. */
  function FirstIndex(xs: seq<string>, x: string): (k: nat)
    requires x in xs
    ensures k < |xs| && xs[k] == x && x !in xs[..k]
  {
    if xs[0] == x then 0
    else
      var k := 1 + FirstIndex(xs[1..], x);
      assert xs[..k] == [xs[0]] + xs[1..][..k - 1];
      k
  }

  /** Any occurrence with no earlier one is the first occurrence. */
  lemma FirstIndexUnique(xs: seq<string>, x: string, k: nat)
    requires k < |xs| && xs[k] == x && x !in xs[..k]
    ensures FirstIndex(xs, x) == k
  {
  }

  /** Appending an element leaves the first occurrences of the earlier values where they were. */
  lemma FirstIndexSnoc(xs: seq<string>, y: string, x: string)
    requires x in xs
    ensures FirstIndex(xs + [y], x) == FirstIndex(xs, x)
  {
    var k := FirstIndex(xs, x);
    assert (xs + [y])[..k] == xs[..k];
    FirstIndexUnique(xs + [y], x, k);
  }

  /** `Distinct` lists the values in the order in which they first appear in `xs`. */
  lemma {:induction false} DistinctFirstAppearanceOrder(xs: seq<string>)
    ensures forall i, j :: 0 <= i < j < |Distinct(xs)| ==>
              FirstIndex(xs, Distinct(xs)[i]) < FirstIndex(xs, Distinct(xs)[j])
  {
    if xs != [] {
      var init := xs[..|xs| - 1];
      var y := xs[|xs| - 1];
      assert xs == init + [y];
      var d := Distinct(init);
      DistinctFirstAppearanceOrder(init);
      forall x | x in d ensures FirstIndex(xs, x) == FirstIndex(init, x) {
        FirstIndexSnoc(init, y, x);
      }
      if y !in d {
        assert xs[..|init|] == init;
        FirstIndexUnique(xs, y, |init|);
        assert Distinct(xs) == d + [y];
        forall i, j | 0 <= i < j < |Distinct(xs)|
          ensures FirstIndex(xs, Distinct(xs)[i]) < FirstIndex(xs, Distinct(xs)[j])
        {
          assert Distinct(xs)[i] == d[i];
          if j < |d| {
            assert Distinct(xs)[j] == d[j];
          }
        }
      }
    }
  }

  /** `DailyStats`; `date` is the day, counts and times are as the service reports them. */
  datatype DailyStats = DailyStats(
    date: int,
    focusTime: nat,
    sessions: nat,
    projects: seq<string>,
    averageSessionLength: nat)

  /** `getDailyStats(day)` over the stored sessions. */
  function StatsOn(ss: seq<Session>, day: int): (r: DailyStats)
    ensures r.date == day
    ensures r.sessions == |OnDay(ss, day)| && r.focusTime == TotalFocus(OnDay(ss, day))
    ensures NoDuplicates(r.projects)
    ensures forall p :: p in r.projects <==> p in ProjectNames(OnDay(ss, day))
    ensures r.sessions == 0 ==> r.averageSessionLength == 0
    ensures r.sessions > 0 ==>
              r.averageSessionLength * r.sessions <= r.focusTime < (r.averageSessionLength + 1) * r.sessions
  {
    var daily := OnDay(ss, day);
    var focus := TotalFocus(daily);
    var average := if |daily| > 0 then focus / |daily| else 0;
    FloorAverage(focus, |daily|, average);
    DailyStats(day, focus, |daily|, Distinct(ProjectNames(daily)), average)
  }

  /** `Math.floor(total / count)` is the whole part of the average. */
  lemma FloorAverage(total: nat, count: nat, average: nat)
    requires average == if count > 0 then total / count else 0
    ensures count > 0 ==> average * count <= total < (average + 1) * count
  {
    if count > 0 {
      assert total == average * count + total % count;
    }
  }

  /** A day with no sessions reports nothing. */
  lemma EmptyDay(ss: seq<Session>, day: int)
    requires forall i :: 0 <= i < |ss| ==> DayOf(ss[i].startTime) != day
    ensures StatsOn(ss, day) == DailyStats(day, 0, 0, [], 0)
  {
  }

  /** A session added on another day leaves a day's stats as they were. */
  lemma OtherDaySessionChangesNothing(ss: seq<Session>, s: Session, day: int)
    requires DayOf(s.startTime) != day
    ensures StatsOn(ss + [s], day) == StatsOn(ss, day)
  {
    OnDayAppend(ss, [s], day);
    assert OnDay([s], day) == [];
    assert OnDay(ss, day) + [] == OnDay(ss, day);
  }

  /** A session added on the day counts once more and adds its focus time. */
  lemma SameDaySessionCounts(ss: seq<Session>, s: Session, day: int)
    requires DayOf(s.startTime) == day
    ensures StatsOn(ss + [s], day).sessions == StatsOn(ss, day).sessions + 1
    ensures StatsOn(ss + [s], day).focusTime == StatsOn(ss, day).focusTime + s.focusTime
    ensures s.projectName in StatsOn(ss + [s], day).projects
  {
    OnDayAppend(ss, [s], day);
    assert OnDay([s], day) == [s];
    TotalFocusAppend(OnDay(ss, day), [s]);
    assert TotalFocus([s]) == s.focusTime;
    var daily := OnDay(ss + [s], day);
    assert daily[|daily| - 1] == s;
    assert ProjectNames(daily)[|daily| - 1] == s.projectName;
  }

  /** `getDailyStats(date)`: the given day, or today when the date is missing or empty. */
  function DailyStatsFor(ss: seq<Session>, date: Option<int>, today: int): (r: DailyStats)
    ensures r.date == (if date.Some? then date.value else today)
  {
    StatsOn(ss, if date.Some? then date.value else today)
  }

  // ---------------------------------------------------------------- export

  datatype ExportFormat = Csv | Json | Pdf

  /** The formats the `switch` in `exportData` handles. */
  function ParseFormat(format: string): (r: Option<ExportFormat>)
    ensures r == Some(Csv) <==> format == "csv"
    ensures r == Some(Json) <==> format == "json"
    ensures r == Some(Pdf) <==> format == "pdf"
  {
    if format == "csv" then Some(Csv)
    else if format == "json" then Some(Json)
    else if format == "pdf" then Some(Pdf)
    else None
  }

  /** `dateRange`, as the two strings the caller passes. */
  datatype DateRange = DateRange(start: string, end: string)

  /** The sessions an export renders, and in which format. */
  datatype Export = Export(format: ExportFormat, sessions: seq<Session>)

  /** `start <= time <= end` on `Date`s; an invalid date makes every comparison false. */
  predicate Within(time: int, start: Option<int>, end: Option<int>)
  {
    start.Some? && end.Some? && start.value <= time <= end.value
  }

  /** The sessions whose start lies inside the range, in stored order. */
  function InRange(ss: seq<Session>, start: Option<int>, end: Option<int>): (r: seq<Session>)
    ensures |r| <= |ss|
    ensures forall s :: s in r <==> s in ss && Within(s.startTime, start, end)
  {
    if ss == [] then []
    else (if Within(ss[0].startTime, start, end) then [ss[0]] else []) + InRange(ss[1..], start, end)
  }

  /** Filtering a concatenation filters each part and keeps them in order. */
  lemma {:induction false} InRangeAppend(a: seq<Session>, b: seq<Session>, start: Option<int>, end: Option<int>)
    ensures InRange(a + b, start, end) == InRange(a, start, end) + InRange(b, start, end)
  {
    if a != [] {
      assert (a + b)[1..] == a[1..] + b;
      InRangeAppend(a[1..], b, start, end);
    } else {
      assert a + b == b;
    }
  }

  /** A session inside the range is kept as often as it is stored; one outside is dropped. */
  lemma {:induction false} InRangeKeepsMultiplicity(ss: seq<Session>, start: Option<int>, end: Option<int>, s: Session)
    ensures multiset(InRange(ss, start, end))[s] ==
              if Within(s.startTime, start, end) then multiset(ss)[s] else 0
  {
    if ss != [] {
      assert ss == [ss[0]] + ss[1..];
      InRangeKeepsMultiplicity(ss[1..], start, end, s);
    }
  }

  /**
   * `exportData(format, dateRange)`: the sessions to render, or the error it
   * throws for a format it does not know. `parseDate` is `new Date(string)`,
   * `None` for an invalid date.
   */
  function ExportData(ss: seq<Session>, format: string, range: Option<DateRange>,
                      parseDate: string -> Option<int>): (r: Result<Export, string>)
    ensures r.Err? <==> ParseFormat(format).None?
    ensures r.Err? ==> r.error == "Unsupported export format: " + format
    ensures r.Ok? ==> Some(r.value.format) == ParseFormat(format)
    ensures r.Ok? && range.None? ==> r.value.sessions == ss
    ensures r.Ok? && range.Some? ==>
              forall s :: s in r.value.sessions <==>
                s in ss && Within(s.startTime, parseDate(range.value.start), parseDate(range.value.end))
    ensures r.Ok? && range.Some? ==>
              r.value.sessions == InRange(ss, parseDate(range.value.start), parseDate(range.value.end))
  {
    var chosen := if range.Some? then InRange(ss, parseDate(range.value.start), parseDate(range.value.end)) else ss;
    match ParseFormat(format)
    case None => Err("Unsupported export format: " + format)
    case Some(f) => Ok(Export(f, chosen))
  }

  /** A range with an invalid end exports nothing. */
  lemma InvalidRangeExportsNothing(ss: seq<Session>, format: string, range: DateRange, parseDate: string -> Option<int>)
    requires ParseFormat(format).Some? && (parseDate(range.start).None? || parseDate(range.end).None?)
    ensures ExportData(ss, format, Some(range), parseDate) == Ok(Export(ParseFormat(format).value, []))
  {
    NothingWithinInvalidRange(ss, parseDate(range.start), parseDate(range.end));
  }

  lemma {:induction false} NothingWithinInvalidRange(ss: seq<Session>, start: Option<int>, end: Option<int>)
    requires start.None? || end.None?
    ensures InRange(ss, start, end) == []
  {
    if ss != [] {
      NothingWithinInvalidRange(ss[1..], start, end);
    }
  }

  // ---------------------------------------------------------------- the service

  /** `TimeTrackingService`, without its timers, persistence and VS Code wiring. */
  class TimeTrackingService {
    var currentSession: Option<Session>
    var sessions: seq<Session>
    var isTracking: bool
    /** Whether `setWebviewProvider` has been called, and what was sent to the webview. */
    var hasWebview: bool
    var webviewUpdates: seq<Option<Session>>

    function State(): TrackerState
      reads this
    {
      TrackerState(currentSession, sessions, isTracking, hasWebview, webviewUpdates)
    }

    ghost predicate Valid()
      reads this
    {
      Inv(State())
    }

    /** A service with nothing loaded: no sessions, nothing open, no webview. */
    constructor()
      ensures State() == Initial && Valid()
    {
      currentSession := None;
      sessions := [];
      isTracking := false;
      hasWebview := false;
      webviewUpdates := [];
    }

    /** `setWebviewProvider(provider)`. */
    method SetWebviewProvider()
      requires Valid()
      modifies this
      ensures Valid() && State() == old(State()).(webview := true)
    {
      hasWebview := true;
    }

    method NotifyWebview(payload: Option<Session>)
      modifies this
      ensures State() == Notify(old(State()), payload)
    {
      if hasWebview {
        webviewUpdates := webviewUpdates + [payload];
      }
    }

    /** `startTracking()`, with the new session's id, project and start time given. */
    method StartTracking(id: string, projectName: string, now: int)
      requires Valid()
      modifies this
      ensures Valid() && State() == Start(old(State()), id, projectName, now)
    {
      StepsPreserveInv(State(), id, projectName, now, false, 0, "", 0);
      if isTracking {
        return;
      }
      var s := NewSession(id, projectName, now);
      currentSession := Some(s);
      isTracking := true;
      NotifyWebview(currentSession);
    }

    /** `stopTracking()` at time `now`. */
    method StopTracking(now: int)
      requires Valid()
      modifies this
      ensures Valid() && State() == Stop(old(State()), now)
    {
      StepsPreserveInv(State(), "", "", now, false, 0, "", 0);
      if !isTracking || currentSession.None? {
        return;
      }
      var done := Finished(currentSession.value, now);
      sessions := sessions + [done];
      currentSession := None;
      isTracking := false;
      NotifyWebview(None);
    }

    /** The idle detector's `onIdleStateChange(isIdle, idleDuration)` callback. */
    method OnIdleStateChange(isIdle: bool, idleMs: nat)
      requires Valid()
      modifies this
      ensures Valid() && State() == IdleChange(old(State()), isIdle, idleMs)
    {
      StepsPreserveInv(State(), "", "", 0, isIdle, idleMs, "", 0);
      if currentSession.None? {
        return;
      }
      var s := currentSession.value;
      if isIdle {
        s := s.(idleTime := s.idleTime + idleMs / 1000);
      }
      currentSession := Some(s);
      NotifyWebview(currentSession);
    }

    /** The event mapper's `onActivityDetected(activity)` callback, at time `now`. */
    method OnActivityDetected(kind: string, score: int, now: int)
      requires Valid()
      modifies this
      ensures Valid() && State() == ActivityDetected(old(State()), kind, score, now)
    {
      StepsPreserveInv(State(), "", "", now, false, 0, kind, score);
      if currentSession.Some? {
        var s := currentSession.value;
        currentSession := Some(s.(activities := s.activities + [ActivityRecord(kind, now, score)]));
      }
    }

    /** `resetAllData()` at time `now`. */
    method ResetAllData(now: int)
      requires Valid()
      modifies this
      ensures Valid() && State() == Reset(old(State()), now)
    {
      StepsPreserveInv(State(), "", "", now, false, 0, "", 0);
      if isTracking {
        StopTracking(now);
      }
      sessions := [];
      currentSession := None;
    }

    /** `getDailyStats(date)`; a missing or empty date means `today`. */
    method GetDailyStats(date: Option<int>, today: int) returns (r: DailyStats)
      ensures r == DailyStatsFor(sessions, date, today)
    {
      var target := if date.Some? then date.value else today;
      r := StatsOn(sessions, target);
    }

    /** `getWeeklyStats()`: the stats of the seven days ending `today`, oldest first. */
    method GetWeeklyStats(today: int) returns (r: seq<DailyStats>)
      ensures |r| == 7
      ensures forall k :: 0 <= k < 7 ==> r[k] == StatsOn(sessions, today - 6 + k)
      ensures forall k :: 0 <= k < 7 ==> r[k].date == today - 6 + k
    {
      r := [];
      var i := 6;
      while i >= 0
        invariant -1 <= i <= 6
        invariant |r| == 6 - i
        invariant forall k :: 0 <= k < |r| ==> r[k] == StatsOn(sessions, today - 6 + k)
      {
        var daily := GetDailyStats(Some(today - i), today);
        r := r + [daily];
        i := i - 1;
      }
    }

    /** `exportData(format, dateRange)`. */
    method ExportSessions(format: string, range: Option<DateRange>, parseDate: string -> Option<int>)
      returns (r: Result<Export, string>)
      ensures r == ExportData(sessions, format, range, parseDate)
    {
      var chosen := sessions;
      if range.Some? {
        chosen := InRange(sessions, parseDate(range.value.start), parseDate(range.value.end));
      }
      var f := ParseFormat(format);
      if f.None? {
        return Err("Unsupported export format: " + format);
      }
      r := Ok(Export(f.value, chosen));
    }
  }
}
