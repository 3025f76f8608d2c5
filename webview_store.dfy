/**
 * The webview's time-tracking store: the state the dashboard renders, the
 * reducers that replace its fields, the outbound `sendMessage` channel with
 * its `lastError`, and the listener that applies messages from the
 * extension.
 */
module WebviewStore {
  import opened Wrappers

  datatype View = Dashboard | SettingsView | ExportView

  /** The webview's own `Session` record; times are milliseconds. */
  datatype Session = Session(
    id: string,
    projectName: string,
    startTime: int,
    endTime: Option<int>,
    duration: int,
    isActive: bool,
    interruptions: int,
    filePath: Option<string>)

  datatype DailyStats = DailyStats(
    date: string,
    focusTime: int,
    sessions: int,
    projects: seq<string>,
    averageSessionLength: int)

  datatype Theme = Light | Dark | Auto

  /** `AppSettings`; the idle timeout and the daily goal are in seconds. */
  datatype Settings = Settings(
    idleTimeout: int,
    dailyGoal: int,
    theme: Theme,
    notifications: bool,
    autoStart: bool,
    showSeconds: bool)

  /** `Partial<AppSettings>`: the keys present are `Some`. */
  datatype PartialSettings = PartialSettings(
    idleTimeout: Option<int>,
    dailyGoal: Option<int>,
    theme: Option<Theme>,
    notifications: Option<bool>,
    autoStart: Option<bool>,
    showSeconds: Option<bool>)

  const NoChanges := PartialSettings(None, None, None, None, None, None)

  /** `defaultSettings`. */
  const DefaultSettings := Settings(300, 8 * 60 * 60, Auto, true, true, true)

  /** A message the webview posts to the extension. */
  datatype Outgoing =
    | UpdateSettingsRequest(payload: PartialSettings)  // `{type: 'updateSettings', payload}`
    | Request(kind: string)                             // a message some component sends

  /** What `postMessage` throws: an `Error`, or some other value. */
  datatype Thrown = ErrorObject(message: string) | OtherValue

  /** The host side of `sendMessage`: no `window.vscode`, a `postMessage` that delivers, or one that throws. */
  datatype Api = NoApi | Delivers | Throws(thrown: Thrown)

  /** A message from the extension, by its `type`. */
  datatype Inbound =
    | SessionUpdate(session: Option<Session>)         // 'sessionUpdate'
    | DailyStatsUpdate(stats: DailyStats)             // 'dailyStatsUpdate'
    | WeeklyStatsUpdate(weekly: seq<DailyStats>)      // 'weeklyStatsUpdate'
    | SettingsUpdate(partial: PartialSettings)        // 'settingsUpdate'
    | ConnectionStatus(connected: bool)               // 'connectionStatus'
    | ErrorReport(message: string)                    // 'error'
    | Unknown(kind: string)                           // any other type

  /** The store's fields, and the messages posted through `sendMessage`, oldest first. */
  datatype StoreState = StoreState(
    activeView: View,
    currentSession: Option<Session>,
    recentSessions: seq<Session>,
    dailyStats: Option<DailyStats>,
    weeklyStats: seq<DailyStats>,
    settings: Settings,
    isConnected: bool,
    isLoading: bool,
    lastError: Option<string>,
    posted: seq<Outgoing>)

  const MaxRecent := 10

  /** The store as created. */
  function InitialState(): (r: StoreState)
    ensures r.activeView == Dashboard && r.currentSession == None && r.recentSessions == []
    ensures r.dailyStats == None && r.weeklyStats == []
    ensures r.settings.idleTimeout == 5 * 60 && r.settings.dailyGoal == 8 * 3600 && r.settings.theme == Auto
    ensures r.settings.notifications && r.settings.autoStart && r.settings.showSeconds
    ensures !r.isConnected && !r.isLoading && r.lastError == None && r.posted == []
  {
    StoreState(Dashboard, None, [], None, [], DefaultSettings, false, false, None, [])
  }

  // ---------------------------------------------------------------- addSession

  /** `[session, ...recent].slice(0, 10)`. */
  function AddRecent(recent: seq<Session>, session: Session): seq<Session>
  {
    var all := [session] + recent;
    if |all| <= MaxRecent then all else all[..MaxRecent]
  }

  /** The new session comes first, the earlier ones follow in order, and only the oldest beyond ten are dropped. */
  lemma AddRecentKeepsNewest(recent: seq<Session>, session: Session)
    ensures var r := AddRecent(recent, session);
            && |r| == (if |recent| + 1 <= MaxRecent then |recent| + 1 else MaxRecent)
            && r[0] == session
            && r[1..] == recent[..|r| - 1]
    ensures |recent| < MaxRecent ==> AddRecent(recent, session) == [session] + recent
  {
    var r := AddRecent(recent, session);
    assert ([session] + recent)[1..] == recent;
    if |recent| + 1 > MaxRecent {
      assert r[1..] == ([session] + recent)[1..MaxRecent];
    }
  }

  /** A session that was among the nine newest is still in the list after another is added. */
  lemma AddRecentKeepsNine(recent: seq<Session>, session: Session, i: nat)
    requires i < |recent| && i < MaxRecent - 1
    ensures AddRecent(recent, session)[i + 1] == recent[i]
  {
    AddRecentKeepsNewest(recent, session);
  }

  // ---------------------------------------------------------------- updateSettings

  /** `{...settings, ...partial}`. */
  function MergeSettings(s: Settings, p: PartialSettings): Settings
  {
    Settings(
      if p.idleTimeout.Some? then p.idleTimeout.value else s.idleTimeout,
      if p.dailyGoal.Some? then p.dailyGoal.value else s.dailyGoal,
      if p.theme.Some? then p.theme.value else s.theme,
      if p.notifications.Some? then p.notifications.value else s.notifications,
      if p.autoStart.Some? then p.autoStart.value else s.autoStart,
      if p.showSeconds.Some? then p.showSeconds.value else s.showSeconds)
  }

  /** The keys present in the partial are overwritten; every other key keeps its value. */
  lemma MergeOverwritesGivenKeys(s: Settings, p: PartialSettings)
    ensures var r := MergeSettings(s, p);
            && r.idleTimeout == (if p.idleTimeout.Some? then p.idleTimeout.value else s.idleTimeout)
            && r.dailyGoal == (if p.dailyGoal.Some? then p.dailyGoal.value else s.dailyGoal)
            && r.theme == (if p.theme.Some? then p.theme.value else s.theme)
            && r.notifications == (if p.notifications.Some? then p.notifications.value else s.notifications)
            && r.autoStart == (if p.autoStart.Some? then p.autoStart.value else s.autoStart)
            && r.showSeconds == (if p.showSeconds.Some? then p.showSeconds.value else s.showSeconds)
  {
  }

  /** Merging nothing changes nothing, and merging the same keys twice is merging them once. */
  lemma MergeLaws(s: Settings, p: PartialSettings)
    ensures MergeSettings(s, NoChanges) == s
    ensures MergeSettings(MergeSettings(s, p), p) == MergeSettings(s, p)
  {
  }

  /** A later merge wins over an earlier one, key by key. */
  lemma MergeLaterWins(s: Settings, p: PartialSettings, q: PartialSettings)
    ensures var r := MergeSettings(MergeSettings(s, p), q);
            && (q.idleTimeout.Some? ==> r.idleTimeout == q.idleTimeout.value)
            && (q.idleTimeout.None? && p.idleTimeout.Some? ==> r.idleTimeout == p.idleTimeout.value)
            && (q.theme.Some? ==> r.theme == q.theme.value)
            && (q.theme.None? && p.theme.Some? ==> r.theme == p.theme.value)
  {
  }

  // ---------------------------------------------------------------- sendMessage

  /** `setError(error)`. */
  function WithError(st: StoreState, error: Option<string>): StoreState
  {
    st.(lastError := error)
  }

  /** `sendMessage(message)`: post it and clear the error, or record why it could not be posted. */
  function Send(st: StoreState, api: Api, m: Outgoing): StoreState
  {
    match api
    case Delivers => WithError(st.(posted := st.posted + [m]), None)
    case NoApi => WithError(st, Some("VS Code API not available"))
    case Throws(ErrorObject(message)) => WithError(st, Some(message))
    case Throws(OtherValue) => WithError(st, Some("Communication error"))
  }

  /** A delivered message is posted once and clears the error; otherwise nothing is posted and the error is set. */
  lemma SendOutcome(st: StoreState, api: Api, m: Outgoing)
    ensures var r := Send(st, api, m);
            && r.(lastError := st.lastError, posted := st.posted) == st
            && (api.Delivers? <==> r.lastError == None)
            && (api.Delivers? ==> r.posted == st.posted + [m])
            && (!api.Delivers? ==> r.posted == st.posted)
            && (api == NoApi ==> r.lastError == Some("VS Code API not available"))
            && (api.Throws? && api.thrown.ErrorObject? ==> r.lastError == Some(api.thrown.message))
            && (api == Throws(OtherValue) ==> r.lastError == Some("Communication error"))
  {
  }

  /** `updateSettings(partial)`: merge, then send the partial to the extension. */
  function WithSettingsUpdate(st: StoreState, api: Api, p: PartialSettings): StoreState
  {
    Send(st.(settings := MergeSettings(st.settings, p)), api, UpdateSettingsRequest(p))
  }

  /** Updating overwrites exactly the given keys and sends one `updateSettings` message carrying the partial. */
  lemma UpdateSettingsSendsPartial(st: StoreState, api: Api, p: PartialSettings)
    ensures var r := WithSettingsUpdate(st, api, p);
            && r.settings == MergeSettings(st.settings, p)
            && r.(settings := st.settings, lastError := st.lastError, posted := st.posted) == st
            && (api.Delivers? ==> r.posted == st.posted + [UpdateSettingsRequest(p)] && r.lastError == None)
            && (!api.Delivers? ==> r.posted == st.posted && r.lastError.Some?)
  {
  }

  // ---------------------------------------------------------------- the setters

  function WithActiveView(st: StoreState, v: View): StoreState { st.(activeView := v) }

  function WithCurrentSession(st: StoreState, s: Option<Session>): StoreState { st.(currentSession := s) }

  function WithAddedSession(st: StoreState, s: Session): StoreState { st.(recentSessions := AddRecent(st.recentSessions, s)) }

  function WithDailyStats(st: StoreState, d: DailyStats): StoreState { st.(dailyStats := Some(d)) }

  function WithWeeklyStats(st: StoreState, w: seq<DailyStats>): StoreState { st.(weeklyStats := w) }

  function WithConnection(st: StoreState, c: bool): StoreState { st.(isConnected := c) }

  function WithLoading(st: StoreState, l: bool): StoreState { st.(isLoading := l) }

  // ---------------------------------------------------------------- the message listener

  /** The `message` listener's `switch (message.type)`. */
  function Receive(st: StoreState, api: Api, m: Inbound): StoreState
  {
    match m
    case SessionUpdate(s) => WithCurrentSession(st, s)
    case DailyStatsUpdate(d) => WithDailyStats(st, d)
    case WeeklyStatsUpdate(w) => WithWeeklyStats(st, w)
    case SettingsUpdate(p) => WithSettingsUpdate(st, api, p)
    case ConnectionStatus(c) => WithConnection(st, c)
    case ErrorReport(message) => WithError(st, Some(message))
    case Unknown(_) => st
  }

  /** Each known message replaces its own field and no other; an unknown one is ignored. */
  lemma ReceiveTouchesOneField(st: StoreState, api: Api, m: Inbound)
    ensures var r := Receive(st, api, m);
            && (m.SessionUpdate? ==> r == st.(currentSession := m.session))
            && (m.DailyStatsUpdate? ==> r == st.(dailyStats := Some(m.stats)))
            && (m.WeeklyStatsUpdate? ==> r == st.(weeklyStats := m.weekly))
            && (m.ConnectionStatus? ==> r == st.(isConnected := m.connected))
            && (m.ErrorReport? ==> r == st.(lastError := Some(m.message)))
            && (m.Unknown? ==> r == st)
            && (!m.SettingsUpdate? ==> r.posted == st.posted)
  {
  }

  /** A settings update from the extension is merged in and echoed back as an `updateSettings` request. */
  lemma SettingsUpdateIsEchoed(st: StoreState, p: PartialSettings)
    ensures Receive(st, Delivers, SettingsUpdate(p)).settings == MergeSettings(st.settings, p)
    ensures Receive(st, Delivers, SettingsUpdate(p)).posted == st.posted + [UpdateSettingsRequest(p)]
  {
  }

  /** No inbound message touches the recent sessions, the view or the loading flag. */
  lemma ReceiveKeepsLocalState(st: StoreState, api: Api, m: Inbound)
    ensures Receive(st, api, m).recentSessions == st.recentSessions
    ensures Receive(st, api, m).activeView == st.activeView
    ensures Receive(st, api, m).isLoading == st.isLoading
  {
  }

  /** The store never holds more than ten recent sessions. */
  predicate Inv(st: StoreState)
  {
    |st.recentSessions| <= MaxRecent
  }

  lemma StepsPreserveInv(st: StoreState, api: Api, m: Inbound, s: Session, p: PartialSettings, out: Outgoing)
    requires Inv(st)
    ensures Inv(WithAddedSession(st, s))
    ensures Inv(Receive(st, api, m))
    ensures Inv(WithSettingsUpdate(st, api, p))
    ensures Inv(Send(st, api, out))
  {
    AddRecentKeepsNewest(st.recentSessions, s);
  }

  // ---------------------------------------------------------------- the store

  /** `useTimeTrackingStore`: the fields `set` replaces, and the messages posted. */
  class Store {
    var activeView: View
    var currentSession: Option<Session>
    var recentSessions: seq<Session>
    var dailyStats: Option<DailyStats>
    var weeklyStats: seq<DailyStats>
    var settings: Settings
    var isConnected: bool
    var isLoading: bool
    var lastError: Option<string>
    var posted: seq<Outgoing>

    function State(): StoreState
      reads this
    {
      StoreState(activeView, currentSession, recentSessions, dailyStats, weeklyStats,
                 settings, isConnected, isLoading, lastError, posted)
    }

    ghost predicate Valid()
      reads this
    {
      Inv(State())
    }

    constructor()
      ensures State() == InitialState() && Valid()
    {
      activeView := Dashboard;
      currentSession := None;
      recentSessions := [];
      dailyStats := None;
      weeklyStats := [];
      settings := DefaultSettings;
      isConnected := false;
      isLoading := false;
      lastError := None;
      posted := [];
    }

    method SetActiveView(v: View)
      requires Valid()
      modifies this
      ensures Valid() && State() == WithActiveView(old(State()), v)
    {
      activeView := v;
    }

    method SetCurrentSession(s: Option<Session>)
      requires Valid()
      modifies this
      ensures Valid() && State() == WithCurrentSession(old(State()), s)
    {
      currentSession := s;
    }

    method AddSession(s: Session)
      requires Valid()
      modifies this
      ensures Valid() && State() == WithAddedSession(old(State()), s)
    {
      AddRecentKeepsNewest(recentSessions, s);
      recentSessions := AddRecent(recentSessions, s);
    }

    method SetDailyStats(d: DailyStats)
      requires Valid()
      modifies this
      ensures Valid() && State() == WithDailyStats(old(State()), d)
    {
      dailyStats := Some(d);
    }

    method SetWeeklyStats(w: seq<DailyStats>)
      requires Valid()
      modifies this
      ensures Valid() && State() == WithWeeklyStats(old(State()), w)
    {
      weeklyStats := w;
    }

    method SetConnectionStatus(c: bool)
      requires Valid()
      modifies this
      ensures Valid() && State() == WithConnection(old(State()), c)
    {
      isConnected := c;
    }

    method SetLoading(l: bool)
      requires Valid()
      modifies this
      ensures Valid() && State() == WithLoading(old(State()), l)
    {
      isLoading := l;
    }

    method SetError(error: Option<string>)
      requires Valid()
      modifies this
      ensures Valid() && State() == WithError(old(State()), error)
    {
      lastError := error;
    }

    /** `sendMessage(message)` against the host `api`. */
    method SendMessage(m: Outgoing, api: Api)
      requires Valid()
      modifies this
      ensures Valid() && State() == Send(old(State()), api, m)
    {
      match api {
        case Delivers =>
          posted := posted + [m];
          SetError(None);
        case NoApi =>
          SetError(Some("VS Code API not available"));
        case Throws(ErrorObject(message)) =>
          SetError(Some(message));
        case Throws(OtherValue) =>
          SetError(Some("Communication error"));
      }
    }

    /** `updateSettings(partial)`. */
    method UpdateSettings(p: PartialSettings, api: Api)
      requires Valid()
      modifies this
      ensures Valid() && State() == WithSettingsUpdate(old(State()), api, p)
    {
      settings := MergeSettings(settings, p);
      SendMessage(UpdateSettingsRequest(p), api);
    }

    /** The window's `message` listener. */
    method OnMessage(m: Inbound, api: Api)
      requires Valid()
      modifies this
      ensures Valid() && State() == Receive(old(State()), api, m)
    {
      match m {
        case SessionUpdate(s) => SetCurrentSession(s);
        case DailyStatsUpdate(d) => SetDailyStats(d);
        case WeeklyStatsUpdate(w) => SetWeeklyStats(w);
        case SettingsUpdate(p) => UpdateSettings(p, api);
        case ConnectionStatus(c) => SetConnectionStatus(c);
        case ErrorReport(message) => SetError(Some(message));
        case Unknown(_) =>
      }
    }
  }
}
