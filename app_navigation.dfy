/**
 * The application root's state: which view is on screen, the selections
 * made in it, and the storm list with its loading flag and error. The two
 * effects of the root react to changes of the view and of the chosen date
 * and start storm fetches; here they emit a request instead of fetching,
 * and the settled response is applied by a separate step.
 */
module AppNavigation {
  import opened Common
  import opened StormData
  import opened Cities

  datatype View = Home | Map | Dashboard

  /** The storm fetch an effect starts. */
  datatype StormRequest = FetchLatest | FetchByDate(date: string)

  datatype AppState = AppState(
    currentView: View,
    selectedCity: Option<City>,
    weatherData: Option<CityWeather>,
    mainStormView: Option<StormRecord>,
    activeStorms: seq<StormRecord>,
    loading: bool,
    error: Option<string>,
    latestDate: Option<string>)

  /** The state after the first render. */
  const Initial: AppState := AppState(Home, None, None, None, [], false, None, None)

  /** A transition's new state and the fetches it started, in order. */
  datatype Step = Step(state: AppState, requests: seq<StormRequest>)

  /** `latestDate` is truthy: set and not empty. */
  predicate HasDate(d: Option<string>) {
    d.Some? && d.value != ""
  }

  /** The synchronous start of either fetch: loading on, previous error gone. */
  function StartFetch(s: AppState): AppState {
    s.(loading := true, error := None)
  }

  /** The first effect: in the dashboard with a date set, clear the selected storm and fetch that date. */
  function DateEffect(s: AppState): Step {
    if s.currentView == Dashboard && HasDate(s.latestDate) then
      Step(StartFetch(s.(mainStormView := None)), [FetchByDate(s.latestDate.value)])
    else
      Step(s, [])
  }

  /**
   * The second effect: entering the dashboard clears the selected storm and
   * fetches the latest storms unless a date is set; entering the map clears
   * the date, the storm list and the error.
   */
  function ViewEffect(s: AppState): Step {
    match s.currentView
    case Dashboard =>
      var t := s.(mainStormView := None);
      if HasDate(t.latestDate) then Step(t, []) else Step(StartFetch(t), [FetchLatest])
    case Map => Step(s.(latestDate := None, activeStorms := [], error := None), [])
    case Home => Step(s, [])
  }

  /**
   * The effects after a render: the first runs when the view or the date
   * changed, the second when the view changed, in declaration order. (The
   * date the second effect clears on the map re-runs the first effect,
   * which does nothing outside the dashboard.)
   */
  function AfterRender(s: AppState, viewChanged: bool, dateChanged: bool): Step {
    var a := if viewChanged || dateChanged then DateEffect(s) else Step(s, []);
    var b := if viewChanged then ViewEffect(a.state) else Step(a.state, []);
    Step(b.state, a.requests + b.requests)
  }

  /** `navigateTo(view)`: a new view re-runs the effects; the same view changes nothing. */
  function Navigate(s: AppState, view: View): Step {
    if view == s.currentView then Step(s, []) else AfterRender(s.(currentView := view), true, false)
  }

  /** `navigateToHome()`. */
  function GoHome(s: AppState): Step {
    var t := s.(currentView := Home, mainStormView := None, selectedCity := None, activeStorms := [], error := None);
    AfterRender(t, s.currentView != Home, false)
  }

  /** `onDateChange(date)` from the dashboard calendar. */
  function ChangeDate(s: AppState, date: string): Step {
    if s.latestDate == Some(date) then Step(s, [])
    else AfterRender(s.(latestDate := Some(date)), false, true)
  }

  /** A storm fetch has settled: the `try`/`catch`/`finally` of both fetches. */
  function Settle(s: AppState, outcome: StormsLoad): (t: AppState)
    ensures !t.loading
    ensures outcome.Failed? ==> t.activeStorms == [] && t.error == Some(outcome.message)
    ensures outcome.Loaded? ==> t.activeStorms == outcome.storms && t.error == s.error
  {
    match outcome
    case Loaded(storms) => s.(activeStorms := storms, loading := false)
    case Failed(message) => s.(activeStorms := [], error := Some(message), loading := false)
  }

  /* ---------------------------------------------------------------------- */
  /* Properties of the transitions                                          */
  /* ---------------------------------------------------------------------- */

  /**
   * Entering the dashboard clears the selected storm and starts exactly one
   * fetch: the chosen date's when a date is set, the latest otherwise.
   */
  lemma EnterDashboard(s: AppState)
    requires s.currentView != Dashboard
    ensures Navigate(s, Dashboard).requests ==
      [if HasDate(s.latestDate) then FetchByDate(s.latestDate.value) else FetchLatest]
    ensures Navigate(s, Dashboard).state ==
      StartFetch(s.(currentView := Dashboard, mainStormView := None))
  {
  }

  /** Entering the map clears the date, the storm list and the error, and fetches nothing. */
  lemma EnterMap(s: AppState)
    requires s.currentView != Map
    ensures Navigate(s, Map) ==
      Step(s.(currentView := Map, latestDate := None, activeStorms := [], error := None), [])
  {
  }

  /** Entering the home view changes nothing but the view. */
  lemma EnterHome(s: AppState)
    ensures Navigate(s, Home) == Step(s.(currentView := Home), [])
  {
  }

  /**
   * Going home clears the selected storm, the selected city, the storm list
   * and the error, fetches nothing, and keeps the date, the weather card and
   * the loading flag.
   */
  lemma GoHomeClears(s: AppState)
    ensures GoHome(s) == Step(s.(currentView := Home, mainStormView := None, selectedCity := None,
      activeStorms := [], error := None), [])
  {
  }

  lemma GoHomeIdempotent(s: AppState)
    ensures GoHome(GoHome(s).state) == GoHome(s)
  {
    GoHomeClears(s);
    GoHomeClears(GoHome(s).state);
  }

  /** In the dashboard, a new non-empty date clears the selected storm and fetches that date. */
  lemma ChangeDateInDashboard(s: AppState, date: string)
    requires s.currentView == Dashboard && date != "" && s.latestDate != Some(date)
    ensures ChangeDate(s, date) ==
      Step(StartFetch(s.(latestDate := Some(date), mainStormView := None)), [FetchByDate(date)])
  {
  }

  /**
   * The date survives a trip to the home view, so coming back to the
   * dashboard fetches that date again rather than the latest storms.
   */
  lemma ReturnToDashboardKeepsDate(s: AppState, date: string)
    requires s.currentView == Dashboard && HasDate(s.latestDate) && s.latestDate.value == date
    ensures var back := Navigate(GoHome(s).state, Dashboard);
      back.requests == [FetchByDate(date)] && back.state.mainStormView == None
  {
    GoHomeClears(s);
    EnterDashboard(GoHome(s).state);
  }

  /**
   * Every fetch a transition starts belongs to the dashboard and to the
   * state it leaves: the date fetch names the date in the new state, the
   * latest fetch happens only without a date, and at most one starts; while
   * it runs the selected storm is cleared, the flag is on and the error gone.
   */
  predicate Coherent(step: Step) {
    var t := step.state;
    |step.requests| <= 1 &&
    (step.requests != [] ==>
      t.currentView == Dashboard && t.mainStormView == None && t.loading && t.error == None &&
      step.requests[0] == (if HasDate(t.latestDate) then FetchByDate(t.latestDate.value) else FetchLatest))
  }

  lemma NavigateCoherent(s: AppState, view: View)
    ensures Coherent(Navigate(s, view))
  {
    if view != s.currentView && view == Dashboard {
      EnterDashboard(s);
    }
  }

  lemma GoHomeCoherent(s: AppState)
    ensures Coherent(GoHome(s))
  {
    GoHomeClears(s);
  }

  lemma ChangeDateCoherent(s: AppState, date: string)
    ensures Coherent(ChangeDate(s, date))
  {
  }

  /** On the map no date is ever set. */
  predicate MapWithoutDate(s: AppState) {
    s.currentView == Map ==> s.latestDate == None
  }

  /** Every transition keeps the map free of a date (the calendar exists only in the dashboard). */
  lemma TransitionsKeepMapWithoutDate(s: AppState, view: View, date: string, outcome: StormsLoad)
    requires MapWithoutDate(s)
    ensures MapWithoutDate(Navigate(s, view).state)
    ensures MapWithoutDate(GoHome(s).state)
    ensures s.currentView == Dashboard ==> MapWithoutDate(ChangeDate(s, date).state)
    ensures MapWithoutDate(Settle(s, outcome))
  {
    if view != s.currentView && view == Map {
      EnterMap(s);
    }
  }

  /* ---------------------------------------------------------------------- */
  /* The root component's state                                             */
  /* ---------------------------------------------------------------------- */

  class App {
    var currentView: View
    var selectedCity: Option<City>
    var weatherData: Option<CityWeather>
    var mainStormView: Option<StormRecord>
    var activeStorms: seq<StormRecord>
    var loading: bool
    var error: Option<string>
    var latestDate: Option<string>

    function State(): AppState
      reads this
    {
      AppState(currentView, selectedCity, weatherData, mainStormView, activeStorms, loading, error, latestDate)
    }

    constructor()
      ensures State() == Initial
    {
      currentView := Home;
      selectedCity := None;
      weatherData := None;
      mainStormView := None;
      activeStorms := [];
      loading := false;
      error := None;
      latestDate := None;
    }

    /** Runs the effects in order after a render, collecting the fetches they start. */
    method RunEffects(viewChanged: bool, dateChanged: bool) returns (requests: seq<StormRequest>)
      modifies this
      ensures State() == AfterRender(old(State()), viewChanged, dateChanged).state
      ensures requests == AfterRender(old(State()), viewChanged, dateChanged).requests
    {
      requests := [];
      if viewChanged || dateChanged {
        if currentView == Dashboard && HasDate(latestDate) {
          mainStormView := None;
          loading := true;
          error := None;
          requests := requests + [FetchByDate(latestDate.value)];
        }
      }
      if viewChanged {
        if currentView == Dashboard {
          mainStormView := None;
          if !HasDate(latestDate) {
            loading := true;
            error := None;
            requests := requests + [FetchLatest];
          }
        } else if currentView == Map {
          latestDate := None;
          activeStorms := [];
          error := None;
        }
      }
    }

    method NavigateTo(view: View) returns (requests: seq<StormRequest>)
      modifies this
      ensures State() == Navigate(old(State()), view).state
      ensures requests == Navigate(old(State()), view).requests
    {
      if view == currentView {
        return [];
      }
      currentView := view;
      requests := RunEffects(true, false);
    }

    method NavigateToHome() returns (requests: seq<StormRequest>)
      modifies this
      ensures State() == GoHome(old(State())).state
      ensures requests == GoHome(old(State())).requests
    {
      var viewChanged := currentView != Home;
      currentView := Home;
      mainStormView := None;
      selectedCity := None;
      activeStorms := [];
      error := None;
      requests := RunEffects(viewChanged, false);
    }

    method SetLatestDate(date: string) returns (requests: seq<StormRequest>)
      modifies this
      ensures State() == ChangeDate(old(State()), date).state
      ensures requests == ChangeDate(old(State()), date).requests
    {
      if latestDate == Some(date) {
        return [];
      }
      latestDate := Some(date);
      requests := RunEffects(false, true);
    }

    /** The dashboard selects a storm, or deselects it with None. */
    method SetMainStormView(storm: Option<StormRecord>)
      modifies this
      ensures State() == old(State()).(mainStormView := storm)
    {
      mainStormView := storm;
    }

    method SetSelectedCity(city: City)
      modifies this
      ensures State() == old(State()).(selectedCity := Some(city))
    {
      selectedCity := Some(city);
    }

    method SetWeatherData(weather: CityWeather)
      modifies this
      ensures State() == old(State()).(weatherData := Some(weather))
    {
      weatherData := Some(weather);
    }

    /** The by-date fetch for `date` has settled with `resp`. */
    method CompleteByDate(date: string, resp: HttpResult, now: int)
      modifies this
      ensures State() == Settle(old(State()), ByDateOutcome(date, resp, now))
    {
      var outcome := FetchStormsByDate(date, resp, now);
      ApplyOutcome(outcome);
    }

    /** The latest-storms fetch has settled with `resp`. */
    method CompleteLatest(resp: HttpResult, now: int)
      modifies this
      ensures State() == Settle(old(State()), LatestOutcome(resp, now))
    {
      var outcome := FetchLatestStorms(resp, now);
      ApplyOutcome(outcome);
    }

    method ApplyOutcome(outcome: StormsLoad)
      modifies this
      ensures State() == Settle(old(State()), outcome)
    {
      match outcome {
        case Loaded(storms) =>
          activeStorms := storms;
        case Failed(message) =>
          error := Some(message);
          activeStorms := [];
      }
      loading := false;
    }
  }

  /**
   * Dashboard, home, dashboard again without a date: each visit fetches the
   * latest storms, and a storm selected on the first visit is gone.
   */
  method DashboardRoundTrip(storm: StormRecord) returns (first: seq<StormRequest>, second: seq<StormRequest>, selected: Option<StormRecord>)
    ensures first == [FetchLatest] && second == [FetchLatest] && selected == None
  {
    var app := new App();
    first := app.NavigateTo(Dashboard);
    app.SetMainStormView(Some(storm));
    var none := app.NavigateToHome();
    second := app.NavigateTo(Dashboard);
    selected := app.mainStormView;
  }
}
