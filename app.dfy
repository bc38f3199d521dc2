/** The top-level application: the navigation state `(currentView,
    selectedAircraft)`, the view dispatch, the lists it derives from the
    fleet for the pages, and the header's weather display. */
module App {
  import opened Seqs
  import opened Js
  import opened Types
  import Sidebar

  // ---------------------------------------------------------------
  // Lists derived from the fleet
  // ---------------------------------------------------------------

  predicate HasRepair(a: Aircraft)
  {
    a.currentRepair.Some?
  }

  /** `aircraft.filter(a => a.currentRepair).map(a => a.currentRepair)` */
  function DashboardRepairs(fleet: seq<Aircraft>): seq<Repair>
  {
    if fleet == [] then []
    else if fleet[0].currentRepair.Some? then [fleet[0].currentRepair.value] + DashboardRepairs(fleet[1..])
    else DashboardRepairs(fleet[1..])
  }

  /** One repair per aircraft that has one, in fleet order: the i-th entry
      is the current repair of the i-th aircraft that has one. */
  lemma {:induction false} DashboardRepairsSpec(fleet: seq<Aircraft>)
    ensures |DashboardRepairs(fleet)| == |Filter(HasRepair, fleet)|
    ensures forall i :: 0 <= i < |DashboardRepairs(fleet)| ==>
      Some(DashboardRepairs(fleet)[i]) == Filter(HasRepair, fleet)[i].currentRepair
  {
    if fleet != [] {
      DashboardRepairsSpec(fleet[1..]);
    }
  }

  /** A repair is listed exactly when it is some aircraft's current repair. */
  lemma {:induction false} DashboardRepairsMembers(fleet: seq<Aircraft>, r: Repair)
    ensures r in DashboardRepairs(fleet) <==> exists a :: a in fleet && a.currentRepair == Some(r)
  {
    if fleet != [] {
      DashboardRepairsMembers(fleet[1..], r);
      if exists a :: a in fleet && a.currentRepair == Some(r) {
        var a :| a in fleet && a.currentRepair == Some(r);
        if a != fleet[0] {
          assert a in fleet[1..];
        }
      }
      if r in DashboardRepairs(fleet[1..]) {
        var a :| a in fleet[1..] && a.currentRepair == Some(r);
        assert a in fleet;
      }
    }
  }

  /** `aircraft.flatMap(a => a.missions)` */
  function FleetMissions(fleet: seq<Aircraft>): seq<Mission>
  {
    FlatMap((a: Aircraft) => a.missions, fleet)
  }

  /** `aircraft.flatMap(a => a.repairs)` */
  function FleetRepairs(fleet: seq<Aircraft>): seq<Repair>
  {
    FlatMap((a: Aircraft) => a.repairs, fleet)
  }

  /** The number of missions over the whole fleet */
  function MissionCount(fleet: seq<Aircraft>): nat
  {
    if fleet == [] then 0 else |fleet[0].missions| + MissionCount(fleet[1..])
  }

  /** The fleet's missions are every aircraft's missions, concatenated in
      fleet order: they split along any split of the fleet, their number is
      the sum of the aircraft's counts, and each belongs to some aircraft. */
  lemma {:induction false} FleetMissionsSpec(fleet: seq<Aircraft>, front: seq<Aircraft>, back: seq<Aircraft>)
    requires fleet == front + back
    ensures FleetMissions(fleet) == FleetMissions(front) + FleetMissions(back)
    ensures |FleetMissions(fleet)| == MissionCount(fleet)
    ensures forall m :: m in FleetMissions(fleet) <==> exists a :: a in fleet && m in a.missions
  {
    FlatMapConcat((a: Aircraft) => a.missions, front, back);
    FleetMissionsCount(fleet);
  }

  lemma {:induction false} FleetMissionsCount(fleet: seq<Aircraft>)
    ensures |FleetMissions(fleet)| == MissionCount(fleet)
  {
    if fleet != [] {
      FleetMissionsCount(fleet[1..]);
    }
  }

  /** When every aircraft has `k` missions, the fleet has `k` per aircraft. */
  lemma {:induction false} MissionCountUniform(fleet: seq<Aircraft>, k: nat)
    requires forall a :: a in fleet ==> |a.missions| == k
    ensures MissionCount(fleet) == |fleet| * k
  {
    if fleet != [] {
      assert fleet[0] in fleet;
      assert forall a :: a in fleet[1..] ==> a in fleet;
      MissionCountUniform(fleet[1..], k);
      MulSucc(|fleet[1..]|, k);
    }
  }

  /** A fleet without any recorded repairs passes no repairs to the reports. */
  lemma {:induction false} FleetRepairsEmpty(fleet: seq<Aircraft>)
    requires forall a :: a in fleet ==> a.repairs == []
    ensures FleetRepairs(fleet) == []
  {
    if fleet != [] {
      assert forall a :: a in fleet[1..] ==> a in fleet;
      FleetRepairsEmpty(fleet[1..]);
    }
  }

  // ---------------------------------------------------------------
  // View dispatch
  // ---------------------------------------------------------------

  /** What `renderContent` shows, with the data each page is given */
  datatype Page =
    | DashboardPage(aircraft: seq<Aircraft>, repairs: seq<Repair>, technicians: seq<Technician>, parts: seq<Part>, missions: seq<Mission>)
    | FleetPage(aircraft: seq<Aircraft>)
    | SchedulePage(missions: seq<Mission>, aircraft: seq<Aircraft>)
    | PersonnelPage(technicians: seq<Technician>)
    | InventoryPage(parts: seq<Part>)
    | ReportsPage(missions: seq<Mission>, repairs: seq<Repair>, technicians: seq<Technician>)
    | FlightTestPage(aircraft: seq<Aircraft>)
    | SettingsPage
    | NotFound

  /** `renderContent` */
  function RenderContent(view: string, fleet: seq<Aircraft>, technicians: seq<Technician>, parts: seq<Part>): Page
  {
    if view == "dashboard" then DashboardPage(fleet, DashboardRepairs(fleet), technicians, parts, FleetMissions(fleet))
    else if view == "fleet" then FleetPage(fleet)
    else if view == "schedule" then SchedulePage(FleetMissions(fleet), fleet)
    else if view == "personnel" then PersonnelPage(technicians)
    else if view == "inventory" then InventoryPage(parts)
    else if view == "reports" then ReportsPage(FleetMissions(fleet), FleetRepairs(fleet), technicians)
    else if view == "flight-test" then FlightTestPage(fleet)
    else if view == "settings" then SettingsPage
    else NotFound
  }

  /** The views `renderContent` has a case for */
  const KnownViews: seq<string> :=
    ["dashboard", "fleet", "schedule", "personnel", "inventory", "reports", "flight-test", "settings"]

  /** Exactly the eight known views render a page; every other string,
      the empty one included, renders "Page not found". */
  lemma RenderContentRecognises(view: string, fleet: seq<Aircraft>, technicians: seq<Technician>, parts: seq<Part>)
    ensures RenderContent(view, fleet, technicians, parts) != NotFound <==> view in KnownViews
    ensures RenderContent("", fleet, technicians, parts) == NotFound
  {
    assert "" !in KnownViews;
  }

  /** The dashboard, schedule and reports pages are all given the same
      concatenation of the fleet's missions. */
  lemma MissionsShared(fleet: seq<Aircraft>, technicians: seq<Technician>, parts: seq<Part>)
    ensures RenderContent("dashboard", fleet, technicians, parts).missions == FleetMissions(fleet)
    ensures RenderContent("schedule", fleet, technicians, parts).missions == FleetMissions(fleet)
    ensures RenderContent("reports", fleet, technicians, parts).missions == FleetMissions(fleet)
  {
  }

  // ---------------------------------------------------------------
  // Navigation state
  // ---------------------------------------------------------------

  /** The state hooks of `App` */
  class AppState {
    const aircraft: seq<Aircraft>
    const technicians: seq<Technician>
    const parts: seq<Part>
    var currentView: string
    var selectedAircraft: Option<Aircraft>

    constructor (aircraft: seq<Aircraft>, technicians: seq<Technician>, parts: seq<Part>)
      ensures this.aircraft == aircraft && this.technicians == technicians && this.parts == parts
      ensures currentView == "dashboard" && selectedAircraft == None
    {
      this.aircraft := aircraft;
      this.technicians := technicians;
      this.parts := parts;
      currentView := "dashboard";
      selectedAircraft := None;
    }

    /** `handleNavigation`: the view becomes the route without its first
        `/`; the selected aircraft survives only route `/dashboard`. */
    method HandleNavigation(route: string)
      modifies this
      ensures currentView == RemoveFirst(route, '/')
      ensures route == "/dashboard" ==> selectedAircraft == old(selectedAircraft)
      ensures route != "/dashboard" ==> selectedAircraft == None
    {
      currentView := RemoveFirst(route, '/');
      if route != "/dashboard" {
        selectedAircraft := None;
      }
    }

    /** `setSelectedAircraft`, handed to the fleet overview */
    method SelectAircraft(a: Aircraft)
      modifies this
      ensures selectedAircraft == Some(a) && currentView == old(currentView)
    {
      selectedAircraft := Some(a);
    }

    /** The main area */
    function Content(): Page
      reads this
    {
      RenderContent(currentView, aircraft, technicians, parts)
    }
  }

  /** The view a click on sidebar item `i` leads to */
  function ViewAfterClick(i: nat): string
    requires i < |Sidebar.SidebarData|
  {
    RemoveFirst(Sidebar.ClickRoute(Sidebar.SidebarData[i]), '/')
  }

  /** Clicking an item other than the first highlights that item; clicking
      the first (route `/`) yields view `''`, which no item is highlighted
      under, although that item is highlighted under `dashboard`. */
  lemma ClickHighlights(i: nat)
    requires i < |Sidebar.SidebarData|
    ensures i != 0 ==> Sidebar.IsActive(Sidebar.SidebarData[i], ViewAfterClick(i))
    ensures i == 0 ==> ViewAfterClick(i) == "" && Sidebar.ItemPath(Sidebar.SidebarData[0]) == "dashboard"
    ensures i == 0 ==> Sidebar.ActiveIndices(ViewAfterClick(i)) == {}
  {
    Sidebar.ItemPathOfData(i);
    if i == 0 {
      forall j: nat | j < |Sidebar.SidebarData| ensures !Sidebar.IsActive(Sidebar.SidebarData[j], "") {
        Sidebar.ItemPathOfData(j);
        assert |Sidebar.ItemPaths[j]| >= 1;
      }
    } else {
      assert Sidebar.ClickRoute(Sidebar.SidebarData[i])[0] == '/';
    }
  }

  /** The views the eleven sidebar items lead to, in order */
  const ClickViews: seq<string> := [
    "", "fleet", "missions", "personnel", "inventory", "flight-test",
    "reports", "maintenance", "repairs", "maintenance-builder", "process107"
  ]

  lemma ViewAfterClickValues(i: nat)
    requires i < |Sidebar.SidebarData|
    ensures ViewAfterClick(i) == ClickViews[i]
  {
    Sidebar.ItemPathOfData(i);
    ClickHighlights(i);
  }

  /** Only the fleet, personnel, inventory, flight-test and reports items
      (positions 1 and 3 to 6) lead to a page; the dashboard item and the five others render
      "Page not found", and no item leads to the schedule or settings view. */
  lemma ClickReachesPage(i: nat, fleet: seq<Aircraft>, technicians: seq<Technician>, parts: seq<Part>)
    requires i < |Sidebar.SidebarData|
    ensures RenderContent(ViewAfterClick(i), fleet, technicians, parts) != NotFound <==> i in {1, 3, 4, 5, 6}
    ensures ViewAfterClick(i) != "schedule" && ViewAfterClick(i) != "settings" && ViewAfterClick(i) != "dashboard"
  {
    ViewAfterClickValues(i);
    RenderContentRecognises(ViewAfterClick(i), fleet, technicians, parts);
    if i <= 5 { ClickViewKnownLow(i); } else { ClickViewKnownHigh(i); }
  }

  /** Of the first six click views, "fleet", "personnel", "inventory" and
      "flight-test" have a page; none is "dashboard", "schedule" or "settings". */
  lemma ClickViewKnownLow(i: nat)
    requires i <= 5
    ensures ClickViews[i] in KnownViews <==> i in {1, 3, 4, 5}
    ensures ClickViews[i] != "schedule" && ClickViews[i] != "settings" && ClickViews[i] != "dashboard"
  {
    if i == 0 { assert |ClickViews[0]| == 0; }
    else if i == 1 { assert ClickViews[1] == KnownViews[1]; }
    else if i == 2 { assert forall k :: 0 <= k < |KnownViews| ==> |KnownViews[k]| != 8 || KnownViews[k][0] != 'm'; }
    else if i == 3 { assert ClickViews[3] == KnownViews[3]; }
    else if i == 4 { assert ClickViews[4] == KnownViews[4]; }
    else { assert ClickViews[5] == KnownViews[6]; }
  }

  /** Of the last five click views only "reports" has a page; none is
      "dashboard", "schedule" or "settings". */
  lemma ClickViewKnownHigh(i: nat)
    requires 6 <= i < |ClickViews|
    ensures ClickViews[i] in KnownViews <==> i == 6
    ensures ClickViews[i] != "schedule" && ClickViews[i] != "settings" && ClickViews[i] != "dashboard"
  {
    if i == 6 { assert ClickViews[6] == KnownViews[5]; }
    else if i == 7 { assert forall k :: 0 <= k < |KnownViews| ==> KnownViews[k][0] != 'm'; }
    else if i == 8 { assert forall k :: 0 <= k < |KnownViews| ==> |KnownViews[k]| != 7 || KnownViews[k][3] != 'a'; }
    else if i == 9 { assert forall k :: 0 <= k < |KnownViews| ==> |KnownViews[k]| != 19; }
    else { assert forall k :: 0 <= k < |KnownViews| ==> |KnownViews[k]| != 10; }
  }

  /** Every sidebar click clears the selected aircraft, since no item's
      route is `/dashboard`; the view becomes the item's key except for the
      first item. */
  method ClickSidebarItem(app: AppState, i: nat)
    requires i < |Sidebar.SidebarData|
    modifies app
    ensures app.selectedAircraft == None
    ensures app.currentView == ViewAfterClick(i)
    ensures i != 0 ==> app.currentView == Sidebar.ItemPath(Sidebar.SidebarData[i])
  {
    Sidebar.ItemPathOfData(i);
    ClickHighlights(i);
    assert Sidebar.ClickRoute(Sidebar.SidebarData[i]) != "/dashboard" by {
      if i != 0 {
        assert Sidebar.ItemPaths[i] != "dashboard" by {
          ClickReachesPage(i, [], [], []);
        }
      }
    }
    app.HandleNavigation(Sidebar.ClickRoute(Sidebar.SidebarData[i]));
  }

  /** Navigating to `/dashboard` keeps a selected aircraft and shows the
      dashboard; navigating anywhere else drops it. */
  method NavigateKeepsSelection(app: AppState, a: Aircraft, route: string)
    modifies app
    ensures route == "/dashboard" ==> app.selectedAircraft == Some(a) && app.Content().DashboardPage?
    ensures route != "/dashboard" ==> app.selectedAircraft == None
  {
    app.SelectAircraft(a);
    app.HandleNavigation(route);
    if route == "/dashboard" {
      assert IndexOf(route, '/') == 0;
      assert app.currentView == "dashboard";
    }
  }

  // ---------------------------------------------------------------
  // Header
  // ---------------------------------------------------------------

  datatype WeatherGlyph = DaySunny | DayCloudy | CloudyGlyph | RainGlyph | ThunderstormGlyph | SnowGlyph | FogGlyph

  /** A weather icon with its colour class */
  datatype WeatherIcon = WeatherIcon(glyph: WeatherGlyph, colorClass: string)

  /** The icon of the `default` case */
  const DefaultWeatherIcon: WeatherIcon := WeatherIcon(DayCloudy, "text-gray-300")

  /** `getWeatherIcon`, switching on the lower-cased conditions */
  function GetWeatherIcon(conditions: string): WeatherIcon
  {
    var c := Lower(conditions);
    if c == "sunny" || c == "clear" then WeatherIcon(DaySunny, "text-yellow-300")
    else if c == "partly cloudy" then WeatherIcon(DayCloudy, "text-gray-100")
    else if c == "cloudy" then WeatherIcon(CloudyGlyph, "text-gray-300")
    else if c == "rain" || c == "rainy" then WeatherIcon(RainGlyph, "text-blue-300")
    else if c == "thunderstorm" then WeatherIcon(ThunderstormGlyph, "text-yellow-300")
    else if c == "snow" || c == "snowy" then WeatherIcon(SnowGlyph, "text-white")
    else if c == "fog" || c == "foggy" then WeatherIcon(FogGlyph, "text-gray-300")
    else DefaultWeatherIcon
  }

  /** The case labels of the switch */
  const KnownConditions: seq<string> :=
    ["sunny", "clear", "partly cloudy", "cloudy", "rain", "rainy", "thunderstorm", "snow", "snowy", "fog", "foggy"]

  /** The lookup ignores letter case. */
  lemma WeatherIconIgnoresCase(conditions: string)
    ensures GetWeatherIcon(Upper(conditions)) == GetWeatherIcon(conditions)
    ensures GetWeatherIcon(Lower(conditions)) == GetWeatherIcon(conditions)
  {
    LowerOfUpper(conditions);
    LowerIdempotent(conditions);
  }

  /** A string without upper-case letters is its own lower-case form. */
  lemma LowerOfLowercase(s: string)
    requires forall i :: 0 <= i < |s| ==> !IsUpperAscii(s[i])
    ensures Lower(s) == s
  {
  }

  /** Synonyms share an icon: any two conditions whose lower-case forms
      are `sunny` or `clear` (or `rain`/`rainy`, `snow`/`snowy`,
      `fog`/`foggy`) get the same icon. */
  lemma WeatherSynonyms(c1: string, c2: string)
    ensures (Lower(c1) == "sunny" || Lower(c1) == "clear") && (Lower(c2) == "sunny" || Lower(c2) == "clear")
      ==> GetWeatherIcon(c1) == GetWeatherIcon(c2)
    ensures (Lower(c1) == "rain" || Lower(c1) == "rainy") && (Lower(c2) == "rain" || Lower(c2) == "rainy")
      ==> GetWeatherIcon(c1) == GetWeatherIcon(c2)
    ensures (Lower(c1) == "snow" || Lower(c1) == "snowy") && (Lower(c2) == "snow" || Lower(c2) == "snowy")
      ==> GetWeatherIcon(c1) == GetWeatherIcon(c2)
    ensures (Lower(c1) == "fog" || Lower(c1) == "foggy") && (Lower(c2) == "fog" || Lower(c2) == "foggy")
      ==> GetWeatherIcon(c1) == GetWeatherIcon(c2)
  {
  }

  /** The default icon appears exactly for conditions outside the case
      labels; `partly cloudy` has the same glyph in a different colour. */
  lemma WeatherDefaultIff(conditions: string)
    ensures GetWeatherIcon(conditions) == DefaultWeatherIcon <==> Lower(conditions) !in KnownConditions
    ensures GetWeatherIcon("partly cloudy").glyph == DefaultWeatherIcon.glyph
    ensures GetWeatherIcon("partly cloudy") != DefaultWeatherIcon
  {
    LowerOfLowercase("partly cloudy");
  }

  /** One day of the header's forecast strip */
  datatype ForecastTile = ForecastTile(time: Minutes, icon: WeatherIcon, temperature: int)

  /** What the header shows about the weather */
  datatype WeatherHeader = WeatherHeader(
    icon: WeatherIcon,
    temperature: int,
    conditions: string,
    windWarning: Option<int>,
    forecast: seq<ForecastTile>)

  function ForecastTileOf(f: WeatherForecast): ForecastTile
  {
    ForecastTile(f.time, GetWeatherIcon(f.conditions), f.temperature)
  }

  function Header(w: WeatherCondition): WeatherHeader
  {
    var shown := w.forecast[..if |w.forecast| < 3 then |w.forecast| else 3];
    WeatherHeader(
      GetWeatherIcon(w.conditions),
      w.temperature,
      w.conditions,
      if w.windSpeed > 15 then Some(w.windSpeed) else None,
      seq(|shown|, i requires 0 <= i < |shown| => ForecastTileOf(shown[i])))
  }

  /** At most three forecast days, the first ones, each with its own icon;
      the wind warning, showing the speed, appears iff it exceeds 15. */
  lemma HeaderSpec(w: WeatherCondition)
    ensures |Header(w).forecast| <= 3
    ensures |Header(w).forecast| == if |w.forecast| < 3 then |w.forecast| else 3
    ensures forall i :: 0 <= i < |Header(w).forecast| ==>
      Header(w).forecast[i].icon == GetWeatherIcon(w.forecast[i].conditions)
      && Header(w).forecast[i].time == w.forecast[i].time
    ensures Header(w).windWarning.Some? <==> w.windSpeed > 15
    ensures Header(w).windWarning.Some? ==> Header(w).windWarning.value == w.windSpeed
  {
    var shown := w.forecast[..if |w.forecast| < 3 then |w.forecast| else 3];
    forall i | 0 <= i < |shown| ensures Header(w).forecast[i] == ForecastTileOf(w.forecast[i]) {
      assert shown[i] == w.forecast[i];
    }
  }
}
