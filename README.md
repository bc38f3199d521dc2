# Fleet dashboard rules, modelled in Dafny

This project models the rules inside the systemscenter fleet dashboard (a
React/TypeScript single-page application). It leaves out the rendering
around them.

- **Repair tracker** (`repair_tracker.dfy`):
  - the seven totally ordered repair stages;
  - the completed/current/upcoming status of a stage relative to the
    current one, and the row of statuses the progress chevrons show;
  - the progress percentage and the colour and icon lookups, which the
    component defines but never calls;
  - the `formatDuration` label;
  - the "aircraft in repair" filter and the "next scheduled mission"
    lookup;
  - the chevrons' selected-stage state.
- **Personnel management** (`personnel.dfy`):
  - the case-insensitive name search combined with the availability
    filter;
  - the three counters and the specialties and status labels;
  - the page state (search term, filter, technician whose details are
    open).
- **Reports** (`reports.dfy`):
  - the date-range mission filter;
  - total missions and total repairs;
  - the average mission duration, with its fall-back to 0;
  - the personnel utilisation ratio, which has no guard for an empty
    list;
  - the chart rows;
  - the `dateRange` state.
- **Application shell** (`app.dfy`):
  - the navigation state `(currentView, selectedAircraft)` and
    `handleNavigation`;
  - the `renderContent` dispatch from a view name to a page;
  - the repair and mission lists derived from the fleet;
  - the case-insensitive weather icon lookup;
  - the header's three-day forecast and wind warning.
- **Sidebar** (`sidebar.dfy`):
  - the eleven navigation items;
  - the key under which each item is highlighted (`/` is highlighted as
    `dashboard`);
  - the route a click reports;
  - the collapse toggle with its title/tooltip behaviour.
- **Fixture data** (`mock_data.dfy`, `fixture_facts.dfy`):
  - the flight-hour and maintenance arithmetic of
    `generateAircraftMetrics`;
  - the technicians, parts, errors, repairs, missions, aircraft and
    weather the application starts from;
  - lemmas that use these fixtures as concrete witnesses for the general
    rules.

Shared pieces:

- `types.dfy` holds the entities of `src/types/index.ts` as datatypes.
- `seqs.dfy` holds the generic `filter`, `find`, `indexOf` and `flatMap`.
- `js.dfy` gives JavaScript's semantics explicitly:
  - the truncating `%` and integer division;
  - ASCII `toLowerCase`, `includes`, `join`;
  - `replace` of the first occurrence;
  - number-to-string conversion;
  - division that yields `NaN` or `Infinity`;
  - the `|| 0` fall-back.

Some modelling choices:

- **Timestamps.** All timestamps are whole minutes on one clock. "Now" is
  a parameter, and so is the instant one calendar month before now.
- **Randomness and identifiers.** The random draws of the fixtures are
  parameters. Generated identifiers are fixed placeholder strings.
- **Stage names compared as strings.** The program compares repair stages
  as strings, and so does the model.
  - A repair's `stage` has type `MaintenanceStatus`
    (`src/types/index.ts:51`). The tracker casts it unchecked to a repair
    stage (`RepairTracker.tsx:277`).
  - So `stages.indexOf` is -1 for every status except `Safe for Flight`.
  - For the fixture repairs, at `Repair in Progress`, the chevrons show
    every stage as upcoming. `getProgressPercentage` would return 0 for
    them, but nothing in the component calls it. The model states both
    as lemmas.
- **Route `/`.** The sidebar highlights route `/` under `dashboard`. A
  click reports the raw path, so `handleNavigation` sets the view to the
  empty string. That view renders "Page not found".
  - The model states this as `App.ClickHighlights` and
    `App.ClickReachesPage`.
  - Only the fleet, personnel, inventory, flight-test and reports items
    lead to a page.
- **Mission start times.** `Mission.startTime` is declared as a plain
  string (`src/types/index.ts:40`). The reports page still tests it for
  presence (`Reports.tsx:19`), and the in-flight fixture missions have
  none. The model follows the code, so the start time is optional.

## Model

| member | source | states |
|---|---|---|
| Js.Rem | src/mockData.ts:225 | JavaScript `%`: the remainder has the sign of the dividend and is smaller than the divisor in magnitude |
| Js.Quot | src/components/RepairTracker/RepairTracker.tsx:48 | division truncated toward zero; quotient times divisor plus `Rem` gives back the dividend |
| Js.LowerChar | src/components/PersonnelManagement.tsx:17 | a capital A-Z becomes the small letter 32 code points above it; every other character is kept |
| Js.Lower | src/components/PersonnelManagement.tsx:17 | `toLowerCase` keeps the length and maps each character on its own by `LowerChar`, leaving no upper-case letter |
| Js.LowerIdempotent | src/components/PersonnelManagement.tsx:17 | lower-casing twice equals lower-casing once |
| Js.LowerOfUpper | src/App.tsx:25 | lower-casing an upper-cased string equals lower-casing the original |
| Js.IncludesIff | src/components/PersonnelManagement.tsx:17 | `includes` holds iff the needle occurs at some position of the haystack |
| Js.JoinEmptyIff | src/components/PersonnelManagement.tsx:106 | `join` gives the empty string iff the list is empty or is the single empty string |
| Js.RemoveFirst | src/App.tsx:65 | `replace('/', '')` removes only the first `/`, and changes nothing when there is none |
| Js.IntToString | src/components/RepairTracker/RepairTracker.tsx:50 | the decimal text of an integer starts with `-` iff it is negative, and the rest is a non-empty digit string whose value is the magnitude |
| Js.NatToStringRoundTrip | src/components/RepairTracker/RepairTracker.tsx:50 | reading the decimal text back gives the number |
| Js.Divide | src/components/Reports.tsx:31 | number division: finite iff the divisor is non-zero, then quotient times divisor is the dividend; `NaN` iff `0 / 0` |
| Js.Scale | src/components/Reports.tsx:32 | multiplying keeps `NaN` and the infinities, and scales a finite value |
| Js.OrZero | src/components/Reports.tsx:31 | the fall-back to 0 never yields `NaN`: `NaN` becomes 0 and a finite value is kept |
| Seqs.Filter | src/components/RepairTracker/RepairTracker.tsx:212-214 | `filter` keeps only elements of the input that pass, and never grows the list |
| Seqs.FilterMembers | src/components/RepairTracker/RepairTracker.tsx:212-214 | an element is in the filtered list iff it is in the input and passes |
| Seqs.FilterIsSubsequence | src/components/PersonnelManagement.tsx:16-22 | `filter` keeps the order: its result embeds in the input |
| Seqs.FilterPartition | src/components/PersonnelManagement.tsx:25-27 | filtering by a predicate and by its negation splits the list: lengths add up and the multisets add to the input's |
| Seqs.Find | src/components/RepairTracker/RepairTracker.tsx:233 | `find` is none iff no element passes, otherwise an element that passes with no passing element before it |
| Seqs.IndexOf | src/components/RepairTracker/RepairTracker.tsx:85-86 | `indexOf` is -1 iff the value is absent, otherwise the first position holding it |
| Seqs.FlatMap | src/App.tsx:113 | `flatMap` holds every element of every image and nothing else |
| Seqs.FlatMapConcat | src/App.tsx:113 | `flatMap` of a concatenation is the concatenation of the two `flatMap`s |
| Types.StatusName | src/types/index.ts:1-9 | every maintenance status stands for a non-empty string literal |
| RepairTracker.StageNamesMatchStages | src/components/RepairTracker/RepairTracker.tsx:36-44 | the searched name list holds the name of each stage of `stages`, position by position |
| RepairTracker.Ordinal | src/components/RepairTracker/RepairTracker.tsx:36-44 | every stage of the enumeration is listed in `stages`, at its ordinal |
| RepairTracker.StageNamesDistinct | src/components/RepairTracker/RepairTracker.tsx:9-16 | the seven stage names are pairwise distinct |
| RepairTracker.StageIndex | src/components/RepairTracker/RepairTracker.tsx:85-86 | `stages.indexOf(name)` lies in -1..6 and is -1 iff the name is not a stage name |
| RepairTracker.StageIndexAt | src/components/RepairTracker/RepairTracker.tsx:85-86 | the index of the i-th stage name is i |
| RepairTracker.StageIndexOfStage | src/components/RepairTracker/RepairTracker.tsx:85-86 | looking a stage up by its name gives its ordinal |
| RepairTracker.StageStatusByOrder | src/components/RepairTracker/RepairTracker.tsx:84-91 | for two stages of the enumeration: `current` iff equal, `completed` iff before, `upcoming` iff after |
| RepairTracker.StageStatusOfAnyName | src/components/RepairTracker/RepairTracker.tsx:84-91 | for an in-enum current stage and any name: `current` iff it is that stage's name; a name outside the enumeration counts as `completed` |
| RepairTracker.StageStatusOutsideEnum | src/components/RepairTracker/RepairTracker.tsx:84-91 | a current stage outside the enumeration makes every stage `upcoming` |
| RepairTracker.StageStatusBothOutside | src/components/RepairTracker/RepairTracker.tsx:84-91 | two names outside the enumeration both have index -1 and compare as `current` |
| RepairTracker.StatusRow | src/components/RepairTracker/RepairTracker.tsx:100-101 | the chevron row has one status per stage |
| RepairTracker.StatusRowAt | src/components/RepairTracker/RepairTracker.tsx:100-101 | entry i of the row is `completed`, `current` or `upcoming` as i is below, at or above the current index |
| RepairTracker.StatusRowShape | src/components/RepairTracker/RepairTracker.tsx:100-101 | the row is a block of `completed`, one `current`, then `upcoming`; for a stage outside the enumeration it is all `upcoming` |
| RepairTracker.ProgressOfStage | src/components/RepairTracker/RepairTracker.tsx:80-82 | for each stage the percentage is (ordinal + 1) * 100 / 7, inside (0, 100] (the tracker defines `getProgressPercentage` but never calls it) |
| RepairTracker.ProgressEndpoints | src/components/RepairTracker/RepairTracker.tsx:80-82 | `Safe for Flight` gives exactly 100 and `Anomaly Detected` gives 100/7 (the tracker defines `getProgressPercentage` but never calls it) |
| RepairTracker.ProgressStrictlyIncreasing | src/components/RepairTracker/RepairTracker.tsx:80-82 | the percentage strictly increases along `stages` |
| RepairTracker.ProgressAt | src/components/RepairTracker/RepairTracker.tsx:80-82 | the i-th stage shows (i + 1) sevenths of 100 per cent |
| RepairTracker.ProgressOutsideEnum | src/components/RepairTracker/RepairTracker.tsx:80-82 | a name outside the enumeration gives 0 percent (the tracker defines `getProgressPercentage` but never calls it) |
| RepairTracker.StageLookupsInjective | src/components/RepairTracker/RepairTracker.tsx:56-78 | no two stages share a colour class, an icon or an icon glyph (the tracker defines both lookups but never calls them) |
| RepairTracker.DurationBetween | src/components/RepairTracker/RepairTracker.tsx:47-50 | days * 1440 + minutes is the elapsed time; forward both parts are non-negative with minutes below 1440, backward both are non-positive |
| RepairTracker.FormatDurationExamples | src/components/RepairTracker/RepairTracker.tsx:47-51 | no elapsed time reads `0d 0m`; two days and 150 minutes read `2d 150m` |
| RepairTracker.FormatDurationInverted | src/components/RepairTracker/RepairTracker.tsx:47-51 | one minute backwards reads `0d -1m`, following the truncating remainder |
| RepairTracker.AircraftInRepairSpec | src/components/RepairTracker/RepairTracker.tsx:212-214 | the tracker lists, in fleet order, exactly the aircraft with errors or an active repair, and the whole fleet when all qualify |
| RepairTracker.NextMission | src/components/RepairTracker/RepairTracker.tsx:233 | none iff no mission is scheduled, otherwise a scheduled mission with no scheduled one before it |
| RepairTracker.GroundTimeElapsed | src/components/RepairTracker/RepairTracker.tsx:231-232 | the exact elapsed time on ground, in days and minutes: zero for an aircraft listed only for its errors, otherwise the time since its repair started, non-negative once it has started; the rounded `formatDistanceToNow` phrase is not modelled |
| RepairTracker.CurrentStageInEnumIff | src/components/RepairTracker/RepairTracker.tsx:277 | a repair's status read as a stage name is one of the seven iff the status is `Safe for Flight` |
| RepairTracker.RepairStatusRow | src/components/RepairTracker/RepairTracker.tsx:275-279 | a repair's chevron row is all `upcoming` unless its status is `Safe for Flight`, when six `completed` precede one `current` |
| RepairTracker.StageSelection.constructor | src/components/RepairTracker/RepairTracker.tsx:94 | the selected stage starts as the current stage |
| RepairTracker.StageSelection.Select | src/components/RepairTracker/RepairTracker.tsx:126 | a click selects the clicked stage's name |
| PersonnelManagement.MatchesSearchIff | src/components/PersonnelManagement.tsx:17 | the search matches iff the lower-cased term occurs in the lower-cased name; the empty-term shortcut agrees |
| PersonnelManagement.MatchesSearchIgnoresCase | src/components/PersonnelManagement.tsx:17 | upper- or lower-casing the name or the term does not change the match |
| PersonnelManagement.FilteredTechniciansSpec | src/components/PersonnelManagement.tsx:16-22 | the list is an order-preserving subsequence holding exactly the technicians that pass both tests |
| PersonnelManagement.InitialFilterShowsAll | src/components/PersonnelManagement.tsx:11-22 | an empty search with filter `all` shows the whole list unchanged |
| PersonnelManagement.AvailabilityPartition | src/components/PersonnelManagement.tsx:18-20 | for a fixed term the `available` and `assigned` results split the `all` result, as counts and as multisets |
| PersonnelManagement.AvailablePersonnel | src/components/PersonnelManagement.tsx:26 | the available count never exceeds the total |
| PersonnelManagement.AssignedPersonnel | src/components/PersonnelManagement.tsx:25-27 | total minus available lies in 0..total, adds up with available to the total, and counts the unavailable technicians |
| PersonnelManagement.SpecialtiesLabelSpec | src/components/PersonnelManagement.tsx:106 | `N/A` for an empty list and for a list of one empty name; otherwise the names joined with `, ` |
| PersonnelManagement.StatusLabelAgreesWithFilter | src/components/PersonnelManagement.tsx:112 | the label is `Available` iff the technician is available, in agreement with both availability filters |
| PersonnelManagement.PersonnelView.constructor | src/components/PersonnelManagement.tsx:11-13 | empty search, filter `all`, no selection, so the whole list is visible |
| PersonnelManagement.PersonnelView.SetSearchTerm | src/components/PersonnelManagement.tsx:67 | sets the term; the filter and the selection stay as they were |
| PersonnelManagement.PersonnelView.SetAvailabilityFilter | src/components/PersonnelManagement.tsx:72 | sets the filter; the term and the selection stay as they were |
| PersonnelManagement.PersonnelView.ShowDetails | src/components/PersonnelManagement.tsx:118 | selects the technician; the term and the filter stay as they were |
| PersonnelManagement.PersonnelView.CloseDetails | src/components/PersonnelManagement.tsx:139 | clears the selection; the term and the filter stay as they were |
| PersonnelManagement.OpenThenClose | src/components/PersonnelManagement.tsx:118-154 | opening then closing the details leaves no selection and the list unchanged |
| Reports.FilteredMissionsSpec | src/components/Reports.tsx:18-26 | `all` keeps every mission; every range keeps an order-preserving subsequence holding exactly the missions that pass its date test |
| Reports.RangeCutoffs | src/components/Reports.tsx:20-23 | `lastWeek` keeps exactly the missions dated at or after now minus seven days, `lastMonth` those at or after the month cutoff |
| Reports.UndatedMissionKept | src/components/Reports.tsx:19 | a mission without a start is dated now and kept by every range |
| Reports.WeekWithinMonth | src/components/Reports.tsx:20-24 | with a month reaching back at least 28 days, the week's selection within the month's is the week's selection, and no longer |
| Reports.TotalDurationBounds | src/components/Reports.tsx:31 | with every duration (missing as 0) between lo and hi, the sum lies between n * lo and n * hi |
| Reports.AverageMissionDurationSpec | src/components/Reports.tsx:31 | the average is always a number: 0 with no missions, otherwise average times count equals the sum |
| Reports.AverageWithinBounds | src/components/Reports.tsx:31 | the average lies between the smallest and the largest duration bound |
| Reports.PersonnelUtilizationEmpty | src/components/Reports.tsx:32 | for an empty list the utilisation is `NaN`: there is no guard |
| Reports.PersonnelUtilizationSpec | src/components/Reports.tsx:32 | for a non-empty list the utilisation is finite, equals 100 times the unavailable count over the total, and lies in [0, 100] |
| Reports.MissionDataSpec | src/components/Reports.tsx:35-38 | one row per mission in order; `TBD` exactly without a start, else the start time; row i plots mission i's own duration, 0 when it has none; rows add up to the sum the average uses |
| Reports.Summary | src/components/Reports.tsx:29-32 | the cards show the number of missions in the selected range, the average duration over exactly those missions (never `NaN`), the utilisation over all technicians, and every repair whatever the range |
| Reports.SummaryIgnoresRangeForRepairs | src/components/Reports.tsx:30-32 | the repair count and the utilisation do not depend on the date range |
| Reports.ReportsView.constructor | src/components/Reports.tsx:14-15 | the page starts at range `all` with the given data |
| Reports.ReportsView.SetDateRange | src/components/Reports.tsx:83 | the select handler sets the range |
| Reports.FreshReport | src/components/Reports.tsx:15-38 | on a fresh page the cards count every mission and every repair, and the chart has one row per mission |
| Sidebar.ItemPathOfData | src/components/Sidebar/Sidebar.tsx:116 | the root item is highlighted as `dashboard`; every other item's path is `/` followed by its key |
| Sidebar.ItemPathDropsSlash | src/components/Sidebar/Sidebar.tsx:116 | for any path starting with `/` other than the root, the key is the rest of the path |
| Sidebar.ItemPathsDistinct | src/components/Sidebar/Sidebar.tsx:17-84 | the eleven items have pairwise distinct keys |
| Sidebar.AtMostOneActive | src/components/Sidebar/Sidebar.tsx:122 | for any current view at most one item is highlighted |
| Sidebar.ClickRouteIsNotKey | src/components/Sidebar/Sidebar.tsx:123 | a click reports the raw path, which starts with `/` and so differs from the item's key |
| Sidebar.SidebarState.constructor | src/components/Sidebar/Sidebar.tsx:92 | the sidebar starts expanded |
| Sidebar.SidebarState.Toggle | src/components/Sidebar/Sidebar.tsx:103 | the toggle flips `collapsed` |
| Sidebar.ToggleTwice | src/components/Sidebar/Sidebar.tsx:103 | toggling twice restores the state, and exactly one of title and tooltip shows |
| Sidebar.TitleXorTooltip | src/components/Sidebar/Sidebar.tsx:124-127 | the title shows iff expanded; the tooltip, holding the title, exists iff collapsed |
| App.DashboardRepairsSpec | src/App.tsx:97-100 | one repair per aircraft that has one, in fleet order: entry i is the repair of the i-th such aircraft |
| App.DashboardRepairsMembers | src/App.tsx:97-100 | a repair is listed iff it is some aircraft's current repair |
| App.FleetMissionsSpec | src/App.tsx:113 | the fleet's missions split along any split of the fleet, number the sum of the aircraft's counts, and each belongs to an aircraft |
| App.FleetMissionsCount | src/App.tsx:138 | the number of fleet missions is the sum of the aircraft's mission counts |
| App.MissionCountUniform | src/App.tsx:138 | a fleet whose aircraft all have k missions has k missions per aircraft |
| App.FleetRepairsEmpty | src/App.tsx:172 | a fleet without recorded repairs passes no repairs to the reports |
| App.RenderContentRecognises | src/App.tsx:74-203 | exactly the eight known views render a page; every other string, the empty one included, is "Page not found" |
| App.MissionsShared | src/App.tsx:113-172 | dashboard, schedule and reports are given the same concatenation of the fleet's missions |
| App.AppState.constructor | src/App.tsx:58-60 | the application starts on view `dashboard` with no aircraft selected |
| App.AppState.HandleNavigation | src/App.tsx:64-70 | the view becomes the route without its first `/`; the selection survives route `/dashboard` only |
| App.AppState.SelectAircraft | src/App.tsx:85 | the fleet overview's callback selects the aircraft and keeps the view |
| App.ClickHighlights | src/App.tsx:268 | a click on any item but the first highlights that item; the first leads to view `''`, under which nothing is highlighted |
| App.ViewAfterClickValues | src/App.tsx:65 | the view each of the eleven sidebar items leads to |
| App.ClickReachesPage | src/App.tsx:74-203 | a sidebar click renders a page iff the item is fleet, personnel, inventory, flight-test or reports; no click reaches schedule, settings or dashboard |
| App.ClickSidebarItem | src/App.tsx:64-70 | every sidebar click clears the selected aircraft; the view becomes the item's key except for the first item |
| App.NavigateKeepsSelection | src/App.tsx:67-69 | a selection survives navigation to `/dashboard`, which shows the dashboard, and is dropped by any other route |
| App.WeatherIconIgnoresCase | src/App.tsx:25 | the weather icon does not depend on letter case |
| App.WeatherSynonyms | src/App.tsx:26-43 | any two conditions whose lower-cased forms lie in the same pair sunny/clear, rain/rainy, snow/snowy or fog/foggy get the same icon |
| App.WeatherDefaultIff | src/App.tsx:24-47 | the default icon appears iff the lower-cased conditions are none of the case labels; `partly cloudy` has its glyph in another colour |
| App.HeaderSpec | src/App.tsx:225-245 | at most three forecast days, the first ones, each with its own icon; the wind warning, with the speed, iff the speed exceeds 15 |
| MockData.FlightHoursRange | src/mockData.ts:223 | a draw in [0, 1) gives 400 to 1599 flight hours |
| MockData.HoursUntilMaintenanceRange | src/mockData.ts:224-225 | for non-negative hours the remaining hours lie in [1, 1000], and are 1000 iff the hours are a multiple of 1000 |
| MockData.HoursUntilMaintenanceReachesMultiple | src/mockData.ts:225 | hours flown plus hours remaining is always a multiple of 1000, the next one above for non-negative hours |
| MockData.GenerateAircraftMetricsSpec | src/mockData.ts:222-232 | generated metrics are in range, add up to a multiple of 1000, and a new aircraft keeps its base age while any other is within a year |
| MockData.GenerateRepair | src/mockData.ts:108-125 | a generated repair is `Repair in Progress` for the given aircraft and error, starts before its estimated completion and is not completed |
| FixtureFacts.TechnicianFixture | src/mockData.ts:11-37 | exactly one technician (Maria Garcia) is unavailable and she alone has an assignment; the counters read 4, 3, 1 and the utilisation 25 |
| FixtureFacts.SpecialtiesFixture | src/mockData.ts:15 | the first technician's specialties read `Avionics, Electrical` |
| FixtureFacts.GeneratedRepairOutsideStages | src/mockData.ts:113 | the generated repair's stage is none of the seven, so its chevron row is all `upcoming`, and `getProgressPercentage`, which is never called, would give 0 |
| FixtureFacts.GeneratedRepairDuration | src/mockData.ts:114-115 | the generated repair spans three days |
| FixtureFacts.FleetRepairShape | src/mockData.ts:235-476 | of the ten aircraft, 1 and 6 carry a repair, 4 has errors only, the rest neither |
| FixtureFacts.FleetOthersClean | src/mockData.ts:235-476 | the aircraft other than 1, 4 and 6 have neither errors nor a repair |
| FixtureFacts.InRepairOfShape | src/components/RepairTracker/RepairTracker.tsx:212-214 | over ten aircraft of which the first, fourth and sixth are in repair and the rest clean, the tracker lists exactly those three, in order |
| FixtureFacts.DashboardRepairsOfShape | src/App.tsx:97-100 | over ten aircraft of which only the first and sixth carry a repair, the dashboard lists exactly those two repairs, in order |
| FixtureFacts.FleetRepairFixture | src/mockData.ts:235-476 | the repair tracker lists aircraft 1, 4 and 6, and the dashboard lists the repairs of 1 and 6 |
| FixtureFacts.GroundTimeFixture | src/mockData.ts:113 | aircraft 1 and 6 count their time on ground from one day before now, so one day has passed; aircraft 4 counts from now |
| FixtureFacts.NextMissionFixture | src/mockData.ts:128-170 | an aircraft with the generated missions has `Reconnaissance Flight Bravo` as its next mission |
| FixtureFacts.FleetMissionsFixture | src/mockData.ts:235-476 | every aircraft has the three generated missions and no recorded repairs |
| FixtureFacts.FleetTotalsFixture | src/mockData.ts:235-476 | the schedule and reports see thirty missions and no repairs |
| FixtureFacts.MissionReportFixture | src/mockData.ts:128-170 | an aircraft's missions all fall within the last week, add up to 144 hours and average 48 |
| FixtureFacts.WeatherFixture | src/mockData.ts:479-511 | the header shows three forecast days, no wind warning, and the partly-cloudy icon rather than the default |

## Left out

- Rendering, animation, charts and icon components: colour classes and icons are opaque tokens, and only the values the views compute are modelled.
- Date library calls (`format`, `formatDistanceToNow`, parsing ISO strings): timestamps are whole minutes, and "now" is a parameter. The tracker's "Total" time on ground is the rounded phrase of `formatDistanceToNow`; the model gives the exact elapsed days and minutes (`RepairTracker.GroundTimeElapsed`).
- RepairTracker.DurationBetween: `differenceInDays` is taken as the minute difference truncated to whole days, so daylight-saving and local-calendar effects are not modelled.
- Reports.RangeCutoffs: "one calendar month back" (`setMonth`) is the parameter `monthCutoff`, and only `Reports.WeekWithinMonth` assumes it lies at least 28 days back.
- The seven-day cutoff is seven times 1440 minutes, not a local-calendar date step.
- `Math.random` draws are parameters, and `uuidv4` identifiers are fixed placeholder strings (`tech-1`, `repair-1`, `errors-1-1`, and so on).
- Ratios and ages are exact reals, not binary floating point. `toFixed` and the display strings of the figures are not modelled.
- Js.Lower: only ASCII letters are case-folded, not full Unicode `toLowerCase`.
- Js.Rem and Js.Quot are stated for positive divisors only, the only ones the program uses.
- The base lookup (`mockBases`, `aircraft.baseId`) is not part of this model: neither is defined in the types or the fixture file.
- Components the application imports but whose source is not part of this model (fleet overview, maintenance status, mission schedule, parts inventory, fleet management, flight-test management, settings) appear only as the page and data `renderContent` hands them.
- The placeholder `Personnel` component in `App.tsx` is not modelled, since `renderContent` does not use it.
- The `missionStages` fixture and the flight waypoints are not modelled, since none of the modelled rules read them.
- Optional fields that the modelled rules do not read are left out of the entities:
  - aircraft coordinates are kept, but the mission stage list is not;
  - for technicians, a missing `specialties` (`undefined`) is modelled as an empty list, which yields the same `N/A` label.
- `getProgressPercentage`, `getStageColor` and `getStageIcon` (`RepairTracker.tsx:56-82`) are defined in the tracker but called nowhere in it, so no progress figure, stage colour or stage icon is ever shown. The model keeps them as `RepairTracker.GetProgressPercentage`, `RepairTracker.StageColor` and `RepairTracker.StageIcon` with their lemmas, as rules the component defines.
- RepairTracker.StageColor and RepairTracker.StageIcon are total over the seven stages only. The unchecked cast at `RepairTracker.tsx:277` can pass them another string, but the modelled views never call them.
- The outer `selectedStage` state of the tracker page (`RepairTracker.tsx:54`) is never read, so it is not modelled. The chevrons' own state is `RepairTracker.StageSelection`.
- PersonnelManagement.PersonnelView: the details modal's text (current assignment line, headings) is not modelled beyond the labels `SpecialtiesLabel` and `StatusLabel`.
- App.AppState.SelectAircraft: how the dashboard renders a selected aircraft is in the fleet overview component, which is not part of this model.
- Reports.MissionData: a chart row's date is `ChartDate.Day` of the mission's full start time in minutes. `format(..., 'MMM d')` shows only the calendar day, and that rounding to the day is not modelled.
