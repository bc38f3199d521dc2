/** The fixture data the application starts from: four technicians, four
    parts, the error and repair generators, three missions per aircraft, ten
    aircraft with generated flight-hour metrics, and the weather. Times are
    offsets from a `now` parameter; the random draws are parameters; the
    generated identifiers are fixed placeholder strings. */
module MockData {
  import opened Seqs
  import opened Js
  import opened Types

  // ---------------------------------------------------------------
  // generateAircraftMetrics
  // ---------------------------------------------------------------

  const MaxHoursBeforeMaintenance: int := 1000

  /** A value `Math.random()` can return */
  predicate IsDraw(r: real)
  {
    0.0 <= r < 1.0
  }

  /** `Math.floor(r * 1200 + 400)` */
  function FlightHoursFromDraw(r: real): int
  {
    (r * 1200.0 + 400.0).Floor
  }

  /** Every draw gives between 400 and 1599 flight hours. */
  lemma FlightHoursRange(r: real)
    requires IsDraw(r)
    ensures 400 <= FlightHoursFromDraw(r) <= 1599
  {
    var x := r * 1200.0 + 400.0;
    assert 400.0 <= x < 1600.0;
    assert x.Floor as real <= x < x.Floor as real + 1.0;
  }

  /** `maxHoursBeforeMaintenance - (flightHours % maxHoursBeforeMaintenance)`,
      with the sign-of-dividend remainder */
  function HoursUntilMaintenance(flightHours: int): int
  {
    MaxHoursBeforeMaintenance - Rem(flightHours, MaxHoursBeforeMaintenance)
  }

  /** For non-negative hours the figure lies in [1, 1000] and is 1000
      exactly at a multiple of 1000. */
  lemma HoursUntilMaintenanceRange(flightHours: int)
    requires flightHours >= 0
    ensures 1 <= HoursUntilMaintenance(flightHours) <= 1000
    ensures HoursUntilMaintenance(flightHours) == 1000 <==> flightHours % 1000 == 0
  {
  }

  /** Hours flown plus hours remaining always reach the next multiple of
      1000: for non-negative hours the one strictly above, counted in whole
      thousands. */
  lemma HoursUntilMaintenanceReachesMultiple(flightHours: int)
    ensures (flightHours + HoursUntilMaintenance(flightHours)) % 1000 == 0
    ensures flightHours >= 0 ==>
      flightHours + HoursUntilMaintenance(flightHours) == (flightHours / 1000 + 1) * 1000
  {
    var q := Quot(flightHours, 1000);
    assert flightHours + HoursUntilMaintenance(flightHours) == (q + 1) * 1000;
    if flightHours >= 0 {
      assert q == flightHours / 1000;
    }
  }

  /** The three fields `generateAircraftMetrics` returns */
  datatype AircraftMetrics = AircraftMetrics(flightHours: int, flightHoursUntilMaintenance: int, age: real)

  /** `generateAircraftMetrics(baseAge, isNew)`, given the draw for the
      flight hours and the draw for the age jitter (not consumed when
      `isNew` holds) */
  function GenerateAircraftMetrics(baseAge: real, isNew: bool, hoursDraw: real, ageDraw: real): AircraftMetrics
  {
    var flightHours := FlightHoursFromDraw(hoursDraw);
    AircraftMetrics(
      flightHours,
      HoursUntilMaintenance(flightHours),
      if isNew then baseAge else baseAge + ageDraw * 2.0 - 1.0)
  }

  /** The generated metrics stay in range, hours flown and hours remaining
      add up to a multiple of 1000, a new aircraft keeps its base age and
      any other is within a year of it. */
  lemma GenerateAircraftMetricsSpec(baseAge: real, isNew: bool, hoursDraw: real, ageDraw: real)
    requires IsDraw(hoursDraw) && IsDraw(ageDraw)
    ensures var m := GenerateAircraftMetrics(baseAge, isNew, hoursDraw, ageDraw);
      && 400 <= m.flightHours <= 1599
      && 1 <= m.flightHoursUntilMaintenance <= 1000
      && (m.flightHours + m.flightHoursUntilMaintenance) % 1000 == 0
      && (isNew ==> m.age == baseAge)
      && (!isNew ==> baseAge - 1.0 <= m.age < baseAge + 1.0)
  {
    var h := FlightHoursFromDraw(hoursDraw);
    FlightHoursRange(hoursDraw);
    HoursUntilMaintenanceRange(h);
    HoursUntilMaintenanceReachesMultiple(h);
  }

  // ---------------------------------------------------------------
  // Technicians and parts
  // ---------------------------------------------------------------

  const MockTechnicians: seq<Technician> := [
    Technician("tech-1", "John Smith", ["Avionics", "Electrical"], true, None),
    Technician("tech-2", "Maria Garcia", ["Engines", "Hydraulics"], false, Some("1")),
    Technician("tech-3", "David Johnson", ["Airframe", "Landing Gear"], true, None),
    Technician("tech-4", "Sarah Williams", ["Weapons Systems", "Radar"], true, None)
  ]

  function MockParts(now: Minutes): seq<Part>
  {
    [
      Part("part-1", "Hydraulic Pump", "HP-2234-A", 5, 2, Some(now + 3 * MinutesPerDay)),
      Part("part-2", "Fuel Filter", "FF-1122-B", 12, 0, None),
      Part("part-3", "Navigation Computer", "NC-7788-C", 1, 3, Some(now + 7 * MinutesPerDay)),
      Part("part-4", "Landing Gear Actuator", "LGA-4456-D", 0, 4, Some(now + 2 * MinutesPerDay))
    ]
  }

  // ---------------------------------------------------------------
  // Errors, repairs, missions
  // ---------------------------------------------------------------

  /** `generateErrors()`; `batch` stands for the fresh identifiers of the call */
  function GenerateErrors(now: Minutes, batch: string): seq<SystemError>
  {
    [
      SystemError(batch + "-1", "Hydraulics", "Main Pump", "Pressure fluctuations during operation",
                  Warning, now - 2 * MinutesPerDay, ["Landing Gear", "Control Surfaces"]),
      SystemError(batch + "-2", "Avionics", "Navigation System", "GPS signal intermittent",
                  Warning, now - MinutesPerDay, ["Navigation", "Mission Systems"]),
      SystemError(batch + "-3", "Engines", "Turbine", "Excessive vibration at high RPM",
                  Critical, now - MinutesPerDay, ["Propulsion", "Fuel System"])
    ]
  }

  /** `generateRepair(aircraftId, errorId)` */
  function GenerateRepair(now: Minutes, aircraftId: string, errorId: string): (r: Repair)
    ensures r.stage == RepairInProgress && r.aircraftId == aircraftId && r.relatedErrorId == errorId
    ensures r.startTime < r.estimatedCompletionTime && r.actualCompletionTime.None?
  {
    var parts := MockParts(now);
    Repair(
      "repair-" + aircraftId,
      aircraftId,
      errorId,
      RepairInProgress,
      now - MinutesPerDay,
      now + 2 * MinutesPerDay,
      None,
      [MockTechnicians[0], MockTechnicians[1]],
      [RequiredPart(parts[0].id, 1, parts[0].name), RequiredPart(parts[3].id, 2, parts[3].name)],
      "Replacing main hydraulic pump and testing system integrity",
      "In Progress",
      "Repairing hydraulic system components")
  }

  /** `generateMissions(aircraftId)` */
  function GenerateMissions(now: Minutes, aircraftId: string): seq<Mission>
  {
    [
      Mission("mission-" + aircraftId + "-a", "Training Exercise Alpha", "Training Exercise Alpha",
              now - 5 * MinutesPerDay, Some(24), Some(now - 5 * MinutesPerDay), Some(now - 4 * MinutesPerDay),
              Completed, Some(Medium), aircraftId),
      Mission("mission-" + aircraftId + "-b", "Reconnaissance Flight Bravo", "Reconnaissance Flight Bravo",
              now + MinutesPerDay, Some(48), Some(now + MinutesPerDay), Some(now + 2 * MinutesPerDay),
              Scheduled, Some(High), aircraftId),
      Mission("mission-" + aircraftId + "-c", "Transport Mission Charlie", "Transport Mission Charlie",
              now + 4 * MinutesPerDay, Some(72), Some(now + 4 * MinutesPerDay), Some(now + 6 * MinutesPerDay),
              Scheduled, Some(Medium), aircraftId)
    ]
  }

  /** The in-flight mission some aircraft carry; it has no start or end. */
  function FlightInProgress(now: Minutes, id: string, name: string, duration: int, aircraftId: string): Mission
  {
    Mission(id, name, name, now, Some(duration), None, None, InProgress, None, aircraftId)
  }

  // ---------------------------------------------------------------
  // Aircraft
  // ---------------------------------------------------------------

  /** The two draws each aircraft's metrics consume */
  datatype Draws = Draws(hours: real, age: real)

  predicate ValidDraws(draws: seq<Draws>)
  {
    |draws| == 10 && forall i :: 0 <= i < |draws| ==> IsDraw(draws[i].hours) && IsDraw(draws[i].age)
  }

  /** An aircraft record completed with its generated metrics */
  function WithMetrics(id: string, tailNumber: string, model: string, status: MaintenanceStatus,
                       location: string, lat: real, lng: real, missionCapable: bool,
                       lastMaintenance: Minutes, nextScheduledMaintenance: Minutes,
                       errors: seq<SystemError>, currentRepair: Option<Repair>, missions: seq<Mission>,
                       currentMission: Option<Mission>, metrics: AircraftMetrics): Aircraft
  {
    Aircraft(id, tailNumber, model, status, location, lat, lng, missionCapable,
             lastMaintenance, nextScheduledMaintenance, errors, currentRepair, missions, [],
             currentMission, metrics.flightHours, metrics.flightHoursUntilMaintenance, metrics.age)
  }

  /** `mockAircraft` */
  function MockAircraft(now: Minutes, draws: seq<Draws>): seq<Aircraft>
    requires ValidDraws(draws)
  {
    var d := MinutesPerDay;
    [
      WithMetrics("1", "AF-10042", "F-35A", RepairInProgress, "Hangar A", 41.123, -111.973, false,
                  now - 30 * d, now + 60 * d, GenerateErrors(now, "errors-1"),
                  Some(GenerateRepair(now, "1", "1")), GenerateMissions(now, "1"),
                  Some(FlightInProgress(now, "1", "Training Flight", 155, "1")),
                  GenerateAircraftMetrics(4.5, false, draws[0].hours, draws[0].age)),
      WithMetrics("2", "AF-10043", "F-35A", Operational, "Runway", 41.124, -111.974, true,
                  now - 15 * d, now + 75 * d, [], None, GenerateMissions(now, "2"), None,
                  GenerateAircraftMetrics(3.8, false, draws[1].hours, draws[1].age)),
      WithMetrics("3", "AF-10044", "F-35A", InMission, "Airborne", 41.125, -111.975, true,
                  now - 7 * d, now + 83 * d, [], None, GenerateMissions(now, "3"),
                  Some(FlightInProgress(now, "1", "Training Flight", 155, "3")),
                  GenerateAircraftMetrics(4.2, false, draws[2].hours, draws[2].age)),
      WithMetrics("4", "AF-10045", "F-35A", Diagnosing, "Hangar B", 41.126, -111.976, false,
                  now - 45 * d, now + 45 * d, GenerateErrors(now, "errors-4")[0..2], None,
                  GenerateMissions(now, "4"), None,
                  GenerateAircraftMetrics(5.1, false, draws[3].hours, draws[3].age)),
      WithMetrics("5", "AF-10046", "F-22A", Operational, "Tarmac", 41.127, -111.977, true,
                  now - 5 * d, now + 85 * d, [], None, GenerateMissions(now, "5"), None,
                  GenerateAircraftMetrics(6.5, false, draws[4].hours, draws[4].age)),
      WithMetrics("6", "AF-10047", "F-22A", PartsOnOrder, "Hangar C", 41.128, -111.978, false,
                  now - 60 * d, now + 30 * d, GenerateErrors(now, "errors-6")[1..3],
                  Some(GenerateRepair(now, "6", "2")), GenerateMissions(now, "6"), None,
                  GenerateAircraftMetrics(7.2, false, draws[5].hours, draws[5].age)),
      WithMetrics("7", "AF-10048", "F-35A", InMission, "Airborne", 41.220, -112.030, true,
                  now - 10 * d, now + 80 * d, [], None, GenerateMissions(now, "7"),
                  Some(FlightInProgress(now, "2", "Combat Air Patrol", 180, "7")),
                  GenerateAircraftMetrics(2.5, true, draws[6].hours, draws[6].age)),
      WithMetrics("8", "AF-10049", "F-22A", InMission, "Airborne", 41.240, -112.010, true,
                  now - 8 * d, now + 82 * d, [], None, GenerateMissions(now, "8"),
                  Some(FlightInProgress(now, "3", "Combat Air Patrol", 180, "8")),
                  GenerateAircraftMetrics(8.4, false, draws[7].hours, draws[7].age)),
      WithMetrics("9", "AF-10050", "F-35A", InMission, "Airborne", 41.260, -111.990, true,
                  now - 12 * d, now + 78 * d, [], None, GenerateMissions(now, "9"),
                  Some(FlightInProgress(now, "4", "Combat Air Patrol", 180, "9")),
                  GenerateAircraftMetrics(3.9, false, draws[8].hours, draws[8].age)),
      WithMetrics("10", "AF-10051", "F-22A", InMission, "Airborne", 41.280, -111.970, true,
                  now - 6 * d, now + 84 * d, [], None, GenerateMissions(now, "10"),
                  Some(FlightInProgress(now, "5", "Combat Air Patrol", 180, "10")),
                  GenerateAircraftMetrics(5.8, false, draws[9].hours, draws[9].age))
    ]
  }

  // ---------------------------------------------------------------
  // Weather
  // ---------------------------------------------------------------

  function MockWeather(now: Minutes): WeatherCondition
  {
    WeatherCondition("Partly Cloudy", 68, 12, "NW", 45, 8.5, 25000, now, [
      WeatherForecast(now + MinutesPerDay, "Sunny", 72, 8, 0),
      WeatherForecast(now + 2 * MinutesPerDay, "Cloudy", 65, 15, 30),
      WeatherForecast(now + 3 * MinutesPerDay, "Rain", 59, 20, 80)
    ])
  }
}
