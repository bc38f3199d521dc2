/** What the rules of the dashboard make of its fixture data: the fixtures
    serve as concrete witnesses for the general lemmas of the other modules. */
module FixtureFacts {
  import opened Seqs
  import opened Js
  import opened Types
  import opened MockData
  import RepairTracker
  import PersonnelManagement
  import Reports
  import App

  // ---------------------------------------------------------------
  // Technicians
  // ---------------------------------------------------------------

  /** Exactly one technician, Maria Garcia, is unavailable, and she is the
      only one with a current assignment; the counters read 4, 3 and 1 and
      the utilisation 25 percent. */
  lemma TechnicianFixture()
    ensures Filter(IsAssigned, MockTechnicians) == [MockTechnicians[1]]
    ensures MockTechnicians[1].name == "Maria Garcia"
    ensures forall t :: t in MockTechnicians ==> (t.currentAssignment.Some? <==> !t.available)
    ensures PersonnelManagement.TotalPersonnel(MockTechnicians) == 4
    ensures PersonnelManagement.AvailablePersonnel(MockTechnicians) == 3
    ensures PersonnelManagement.AssignedPersonnel(MockTechnicians) == 1
    ensures Reports.PersonnelUtilization(MockTechnicians) == Finite(25.0)
  {
    var ts := MockTechnicians;
    assert Filter(IsAssigned, ts[3..]) == [];
    assert Filter(IsAssigned, ts[1..]) == [ts[1]] by {
      assert ts[1..][1..] == ts[2..];
      assert ts[2..][1..] == ts[3..];
    }
    assert Filter(IsAvailable, ts[3..]) == [ts[3]];
  }

  /** The technicians' specialties labels are the two names joined. */
  lemma SpecialtiesFixture()
    ensures PersonnelManagement.SpecialtiesLabel(MockTechnicians[0].specialties) == "Avionics, Electrical"
  {
    PersonnelManagement.SpecialtiesLabelSpec(MockTechnicians[0].specialties);
  }

  // ---------------------------------------------------------------
  // Repairs
  // ---------------------------------------------------------------

  /** The generated repair's stage `Repair in Progress` is none of the seven
      repair stages, so its progress row shows every stage as upcoming and
      its progress is 0 percent. */
  lemma GeneratedRepairOutsideStages(now: Minutes, aircraftId: string, errorId: string)
    ensures RepairTracker.CurrentStageOf(GenerateRepair(now, aircraftId, errorId)) == "Repair in Progress"
    ensures RepairTracker.CurrentStageOf(GenerateRepair(now, aircraftId, errorId)) !in RepairTracker.StageNames
    ensures RepairTracker.StatusRow(RepairTracker.CurrentStageOf(GenerateRepair(now, aircraftId, errorId)))
         == Repeat(RepairTracker.Upcoming, 7)
    ensures RepairTracker.GetProgressPercentage(RepairTracker.CurrentStageOf(GenerateRepair(now, aircraftId, errorId))) == 0.0
  {
    var r := GenerateRepair(now, aircraftId, errorId);
    RepairTracker.CurrentStageInEnumIff(r);
    RepairTracker.RepairStatusRow(r);
    RepairTracker.ProgressOutsideEnum(RepairTracker.CurrentStageOf(r));
  }

  /** The generated repair lasts three days: from one day ago to two days
      ahead. */
  lemma GeneratedRepairDuration(now: Minutes, aircraftId: string, errorId: string)
    ensures RepairTracker.DurationBetween(GenerateRepair(now, aircraftId, errorId).startTime,
                                          GenerateRepair(now, aircraftId, errorId).estimatedCompletionTime)
         == RepairTracker.Duration(3, 0)
  {
  }

  // ---------------------------------------------------------------
  // The fleet
  // ---------------------------------------------------------------

  /** An aircraft with neither open errors nor an active repair */
  predicate Clean(a: Aircraft)
  {
    a.errors == [] && a.currentRepair.None?
  }

  /** Which aircraft of the fleet carry errors or a repair */
  lemma FleetRepairShape(now: Minutes, draws: seq<Draws>)
    requires ValidDraws(draws)
    ensures var fleet := MockAircraft(now, draws);
      |fleet| == 10 &&
      fleet[0].id == "1" && fleet[3].id == "4" && fleet[5].id == "6" &&
      fleet[0].currentRepair == Some(GenerateRepair(now, "1", "1")) &&
      fleet[5].currentRepair == Some(GenerateRepair(now, "6", "2")) &&
      fleet[3].errors != [] && fleet[3].currentRepair.None?
    ensures var fleet := MockAircraft(now, draws);
      Clean(fleet[1]) && Clean(fleet[2]) && Clean(fleet[4]) && Clean(fleet[6]) &&
      Clean(fleet[7]) && Clean(fleet[8]) && Clean(fleet[9])
  {
    FleetOthersClean(now, draws);
  }

  /** The aircraft other than 1, 4 and 6 have neither errors nor a repair. */
  lemma FleetOthersClean(now: Minutes, draws: seq<Draws>)
    requires ValidDraws(draws)
    ensures var fleet := MockAircraft(now, draws);
      Clean(fleet[1]) && Clean(fleet[2]) && Clean(fleet[4]) && Clean(fleet[6]) &&
      Clean(fleet[7]) && Clean(fleet[8]) && Clean(fleet[9])
  {
  }

  /** The tracker's filter over any ten aircraft of that shape */
  lemma InRepairOfShape(fleet: seq<Aircraft>)
    requires |fleet| == 10
    requires RepairTracker.InRepair(fleet[0]) && RepairTracker.InRepair(fleet[3]) && RepairTracker.InRepair(fleet[5])
    requires Clean(fleet[1]) && Clean(fleet[2]) && Clean(fleet[4]) && Clean(fleet[6]) &&
             Clean(fleet[7]) && Clean(fleet[8]) && Clean(fleet[9])
    ensures Filter(RepairTracker.InRepair, fleet) == [fleet[0], fleet[3], fleet[5]]
  {
    var p := RepairTracker.InRepair;
    InRepairOfHead(fleet[..5]);
    InRepairOfTail(fleet[5..]);
    FilterConcat(p, fleet[..5], fleet[5..]);
    assert fleet[..5] + fleet[5..] == fleet;
  }

  /** The first five aircraft of that shape: the first and fourth are in repair. */
  lemma InRepairOfHead(h: seq<Aircraft>)
    requires |h| == 5 && RepairTracker.InRepair(h[0]) && RepairTracker.InRepair(h[3])
    requires Clean(h[1]) && Clean(h[2]) && Clean(h[4])
    ensures Filter(RepairTracker.InRepair, h) == [h[0], h[3]]
  {
    var p := RepairTracker.InRepair;
    assert Filter(p, h[4..]) == [] by { assert h[4..][1..] == []; }
    assert Filter(p, h[3..]) == [h[3]] by { assert h[3..][1..] == h[4..]; }
    assert Filter(p, h[2..]) == [h[3]] by { assert h[2..][1..] == h[3..]; }
    assert Filter(p, h[1..]) == [h[3]] by { assert h[1..][1..] == h[2..]; }
  }

  /** The last five aircraft of that shape: only the first is in repair. */
  lemma InRepairOfTail(t: seq<Aircraft>)
    requires |t| == 5 && RepairTracker.InRepair(t[0])
    requires Clean(t[1]) && Clean(t[2]) && Clean(t[3]) && Clean(t[4])
    ensures Filter(RepairTracker.InRepair, t) == [t[0]]
  {
    var p := RepairTracker.InRepair;
    assert Filter(p, t[4..]) == [] by { assert t[4..][1..] == []; }
    assert Filter(p, t[3..]) == [] by { assert t[3..][1..] == t[4..]; }
    assert Filter(p, t[2..]) == [] by { assert t[2..][1..] == t[3..]; }
    assert Filter(p, t[1..]) == [] by { assert t[1..][1..] == t[2..]; }
  }

  /** The dashboard's repairs over any ten aircraft of that shape */
  lemma DashboardRepairsOfShape(fleet: seq<Aircraft>, r0: Repair, r5: Repair)
    requires |fleet| == 10
    requires fleet[0].currentRepair == Some(r0) && fleet[5].currentRepair == Some(r5)
    requires fleet[3].currentRepair.None?
    requires Clean(fleet[1]) && Clean(fleet[2]) && Clean(fleet[4]) && Clean(fleet[6]) &&
             Clean(fleet[7]) && Clean(fleet[8]) && Clean(fleet[9])
    ensures App.DashboardRepairs(fleet) == [r0, r5]
  {
    assert App.DashboardRepairs(fleet[9..]) == [] by { assert fleet[9..][1..] == []; }
    assert App.DashboardRepairs(fleet[8..]) == [] by { assert fleet[8..][1..] == fleet[9..]; }
    assert App.DashboardRepairs(fleet[7..]) == [] by { assert fleet[7..][1..] == fleet[8..]; }
    assert App.DashboardRepairs(fleet[6..]) == [] by { assert fleet[6..][1..] == fleet[7..]; }
    assert App.DashboardRepairs(fleet[5..]) == [r5] by { assert fleet[5..][1..] == fleet[6..]; }
    assert App.DashboardRepairs(fleet[4..]) == [r5] by { assert fleet[4..][1..] == fleet[5..]; }
    assert App.DashboardRepairs(fleet[3..]) == [r5] by { assert fleet[3..][1..] == fleet[4..]; }
    assert App.DashboardRepairs(fleet[2..]) == [r5] by { assert fleet[2..][1..] == fleet[3..]; }
    assert App.DashboardRepairs(fleet[1..]) == [r5] by { assert fleet[1..][1..] == fleet[2..]; }
  }

  /** On the tracker, aircraft 1 and 6 count their time on ground from the
      repair generated a day ago; aircraft 4, listed for its errors only,
      counts from now. */
  lemma GroundTimeFixture(now: Minutes, draws: seq<Draws>)
    requires ValidDraws(draws)
    ensures var fleet := MockAircraft(now, draws);
      RepairTracker.GroundTimeStart(fleet[0], now) == now - MinutesPerDay &&
      RepairTracker.GroundTimeStart(fleet[5], now) == now - MinutesPerDay &&
      RepairTracker.GroundTimeStart(fleet[3], now) == now
    ensures var fleet := MockAircraft(now, draws);
      RepairTracker.DurationBetween(RepairTracker.GroundTimeStart(fleet[0], now), now) == RepairTracker.Duration(1, 0) &&
      RepairTracker.DurationBetween(RepairTracker.GroundTimeStart(fleet[3], now), now) == RepairTracker.Duration(0, 0)
  {
    FleetRepairShape(now, draws);
  }

  /** The repair tracker lists aircraft 1, 4 and 6: aircraft 4 has errors
      but no repair. Only aircraft 1 and 6 carry a repair, so the dashboard
      lists those two repairs. */
  lemma FleetRepairFixture(now: Minutes, draws: seq<Draws>)
    requires ValidDraws(draws)
    ensures var fleet := MockAircraft(now, draws);
      RepairTracker.AircraftInRepair(fleet) == [fleet[0], fleet[3], fleet[5]]
    ensures var fleet := MockAircraft(now, draws);
      fleet[0].id == "1" && fleet[3].id == "4" && fleet[5].id == "6"
    ensures var fleet := MockAircraft(now, draws);
      fleet[3].errors != [] && fleet[3].currentRepair.None?
    ensures App.DashboardRepairs(MockAircraft(now, draws)) == [GenerateRepair(now, "1", "1"), GenerateRepair(now, "6", "2")]
  {
    var fleet := MockAircraft(now, draws);
    FleetRepairShape(now, draws);
    InRepairOfShape(fleet);
    DashboardRepairsOfShape(fleet, GenerateRepair(now, "1", "1"), GenerateRepair(now, "6", "2"));
  }

  /** Every aircraft's next mission is `Reconnaissance Flight Bravo`, the
      first scheduled one of its three. */
  lemma NextMissionFixture(now: Minutes, aircraftId: string, a: Aircraft)
    requires a.missions == GenerateMissions(now, aircraftId)
    ensures RepairTracker.NextMission(a) == Some(a.missions[1])
    ensures RepairTracker.NextMission(a).value.name == "Reconnaissance Flight Bravo"
  {
    var ms := a.missions;
    assert ms[1..][0] == ms[1];
  }

  /** Every aircraft of the fleet has the three generated missions. */
  lemma FleetMissionsFixture(now: Minutes, draws: seq<Draws>, i: nat)
    requires ValidDraws(draws) && i < 10
    ensures MockAircraft(now, draws)[i].missions == GenerateMissions(now, MockAircraft(now, draws)[i].id)
    ensures MockAircraft(now, draws)[i].repairs == []
  {
  }

  /** The schedule and the reports see thirty missions and no repairs. */
  lemma FleetTotalsFixture(now: Minutes, draws: seq<Draws>)
    requires ValidDraws(draws)
    ensures |App.FleetMissions(MockAircraft(now, draws))| == 30
    ensures App.FleetRepairs(MockAircraft(now, draws)) == []
  {
    var fleet := MockAircraft(now, draws);
    App.FleetMissionsCount(fleet);
    forall a | a in fleet ensures |a.missions| == 3 && a.repairs == [] {
      var i :| 0 <= i < |fleet| && fleet[i] == a;
      FleetMissionsFixture(now, draws, i);
    }
    App.MissionCountUniform(fleet, 3);
    App.FleetRepairsEmpty(fleet);
  }

  /** One aircraft's missions all fall within the last week (the earliest
      started five days ago), and their mean duration is 48 hours. */
  lemma MissionReportFixture(now: Minutes, monthCutoff: Minutes, aircraftId: string)
    ensures Reports.FilteredMissions(GenerateMissions(now, aircraftId), Reports.LastWeek, now, monthCutoff)
         == GenerateMissions(now, aircraftId)
    ensures Reports.TotalDuration(GenerateMissions(now, aircraftId)) == 144
    ensures Reports.AverageMissionDuration(GenerateMissions(now, aircraftId)) == Finite(48.0)
  {
    var ms := GenerateMissions(now, aircraftId);
    FilterAll(m => Reports.InRange(m, Reports.LastWeek, now, monthCutoff), ms);
    assert Reports.TotalDuration(ms[..1]) == 24 by { assert ms[..1][..0] == []; }
    assert Reports.TotalDuration(ms[..2]) == 72 by { assert ms[..2][..1] == ms[..1]; }
  }

  // ---------------------------------------------------------------
  // Weather
  // ---------------------------------------------------------------

  /** The header shows all three forecast days and no wind warning (12 mph),
      and `Partly Cloudy` gets its own icon, not the default one. */
  lemma WeatherFixture(now: Minutes)
    ensures |App.Header(MockWeather(now)).forecast| == 3
    ensures App.Header(MockWeather(now)).windWarning == None
    ensures App.Header(MockWeather(now)).icon == App.WeatherIcon(App.DayCloudy, "text-gray-100")
    ensures App.Header(MockWeather(now)).icon != App.DefaultWeatherIcon
  {
    App.HeaderSpec(MockWeather(now));
    assert Lower("Partly Cloudy") == "partly cloudy";
  }
}
