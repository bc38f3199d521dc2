/** The repair-stage engine of the repair tracker: seven totally ordered
    stages, the completed/current/upcoming status of each stage relative to
    a repair's current stage, the progress percentage, the stage colour and
    icon lookups, the duration label, and the two fleet queries of the
    tracker page (which aircraft are in repair, and each aircraft's next
    scheduled mission).

    The program compares stages as STRINGS: `stages.indexOf(name)` is -1 for
    a name outside the seven, and the current stage of a repair is its
    maintenance status read as a stage name. The model keeps that: stage
    queries take a `string`, and the seven stages are a datatype whose names
    form `StageNames`. */
module RepairTracker {
  import opened Seqs
  import opened Js
  import Types

  datatype RepairStage =
    | AnomalyDetected
    | AmbiguityIdentified
    | FaultIsolation
    | MaintenanceIdentified
    | MaintenanceInWork
    | Inspection
    | SafeForFlight

  function StageName(st: RepairStage): string
  {
    match st
    case AnomalyDetected => "Anomaly Detected"
    case AmbiguityIdentified => "Ambiguity Identified"
    case FaultIsolation => "Fault Isolation"
    case MaintenanceIdentified => "Maintenance Identified"
    case MaintenanceInWork => "Maintenance In Work"
    case Inspection => "Inspection"
    case SafeForFlight => "Safe for Flight"
  }

  /** `stages`, in order */
  const Stages: seq<RepairStage> := [
    AnomalyDetected,
    AmbiguityIdentified,
    FaultIsolation,
    MaintenanceIdentified,
    MaintenanceInWork,
    Inspection,
    SafeForFlight
  ]

  /** The names of `Stages`, position by position: the array the program
      searches with `indexOf` */
  const StageNames: seq<string> := [
    "Anomaly Detected",
    "Ambiguity Identified",
    "Fault Isolation",
    "Maintenance Identified",
    "Maintenance In Work",
    "Inspection",
    "Safe for Flight"
  ]

  /** `StageNames` lists the name of each stage of `Stages`. */
  lemma StageNamesMatchStages()
    ensures |StageNames| == |Stages|
    ensures forall i :: 0 <= i < |Stages| ==> StageNames[i] == StageName(Stages[i])
  {
  }

  /** The position of a stage in `Stages`: every stage is listed. */
  function Ordinal(st: RepairStage): (k: nat)
    ensures k < |Stages| && Stages[k] == st
  {
    match st
    case AnomalyDetected => 0
    case AmbiguityIdentified => 1
    case FaultIsolation => 2
    case MaintenanceIdentified => 3
    case MaintenanceInWork => 4
    case Inspection => 5
    case SafeForFlight => 6
  }

  /** No two stages share a name. */
  lemma StageNamesDistinct()
    ensures |StageNames| == 7
    ensures forall i, j :: 0 <= i < j < |StageNames| ==> StageNames[i] != StageNames[j]
  {
  }

  /** `stages.indexOf(name)` */
  function StageIndex(name: string): (k: int)
    ensures -1 <= k < |StageNames|
    ensures k == -1 <==> name !in StageNames
  {
    IndexOf(StageNames, name)
  }

  /** The index of the i-th stage name is i. */
  lemma StageIndexAt(i: nat)
    requires i < |StageNames|
    ensures StageIndex(StageNames[i]) == i
  {
    StageNamesDistinct();
    IndexOfDistinct(StageNames, i);
  }

  /** Looking a stage up by its name gives its position. */
  lemma StageIndexOfStage(st: RepairStage)
    ensures StageIndex(StageName(st)) == Ordinal(st)
  {
    assert StageNames[Ordinal(st)] == StageName(st);
    StageIndexAt(Ordinal(st));
  }

  datatype StageStatus = Completed | Current | Upcoming

  /** `getStageStatus`: compares the two names' positions in `stages`. */
  function GetStageStatus(currentStage: string, stage: string): StageStatus
  {
    var currentIndex := StageIndex(currentStage);
    var stageIndex := StageIndex(stage);
    if stageIndex < currentIndex then Completed
    else if stageIndex == currentIndex then Current
    else Upcoming
  }

  /** Between two stages of the enumeration the status follows their order. */
  lemma StageStatusByOrder(current: RepairStage, stage: RepairStage)
    ensures GetStageStatus(StageName(current), StageName(stage)) == Current <==> stage == current
    ensures GetStageStatus(StageName(current), StageName(stage)) == Completed <==> Ordinal(stage) < Ordinal(current)
    ensures GetStageStatus(StageName(current), StageName(stage)) == Upcoming <==> Ordinal(current) < Ordinal(stage)
  {
    StageIndexOfStage(current);
    StageIndexOfStage(stage);
  }

  /** For a current stage of the enumeration and ANY queried name: the status
      is `Current` exactly for the current stage's own name, and a name
      outside the enumeration (index -1) counts as completed. */
  lemma StageStatusOfAnyName(current: RepairStage, stage: string)
    ensures GetStageStatus(StageName(current), stage) == Current <==> stage == StageName(current)
    ensures GetStageStatus(StageName(current), stage) == Completed <==> StageIndex(stage) < Ordinal(current)
    ensures stage !in StageNames ==> GetStageStatus(StageName(current), stage) == Completed
  {
    StageIndexOfStage(current);
    var k := StageIndex(stage);
    if k == Ordinal(current) {
      assert StageNames[k] == stage;
      assert StageNames[Ordinal(current)] == StageName(current);
    }
  }

  /** A current stage outside the enumeration makes every stage upcoming. */
  lemma StageStatusOutsideEnum(currentStage: string, stage: RepairStage)
    requires currentStage !in StageNames
    ensures GetStageStatus(currentStage, StageName(stage)) == Upcoming
  {
    StageIndexOfStage(stage);
  }

  /** Two names outside the enumeration share index -1 and so compare as
      `Current`. */
  lemma StageStatusBothOutside(currentStage: string, stage: string)
    requires currentStage !in StageNames && stage !in StageNames
    ensures GetStageStatus(currentStage, stage) == Current
  {
  }

  /** The statuses `ChevronProgress` computes, one per stage in order */
  function StatusRow(currentStage: string): (row: seq<StageStatus>)
    ensures |row| == |Stages|
  {
    seq(|Stages|, i requires 0 <= i < |Stages| => GetStageStatus(currentStage, StageNames[i]))
  }

  /** Entry `i` of the row compares position `i` with the current index. */
  lemma StatusRowAt(currentStage: string, i: nat)
    requires i < |Stages|
    ensures StatusRow(currentStage)[i] ==
      if i < StageIndex(currentStage) then Completed
      else if i == StageIndex(currentStage) then Current
      else Upcoming
  {
    StageIndexAt(i);
  }

  /** The row is a block of `Completed`, one `Current`, then `Upcoming`; or
      all `Upcoming` when the current stage is not one of the seven. */
  lemma StatusRowShape(currentStage: string)
    ensures currentStage !in StageNames ==> StatusRow(currentStage) == Repeat(Upcoming, |Stages|)
    ensures currentStage in StageNames ==>
      && 0 <= StageIndex(currentStage)
      && StatusRow(currentStage) == Repeat(Completed, StageIndex(currentStage)) + [Current]
                                    + Repeat(Upcoming, |Stages| - 1 - StageIndex(currentStage))
  {
    var row := StatusRow(currentStage);
    var k := StageIndex(currentStage);
    var shape: seq<StageStatus> :=
      if k < 0 then Repeat(Upcoming, |Stages|)
      else Repeat(Completed, k) + [Current] + Repeat(Upcoming, |Stages| - 1 - k);
    assert |shape| == |row|;
    forall i | 0 <= i < |Stages| ensures row[i] == shape[i] {
      StatusRowAt(currentStage, i);
      if 0 <= k {
        if i < k {
          assert shape[i] == Repeat(Completed, k)[i];
        } else if i > k {
          assert shape[i] == Repeat(Upcoming, |Stages| - 1 - k)[i - k - 1];
        }
      }
    }
    assert row == shape;
  }

  /** `getProgressPercentage`: `(indexOf + 1) / 7 * 100` */
  function GetProgressPercentage(stage: string): real
  {
    ((StageIndex(stage) + 1) as real / |StageNames| as real) * 100.0
  }

  /** For the seven stages the percentage is (position + 1) sevenths of 100,
      inside (0, 100]. */
  lemma ProgressOfStage(st: RepairStage)
    ensures GetProgressPercentage(StageName(st)) == (Ordinal(st) + 1) as real * 100.0 / 7.0
    ensures 0.0 < GetProgressPercentage(StageName(st)) <= 100.0
  {
    StageIndexOfStage(st);
    StageNamesDistinct();
  }

  /** `Safe for Flight` is exactly 100 and `Anomaly Detected` is 100/7. */
  lemma ProgressEndpoints()
    ensures GetProgressPercentage("Safe for Flight") == 100.0
    ensures GetProgressPercentage("Anomaly Detected") == 100.0 / 7.0
  {
    ProgressOfStage(SafeForFlight);
    ProgressOfStage(AnomalyDetected);
  }

  /** The percentage strictly increases along `stages`. */
  lemma ProgressStrictlyIncreasing(i: nat, j: nat)
    requires i < j < |StageNames|
    ensures GetProgressPercentage(StageNames[i]) < GetProgressPercentage(StageNames[j])
  {
    ProgressAt(i);
    ProgressAt(j);
  }

  /** The percentage of the i-th stage name */
  lemma ProgressAt(i: nat)
    requires i < |StageNames|
    ensures GetProgressPercentage(StageNames[i]) == (i + 1) as real * 100.0 / 7.0
  {
    StageIndexAt(i);
    StageNamesDistinct();
  }

  /** A name outside the enumeration gives 0. */
  lemma ProgressOutsideEnum(stage: string)
    requires stage !in StageNames
    ensures GetProgressPercentage(stage) == 0.0
  {
  }

  /** `getStageColor`: Tailwind classes, treated as opaque tokens */
  function StageColor(st: RepairStage): string
  {
    match st
    case AnomalyDetected => "bg-red-100 text-red-800"
    case AmbiguityIdentified => "bg-orange-100 text-orange-800"
    case FaultIsolation => "bg-yellow-100 text-yellow-800"
    case MaintenanceIdentified => "bg-blue-100 text-blue-800"
    case MaintenanceInWork => "bg-indigo-100 text-indigo-800"
    case Inspection => "bg-purple-100 text-purple-800"
    case SafeForFlight => "bg-green-100 text-green-800"
  }

  datatype Glyph =
    | ExclamationTriangle
    | Search
    | Wrench
    | ClipboardList
    | Tools
    | ClipboardCheck
    | CheckCircle

  /** An icon component with its colour class */
  datatype Icon = Icon(glyph: Glyph, colorClass: string)

  /** `getStageIcon` */
  function StageIcon(st: RepairStage): Icon
  {
    match st
    case AnomalyDetected => Icon(ExclamationTriangle, "text-red-500")
    case AmbiguityIdentified => Icon(Search, "text-orange-500")
    case FaultIsolation => Icon(Wrench, "text-yellow-500")
    case MaintenanceIdentified => Icon(ClipboardList, "text-blue-500")
    case MaintenanceInWork => Icon(Tools, "text-indigo-500")
    case Inspection => Icon(ClipboardCheck, "text-purple-500")
    case SafeForFlight => Icon(CheckCircle, "text-green-500")
  }

  /** No two stages share a colour class or an icon. */
  lemma StageLookupsInjective(a: RepairStage, b: RepairStage)
    ensures StageColor(a) == StageColor(b) ==> a == b
    ensures StageIcon(a) == StageIcon(b) ==> a == b
    ensures StageIcon(a).glyph == StageIcon(b).glyph ==> a == b
  {
  }

  // ---------------------------------------------------------------
  // formatDuration
  // ---------------------------------------------------------------

  /** Whole days and the remainder in minutes */
  datatype Duration = Duration(days: int, minutes: int)

  /** The two numbers behind `formatDuration`: `differenceInDays` taken as the
      minute difference truncated to whole days, and the minute difference
      modulo a day with JavaScript's truncating `%`. */
  function DurationBetween(startTime: Types.Minutes, endTime: Types.Minutes): (d: Duration)
    ensures d.days * Types.MinutesPerDay + d.minutes == endTime - startTime
    ensures endTime >= startTime ==> d.days >= 0 && 0 <= d.minutes < Types.MinutesPerDay
    ensures endTime < startTime ==> d.days <= 0 && -Types.MinutesPerDay < d.minutes <= 0
  {
    var total := endTime - startTime;
    Duration(Quot(total, Types.MinutesPerDay), Rem(total, Types.MinutesPerDay))
  }

  /** `formatDuration`: `${days}d ${minutes}m` */
  function FormatDuration(startTime: Types.Minutes, endTime: Types.Minutes): string
  {
    var d := DurationBetween(startTime, endTime);
    IntToString(d.days) + "d " + IntToString(d.minutes) + "m"
  }

  /** No time elapsed reads `0d 0m`; two days and 150 minutes read `2d 150m`. */
  lemma FormatDurationExamples(t: Types.Minutes)
    ensures FormatDuration(t, t) == "0d 0m"
    ensures DurationBetween(t, t + 2 * Types.MinutesPerDay + 150) == Duration(2, 150)
    ensures FormatDuration(t, t + 2 * Types.MinutesPerDay + 150) == "2d 150m"
  {
    assert DurationBetween(t, t) == Duration(0, 0);
    assert IntToString(0) == "0";
    assert DurationBetween(t, t + 2 * Types.MinutesPerDay + 150) == Duration(2, 150);
    assert IntToString(2) == "2";
    assert IntToString(150) == "150" by { assert NatToString(15) == "15"; }
  }

  /** An inverted range yields non-positive parts: one minute back reads
      `0d -1m`. */
  lemma FormatDurationInverted(t: Types.Minutes)
    ensures DurationBetween(t, t - 1) == Duration(0, -1)
    ensures FormatDuration(t, t - 1) == "0d -1m"
  {
    assert Rem(-1, Types.MinutesPerDay) == -1;
    assert Quot(-1, Types.MinutesPerDay) == 0;
    assert IntToString(0) == "0";
    assert IntToString(-1) == "-1" by { assert NatToString(1) == "1"; }
  }

  // ---------------------------------------------------------------
  // The tracker page's queries over the fleet
  // ---------------------------------------------------------------

  /** An aircraft is shown when it has open errors or an active repair. */
  predicate InRepair(a: Types.Aircraft)
  {
    |a.errors| > 0 || a.currentRepair.Some?
  }

  /** `aircraftInRepair` */
  function AircraftInRepair(fleet: seq<Types.Aircraft>): seq<Types.Aircraft>
  {
    Filter(InRepair, fleet)
  }

  /** The tracker lists, in fleet order, exactly the aircraft with errors or
      an active repair. */
  lemma AircraftInRepairSpec(fleet: seq<Types.Aircraft>)
    ensures IsSubsequence(AircraftInRepair(fleet), fleet)
    ensures forall a :: a in AircraftInRepair(fleet) <==> a in fleet && InRepair(a)
    ensures (forall a :: a in fleet ==> InRepair(a)) ==> AircraftInRepair(fleet) == fleet
  {
    FilterIsSubsequence(InRepair, fleet);
    FilterMembers(InRepair, fleet);
    if forall a :: a in fleet ==> InRepair(a) {
      FilterAll(InRepair, fleet);
    }
  }

  predicate IsScheduled(m: Types.Mission) { m.status == Types.Scheduled }

  /** `nextMission`: the first mission with status `Scheduled`, if any */
  function NextMission(a: Types.Aircraft): (r: Option<Types.Mission>)
    ensures r.None? <==> forall m :: m in a.missions ==> m.status != Types.Scheduled
    ensures r.Some? ==>
      && r.value.status == Types.Scheduled
      && exists i :: 0 <= i < |a.missions| && a.missions[i] == r.value &&
           forall j :: 0 <= j < i ==> a.missions[j].status != Types.Scheduled
  {
    Find(IsScheduled, a.missions)
  }

  /** `initialGroundTime`: the active repair's start, else the current time */
  function GroundTimeStart(a: Types.Aircraft, now: Types.Minutes): Types.Minutes
  {
    match a.currentRepair
    case Some(r) => r.startTime
    case None => now
  }

  /** The time on ground, measured from `initialGroundTime` to now: nothing
      for an aircraft listed only for its errors, and for one under repair
      the time since that repair started, never negative once it has. */
  lemma GroundTimeElapsed(a: Types.Aircraft, now: Types.Minutes)
    ensures a.currentRepair.None? ==> DurationBetween(GroundTimeStart(a, now), now) == Duration(0, 0)
    ensures a.currentRepair.Some? ==>
      var d := DurationBetween(GroundTimeStart(a, now), now);
      d.days * Types.MinutesPerDay + d.minutes == now - a.currentRepair.value.startTime
    ensures a.currentRepair.Some? && a.currentRepair.value.startTime <= now ==>
      var d := DurationBetween(GroundTimeStart(a, now), now);
      d.days >= 0 && 0 <= d.minutes < Types.MinutesPerDay
  {
  }

  /** `currentRepair.stage as RepairStage || 'Anomaly Detected'`: the repair's
      maintenance status read as a stage name, the default applying only to
      an empty string. */
  function CurrentStageOf(r: Types.Repair): string
  {
    var name := Types.StatusName(r.stage);
    if name == "" then StageName(AnomalyDetected) else name
  }

  /** Of all maintenance statuses only `Safe for Flight` names a repair
      stage. */
  lemma CurrentStageInEnumIff(r: Types.Repair)
    ensures CurrentStageOf(r) in StageNames <==> r.stage == Types.SafeForFlight
    ensures r.stage == Types.SafeForFlight ==> StageIndex(CurrentStageOf(r)) == Ordinal(SafeForFlight)
  {
    if r.stage == Types.SafeForFlight {
      StageIndexOfStage(SafeForFlight);
    }
  }

  /** The chevron row of a repair: all upcoming unless the repair's status is
      `Safe for Flight`, in which case six completed stages precede the
      current last one. */
  lemma RepairStatusRow(r: Types.Repair)
    ensures r.stage != Types.SafeForFlight ==>
      StatusRow(CurrentStageOf(r)) == Repeat(Upcoming, 7)
    ensures r.stage == Types.SafeForFlight ==>
      StatusRow(CurrentStageOf(r)) == Repeat(Completed, 6) + [Current]
  {
    CurrentStageInEnumIff(r);
    StatusRowShape(CurrentStageOf(r));
    if r.stage == Types.SafeForFlight {
      assert Repeat(Upcoming, 0) == [];
    }
  }

  /** The stage whose notes `ChevronProgress` shows: it starts as the
      repair's current stage and becomes whichever stage is clicked. */
  class StageSelection {
    var selectedStage: string

    constructor (currentStage: string)
      ensures selectedStage == currentStage
    {
      selectedStage := currentStage;
    }

    /** A click on a stage bubble */
    method Select(stage: RepairStage)
      modifies this
      ensures selectedStage == StageName(stage)
    {
      selectedStage := StageName(stage);
    }

    /** The heading of the notes panel */
    function NotesHeading(): string
      reads this
    {
      selectedStage + " Notes"
    }
  }
}
