/** The entities of the fleet dashboard. Every entity is a value: no view
    changes an aircraft, repair, mission or technician after it is created.
    Timestamps are whole minutes on one clock (ISO date strings in the
    program); fields the fixtures carry beyond the declared interfaces
    (`duration`, `date`, `repairs`, flight-hour counters) are included
    because the views read them. */
module Types {
  import opened Seqs

  /** A point in time, in whole minutes */
  type Minutes = int

  const MinutesPerDay: int := 24 * 60

  datatype MaintenanceStatus =
    | Operational
    | InMission
    | Diagnosing
    | FaultIsolating
    | PartsOnOrder
    | RepairInProgress
    | RepairComplete
    | SafeForFlight

  /** The string literal each status stands for */
  function StatusName(s: MaintenanceStatus): (name: string)
    ensures name != ""
  {
    match s
    case Operational => "Operational"
    case InMission => "In Mission"
    case Diagnosing => "Diagnosing"
    case FaultIsolating => "Fault Isolating"
    case PartsOnOrder => "Parts on Order"
    case RepairInProgress => "Repair in Progress"
    case RepairComplete => "Repair Complete"
    case SafeForFlight => "Safe for Flight"
  }

  datatype Severity = Critical | Warning | Normal

  datatype SystemError = SystemError(
    id: string,
    system: string,
    component: string,
    description: string,
    severity: Severity,
    reportedAt: Minutes,
    affectedSystems: seq<string>)

  datatype MissionStatus = Scheduled | InProgress | Completed | Cancelled

  datatype Priority = Low | Medium | High | CriticalPriority

  /** A mission; `startTime` and `duration` may be missing, as they are on
      an aircraft's `currentMission`. */
  datatype Mission = Mission(
    id: string,
    name: string,
    title: string,
    date: Minutes,
    duration: Option<int>,
    startTime: Option<Minutes>,
    endTime: Option<Minutes>,
    status: MissionStatus,
    priority: Option<Priority>,
    aircraftId: string)

  datatype Technician = Technician(
    id: string,
    name: string,
    specialties: seq<string>,
    available: bool,
    currentAssignment: Option<string>)

  /** `tech.available` */
  predicate IsAvailable(t: Technician) { t.available }

  /** `!tech.available` */
  predicate IsAssigned(t: Technician) { !t.available }

  datatype Part = Part(
    id: string,
    name: string,
    partNumber: string,
    inventory: int,
    onOrder: int,
    estimatedArrival: Option<Minutes>)

  /** An entry of a repair's `partsRequired` */
  datatype RequiredPart = RequiredPart(id: string, quantity: nat, name: string)

  datatype Repair = Repair(
    id: string,
    aircraftId: string,
    relatedErrorId: string,
    stage: MaintenanceStatus,
    startTime: Minutes,
    estimatedCompletionTime: Minutes,
    actualCompletionTime: Option<Minutes>,
    assignedTechnicians: seq<Technician>,
    partsRequired: seq<RequiredPart>,
    notes: string,
    status: string,
    description: string)

  datatype Aircraft = Aircraft(
    id: string,
    tailNumber: string,
    model: string,
    status: MaintenanceStatus,
    location: string,
    locationLat: real,
    locationLng: real,
    missionCapable: bool,
    lastMaintenance: Minutes,
    nextScheduledMaintenance: Minutes,
    errors: seq<SystemError>,
    currentRepair: Option<Repair>,
    missions: seq<Mission>,
    repairs: seq<Repair>,
    currentMission: Option<Mission>,
    flightHours: int,
    flightHoursUntilMaintenance: int,
    age: real)

  datatype WeatherForecast = WeatherForecast(
    time: Minutes,
    conditions: string,
    temperature: int,
    windSpeed: int,
    precipitation: int)

  datatype WeatherCondition = WeatherCondition(
    conditions: string,
    temperature: int,
    windSpeed: int,
    windDirection: string,
    humidity: int,
    visibility: real,
    ceiling: int,
    updatedAt: Minutes,
    forecast: seq<WeatherForecast>)
}
