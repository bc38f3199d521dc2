/** The reports page: the date-range filter over missions, the four summary
    figures and the rows of the mission-duration chart. "Now" and the
    instant one calendar month before it are parameters. */
module Reports {
  import opened Seqs
  import opened Js
  import opened Types

  /** The values of the date-range `<select>` */
  datatype DateRange = AllTime | LastMonth | LastWeek

  /** The instant a mission is dated by: its start, or "now" when it has none */
  function MissionDate(m: Mission, now: Minutes): Minutes
  {
    m.startTime.GetOr(now)
  }

  /** Seven calendar days before `now` */
  function WeekCutoff(now: Minutes): Minutes
  {
    now - 7 * MinutesPerDay
  }

  /** The test `filteredMissions` applies to one mission */
  predicate InRange(m: Mission, range: DateRange, now: Minutes, monthCutoff: Minutes)
  {
    match range
    case LastMonth => MissionDate(m, now) >= monthCutoff
    case LastWeek => MissionDate(m, now) >= WeekCutoff(now)
    case AllTime => true
  }

  /** `filteredMissions` */
  function FilteredMissions(missions: seq<Mission>, range: DateRange, now: Minutes, monthCutoff: Minutes): seq<Mission>
  {
    Filter(m => InRange(m, range, now, monthCutoff), missions)
  }

  /** `all` keeps every mission; every range keeps an order-preserving
      subsequence holding exactly the missions whose date passes the test. */
  lemma FilteredMissionsSpec(missions: seq<Mission>, range: DateRange, now: Minutes, monthCutoff: Minutes)
    ensures FilteredMissions(missions, AllTime, now, monthCutoff) == missions
    ensures IsSubsequence(FilteredMissions(missions, range, now, monthCutoff), missions)
    ensures forall m :: m in FilteredMissions(missions, range, now, monthCutoff) <==>
      m in missions && InRange(m, range, now, monthCutoff)
  {
    FilterAll(m => InRange(m, AllTime, now, monthCutoff), missions);
    FilterIsSubsequence(m => InRange(m, range, now, monthCutoff), missions);
    FilterMembers(m => InRange(m, range, now, monthCutoff), missions);
  }

  /** `lastWeek` keeps exactly the missions dated no earlier than seven days
      before now; `lastMonth` those dated no earlier than the month cutoff. */
  lemma RangeCutoffs(missions: seq<Mission>, now: Minutes, monthCutoff: Minutes)
    ensures forall m :: m in FilteredMissions(missions, LastWeek, now, monthCutoff) <==>
      m in missions && MissionDate(m, now) >= now - 7 * 24 * 60
    ensures forall m :: m in FilteredMissions(missions, LastMonth, now, monthCutoff) <==>
      m in missions && MissionDate(m, now) >= monthCutoff
  {
    FilterMembers(m => InRange(m, LastWeek, now, monthCutoff), missions);
    FilterMembers(m => InRange(m, LastMonth, now, monthCutoff), missions);
  }

  /** A mission without a start is dated "now" and passes every range. */
  lemma UndatedMissionKept(missions: seq<Mission>, m: Mission, range: DateRange, now: Minutes, monthCutoff: Minutes)
    requires m in missions && m.startTime.None?
    requires monthCutoff <= now
    ensures m in FilteredMissions(missions, range, now, monthCutoff)
  {
    FilterKeeps(m => InRange(m, range, now, monthCutoff), missions, m);
  }

  /** Since a month reaches back at least 28 days, selecting the last week
      within the last month's result is selecting the last week. */
  lemma WeekWithinMonth(missions: seq<Mission>, now: Minutes, monthCutoff: Minutes)
    requires monthCutoff <= now - 28 * MinutesPerDay
    ensures FilteredMissions(FilteredMissions(missions, LastMonth, now, monthCutoff), LastWeek, now, monthCutoff)
         == FilteredMissions(missions, LastWeek, now, monthCutoff)
    ensures |FilteredMissions(missions, LastWeek, now, monthCutoff)| <= |FilteredMissions(missions, LastMonth, now, monthCutoff)|
  {
    FilterFilter(m => InRange(m, LastWeek, now, monthCutoff), m => InRange(m, LastMonth, now, monthCutoff),
                 m => InRange(m, LastWeek, now, monthCutoff), missions);
  }

  /** `mission.duration || 0` */
  function DurationOrZero(m: Mission): int
  {
    m.duration.GetOr(0)
  }

  /** The `reduce` over the filtered missions' durations */
  function TotalDuration(missions: seq<Mission>): int
  {
    if missions == [] then 0 else TotalDuration(missions[..|missions| - 1]) + DurationOrZero(missions[|missions| - 1])
  }

  /** With every duration between `lo` and `hi`, the total lies between
      `n * lo` and `n * hi`. */
  lemma {:induction false} TotalDurationBounds(missions: seq<Mission>, lo: int, hi: int)
    requires forall m :: m in missions ==> lo <= DurationOrZero(m) <= hi
    ensures |missions| * lo <= TotalDuration(missions) <= |missions| * hi
  {
    if missions != [] {
      var init := missions[..|missions| - 1];
      var last := missions[|missions| - 1];
      assert forall m :: m in init ==> m in missions;
      TotalDurationBounds(init, lo, hi);
      assert last in missions;
      MulSucc(|init|, lo);
      MulSucc(|init|, hi);
    }
  }

  /** `averageMissionDuration` */
  function AverageMissionDuration(missions: seq<Mission>): JsNumber
  {
    OrZero(Divide(TotalDuration(missions) as real, |missions| as real))
  }

  /** The average is always a number: 0 when no mission passes (where the
      division gives NaN), and otherwise the mean of the durations. */
  lemma AverageMissionDurationSpec(missions: seq<Mission>)
    ensures AverageMissionDuration(missions).Finite?
    ensures missions == [] ==> AverageMissionDuration(missions) == Finite(0.0)
    ensures missions != [] ==>
      AverageMissionDuration(missions).value * |missions| as real == TotalDuration(missions) as real
  {
  }

  /** The mean lies between the smallest and the largest duration. */
  lemma AverageWithinBounds(missions: seq<Mission>, lo: int, hi: int)
    requires missions != []
    requires forall m :: m in missions ==> lo <= DurationOrZero(m) <= hi
    ensures lo as real <= AverageMissionDuration(missions).value <= hi as real
  {
    TotalDurationBounds(missions, lo, hi);
    AverageMissionDurationSpec(missions);
    MeanOfBounded(TotalDuration(missions), |missions|, AverageMissionDuration(missions).value, lo, hi);
  }

  /** The mean of `c` integers whose sum lies between `c * lo` and `c * hi`
      lies between `lo` and `hi`. */
  lemma MeanOfBounded(total: int, c: nat, mean: real, lo: int, hi: int)
    requires c > 0 && mean * c as real == total as real
    requires c * lo <= total <= c * hi
    ensures lo as real <= mean <= hi as real
  {
    MulAsReal(lo, c);
    MulAsReal(hi, c);
    MeanBetween(total as real, c as real, mean, lo as real, hi as real);
  }

  /** A quotient by a positive count lies between the bounds the dividend
      was scaled from. */
  lemma MeanBetween(total: real, n: real, mean: real, lo: real, hi: real)
    requires n > 0.0 && mean * n == total
    requires lo * n <= total <= hi * n
    ensures lo <= mean <= hi
  {
    ScaleCancels(lo, mean, n);
    ScaleCancels(mean, hi, n);
  }

  /** Multiplying by a positive factor preserves the order. */
  lemma ScaleCancels(a: real, b: real, n: real)
    requires n > 0.0 && a * n <= b * n
    ensures a <= b
  {
  }

  /** Integer products carry over to the reals. */
  lemma MulAsReal(a: int, b: int)
    ensures (b * a) as real == a as real * b as real
  {
  }

  /** `personnelUtilization`: there is no guard for an empty list. */
  function PersonnelUtilization(technicians: seq<Technician>): JsNumber
  {
    Scale(Divide(|Filter(IsAssigned, technicians)| as real, |technicians| as real), 100.0)
  }

  /** There is no guard for an empty list: `0 / 0` gives NaN. */
  lemma PersonnelUtilizationEmpty()
    ensures PersonnelUtilization([]) == NaN
  {
  }

  /** For a non-empty list the figure is the percentage of technicians who
      are not available, between 0 and 100. */
  lemma PersonnelUtilizationSpec(technicians: seq<Technician>)
    requires technicians != []
    ensures PersonnelUtilization(technicians).Finite?
    ensures PersonnelUtilization(technicians).value * |technicians| as real
         == 100.0 * |Filter(IsAssigned, technicians)| as real
    ensures 0.0 <= PersonnelUtilization(technicians).value <= 100.0
  {
    Percentage(|Filter(IsAssigned, technicians)| as real, |technicians| as real, PersonnelUtilization(technicians));
  }

  /** `k / n * 100` for `0 <= k <= n`, `n > 0` */
  lemma Percentage(k: real, n: real, u: JsNumber)
    requires 0.0 <= k <= n && n > 0.0
    requires u == Scale(Divide(k, n), 100.0)
    ensures u.Finite?
    ensures u.value * n == 100.0 * k
    ensures 0.0 <= u.value <= 100.0
  {
    var q := Divide(k, n).value;
    assert q * n == k;
  }

  /** The x value of a chart row: a day, or `TBD` when there is no start */
  datatype ChartDate = Day(at: Minutes) | TBD

  datatype ChartRow = ChartRow(date: ChartDate, duration: int)

  function ChartRowOf(m: Mission): ChartRow
  {
    ChartRow(if m.startTime.Some? then Day(m.startTime.value) else TBD, DurationOrZero(m))
  }

  /** `missionData` */
  function MissionData(missions: seq<Mission>): seq<ChartRow>
  {
    seq(|missions|, i requires 0 <= i < |missions| => ChartRowOf(missions[i]))
  }

  /** The plotted durations, added up */
  function RowsDuration(rows: seq<ChartRow>): int
  {
    if rows == [] then 0 else RowsDuration(rows[..|rows| - 1]) + rows[|rows| - 1].duration
  }

  /** One row per mission in order; `TBD` exactly for missions without a
      start; each row plots its own mission's duration, a missing one as 0,
      so the rows add up to the total the average is taken from. */
  lemma {:induction false} MissionDataSpec(missions: seq<Mission>)
    ensures |MissionData(missions)| == |missions|
    ensures forall i :: 0 <= i < |missions| ==>
      (MissionData(missions)[i].date == TBD <==> missions[i].startTime.None?)
    ensures forall i :: 0 <= i < |missions| && missions[i].startTime.Some? ==>
      MissionData(missions)[i].date == Day(missions[i].startTime.value)
    ensures forall i :: 0 <= i < |missions| ==> MissionData(missions)[i].duration == DurationOrZero(missions[i])
    ensures forall i :: 0 <= i < |missions| && missions[i].duration.None? ==> MissionData(missions)[i].duration == 0
    ensures RowsDuration(MissionData(missions)) == TotalDuration(missions)
  {
    if missions != [] {
      var init := missions[..|missions| - 1];
      MissionDataSpec(init);
      assert MissionData(missions)[..|missions| - 1] == MissionData(init);
    }
  }

  /** The four figures of the summary cards */
  datatype ReportSummary = ReportSummary(
    totalMissions: nat,
    totalRepairs: nat,
    averageMissionDuration: JsNumber,
    personnelUtilization: JsNumber)

  function Summary(missions: seq<Mission>, repairs: seq<Repair>, technicians: seq<Technician>,
                   range: DateRange, now: Minutes, monthCutoff: Minutes): (s: ReportSummary)
    ensures s.totalMissions == |FilteredMissions(missions, range, now, monthCutoff)|
    ensures s.averageMissionDuration == AverageMissionDuration(FilteredMissions(missions, range, now, monthCutoff))
    ensures s.personnelUtilization == PersonnelUtilization(technicians)
    ensures s.totalRepairs == |repairs|
    ensures s.totalMissions <= |missions|
    ensures s.averageMissionDuration != NaN
  {
    var filtered := FilteredMissions(missions, range, now, monthCutoff);
    ReportSummary(|filtered|, |repairs|, AverageMissionDuration(filtered), PersonnelUtilization(technicians))
  }

  /** Repairs and utilisation do not depend on the date range. */
  lemma SummaryIgnoresRangeForRepairs(missions: seq<Mission>, repairs: seq<Repair>, technicians: seq<Technician>,
                                      r1: DateRange, r2: DateRange, now: Minutes, monthCutoff: Minutes)
    ensures Summary(missions, repairs, technicians, r1, now, monthCutoff).totalRepairs
         == Summary(missions, repairs, technicians, r2, now, monthCutoff).totalRepairs
    ensures Summary(missions, repairs, technicians, r1, now, monthCutoff).personnelUtilization
         == Summary(missions, repairs, technicians, r2, now, monthCutoff).personnelUtilization
  {
  }

  /** The page's state: its props and the `dateRange` hook. */
  class ReportsView {
    const missions: seq<Mission>
    const repairs: seq<Repair>
    const technicians: seq<Technician>
    var dateRange: DateRange

    constructor (missions: seq<Mission>, repairs: seq<Repair>, technicians: seq<Technician>)
      ensures this.missions == missions && this.repairs == repairs && this.technicians == technicians
      ensures dateRange == AllTime
    {
      this.missions := missions;
      this.repairs := repairs;
      this.technicians := technicians;
      dateRange := AllTime;
    }

    /** The select's change handler */
    method SetDateRange(range: DateRange)
      modifies this
      ensures dateRange == range
    {
      dateRange := range;
    }

    function Cards(now: Minutes, monthCutoff: Minutes): ReportSummary
      reads this
    {
      Summary(missions, repairs, technicians, dateRange, now, monthCutoff)
    }

    function Chart(now: Minutes, monthCutoff: Minutes): seq<ChartRow>
      reads this
    {
      MissionData(FilteredMissions(missions, dateRange, now, monthCutoff))
    }
  }

  /** On a fresh page (range `all`) the cards count every mission and the
      chart has a row for each. */
  method FreshReport(missions: seq<Mission>, repairs: seq<Repair>, technicians: seq<Technician>,
                     now: Minutes, monthCutoff: Minutes) returns (cards: ReportSummary, chart: seq<ChartRow>)
    ensures cards.totalMissions == |missions| && cards.totalRepairs == |repairs|
    ensures |chart| == |missions|
  {
    var view := new ReportsView(missions, repairs, technicians);
    FilteredMissionsSpec(missions, AllTime, now, monthCutoff);
    MissionDataSpec(missions);
    cards := view.Cards(now, monthCutoff);
    chart := view.Chart(now, monthCutoff);
  }
}
