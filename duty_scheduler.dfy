/**
 The hours-of-service day scheduler of the trip-planner view. The route
 distance becomes driving hours at 50 mph; each day drives at most 11 of
 the remaining hours and is laid out as four contiguous duty segments:
 on duty, driving, off duty up to hour 14, and sleeper from hour 14 to 24.
 The hours already used in the duty cycle are accepted and ignored.
 */
module DutyScheduler {

  const AverageSpeedMph: real := 50.0
  const MaxDrivingPerDay: real := 11.0
  const SleeperHours: real := 10.0
  const DayLength: real := 24.0
  /** Hour at which the sleeper period starts. */
  const SleeperStart: real := DayLength - SleeperHours

  datatype DutyStatus = OnDuty | Driving | OffDuty | Sleeper

  datatype Segment = Segment(start: real, end: real, status: DutyStatus)

  type Day = seq<Segment>

  function Min(a: real, b: real): real {
    if a <= b then a else b
  }

  function Duration(s: Segment): real {
    s.end - s.start
  }

  /** Hours of `day` spent in `status`. */
  function StatusHours(day: Day, status: DutyStatus): real {
    if day == [] then 0.0
    else StatusHours(day[..|day| - 1], status)
         + (if day[|day| - 1].status == status then Duration(day[|day| - 1]) else 0.0)
  }

  /** Hours of all of `days` spent in `status`. */
  function TotalStatusHours(days: seq<Day>, status: DutyStatus): real {
    if days == [] then 0.0
    else TotalStatusHours(days[..|days| - 1], status) + StatusHours(days[|days| - 1], status)
  }

  /**
   A day of the log: on duty, driving, off duty and sleeper, in that order,
   each ending where the next starts, from hour 0 to hour 24, none of
   negative length.
   */
  ghost predicate WellFormedDay(day: Day) {
    && |day| == 4
    && day[0].status == OnDuty && day[1].status == Driving
    && day[2].status == OffDuty && day[3].status == Sleeper
    && day[0].start == 0.0
    && day[0].end == day[1].start && day[1].end == day[2].start && day[2].end == day[3].start
    && day[3].end == DayLength
    && (forall i :: 0 <= i < 4 ==> day[i].start <= day[i].end)
  }

  /** Extending a day by one segment adds that segment's hours to its status. */
  lemma StatusHoursStep(day: Day, i: nat, status: DutyStatus)
    requires i < |day|
    ensures StatusHours(day[..i + 1], status)
         == StatusHours(day[..i], status) + (if day[i].status == status then Duration(day[i]) else 0.0)
  {
    assert day[..i + 1][..i] == day[..i];
  }

  /** In a well-formed day each status owns exactly one segment. */
  lemma StatusHoursOfDay(day: Day)
    requires WellFormedDay(day)
    ensures StatusHours(day, OnDuty) == Duration(day[0])
    ensures StatusHours(day, Driving) == Duration(day[1])
    ensures StatusHours(day, OffDuty) == Duration(day[2])
    ensures StatusHours(day, Sleeper) == Duration(day[3])
  {
    assert day[..0] == [] && day[..4] == day;
    StatusHoursOfPrefix(day, OnDuty);
    StatusHoursOfPrefix(day, Driving);
    StatusHoursOfPrefix(day, OffDuty);
    StatusHoursOfPrefix(day, Sleeper);
  }

  /** Sums the four segments of a day, one status at a time. */
  lemma StatusHoursOfPrefix(day: Day, status: DutyStatus)
    requires |day| == 4
    ensures StatusHours(day[..4], status)
         == StatusHours(day[..0], status)
          + (if day[0].status == status then Duration(day[0]) else 0.0)
          + (if day[1].status == status then Duration(day[1]) else 0.0)
          + (if day[2].status == status then Duration(day[2]) else 0.0)
          + (if day[3].status == status then Duration(day[3]) else 0.0)
  {
    StatusHoursStep(day, 0, status);
    StatusHoursStep(day, 1, status);
    StatusHoursStep(day, 2, status);
    StatusHoursStep(day, 3, status);
  }

  /**
   The segments of a well-formed day add up to the whole day, and its off-duty
   segment lasts what the day leaves after driving, on duty and sleeper.
   */
  lemma DayCoversTwentyFourHours(day: Day)
    requires WellFormedDay(day)
    ensures StatusHours(day, OnDuty) + StatusHours(day, Driving)
          + StatusHours(day, OffDuty) + StatusHours(day, Sleeper) == DayLength
    ensures day[3] == Segment(SleeperStart, DayLength, Sleeper) ==>
      StatusHours(day, OffDuty)
        == DayLength - (StatusHours(day, Driving) + StatusHours(day, OnDuty) + SleeperHours)
  {
    StatusHoursOfDay(day);
  }

  /** Driving hours still needed for a route of `distanceMiles`. */
  function DrivingHoursNeeded(distanceMiles: real): real {
    distanceMiles / AverageSpeedMph
  }

  /**
   The number of days the scheduler lays out for `hours` of driving:
   the least `n` with 11 * n >= hours, and none for no driving.
   */
  function DayCount(hours: real): (n: nat) {
    if hours <= 0.0 then 0 else -((-hours / MaxDrivingPerDay).Floor)
  }

  /** Day `k` exists exactly when the first `k` full days leave driving to do. */
  lemma DayCountBound(hours: real, k: nat)
    ensures k < DayCount(hours) <==> (k as real) * MaxDrivingPerDay < hours
  {
  }

  /**
   Day `k` of the schedule for `hours` of driving: it is entered with
   `hours - 11 * k` hours left, drives at most 11 of them, and has one
   hour on duty when it is the first day or the remaining hours fit in it.
   */
  function PlannedDay(hours: real, k: nat): (day: Day)
    requires k < DayCount(hours)
    ensures WellFormedDay(day)
    ensures 0.0 < StatusHours(day, Driving) <= MaxDrivingPerDay
    ensures day[3] == Segment(SleeperStart, DayLength, Sleeper)
  {
    DayCountBound(hours, k);
    var remaining := hours - (k as real) * MaxDrivingPerDay;
    var onDuty := if k == 0 || remaining <= MaxDrivingPerDay then 1.0 else 0.0;
    var driving := Min(MaxDrivingPerDay, remaining);
    var day := [ Segment(0.0, onDuty, OnDuty),
                 Segment(onDuty, onDuty + driving, Driving),
                 Segment(onDuty + driving, SleeperStart, OffDuty),
                 Segment(SleeperStart, DayLength, Sleeper) ];
    StatusHoursOfDay(day);
    day
  }

  /** The daily logs for a route of `distanceMiles`. */
  function DailyLogs(distanceMiles: real): (days: seq<Day>)
    ensures |days| == DayCount(DrivingHoursNeeded(distanceMiles))
    ensures days == [] <==> distanceMiles <= 0.0
    ensures forall k :: 0 <= k < |days| ==>
      && WellFormedDay(days[k])
      && 0.0 < StatusHours(days[k], Driving) <= MaxDrivingPerDay
      && days[k][3] == Segment(SleeperStart, DayLength, Sleeper)
  {
    var hours := DrivingHoursNeeded(distanceMiles);
    seq(DayCount(hours), k requires 0 <= k < DayCount(hours) => PlannedDay(hours, k))
  }

  /**
   Lays out the daily logs as the view does: while driving hours remain,
   emit one day and subtract what it drove. `cycleUsed` is accepted and
   has no effect on the result.
   */
  method GenerateDailyLogs(distanceMiles: real, cycleUsed: real) returns (days: seq<Day>)
    ensures days == DailyLogs(distanceMiles)
  {
    var hours := distanceMiles / AverageSpeedMph;
    var drivingHoursTotal := hours;
    days := [];
    while drivingHoursTotal > 0.0
      invariant |days| <= DayCount(hours)
      invariant |days| < DayCount(hours) ==>
        drivingHoursTotal == hours - (|days| as real) * MaxDrivingPerDay
      invariant |days| == DayCount(hours) ==> drivingHoursTotal <= 0.0
      invariant forall k :: 0 <= k < |days| ==> days[k] == PlannedDay(hours, k)
      decreases DayCount(hours) - |days|
    {
      var onDuty := if |days| == 0 || drivingHoursTotal <= MaxDrivingPerDay then 1.0 else 0.0;
      var driving := Min(MaxDrivingPerDay, drivingHoursTotal);
      var dayHours := [];
      dayHours := dayHours + [Segment(0.0, onDuty, OnDuty)];
      dayHours := dayHours + [Segment(onDuty, onDuty + driving, Driving)];
      dayHours := dayHours + [Segment(onDuty + driving, DayLength - SleeperHours, OffDuty)];
      dayHours := dayHours + [Segment(DayLength - SleeperHours, DayLength, Sleeper)];
      DayCountBound(hours, |days| + 1);
      days := days + [dayHours];
      drivingHoursTotal := drivingHoursTotal - driving;
    }
    DayCountBound(hours, |days|);
  }

  /** The days together drive exactly the hours the route needs. */
  lemma {:induction false} TotalDrivingMatchesDistance(distanceMiles: real)
    ensures TotalStatusHours(DailyLogs(distanceMiles), Driving)
         == if distanceMiles <= 0.0 then 0.0 else DrivingHoursNeeded(distanceMiles)
  {
    var days := DailyLogs(distanceMiles);
    DrivingPrefix(distanceMiles, |days|);
    assert days[..|days|] == days;
  }

  /** The first `m` days drive 11 hours each, unless they are all the days. */
  lemma {:induction false} DrivingPrefix(distanceMiles: real, m: nat)
    requires m <= |DailyLogs(distanceMiles)|
    ensures TotalStatusHours(DailyLogs(distanceMiles)[..m], Driving)
         == if m < |DailyLogs(distanceMiles)| then (m as real) * MaxDrivingPerDay
            else if m == 0 then 0.0
            else DrivingHoursNeeded(distanceMiles)
  {
    var days := DailyLogs(distanceMiles);
    var hours := DrivingHoursNeeded(distanceMiles);
    if m > 0 {
      DrivingPrefix(distanceMiles, m - 1);
      assert days[..m][..m - 1] == days[..m - 1];
      DayCountBound(hours, m - 1);
      DayCountBound(hours, m);
      StatusHoursOfDay(days[m - 1]);
    }
  }

  /** The days laid out are the fewest that fit the driving at 11 hours a day. */
  lemma DayCountIsLeast(distanceMiles: real, n: nat)
    ensures (n as real) * MaxDrivingPerDay >= DrivingHoursNeeded(distanceMiles)
        <==> n >= |DailyLogs(distanceMiles)|
  {
  }

  /** Only the first and the last day carry the hour on duty. */
  lemma OnDutyOnFirstAndLastDay(distanceMiles: real, k: nat)
    requires k < |DailyLogs(distanceMiles)|
    ensures StatusHours(DailyLogs(distanceMiles)[k], OnDuty)
         == if k == 0 || k == |DailyLogs(distanceMiles)| - 1 then 1.0 else 0.0
  {
    var hours := DrivingHoursNeeded(distanceMiles);
    DayCountBound(hours, k + 1);
    StatusHoursOfDay(DailyLogs(distanceMiles)[k]);
  }

  /** 400 miles: eight hours of driving fit in one day. */
  lemma OneDayTrip()
    ensures DailyLogs(400.0) == [
      [ Segment(0.0, 1.0, OnDuty), Segment(1.0, 9.0, Driving),
        Segment(9.0, 14.0, OffDuty), Segment(14.0, 24.0, Sleeper) ] ]
  {
  }

  /** 1200 miles: 24 hours of driving take 11, 11 and 2 hours over three days. */
  lemma ThreeDayTrip()
    ensures DailyLogs(1200.0) == [
      [ Segment(0.0, 1.0, OnDuty), Segment(1.0, 12.0, Driving),
        Segment(12.0, 14.0, OffDuty), Segment(14.0, 24.0, Sleeper) ],
      [ Segment(0.0, 0.0, OnDuty), Segment(0.0, 11.0, Driving),
        Segment(11.0, 14.0, OffDuty), Segment(14.0, 24.0, Sleeper) ],
      [ Segment(0.0, 1.0, OnDuty), Segment(1.0, 3.0, Driving),
        Segment(3.0, 14.0, OffDuty), Segment(14.0, 24.0, Sleeper) ] ]
  {
  }
}
