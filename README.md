# Trip planner: stop planning and hours-of-service day scheduling

This project models the two planning helpers of the trip-planner view of a
truck-trip planning service (`TripPlannerView` in `api/views.py`) and proves
their behaviour.

- **Stop planner** (`_calculate_stops`, module `StopPlanner`, file
  `stop_planner.dfy`). It takes the three geocoded `[lng, lat]` waypoints
  (current location, pickup, dropoff) and the route distance in miles. It
  emits a pickup stop at the pickup waypoint, then a dropoff stop at the
  dropoff waypoint. Then it emits one fuel stop per full 1000 miles, labelled
  "Fuel Stop 1", "Fuel Stop 2", and so on, all at the pickup position.
  `CalculateStops` builds the list with the source's loop.
- **Day scheduler** (`_generate_daily_logs`, module `DutyScheduler`, file
  `duty_scheduler.dfy`). It converts the distance to driving hours at 50 mph.
  While driving hours remain, it emits one day that drives `min(11, remaining)`
  hours. Each day has four segments: OnDuty `[0, on_duty]`, Driving
  `[on_duty, on_duty + driving]`, OffDuty `[on_duty + driving, 14]` and
  Sleeper `[14, 24]`. `on_duty` is 1 on the first day and on any day entered
  with at most 11 hours left; otherwise it is 0. `GenerateDailyLogs` runs the
  source's `while` loop. It is proved equal to `DailyLogs`, a closed form of
  the schedule: day `k` is entered with `hours - 11k` hours left, and there
  are `DayCount(hours)` days, the least `n` with `11n >= hours`.
  `DailyLogs` takes no cycle-hours argument, so the schedule cannot depend
  on the cycle hours already used.
- **Decimal labels** (module `Decimal`, file `decimal.dfy`). This module
  renders the fuel-stop number the way `f"{i+1}"` does. It also proves that
  the rendering parses back, so no two fuel stops share a label.

Distances and hours are exact `real`s. Fuel-stop counts and day counts are
`nat`s.

The code is followed where it differs from the written design of the
scheduler. The design describes a later revision: a 70-hour cycle budget
that can empty or truncate the schedule, an OnDuty segment only on the first
day, and OffDuty and zero-length OnDuty segments left out. The code in
`api/views.py:102-117` has none of that. It ignores `cycle_used`. It always
emits all four segments, so a middle day starts with a zero-length OnDuty
segment `[0, 0]`. It also puts the on-duty hour on the last day, because
that day is entered with at most 11 hours left. `ThreeDayTrip` shows this:
1200 miles give days of 11, 11 and 2 driving hours, and both the first and
the third day have one hour on duty.

## Model

| member | source | states |
|---|---|---|
| `StopPlanner.CalculateStops` | api/views.py:86-100 | The list has `2 + FuelStopCount(distance)` stops. The first is the "pickup" stop "Pickup Location" at lat `coords[1][1]`, lng `coords[1][0]`. The second is the "dropoff" stop "Dropoff Location" at `coords[2]`. Every later stop `i` is a "fuel" stop named "Fuel Stop i-1" (1-based among fuel stops) at the pickup position. |
| `StopPlanner.FuelStopCount` | api/views.py:92-93 | For a non-negative distance the count `n` satisfies `1000n <= distance < 1000(n+1)`, so it is `floor(distance / 1000)`. It is 0 below 1000 miles, and for a negative distance the range is empty. |
| `StopPlanner.FuelStopNamesDistinct` | api/views.py:93-96 | Two different fuel-stop numbers give two different labels. |
| `Decimal.NatToString` | api/views.py:96 | The rendering of a number is a non-empty string of decimal digits. It has no leading zero unless the number is 0. |
| `Decimal.ParseNatToString` | api/views.py:96 | Parsing the decimal rendering of `n` gives back `n`. |
| `Decimal.NatToStringInjective` | api/views.py:96 | Equal renderings come from equal numbers. |
| `DutyScheduler.GenerateDailyLogs` | api/views.py:102-117 | The `while` loop returns exactly `DailyLogs(distance)`, the closed-form schedule. That function does not take `cycleUsed`, so the output never depends on it. |
| `DutyScheduler.DailyLogs` | api/views.py:104-117 | There are `DayCount(distance / 50)` days. The list is empty exactly when the distance is at most 0. Every day is well formed: OnDuty, Driving, OffDuty, Sleeper in that order, contiguous from 0 to 24, and no segment has negative length. Every day drives more than 0 and at most 11 hours. Every day's Sleeper segment is `[14, 24]`. |
| `DutyScheduler.PlannedDay` | api/views.py:107-114 | Day `k`, which exists when `11k < hours`, is well formed. It drives more than 0 and at most 11 hours, and its Sleeper segment is `[14, 24]`. |
| `DutyScheduler.DayCountBound` | api/views.py:106-116 | Day `k` is emitted exactly when `11k` is less than the driving hours, that is, exactly when driving hours remain after `k` full days. |
| `DutyScheduler.DayCountIsLeast` | api/views.py:106-116 | The number of days is the least `n` with `11n >= distance / 50`. |
| `DutyScheduler.TotalDrivingMatchesDistance` | api/views.py:104-116 | The days' driving hours add up to `distance / 50` for a positive distance, and to 0 otherwise. |
| `DutyScheduler.DrivingPrefix` | api/views.py:106-116 | Every day but the last drives a full 11 hours. The first `m` days drive `11m` hours, and all the days together drive the whole requirement. |
| `DutyScheduler.OnDutyOnFirstAndLastDay` | api/views.py:108 | A day has one on-duty hour exactly when it is the first or the last day. Every other day has zero on-duty hours. |
| `DutyScheduler.StatusHoursOfDay` | api/views.py:111-114 | In a well-formed day each duty status is exactly the length of its one segment. |
| `DutyScheduler.DayCoversTwentyFourHours` | api/views.py:110-114 | The four statuses of a well-formed day add up to 24 hours. With the Sleeper segment at `[14, 24]`, the OffDuty hours equal the unused `off_duty` value, `24 - (driving + on_duty + 10)`. |
| `DutyScheduler.OneDayTrip` | api/views.py:102-117 | 400 miles give one day: OnDuty `[0,1]`, Driving `[1,9]`, OffDuty `[9,14]`, Sleeper `[14,24]`. |
| `DutyScheduler.ThreeDayTrip` | api/views.py:102-117 | 1200 miles give three days that drive 11, 11 and 2 hours. Their on-duty hours are 1, 0 and 1. |

## Left out

- Request handling in `TripPlannerView.post` (api/views.py:13-75) is not modelled. This covers input validation, the error responses and HTTP status codes. It is web plumbing. The 0–70 check on the cycle hours (api/views.py:23) is not even a precondition, because the scheduler ignores the value.
- Geocoding (`_geocode_locations`, api/views.py:77-84) and the route-distance request (api/views.py:27-36) are network I/O against an external service. The distance and the waypoints are parameters instead.
- The kilometre-to-mile conversion and its `round(..., 2)` (api/views.py:33-34) are floating-point arithmetic. `distanceMiles` is taken as an exact real.
- Floating point in the scheduler is not modelled. `distance / 50` and the repeated `driving_hours_total -= driving` are exact real arithmetic here. In binary floating point the remaining hours can pick up rounding error, and that could change a `<= 11` comparison or add a tiny extra day. The model does not capture this.
- Storing the trip, its stops and its logs, and stamping each day with `today + idx` (api/views.py:45-72), are ORM and clock side effects.
- api/models.py and api/serializers.py are declarative schema and field lists with no logic.
- Stops and segments are records with a kind or status datatype. The source uses dictionaries with string keys: the stop types "pickup", "dropoff" and "fuel", and the statuses "OnDuty", "Driving", "OffDuty" and "Sleeper".
