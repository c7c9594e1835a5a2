# Bus requirement engine

A Dafny model of the allocation core of the Bus Requirement Calculator (`app.py`). The calculator estimates how many shuttle buses are in use at each moment, as a 5-minute series, to move passengers between the international terminal gates and the remote stands. The series is given per flow category (arrivals, departures, and optionally domestic), with a total and its peak.

For each flight row the engine computes three values:

- `Trips_Needed`, which is ceil(PAX / 60);
- `max_trips`, which is TimeFrame // Transit Time;
- `buses_needed_per_flight`, which is ceil(Trips_Needed / max_trips).

Each category is a series over a shared time grid. The grid starts at midnight of the earliest arrival gate start and ends at 23:55 of the day of the latest arrival gate end. Each series starts at zero. Every flight then adds its buses to the grid slots of the closed window [anchor, anchor + time frame]. The anchor is the gate start for arrivals and domestic flights and the gate end for departures. When the trip count is odd, one of the buses runs only for the first half of the window. The three series are added slot by slot, and the peak is the largest total.

Modules, one per component:

- `Wrappers` (wrappers.dfy): Option and Result.
- `FlightNumbers` (flight_numbers.dfy): `insert_zeros`, the flight-number padding.
- `Profiles` (profiles.dfy): the constants, the trips, max-trips and buses formulas, and `Contribution`. `Contribution` is the step function one flight adds to its category. It is stated directly as "every bus over the window, one fewer after the midpoint when the trip count is odd".
- `Timeline` (timeline.dfy): grid construction, and `SliceBounds`, the positional range that a pandas label slice `loc[a:b]` selects on the grid.
- `Aggregation` (aggregation.dfy): the overlay loops, written as a method over an `array<int>`. The array starts at zero and gets one flight added per loop iteration. Each label slice `+=` is one aggregate `forall` update. The method is proved to produce, at every slot, the sum of `Contribution` over the rows. Lemmas about that sum cover concatenation, order independence and bounds.
- `Composition` (composition.dfy): the total, the peak, and `RunEngine`, the whole run from rows to report.

Units:

- Times are integer seconds since the epoch, so the 22.5-minute half window (1350 s) and the 7.5-minute domestic half window (450 s) are exact.
- Transit times are in tenths of a minute (21.7 minutes is 217).
- Passenger counts are natural numbers.

Inputs and constants:

- The rows come in already selected and already merged with the passenger table.
- A time that did not parse (NaT) is `None`, and so is an unmatched PAX.
- The domestic sheet is passed as `Option<seq<Flight>>`. `None` stands for a sheet whose loading raised, which the `except` branch turns into an all-zero series. The "Include Domestic" checkbox is a boolean parameter.
- The constants are those of app.py:10-13 and app.py:62: a bus capacity of 60; time frames of 45 minutes for arrivals and departures and 15 minutes for domestic; and a 21.7-minute transit time for international rows.

What app.py does at the edges of its input, and how the model treats it:

- The grid is built from the arrival rows only (app.py:85-86). Departure and domestic windows are cut to that grid at both ends: the parts before the first arrival day's midnight and the parts after the last arrival day's 23:55 add nothing. A window wholly outside the grid adds nothing at all (`Aggregation.DemandOutsideWindow`).
- The label slice `loc[a:b]` selects exactly the grid points t with a <= t <= b, whether or not a and b fall on the grid (`Timeline.SliceBounds`).
- A row whose PAX is unmatched gets NaN for Trips_Needed and buses_needed_per_flight (app.py:78, 83). `NaN % 2 == 1` is false, so app.py:97 adds NaN over the row's window. `sum(axis=1)` and `max()` (app.py:145, 148) skip NaN. The run therefore reports a finite total and peak in which that category's whole demand over the row's 45-minute window is silently missing. The model does not reproduce this under-count: it requires every row to be `Ready` (`Profiles.Ready`).
- A row whose transit time exceeds the time frame gets max_trips = 0 (app.py:82). If it has trips, its buses are infinite. When its window meets the grid, the total becomes infinite and `int()` fails at app.py:148; when the window lies wholly off the grid, no slot changes and the run succeeds. If it has zero trips, its buses are NaN and are skipped as above.
- A row whose transit time is 0 gets max_trips = inf (pandas floor division by zero, app.py:82 and 126), so its buses are ceil(trips/inf) = 0 (app.py:83, 127). With an odd trip count, the overlay adds -1 over the whole window and +1 back over its first half (app.py:132-133). The series therefore drops by one bus on the second half of the window, and the run reports a finite, lowered peak. Only a domestic row can have such a transit time, since every international row has 21.7 minutes.
- A negative transit time gives a negative max_trips, and so a bus count of zero or below that is added into the series the same way.
- `Profiles.Ready` excludes all these rows.
- When no arrival row has a parsed gate start, or no arrival row has a parsed gate end, the minimum or the maximum is NaT, `date_range` cannot be built, and the run fails (`MissingGateTimes`, `Timeline.BuildGridError`). With an empty grid, the maximum of the empty total is NaN and `int()` fails (`EmptyGrid`).
- The peak is `int()` of the maximum. On this model's integer counts `int()` is the identity.
- `Timestamp.replace(hour=23, minute=55)` keeps the seconds of the latest gate end. The model keeps them too (`Timeline.AtLastSlot`). They do not change the grid points.

## Model

| member | source | states |
|---|---|---|
| `FlightNumbers.InsertZeros` | app.py:41-47 | a text of length 3 or 4 becomes length 5: its first two characters, then zeros, then its remaining characters; any other text and any non-text cell is returned unchanged |
| `FlightNumbers.InsertZerosIdempotent` | app.py:41-47 | padding an already padded flight number changes nothing |
| `FlightNumbers.InsertZerosExample` | app.py:41-47 | "AB1" and "AB01" both become "AB001"; a 5-character number is kept |
| `Profiles.Trips` | app.py:78 | trips is ceil(PAX/60): trips*60 >= PAX, (trips-1)*60 < PAX, and zero trips exactly for zero passengers |
| `Profiles.MaxTrips` | app.py:82 | max_trips is the floor of time frame / transit time: max_trips*transit <= time frame < (max_trips+1)*transit, and max_trips >= 1 exactly when the transit fits in the time frame |
| `Profiles.Buses` | app.py:83 | buses is ceil(trips/max_trips): buses*max_trips >= trips, (buses-1)*max_trips < trips, and zero buses exactly for zero trips |
| `Profiles.BuildProfile` | app.py:77-83 | a ready row's profile is anchored at its category's gate event, and an odd trip count comes with at least one bus |
| `Profiles.BuildProfileCapacity` | app.py:78-83 | a ready row's trips carry all its passengers with no trip to spare; at least one transit fits in the time frame; its buses clear all its trips within the time frame with no bus to spare |
| `Profiles.ProfilesOf` | app.py:77-83 | the derived columns are computed row by row, one profile per row, each well formed |
| `Profiles.ContributionEven` | app.py:96-97 | with an even trip count, `Contribution` (the step function of app.py:93-97) adds exactly its buses at every t with anchor <= t <= anchor+rollover and nothing elsewhere |
| `Profiles.ContributionOdd` | app.py:93-95 | with an odd trip count `Contribution` adds its buses on [anchor, anchor+rollover/2], one bus fewer on (anchor+rollover/2, anchor+rollover], nothing elsewhere |
| `Profiles.ContributionBounds` | app.py:93-97 | a well-formed flight adds between 0 and its own buses at every time (buses-1 >= 0 for odd trip counts) |
| `Profiles.InternationalMaxTrips` | app.py:82 | 45 // 21.7 is 2 for arrivals and for departures |
| `Profiles.ScenarioOddArrival` | app.py:90-97 | an arrival of 121 passengers needs 3 trips and 2 buses: 2 buses after 20 minutes, 1 after 25 and at 45 minutes, none after 50 |
| `Timeline.FloorDay` | app.py:85 | floor("D") gives a midnight no later than t and less than a day before it, on t's day |
| `Timeline.AtLastSlot` | app.py:86 | replace(hour=23, minute=55) stays on t's day, is 23:55 of it once the seconds are dropped, and keeps t's seconds |
| `Timeline.DateRange` | app.py:87 | the 5-minute range starts at start and holds exactly the points start+300k that are not after end |
| `Timeline.MinPresent` | app.py:85 | the minimum skips missing times: none exactly when all are missing, otherwise a present value no greater than any present value |
| `Timeline.MaxPresent` | app.py:86 | the maximum skips missing times: none exactly when all are missing, otherwise a present value no smaller than any present value |
| `Timeline.BuildGridError` | app.py:85-87 | `BuildGrid` (the grid of app.py:85-87) fails exactly when no arrival gate start parsed or no arrival gate end parsed |
| `Timeline.BuildGridStart` | app.py:85 | the grid starts at a midnight, not after any arrival gate start, on the day of one of them |
| `Timeline.BuildGridEnd` | app.py:86-87 | the grid is empty exactly when the latest gate end's day precedes the earliest gate start's day; otherwise it holds 288 slots per day and its last point is 23:55 of the latest gate end's day |
| `Timeline.SliceBounds` | app.py:94 | the label slice loc[lo:hi] selects exactly the grid slots whose time t has lo <= t <= hi, never a slot off the grid |
| `Aggregation.AddSlice` | app.py:94 | `loc[lo:hi] += v` adds v to every slot with lo <= t <= hi and leaves all other slots as they were |
| `Aggregation.AddFlight` | app.py:91-97 | the odd/even branch of one loop iteration adds exactly the flight's three-level `Contribution` to every slot |
| `Aggregation.Aggregate` | app.py:88-97 | a zero-initialised series that gets every row's overlay holds, at each grid slot, the sum of the rows' contributions at that time; the departure (107-116) and domestic (119, 128-135) loops are this method for their categories |
| `Aggregation.DemandAppend` | app.py:90-97 | the demand of two batches of rows is the sum of their demands |
| `Aggregation.DemandPermutation` | app.py:90-97 | the demand does not depend on the order of the rows |
| `Aggregation.DemandBounds` | app.py:90-97 | the demand of well-formed rows is never negative and never exceeds the sum of their buses |
| `Aggregation.DemandOutsideWindow` | app.py:94-97 | a row whose window does not cover t leaves the demand at t unchanged, so window parts past the grid add nothing |
| `Aggregation.ScenarioOverlap` | app.py:90-97 | an arrival at 10:00 with 200 passengers (4 trips, 2 buses) and one at 10:30 with 60 passengers (1 trip, 1 bus) give 3 buses at 10:35 |
| `Composition.Total` | app.py:145 | the total is the slot-wise sum of departure, arrival and domestic, over the shared grid |
| `Composition.MaxOf` | app.py:148 | the maximum is a value of the series that no slot exceeds |
| `Composition.Peak` | app.py:148 | the peak is absent exactly for an empty series; otherwise it bounds every slot and some slot attains it |
| `Composition.RunEngine` | app.py:77-148 | errors exactly when no grid can be built or the grid is empty; otherwise each category series is its rows' demand on the arrival grid, domestic (the rows of `DomesticProfiles`, app.py:119-120, 136-137) is zero unless included and loaded, each total slot is the sum of the three and the demand of all rows, totals are non-negative, and the peak is the largest total and attained |
| `Composition.PeakAtMostFleet` | app.py:145-148 | the peak is at least 0 and at most the buses of all rows of all categories together |
| `Composition.TotalDemandOrderFree` | app.py:140-145 | reordering the rows of any category leaves every slot of the total unchanged |

## Left out

- The Streamlit interface, file uploads, the domestic checkbox widget, the success and warning messages, the chart and the Excel export with its download button (app.py:21-31, 149-180). These are I/O and rendering. The checkbox is a boolean parameter of `RunEngine`.
- Reading the sheets and selecting and renaming columns (app.py:30-39). These are spreadsheet I/O.
- The Remote, International and Seats != 0 row filters (app.py:52-59). These are pandas predicates, and the engine receives rows that have already been selected.
- The left merge with the passenger table (app.py:61-74). The engine receives PAX as an optional count, with `None` for an unmatched flight.
- The propagation through the float series of NaN (unmatched PAX, or zero trips with max_trips = 0), NaT (unparsed times), infinity (max_trips = 0 with trips, for example a domestic transit above 15 minutes), and the zero or negative bus counts of a zero or negative transit time. This is floating-point behaviour. Rows of these kinds are excluded by `Profiles.Ready`.
- `Profiles.BuildProfile`, `Profiles.ProfilesOf`, `Composition.RunEngine`: require every row to be `Ready`, meaning its anchor parsed, its PAX matched, and 0 < transit <= time frame. The source's float behaviour for the other rows is not modelled. That behaviour is any of the following (see above): NaN windows that `sum` and `max` silently skip; an infinite total that makes `int()` fail when the row's window meets the grid; and zero or negative bus counts for a zero or negative transit time, which lower the reported series and peak.
- `Profiles.Trips`: PAX is a natural number. Fractional passenger counts and float `ceil` are not modelled.
- The exception raised while the domestic sheet is loaded is modelled as its result only: the sheet is `None` and the domestic series stays zero (app.py:121-137). An exception midway through the domestic loop, which would leave a partly filled series, is not modelled.
- Dtype changes of the series (int to float on the first `+=`) are not modelled. All counts are integers.
