/** Per-flight bus profile: the Trips_Needed, max_trips and buses_needed_per_flight
    columns of the arrival, departure and domestic frames, and the step function each
    flight adds to its category's demand series. */
module Profiles {
  import opened Wrappers

  /** Passengers carried by one bus trip. */
  const BusCapacity: nat := 60

  /** Which gate event a category anchors its window to. */
  datatype AnchorKind = AtGateStart | AtGateEnd

  /** A flow category: its time frame (the rollover window, in minutes) and its anchor. */
  datatype Category = Category(timeFrame: nat, anchor: AnchorKind)

  const Arrival: Category := Category(45, AtGateStart)
  const Departure: Category := Category(45, AtGateEnd)
  const Domestic: Category := Category(15, AtGateStart)

  /** Transit time assigned to every international arrival and departure: 21.7 minutes,
      in tenths of a minute. */
  const InternationalTransit: nat := 217

  /** One row of a category frame, as the engine consumes it. Times are seconds since the
      epoch (None for a value that did not parse), the passenger count comes from the
      passenger lookup (None when unmatched), the transit time is in tenths of a minute. */
  datatype Flight = Flight(gateStart: Option<int>, gateEnd: Option<int>, pax: Option<nat>, transit: nat)

  /** The derived columns of one row: its anchor, Trips_Needed and buses_needed_per_flight. */
  datatype Profile = Profile(anchor: int, trips: nat, buses: nat)

  function RolloverSeconds(c: Category): nat { 60 * c.timeFrame }

  /** Half of the rollover window; exact in seconds (22.5 minutes is 1350 seconds). */
  function HalfRolloverSeconds(c: Category): nat { 30 * c.timeFrame }

  function Anchor(c: Category, f: Flight): Option<int>
  {
    match c.anchor
    case AtGateStart => f.gateStart
    case AtGateEnd => f.gateEnd
  }

  /** Trips_Needed = ceil(PAX / 60). */
  function Trips(pax: nat): (r: nat)
    ensures r * BusCapacity >= pax
    ensures r == 0 || (r - 1) * BusCapacity < pax
    ensures r == 0 <==> pax == 0
  {
    (pax + BusCapacity - 1) / BusCapacity
  }

  /** max_trips = TimeFrame // Transit Time, with the transit time in tenths of a minute:
      the number of whole transits that fit in the time frame. */
  function MaxTrips(timeFrame: nat, transit: nat): (r: nat)
    requires transit > 0
    ensures r * transit <= 10 * timeFrame < (r + 1) * transit
    ensures r >= 1 <==> transit <= 10 * timeFrame
  {
    var x := 10 * timeFrame;
    assert x == transit * (x / transit) + x % transit;
    x / transit
  }

  /** buses_needed_per_flight = ceil(Trips_Needed / max_trips). */
  function Buses(trips: nat, maxTrips: nat): (r: nat)
    requires maxTrips >= 1
    ensures r * maxTrips >= trips
    ensures r == 0 || (r - 1) * maxTrips < trips
    ensures r == 0 <==> trips == 0
  {
    var x := trips + maxTrips - 1;
    assert x == maxTrips * (x / maxTrips) + x % maxTrips;
    assert 0 <= x % maxTrips < maxTrips;
    x / maxTrips
  }

  /** A row the source computes a finite profile for: its anchor parsed, its PAX matched,
      and a transit time that lets at least one trip fit into the time frame. */
  predicate Ready(c: Category, f: Flight)
  {
    Anchor(c, f).Some? && f.pax.Some? && 0 < f.transit <= 10 * c.timeFrame
  }

  predicate AllReady(c: Category, fs: seq<Flight>)
  {
    forall i :: 0 <= i < |fs| ==> Ready(c, fs[i])
  }

  /** A profile whose odd-trips split is meaningful: an odd trip count has at least one bus. */
  predicate WellFormed(p: Profile)
  {
    p.trips % 2 == 1 ==> p.buses >= 1
  }

  /** The derived columns of one row; an odd trip count always comes with at least one bus. */
  function BuildProfile(c: Category, f: Flight): (p: Profile)
    requires Ready(c, f)
    ensures p.anchor == Anchor(c, f).value
    ensures WellFormed(p)
  {
    var m := MaxTrips(c.timeFrame, f.transit);
    var trips := Trips(f.pax.value);
    Profile(Anchor(c, f).value, trips, Buses(trips, m))
  }

  /** A ready row's trips carry all its passengers with no trip to spare, at least one
      transit fits in the time frame, and its buses clear all its trips within the time
      frame with no bus to spare. */
  lemma BuildProfileCapacity(c: Category, f: Flight)
    requires Ready(c, f)
    ensures var p, m := BuildProfile(c, f), MaxTrips(c.timeFrame, f.transit);
            p.trips * BusCapacity >= f.pax.value &&
            (p.trips == 0 || (p.trips - 1) * BusCapacity < f.pax.value) &&
            m >= 1 &&
            p.buses * m >= p.trips &&
            (p.buses == 0 || (p.buses - 1) * m < p.trips)
  {
  }

  function ProfilesOf(c: Category, fs: seq<Flight>): (ps: seq<Profile>)
    requires AllReady(c, fs)
    ensures |ps| == |fs|
    ensures forall i :: 0 <= i < |fs| ==> ps[i] == BuildProfile(c, fs[i]) && WellFormed(ps[i])
  {
    seq(|fs|, i requires 0 <= i < |fs| => BuildProfile(c, fs[i]))
  }

  /** What one flight contributes to its category's series at time t: every bus of the
      flight over the closed window [anchor, anchor + rollover], except that with an odd
      trip count one of them runs only until anchor + rollover/2. */
  function Contribution(c: Category, p: Profile, t: int): int
  {
    if t < p.anchor || p.anchor + RolloverSeconds(c) < t then 0
    else if p.trips % 2 == 1 && p.anchor + HalfRolloverSeconds(c) < t then p.buses - 1
    else p.buses
  }

  /** Even trip count: a single level of buses over the whole closed window, nothing elsewhere. */
  lemma ContributionEven(c: Category, p: Profile, t: int)
    requires p.trips % 2 == 0
    ensures Contribution(c, p, t) == if p.anchor <= t <= p.anchor + RolloverSeconds(c) then p.buses else 0
  {
  }

  /** Odd trip count: buses on the first half (inclusive), one fewer on the rest of the
      window, nothing elsewhere. */
  lemma ContributionOdd(c: Category, p: Profile, t: int)
    requires p.trips % 2 == 1
    ensures p.anchor <= t <= p.anchor + HalfRolloverSeconds(c) ==> Contribution(c, p, t) == p.buses
    ensures p.anchor + HalfRolloverSeconds(c) < t <= p.anchor + RolloverSeconds(c) ==>
              Contribution(c, p, t) == p.buses - 1
    ensures (t < p.anchor || p.anchor + RolloverSeconds(c) < t) ==> Contribution(c, p, t) == 0
  {
  }

  /** A flight never asks for a negative number of buses, nor more than its own. */
  lemma ContributionBounds(c: Category, p: Profile, t: int)
    requires WellFormed(p)
    ensures 0 <= Contribution(c, p, t) <= p.buses
  {
  }

  /** 45 // 21.7 is 2: one bus does two transits in the arrival or departure window. */
  lemma InternationalMaxTrips()
    ensures MaxTrips(Arrival.timeFrame, InternationalTransit) == 2
    ensures MaxTrips(Departure.timeFrame, InternationalTransit) == 2
  {
  }

  /** One arrival with 121 passengers: 3 trips (odd), 2 buses, so 2 buses over the first
      22.5 minutes and 1 bus until minute 45. */
  lemma ScenarioOddArrival(gateStart: int)
    ensures var p := BuildProfile(Arrival, Flight(Some(gateStart), None, Some(121), InternationalTransit));
            p.trips == 3 && p.buses == 2 &&
            Contribution(Arrival, p, gateStart + 1200) == 2 &&
            Contribution(Arrival, p, gateStart + 1500) == 1 &&
            Contribution(Arrival, p, gateStart + 2700) == 1 &&
            Contribution(Arrival, p, gateStart + 3000) == 0
  {
  }
}
