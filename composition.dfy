/** Combining the three category series into the total and extracting the peak
    (app.py:119-120, 140-148), and the engine run from rows to peak (app.py:76-148). */
module Composition {
  import opened Wrappers
  import opened Profiles
  import opened Timeline
  import opened Aggregation

  /** Total_Buses_Required: the row-wise sum of the Departure, Arrival and Domestic columns. */
  function Total(departure: seq<int>, arrival: seq<int>, domestic: seq<int>): (r: seq<int>)
    requires |departure| == |arrival| == |domestic|
    ensures |r| == |arrival|
    ensures forall k :: 0 <= k < |r| ==> r[k] == departure[k] + arrival[k] + domestic[k]
  {
    seq(|arrival|, k requires 0 <= k < |arrival| => departure[k] + arrival[k] + domestic[k])
  }

  /** Series.max() of a non-empty series: a value of the series that no slot exceeds. */
  function MaxOf(s: seq<int>): (r: int)
    requires |s| > 0
    ensures forall k :: 0 <= k < |s| ==> s[k] <= r
    ensures exists k :: 0 <= k < |s| && s[k] == r
  {
    if |s| == 1 then s[0]
    else
      var rest := MaxOf(s[1..]);
      assert forall k :: 1 <= k < |s| ==> s[k] == s[1..][k - 1];
      if s[0] >= rest then s[0] else rest
  }

  /** int(total.max()): the truncation of int() is the identity on the integer counts of this
      model; the maximum of an empty series is NaN, which int() refuses. */
  function Peak(total: seq<int>): (r: Option<int>)
    ensures r.None? <==> total == []
    ensures r.Some? ==> (forall k :: 0 <= k < |total| ==> total[k] <= r.value) &&
                        (exists k :: 0 <= k < |total| && total[k] == r.value)
  {
    if total == [] then None else Some(MaxOf(total))
  }

  /** The rows that feed the domestic series: none unless domestic operations are included
      and their sheet could be loaded (None stands for a sheet the except branch caught). */
  function DomesticProfiles(domestic: Option<seq<Flight>>, includeDomestic: bool): seq<Profile>
    requires includeDomestic && domestic.Some? ==> AllReady(Domestic, domestic.value)
  {
    if includeDomestic && domestic.Some? then ProfilesOf(Domestic, domestic.value) else []
  }

  /** Why a run produced no peak. */
  datatype EngineError =
    | MissingGateTimes   // no arrival gate start parsed, or no arrival gate end parsed: date_range cannot be built
    | EmptyGrid          // the grid is empty: the maximum of the total is NaN and int() fails

  /** What a run shows and exports: the grid, the three category series and their total, and
      the peak. */
  datatype Report = Report(grid: Grid, departure: seq<int>, arrival: seq<int>, domestic: seq<int>,
                           total: seq<int>, peak: int)

  /** The demand of all three categories at time t. */
  function TotalDemand(arrivals: seq<Flight>, departures: seq<Flight>, domestic: Option<seq<Flight>>,
                       includeDomestic: bool, t: int): int
    requires AllReady(Arrival, arrivals) && AllReady(Departure, departures)
    requires includeDomestic && domestic.Some? ==> AllReady(Domestic, domestic.value)
  {
    Demand(Departure, ProfilesOf(Departure, departures), t) +
    Demand(Arrival, ProfilesOf(Arrival, arrivals), t) +
    Demand(Domestic, DomesticProfiles(domestic, includeDomestic), t)
  }

  /** One run of the engine: every category series is built on the arrival grid, the total is
      their slot-wise sum at every slot, the domestic series is zero unless it is included and
      loaded, and the peak is the largest total, attained at some slot. */
  method RunEngine(arrivals: seq<Flight>, departures: seq<Flight>, domestic: Option<seq<Flight>>,
                   includeDomestic: bool) returns (r: Result<Report, EngineError>)
    requires AllReady(Arrival, arrivals) && AllReady(Departure, departures)
    requires includeDomestic && domestic.Some? ==> AllReady(Domestic, domestic.value)
    ensures r.Err? <==> BuildGrid(arrivals).Err? || BuildGrid(arrivals).value.size == 0
    ensures r.Err? ==> r.error == (if BuildGrid(arrivals).Err? then MissingGateTimes else EmptyGrid)
    ensures r.Ok? ==>
              var rep := r.value;
              var g := rep.grid;
              g == BuildGrid(arrivals).value &&
              |rep.departure| == |rep.arrival| == |rep.domestic| == |rep.total| == g.size &&
              (forall k :: 0 <= k < g.size ==>
                 rep.departure[k] == Demand(Departure, ProfilesOf(Departure, departures), Point(g, k)) &&
                 rep.arrival[k] == Demand(Arrival, ProfilesOf(Arrival, arrivals), Point(g, k)) &&
                 rep.domestic[k] == Demand(Domestic, DomesticProfiles(domestic, includeDomestic), Point(g, k)) &&
                 rep.total[k] == rep.departure[k] + rep.arrival[k] + rep.domestic[k] &&
                 rep.total[k] == TotalDemand(arrivals, departures, domestic, includeDomestic, Point(g, k))) &&
              (!(includeDomestic && domestic.Some?) ==> forall k :: 0 <= k < g.size ==> rep.domestic[k] == 0) &&
              (forall k :: 0 <= k < g.size ==> 0 <= rep.total[k] <= rep.peak) &&
              (exists k :: 0 <= k < g.size && rep.total[k] == rep.peak)
  {
    var grid := BuildGrid(arrivals);
    if grid.Err? {
      return Err(MissingGateTimes);
    }
    var g := grid.value;
    var arrival := Aggregate(g, Arrival, ProfilesOf(Arrival, arrivals));
    var departure := Aggregate(g, Departure, ProfilesOf(Departure, departures));
    var domesticSeries := Aggregate(g, Domestic, DomesticProfiles(domestic, includeDomestic));
    var total := Total(departure, arrival, domesticSeries);
    var peak := Peak(total);
    if peak.None? {
      return Err(EmptyGrid);
    }
    forall k | 0 <= k < g.size ensures 0 <= total[k] {
      DemandBounds(Departure, ProfilesOf(Departure, departures), Point(g, k));
      DemandBounds(Arrival, ProfilesOf(Arrival, arrivals), Point(g, k));
      DemandBounds(Domestic, DomesticProfiles(domestic, includeDomestic), Point(g, k));
    }
    r := Ok(Report(g, departure, arrival, domesticSeries, total, peak.value));
  }

  /** The peak never exceeds all the buses of all the flights of the run taken together. */
  lemma PeakAtMostFleet(arrivals: seq<Flight>, departures: seq<Flight>, domestic: Option<seq<Flight>>,
                        includeDomestic: bool, g: Grid, total: seq<int>)
    requires AllReady(Arrival, arrivals) && AllReady(Departure, departures)
    requires includeDomestic && domestic.Some? ==> AllReady(Domestic, domestic.value)
    requires |total| == g.size > 0
    requires forall k :: 0 <= k < g.size ==>
               total[k] == TotalDemand(arrivals, departures, domestic, includeDomestic, Point(g, k))
    ensures Peak(total).Some?
    ensures 0 <= Peak(total).value <=
              FleetSize(ProfilesOf(Departure, departures)) + FleetSize(ProfilesOf(Arrival, arrivals)) +
              FleetSize(DomesticProfiles(domestic, includeDomestic))
  {
    var k :| 0 <= k < |total| && total[k] == Peak(total).value;
    DemandBounds(Departure, ProfilesOf(Departure, departures), Point(g, k));
    DemandBounds(Arrival, ProfilesOf(Arrival, arrivals), Point(g, k));
    DemandBounds(Domestic, DomesticProfiles(domestic, includeDomestic), Point(g, k));
  }

  /** Reordering the rows of any category leaves every slot of the total unchanged. */
  lemma TotalDemandOrderFree(arrivals: seq<Flight>, arrivals': seq<Flight>, departures: seq<Flight>,
                             departures': seq<Flight>, domestic: Option<seq<Flight>>,
                             domestic': Option<seq<Flight>>, includeDomestic: bool, t: int)
    requires AllReady(Arrival, arrivals) && AllReady(Departure, departures)
    requires includeDomestic && domestic.Some? ==> AllReady(Domestic, domestic.value)
    requires multiset(arrivals) == multiset(arrivals') && multiset(departures) == multiset(departures')
    requires domestic.Some? <==> domestic'.Some?
    requires domestic.Some? ==> multiset(domestic.value) == multiset(domestic'.value)
    ensures AllReady(Arrival, arrivals') && AllReady(Departure, departures')
    ensures includeDomestic && domestic'.Some? ==> AllReady(Domestic, domestic'.value)
    ensures TotalDemand(arrivals, departures, domestic, includeDomestic, t) ==
            TotalDemand(arrivals', departures', domestic', includeDomestic, t)
  {
    ProfilesPermutation(Arrival, arrivals, arrivals');
    ProfilesPermutation(Departure, departures, departures');
    DemandPermutation(Arrival, ProfilesOf(Arrival, arrivals), ProfilesOf(Arrival, arrivals'), t);
    DemandPermutation(Departure, ProfilesOf(Departure, departures), ProfilesOf(Departure, departures'), t);
    if includeDomestic && domestic.Some? {
      ProfilesPermutation(Domestic, domestic.value, domestic'.value);
      DemandPermutation(Domestic, DomesticProfiles(domestic, includeDomestic),
                        DomesticProfiles(domestic', includeDomestic), t);
    }
  }

  /** Profiles are built row by row, so building them commutes with concatenation. */
  lemma ProfilesAppend(c: Category, xs: seq<Flight>, ys: seq<Flight>)
    requires AllReady(c, xs) && AllReady(c, ys)
    ensures AllReady(c, xs + ys)
    ensures ProfilesOf(c, xs + ys) == ProfilesOf(c, xs) + ProfilesOf(c, ys)
  {
  }

  /** Every row of a permutation of ready rows is ready. */
  lemma ReadyPermutation(c: Category, xs: seq<Flight>, ys: seq<Flight>)
    requires AllReady(c, xs)
    requires multiset(xs) == multiset(ys)
    ensures AllReady(c, ys)
  {
    forall j | 0 <= j < |ys| ensures Ready(c, ys[j]) {
      assert ys[j] in multiset(xs);
    }
  }

  /** Taking one row out of a batch takes its profile out of the batch's profiles. */
  lemma ProfilesRemove(c: Category, ys: seq<Flight>, i: nat)
    requires AllReady(c, ys) && i < |ys|
    ensures AllReady(c, ys[..i] + ys[i + 1..])
    ensures multiset(ProfilesOf(c, ys)) ==
            multiset(ProfilesOf(c, ys[..i] + ys[i + 1..])) + multiset{BuildProfile(c, ys[i])}
  {
    var before, after := ys[..i], ys[i + 1..];
    assert ys == before + ([ys[i]] + after);
    assert AllReady(c, before) && AllReady(c, after) && AllReady(c, [ys[i]]) by {
      assert forall j :: 0 <= j < |after| ==> after[j] == ys[i + 1 + j];
    }
    ProfilesAppend(c, [ys[i]], after);
    ProfilesAppend(c, before, [ys[i]] + after);
    ProfilesAppend(c, before, after);
    var pb, pa, px := ProfilesOf(c, before), ProfilesOf(c, after), ProfilesOf(c, [ys[i]]);
    assert px == [BuildProfile(c, ys[i])];
    assert ProfilesOf(c, ys) == pb + (px + pa);
    assert ProfilesOf(c, before + after) == pb + pa;
  }

  /** Permuting the rows permutes their profiles. */
  lemma {:induction false} ProfilesPermutation(c: Category, xs: seq<Flight>, ys: seq<Flight>)
    requires AllReady(c, xs)
    requires multiset(xs) == multiset(ys)
    ensures AllReady(c, ys)
    ensures multiset(ProfilesOf(c, xs)) == multiset(ProfilesOf(c, ys))
    decreases |xs|
  {
    ReadyPermutation(c, xs, ys);
    if xs != [] {
      var x := xs[0];
      assert x in multiset(ys);
      var i :| 0 <= i < |ys| && ys[i] == x;
      var ys' := ys[..i] + ys[i + 1..];
      assert ys == ys[..i] + [x] + ys[i + 1..];
      var xs' := xs[..0] + xs[1..];
      assert xs == [x] + xs';
      assert multiset(xs') == multiset(ys') by {
        assert multiset(xs') == multiset(xs) - multiset{x};
        assert multiset(ys') == multiset(ys) - multiset{x};
      }
      ProfilesRemove(c, xs, 0);
      ProfilesRemove(c, ys, i);
      ProfilesPermutation(c, xs', ys');
    }
  }
}
