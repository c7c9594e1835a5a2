/** The per-category overlay loops of app.py (90-97, 109-116, 128-135): a series of bus
    counts over the grid, starting at zero, to which every flight's window is added. */
module Aggregation {
  import opened Wrappers
  import opened Profiles
  import opened Timeline

  /** The demand of a category at time t: the sum of the contributions of its flights. */
  function Demand(c: Category, ps: seq<Profile>, t: int): int
  {
    if ps == [] then 0
    else Demand(c, ps[..|ps| - 1], t) + Contribution(c, ps[|ps| - 1], t)
  }

  /** The buses of all flights together. */
  function FleetSize(ps: seq<Profile>): nat
  {
    if ps == [] then 0 else FleetSize(ps[..|ps| - 1]) + ps[|ps| - 1].buses
  }

  /** Demand over two batches of flights is the sum of their demands. */
  lemma {:induction false} DemandAppend(c: Category, xs: seq<Profile>, ys: seq<Profile>, t: int)
    ensures Demand(c, xs + ys, t) == Demand(c, xs, t) + Demand(c, ys, t)
    decreases |ys|
  {
    if ys == [] {
      assert xs + ys == xs;
    } else {
      var ys' := ys[..|ys| - 1];
      assert (xs + ys)[..|xs + ys| - 1] == xs + ys';
      DemandAppend(c, xs, ys', t);
    }
  }

  /** Taking one flight out of a batch removes exactly its contribution. */
  lemma DemandRemove(c: Category, ys: seq<Profile>, i: nat, t: int)
    requires i < |ys|
    ensures Demand(c, ys, t) == Demand(c, ys[..i] + ys[i + 1..], t) + Contribution(c, ys[i], t)
  {
    var before, after := ys[..i], ys[i + 1..];
    assert ys == before + ([ys[i]] + after);
    DemandAppend(c, before, [ys[i]] + after, t);
    DemandAppend(c, [ys[i]], after, t);
    DemandAppend(c, before, after, t);
    assert [ys[i]][..0] == [];
  }

  /** The series does not depend on the order in which the rows are iterated. */
  lemma {:induction false} DemandPermutation(c: Category, xs: seq<Profile>, ys: seq<Profile>, t: int)
    requires multiset(xs) == multiset(ys)
    ensures Demand(c, xs, t) == Demand(c, ys, t)
    decreases |xs|
  {
    if xs == [] {
      assert |ys| == |multiset(ys)| == 0;
    } else {
      var last := xs[|xs| - 1];
      var xs' := xs[..|xs| - 1];
      assert xs == xs' + [last];
      assert last in multiset(ys);
      var i :| 0 <= i < |ys| && ys[i] == last;
      var ys' := ys[..i] + ys[i + 1..];
      assert ys == ys[..i] + [last] + ys[i + 1..];
      assert multiset(xs') == multiset(xs) - multiset{last};
      assert multiset(ys') == multiset(ys) - multiset{last};
      DemandPermutation(c, xs', ys', t);
      DemandRemove(c, ys, i, t);
    }
  }

  /** Well-formed flights never give a negative demand, and never more than all their buses. */
  lemma {:induction false} DemandBounds(c: Category, ps: seq<Profile>, t: int)
    requires forall i :: 0 <= i < |ps| ==> WellFormed(ps[i])
    ensures 0 <= Demand(c, ps, t) <= FleetSize(ps)
  {
    if ps != [] {
      DemandBounds(c, ps[..|ps| - 1], t);
      ContributionBounds(c, ps[|ps| - 1], t);
    }
  }

  /** A flight whose window covers none of the given times changes the demand at none of them:
      in particular, window parts beyond the grid end add nothing. */
  lemma DemandOutsideWindow(c: Category, ps: seq<Profile>, p: Profile, t: int)
    requires t < p.anchor || p.anchor + RolloverSeconds(c) < t
    ensures Demand(c, ps + [p], t) == Demand(c, ps, t)
  {
  }

  /** Series.loc[lo:hi] += v on the series held in `counts`. */
  method AddSlice(counts: array<int>, g: Grid, lo: int, hi: int, v: int)
    requires counts.Length == g.size
    modifies counts
    ensures forall k :: 0 <= k < counts.Length ==>
              counts[k] == old(counts[k]) + (if lo <= Point(g, k) <= hi then v else 0)
  {
    var (i, j) := SliceBounds(g, lo, hi);
    forall k | i <= k < j {
      counts[k] := counts[k] + v;
    }
  }

  /** One iteration of an overlay loop: the odd/even branch on Trips_Needed, each a label
      slice anchored at the flight's gate event. */
  method AddFlight(counts: array<int>, g: Grid, c: Category, p: Profile)
    requires counts.Length == g.size
    modifies counts
    ensures forall k :: 0 <= k < counts.Length ==>
              counts[k] == old(counts[k]) + Contribution(c, p, Point(g, k))
  {
    var start := p.anchor;
    var delta := RolloverSeconds(c);
    if p.trips % 2 == 1 {
      AddSlice(counts, g, start, start + delta, p.buses - 1);
      AddSlice(counts, g, start, start + HalfRolloverSeconds(c), 1);
    } else {
      AddSlice(counts, g, start, start + delta, p.buses);
    }
  }

  /** A category's series: zero on every slot, then one overlay per row, in row order.
      Each slot ends up holding the category's demand at its timestamp. */
  method Aggregate(g: Grid, c: Category, ps: seq<Profile>) returns (series: seq<int>)
    ensures |series| == g.size
    ensures forall k :: 0 <= k < g.size ==> series[k] == Demand(c, ps, Point(g, k))
  {
    var counts := new int[g.size](_ => 0);
    for n := 0 to |ps|
      invariant forall k :: 0 <= k < g.size ==> counts[k] == Demand(c, ps[..n], Point(g, k))
    {
      AddFlight(counts, g, c, ps[n]);
      assert ps[..n + 1][..n] == ps[..n];
    }
    assert ps[..|ps|] == ps;
    series := counts[..];
  }

  /** Two overlapping arrivals add up: one at 10:00 with 200 passengers (4 trips, 2 buses over
      10:00-10:45) and one at 10:30 with 60 passengers (1 trip, 1 bus over its first half,
      10:30-10:52:30) give 3 buses at 10:35. */
  lemma ScenarioOverlap(day: int)
    ensures var ten := day * SecondsPerDay + 10 * 3600;
            var fa := Flight(Some(ten), None, Some(200), InternationalTransit);
            var fb := Flight(Some(ten + 1800), None, Some(60), InternationalTransit);
            BuildProfile(Arrival, fa).buses == 2 && BuildProfile(Arrival, fb).buses == 1 &&
            Demand(Arrival, ProfilesOf(Arrival, [fa, fb]), ten + 2100) == 3
  {
    var ten := day * SecondsPerDay + 10 * 3600;
    var fa := Flight(Some(ten), None, Some(200), InternationalTransit);
    var fb := Flight(Some(ten + 1800), None, Some(60), InternationalTransit);
    InternationalMaxTrips();
    var a, b := BuildProfile(Arrival, fa), BuildProfile(Arrival, fb);
    assert a == Profile(ten, 4, 2);
    assert b == Profile(ten + 1800, 1, 1);
    assert ProfilesOf(Arrival, [fa, fb]) == [a, b];
    assert [a, b][..1] == [a];
    assert [a][..0] == [];
    assert Demand(Arrival, [a], ten + 2100) == 2;
  }
}
