/** The shared 5-minute time grid (app.py:85-87) and the label slices taken on it. */
module Timeline {
  import opened Wrappers
  import opened Profiles

  const Step: nat := 300
  const SecondsPerDay: nat := 86400
  /** 23:55, the last 5-minute slot of a day, in seconds after midnight. */
  const LastSlotOfDay: nat := 23 * 3600 + 55 * 60

  /** A regular index of `size` timestamps, `Step` seconds apart, from `start` on. */
  datatype Grid = Grid(start: int, size: nat)

  function Point(g: Grid, k: int): int { g.start + Step * k }

  /** The calendar day of a timestamp (days since the epoch, rounded down). */
  function Day(t: int): int { t / SecondsPerDay }

  /** Timestamp.floor("D"): midnight of the day of t. */
  function FloorDay(t: int): (r: int)
    ensures r % SecondsPerDay == 0
    ensures r <= t < r + SecondsPerDay
    ensures Day(r) == Day(t)
  {
    Day(t) * SecondsPerDay
  }

  /** Timestamp.replace(hour=23, minute=55): the seconds of t are kept. */
  function AtLastSlot(t: int): (r: int)
    ensures Day(r) == Day(t)
    ensures r - r % 60 == FloorDay(t) + LastSlotOfDay
    ensures r % 60 == t % 60
  {
    FloorDay(t) + LastSlotOfDay + t % 60
  }

  /** date_range(start, end, freq="5min"): every start + 5k minutes that is not after end. */
  function DateRange(start: int, end: int): (g: Grid)
    ensures g.start == start
    ensures forall k :: 0 <= k < g.size ==> Point(g, k) <= end
    ensures end < Point(g, g.size)
  {
    if end < start then Grid(start, 0)
    else
      var n := (end - start) / Step;
      assert end - start == Step * n + (end - start) % Step;
      Grid(start, n + 1)
  }

  /** The smallest present value, skipping the missing ones as Series.min() skips NaT. */
  function MinPresent(s: seq<Option<int>>): (r: Option<int>)
    ensures r.None? <==> forall i :: 0 <= i < |s| ==> s[i].None?
    ensures r.Some? ==> (exists i :: 0 <= i < |s| && s[i] == r) &&
                        forall i :: 0 <= i < |s| && s[i].Some? ==> r.value <= s[i].value
  {
    if s == [] then None
    else
      var rest := MinPresent(s[1..]);
      assert forall i :: 1 <= i < |s| ==> s[i] == s[1..][i - 1];
      if s[0].None? then rest
      else if rest.None? || s[0].value <= rest.value then s[0]
      else rest
  }

  /** The largest present value, skipping the missing ones as Series.max() skips NaT. */
  function MaxPresent(s: seq<Option<int>>): (r: Option<int>)
    ensures r.None? <==> forall i :: 0 <= i < |s| ==> s[i].None?
    ensures r.Some? ==> (exists i :: 0 <= i < |s| && s[i] == r) &&
                        forall i :: 0 <= i < |s| && s[i].Some? ==> s[i].value <= r.value
  {
    if s == [] then None
    else
      var rest := MaxPresent(s[1..]);
      assert forall i :: 1 <= i < |s| ==> s[i] == s[1..][i - 1];
      if s[0].None? then rest
      else if rest.None? || rest.value <= s[0].value then s[0]
      else rest
  }

  function GateStarts(fs: seq<Flight>): (r: seq<Option<int>>)
    ensures |r| == |fs| && forall i :: 0 <= i < |fs| ==> r[i] == fs[i].gateStart
  {
    seq(|fs|, i requires 0 <= i < |fs| => fs[i].gateStart)
  }

  function GateEnds(fs: seq<Flight>): (r: seq<Option<int>>)
    ensures |r| == |fs| && forall i :: 0 <= i < |fs| ==> r[i] == fs[i].gateEnd
  {
    seq(|fs|, i requires 0 <= i < |fs| => fs[i].gateEnd)
  }

  /** Why no grid could be built: no arrival had a parsed gate start, or none a parsed gate end. */
  datatype GridError = NoGateTimes

  /** The grid every category series is indexed by, built from the arrival rows only. */
  function BuildGrid(arrivals: seq<Flight>): Result<Grid, GridError>
  {
    var lo := MinPresent(GateStarts(arrivals));
    var hi := MaxPresent(GateEnds(arrivals));
    if lo.None? || hi.None? then Err(NoGateTimes)
    else Ok(DateRange(FloorDay(lo.value), AtLastSlot(hi.value)))
  }

  /** The grid fails exactly when some gate column has no parsed time at all. */
  lemma BuildGridError(arrivals: seq<Flight>)
    ensures BuildGrid(arrivals).Err? <==>
              (forall i :: 0 <= i < |arrivals| ==> arrivals[i].gateStart.None?) ||
              (forall i :: 0 <= i < |arrivals| ==> arrivals[i].gateEnd.None?)
  {
  }

  /** The grid starts at midnight of the earliest arrival gate start: at a midnight, no later
      than any gate start, and on the day of one of them. */
  lemma BuildGridStart(arrivals: seq<Flight>)
    requires BuildGrid(arrivals).Ok?
    ensures var g := BuildGrid(arrivals).value;
            g.start % SecondsPerDay == 0 &&
            (forall i :: 0 <= i < |arrivals| && arrivals[i].gateStart.Some? ==>
               g.start <= arrivals[i].gateStart.value) &&
            (exists i :: 0 <= i < |arrivals| && arrivals[i].gateStart.Some? &&
               Day(arrivals[i].gateStart.value) == Day(g.start))
  {
  }

  /** The grid ends at 23:55 of the day of the latest arrival gate end; it is empty exactly
      when that day comes before the day of the earliest gate start, and otherwise holds
      288 slots for each day from the first to the last. */
  lemma BuildGridEnd(arrivals: seq<Flight>)
    requires BuildGrid(arrivals).Ok?
    ensures var g := BuildGrid(arrivals).value;
            var first := MinPresent(GateStarts(arrivals)).value;
            var last := MaxPresent(GateEnds(arrivals)).value;
            (g.size == 0 <==> Day(last) < Day(first)) &&
            (g.size > 0 ==>
               g.size == 288 * (Day(last) - Day(first) + 1) &&
               Point(g, g.size - 1) == FloorDay(last) + LastSlotOfDay)
  {
  }

  /** The pandas label slice loc[lo:hi] on the grid, as the positional range [i, j) that it
      selects: exactly the grid slots whose timestamp t satisfies lo <= t <= hi. Bounds that
      fall off the grid select fewer slots; the grid is never extended. */
  function SliceBounds(g: Grid, lo: int, hi: int): (r: (nat, nat))
    ensures r.0 <= r.1 <= g.size
    ensures forall k :: 0 <= k < g.size ==> (r.0 <= k < r.1 <==> lo <= Point(g, k) <= hi)
  {
    var x, y := lo - g.start, hi - g.start;
    assert x + Step - 1 == Step * ((x + Step - 1) / Step) + (x + Step - 1) % Step;
    assert y == Step * (y / Step) + y % Step;
    var first := (x + Step - 1) / Step;
    var past := y / Step + 1;
    var i: nat := if first < 0 then 0 else if first > g.size then g.size else first;
    var j: nat := if past < i then i else if past > g.size then g.size else past;
    (i, j)
  }
}
