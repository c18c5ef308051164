/** The calendar-aware time grid of `B_Model_V1/timegrid.py`.

    A `Calendar` turns a step specification (exactly one of a fixed fraction
    `dt` or a step count) into fractional times in [0,1], maps them onto the
    calendar days between the start and end dates, deduplicates and sorts the
    result, derives year-fraction increments, and snaps any date to the
    nearest grid date. Dates are day numbers; times are exact reals. */
module TimeGrid {
  import opened Wrappers
  import opened Seqs

  /** The `trading_days` default of `B_Model_V1/timegrid.py`. */
  const DefaultTradingDays: real := 365.0

  /** The dataclass after `__post_init__`: `nSteps` and `dt` as stored, the
      fractional `times`, and the untouched `tradingDays`. */
  datatype Calendar = Calendar(
    start: int,
    end: int,
    dt: real,
    nSteps: int,
    times: seq<real>,
    tradingDays: real)

  /** `[i * dt for i in range(n)]`; a non-positive `n` gives no times. */
  function Times(n: int, dt: real): seq<real> {
    seq(if n < 0 then 0 else n, i => i as real * dt)
  }

  /** `Calendar.__post_init__`, shared word for word by both versions of the
      grid. A zero `dt` or a zero step count divides by zero, as in Python. */
  function Build(start: int, end: int, dt: Option<real>, nSteps: Option<int>, tradingDays: real)
    : (r: Result<Calendar>)
    ensures dt.Some? && nSteps.Some? ==> r == Err(ValueError(BothStepSpecs))
    ensures dt.None? && nSteps.None? ==> r == Err(ValueError(MissingStepSpec))
    ensures r.Err? <==> dt.Some? == nSteps.Some? || dt == Some(0.0) || nSteps == Some(0)
    ensures dt == Some(0.0) && nSteps.None? ==> r == Err(ZeroDivisionError)
    ensures nSteps == Some(0) && dt.None? ==> r == Err(ZeroDivisionError)
    ensures r.Ok? ==>
      && r.value.start == start && r.value.end == end
      && r.value.tradingDays == tradingDays
      && |r.value.times| == (if r.value.nSteps < 0 then 0 else r.value.nSteps)
      && (forall i :: 0 <= i < |r.value.times| ==> r.value.times[i] == i as real * r.value.dt)
    ensures r.Ok? && dt.Some? ==> r.value.dt == dt.value
  {
    if dt.Some? && nSteps.Some? then Err(ValueError(BothStepSpecs))
    else if dt.None? && nSteps.None? then Err(ValueError(MissingStepSpec))
    else if dt.Some? then
      if dt.value == 0.0 then Err(ZeroDivisionError)
      else
        var n := Trunc(1.0 / dt.value) + 1;
        Ok(Calendar(start, end, dt.value, n, Times(n, dt.value), tradingDays))
    else
      var n := nSteps.value + 1;
      if n - 1 == 0 then Err(ZeroDivisionError)
      else
        var step := 1.0 / (n - 1) as real;
        Ok(Calendar(start, end, step, n, Times(n, step), tradingDays))
  }

  /** The dataclass constructor: an omitted `trading_days` is 365. */
  function NewCalendar(start: int, end: int, dt: Option<real>, nSteps: Option<int>, tradingDays: Option<real>)
    : (r: Result<Calendar>)
    ensures r.Ok? ==> r.value.tradingDays == (if tradingDays.Some? then tradingDays.value else 365.0)
    ensures r.Err? <==> dt.Some? == nSteps.Some? || dt == Some(0.0) || nSteps == Some(0)
  {
    Build(start, end, dt, nSteps, if tradingDays.Some? then tradingDays.value else DefaultTradingDays)
  }

  /** What every calendar built from a positive step or a positive step count
      satisfies: at least one time, evenly spaced by a positive `dt`, all in
      [0,1]. */
  predicate WellFormed(c: Calendar) {
    && c.dt > 0.0
    && c.nSteps >= 1
    && |c.times| == c.nSteps
    && (forall i :: 0 <= i < |c.times| ==> c.times[i] == i as real * c.dt)
    && (forall i :: 0 <= i < |c.times| ==> 0.0 <= c.times[i] <= 1.0)
  }

  lemma MulMonotone(a: real, b: real, k: real)
    requires a <= b && k >= 0.0
    ensures a * k <= b * k
  {
  }

  /** With `n_steps = n`, the stored count is `n + 1`, the step is `1/n`, and
      the times are `i/n`, running from exactly 0 to exactly 1. */
  lemma StepCountGrid(start: int, end: int, n: int, tradingDays: real)
    requires n >= 1
    ensures var r := Build(start, end, None, Some(n), tradingDays);
      && r.Ok?
      && r.value.nSteps == n + 1
      && r.value.dt == 1.0 / n as real
      && |r.value.times| == n + 1
      && (forall i :: 0 <= i <= n ==> r.value.times[i] == i as real / n as real)
      && r.value.times[0] == 0.0
      && r.value.times[n] == 1.0
      && WellFormed(r.value)
  {
    var step := 1.0 / n as real;
    StepCountBuild(start, end, n, tradingDays);
    StepCountTimes(n, step, Times(n + 1, step));
    assert Times(n + 1, step)[n] == n as real / n as real;
  }

  /** The calendar `Build` makes from a step count `n >= 1`. */
  lemma StepCountBuild(start: int, end: int, n: int, tradingDays: real)
    requires n >= 1
    ensures var step := 1.0 / n as real;
      Build(start, end, None, Some(n), tradingDays)
        == Ok(Calendar(start, end, step, n + 1, Times(n + 1, step), tradingDays))
  {
  }

  /** The `n + 1` multiples `ts` of `step = 1/n` are the fractions `i/n`,
      all in [0,1]. */
  lemma StepCountTimes(n: int, step: real, ts: seq<real>)
    requires n >= 1 && step == 1.0 / n as real && ts == Times(n + 1, step)
    ensures step > 0.0
    ensures n as real / n as real == 1.0
    ensures forall i :: 0 <= i <= n ==> ts[i] == i as real / n as real && 0.0 <= ts[i] <= 1.0
  {
    FractionOfCount(n, n);
    forall i | 0 <= i <= n
      ensures ts[i] == i as real / n as real && 0.0 <= ts[i] <= 1.0
    {
      FractionOfCount(i, n);
    }
  }

  /** `i * (1/n)` is `i/n`, which lies in [0,1] for `0 <= i <= n`. */
  lemma FractionOfCount(i: int, n: int)
    requires 0 <= i <= n && n >= 1
    ensures i as real * (1.0 / n as real) == i as real / n as real
    ensures 0.0 <= i as real / n as real <= 1.0
    ensures i == n ==> i as real / n as real == 1.0
    ensures 1.0 / n as real > 0.0
  {
  }

  /** With a positive `dt`, the count is `floor(1/dt) + 1`, every time
      `i * dt` lies in [0,1], and one more step would pass 1: the grid is the
      longest one that fits. */
  lemma FixedStepGrid(start: int, end: int, dt: real, tradingDays: real)
    requires dt > 0.0
    ensures var r := Build(start, end, Some(dt), None, tradingDays);
      && r.Ok?
      && r.value.nSteps == (1.0 / dt).Floor + 1
      && r.value.dt == dt
      && WellFormed(r.value)
      && r.value.nSteps as real > 1.0 / dt
  {
    var n := (1.0 / dt).Floor + 1;
    FixedStepFits(dt, n);
    var c := Calendar(start, end, dt, n, Times(n, dt), tradingDays);
    assert Build(start, end, Some(dt), None, tradingDays) == Ok(c);
    assert WellFormed(c);
  }

  /** `floor(1/dt) + 1` multiples of a positive `dt` fit in [0,1], one more
      does not. */
  lemma FixedStepFits(dt: real, n: int)
    requires dt > 0.0 && n == (1.0 / dt).Floor + 1
    ensures Trunc(1.0 / dt) + 1 == n && n >= 1
    ensures forall i :: 0 <= i < |Times(n, dt)| ==> 0.0 <= Times(n, dt)[i] <= 1.0
    ensures n as real > 1.0 / dt
  {
    var q := 1.0 / dt;
    var one := q * dt;
    assert one == 1.0;
    assert q > 0.0;
    assert n as real > q;
    forall i | 0 <= i < |Times(n, dt)|
      ensures 0.0 <= Times(n, dt)[i] <= 1.0
    {
      var x := i as real;
      assert x <= q;
      MulMonotone(x, q, dt);
      var y := x * dt;
      assert y <= one;
      MulMonotone(0.0, x, dt);
    }
  }

  /** `start + int(t * span)` for every time, before deduplication. */
  function RawDates(c: Calendar): (ds: seq<int>)
    ensures |ds| == |c.times|
  {
    seq(|c.times|, i requires 0 <= i < |c.times| => c.start + DayOffset(c.times[i], c.end - c.start))
  }

  /** On a well-formed grid whose start does not follow its end, the raw
      dates never decrease, so sorting them only merges equal neighbours. */
  lemma RawDatesNonDecreasing(c: Calendar)
    requires WellFormed(c) && c.start <= c.end
    ensures forall i, j :: 0 <= i <= j < |RawDates(c)| ==> RawDates(c)[i] <= RawDates(c)[j]
  {
    var ds := RawDates(c);
    forall i, j | 0 <= i <= j < |ds|
      ensures ds[i] <= ds[j]
    {
      var ti := c.times[i];
      var tj := c.times[j];
      GridTimesOrdered(i, j, c.dt, ti, tj);
      DayOffsetMonotone(ti, tj, c.end - c.start);
    }
  }

  /** The `i`-th multiple of a positive step is no later than the `j`-th
      for `i <= j`. */
  lemma GridTimesOrdered(i: nat, j: nat, dt: real, ti: real, tj: real)
    requires i <= j && dt > 0.0 && ti == i as real * dt && tj == j as real * dt
    ensures 0.0 <= ti <= tj
  {
    MulMonotone(0.0, i as real, dt);
    MulMonotone(i as real, j as real, dt);
  }

  /** A later time never covers fewer whole days of a non-negative span. */
  lemma DayOffsetMonotone(t1: real, t2: real, span: int)
    requires 0.0 <= t1 <= t2 && span >= 0
    ensures DayOffset(t1, span) <= DayOffset(t2, span)
  {
    MulMonotone(0.0, t1, span as real);
    MulMonotone(t1, t2, span as real);
    var a := t1 * span as real;
    var b := t2 * span as real;
    assert 0.0 <= a <= b;
  }

  /** `int(t * span)`: the whole days a fraction `t` of the span covers. */
  function DayOffset(t: real, span: int): int {
    Trunc(t * span as real)
  }

  /** `get_dates`: the grid dates, deduplicated by calendar day and sorted. */
  function Dates(c: Calendar): (ds: seq<int>)
    ensures StrictlyIncreasing(ds)
    ensures forall d :: d in ds <==> d in RawDates(c)
    ensures |ds| <= |c.times|
  {
    SortedUnique(RawDates(c))
  }

  lemma ScaledTimeWithinSpan(t: real, span: int)
    requires 0.0 <= t <= 1.0 && span >= 0
    ensures 0 <= DayOffset(t, span) <= span
  {
    assert 0.0 <= t * span as real <= 1.0 * span as real;
    assert (span as real).Floor == span;
  }

  /** When the start does not follow the end, the grid starts at the start
      date, stays inside [start, end], and is not empty. */
  lemma DatesWithinSpan(c: Calendar)
    requires WellFormed(c) && c.start <= c.end
    ensures |Dates(c)| >= 1
    ensures Dates(c)[0] == c.start
    ensures forall k :: 0 <= k < |Dates(c)| ==> c.start <= Dates(c)[k] <= c.end
  {
    var ds := Dates(c);
    var raw := RawDates(c);
    forall i | 0 <= i < |raw|
      ensures c.start <= raw[i] <= c.end
    {
      ScaledTimeWithinSpan(c.times[i], c.end - c.start);
    }
    assert c.times[0] == 0.0;
    assert raw[0] == c.start;
    assert c.start in raw;
    forall k | 0 <= k < |ds|
      ensures c.start <= ds[k] <= c.end
    {
      assert ds[k] in raw;
    }
    var k :| 0 <= k < |ds| && ds[k] == c.start;
    assert ds[0] in ds;
    assert ds[0] <= ds[k];
  }

  /** With a step count, the last time is exactly 1, so the grid ends on the
      end date. */
  lemma StepCountDatesReachEnd(start: int, end: int, n: int, tradingDays: real)
    requires n >= 1 && start <= end
    ensures var c := Build(start, end, None, Some(n), tradingDays).value;
      Dates(c)[|Dates(c)| - 1] == end
  {
    StepCountGrid(start, end, n, tradingDays);
    var c := Build(start, end, None, Some(n), tradingDays).value;
    DatesWithinSpan(c);
    var ds := Dates(c);
    assert c.times[n] == 1.0;
    assert (end - start) as real * 1.0 == (end - start) as real;
    assert RawDates(c)[n] == end;
    assert end in ds;
    var k :| 0 <= k < |ds| && ds[k] == end;
    assert ds[|ds| - 1] >= ds[k];
  }

  /** A day count in trading years. */
  function YearFraction(days: int, tradingDays: real): real
    requires tradingDays != 0.0
  {
    days as real / tradingDays
  }

  /** numpy's `diff(dates) / trading_days`. */
  function Gaps(ds: seq<int>, tradingDays: real): (g: seq<real>)
    requires tradingDays != 0.0
    ensures |g| == if |ds| == 0 then 0 else |ds| - 1
    ensures forall k :: 0 <= k < |g| ==> g[k] == YearFraction(ds[k + 1] - ds[k], tradingDays)
  {
    if |ds| <= 1 then [] else [YearFraction(ds[1] - ds[0], tradingDays)] + Gaps(ds[1..], tradingDays)
  }

  /** numpy's `insert(diff(dates) / trading_days, 0, 0.0)`: one year
      fraction per date, the first one 0 and each other one the day gap to
      the previous date in trading years. An empty date list has an empty
      difference, so the result is `[0.0]`. */
  function Increments(ds: seq<int>, tradingDays: real): (inc: seq<real>)
    requires tradingDays != 0.0
    ensures |ds| >= 1 ==> |inc| == |ds|
    ensures |ds| == 0 ==> inc == [0.0]
    ensures |inc| >= 1 && inc[0] == 0.0
    ensures forall k :: 1 <= k < |inc| ==> inc[k] == YearFraction(ds[k] - ds[k - 1], tradingDays)
  {
    var inc := [0.0] + Gaps(ds, tradingDays);
    assert forall k :: 1 <= k < |inc| ==> inc[k] == Gaps(ds, tradingDays)[k - 1];
    inc
  }

  lemma PositiveYearFraction(days: int, tradingDays: real)
    requires days > 0 && tradingDays > 0.0
    ensures YearFraction(days, tradingDays) > 0.0
  {
    var q := days as real / tradingDays;
    assert q * tradingDays == days as real;
  }

  /** Over strictly increasing dates and a positive trading-day count, every
      increment after the first is positive. */
  lemma IncrementsPositive(ds: seq<int>, tradingDays: real)
    requires tradingDays > 0.0 && StrictlyIncreasing(ds)
    ensures forall k :: 1 <= k < |Increments(ds, tradingDays)| ==> Increments(ds, tradingDays)[k] > 0.0
  {
    var inc := Increments(ds, tradingDays);
    forall k | 1 <= k < |inc|
      ensures inc[k] > 0.0
    {
      PositiveYearFraction(ds[k] - ds[k - 1], tradingDays);
    }
  }

  /** `get_time_dt`: the increments of the grid dates. */
  function TimeIncrements(c: Calendar): (inc: seq<real>)
    requires c.tradingDays != 0.0
    ensures |Dates(c)| >= 1 ==> |inc| == |Dates(c)|
    ensures |Dates(c)| == 0 ==> inc == [0.0]
    ensures |inc| >= 1 && inc[0] == 0.0
    ensures c.tradingDays > 0.0 ==> forall k :: 1 <= k < |inc| ==> inc[k] > 0.0
  {
    if c.tradingDays > 0.0 then
      IncrementsPositive(Dates(c), c.tradingDays);
      Increments(Dates(c), c.tradingDays)
    else
      Increments(Dates(c), c.tradingDays)
  }

  lemma YearFractionAdd(a: int, b: int, t: real)
    requires t != 0.0
    ensures YearFraction(a, t) + YearFraction(b, t) == YearFraction(a + b, t)
  {
  }

  lemma {:induction false} DifferencesTelescope(ds: seq<int>, tradingDays: real)
    requires tradingDays != 0.0 && |ds| >= 1
    ensures Sum(Gaps(ds, tradingDays)) == YearFraction(ds[|ds| - 1] - ds[0], tradingDays)
    decreases |ds|
  {
    if |ds| > 1 {
      DifferencesTelescope(ds[1..], tradingDays);
      YearFractionAdd(ds[1] - ds[0], ds[|ds| - 1] - ds[1], tradingDays);
    }
  }

  /** The increments add up to the span from the first to the last grid date
      in trading years; for a well-formed grid starting no later than it
      ends, that is the span from the start date. */
  lemma IncrementsSumToHorizon(c: Calendar)
    requires c.tradingDays != 0.0 && WellFormed(c) && c.start <= c.end
    ensures Sum(TimeIncrements(c)) == (Dates(c)[|Dates(c)| - 1] - c.start) as real / c.tradingDays
  {
    DatesWithinSpan(c);
    var ds := Dates(c);
    var inc := Increments(ds, c.tradingDays);
    DifferencesTelescope(ds, c.tradingDays);
    assert inc[1..] == Gaps(ds, c.tradingDays);
    assert Sum(inc) == YearFraction(ds[|ds| - 1] - c.start, c.tradingDays);
  }

  /** The index of the first date at minimal distance from `d`: Python's
      `min(..., key=abs distance)`, which keeps the first minimum. */
  function NearestIndex(ds: seq<int>, d: int): (i: nat)
    requires |ds| > 0
    ensures i < |ds|
    ensures forall j :: 0 <= j < |ds| ==> Dist(ds[i], d) <= Dist(ds[j], d)
    ensures forall j :: 0 <= j < i ==> Dist(ds[j], d) > Dist(ds[i], d)
  {
    if |ds| == 1 then 0
    else
      var k := NearestIndex(ds[..|ds| - 1], d);
      if Dist(ds[|ds| - 1], d) < Dist(ds[k], d) then |ds| - 1 else k
  }

  /** `get_nearest_time_index`: the grid date closest to `d`, the earlier
      one on a tie; `min` of an empty grid raises a ValueError. */
  function NearestDate(c: Calendar, d: int): (r: Result<int>)
    ensures |Dates(c)| == 0 <==> r == Err(ValueError(EmptyArgument))
    ensures r.Ok? ==> r.value in Dates(c)
    ensures r.Ok? ==> forall g :: g in Dates(c) ==> Dist(r.value, d) <= Dist(g, d)
    ensures r.Ok? ==> forall g :: g in Dates(c) && g < r.value ==> Dist(g, d) > Dist(r.value, d)
  {
    var ds := Dates(c);
    if |ds| == 0 then Err(ValueError(EmptyArgument))
    else Ok(ds[NearestIndex(ds, d)])
  }

  /** Snapping a date that is already on the grid leaves it unchanged. */
  lemma NearestOfGridDate(c: Calendar, d: int)
    requires d in Dates(c)
    ensures NearestDate(c, d) == Ok(d)
  {
    var r := NearestDate(c, d).value;
    assert Dist(r, d) <= Dist(d, d);
  }
}
