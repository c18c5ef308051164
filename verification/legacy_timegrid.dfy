/** The earlier time grid of `Model_V1/timegrid.py`. Its `__post_init__` is
    the one of `TimeGrid.Build`, but its default trading-day count is 252 and
    its dates are `start + int(t * trading_days)`: no deduplication, no
    sorting, and the end date plays no part. */
module LegacyTimeGrid {
  import opened Wrappers
  import opened Seqs
  import TimeGrid

  /** The `trading_days` default of `Model_V1/timegrid.py`. */
  const DefaultTradingDays: real := 252.0

  /** The dataclass constructor with its own default. A positive step count
      `n` is stored as `n + 1` with step `1/n` and times starting at 0. */
  function NewCalendar(start: int, end: int, dt: Option<real>, nSteps: Option<int>, tradingDays: Option<real>)
    : (r: Result<TimeGrid.Calendar>)
    ensures dt.Some? && nSteps.Some? ==> r == Err(ValueError(BothStepSpecs))
    ensures dt.None? && nSteps.None? ==> r == Err(ValueError(MissingStepSpec))
    ensures r.Ok? ==> r.value.tradingDays == (if tradingDays.Some? then tradingDays.value else 252.0)
    ensures dt.None? && nSteps.Some? && nSteps.value >= 1 ==>
      && r.Ok?
      && r.value.nSteps == nSteps.value + 1
      && r.value.dt == 1.0 / nSteps.value as real
      && |r.value.times| == nSteps.value + 1
      && r.value.times[0] == 0.0
  {
    var td := if tradingDays.Some? then tradingDays.value else DefaultTradingDays;
    if dt.None? && nSteps.Some? && nSteps.value >= 1 then
      TimeGrid.StepCountGrid(start, end, nSteps.value, td);
      TimeGrid.Build(start, end, dt, nSteps, td)
    else
      TimeGrid.Build(start, end, dt, nSteps, td)
  }

  /** `int(t * trading_days)`: the whole days a fraction `t` of the
      trading-day count covers. */
  function DayOffset(t: real, days: real): int {
    Trunc(t * days)
  }

  /** `get_dates`: one date per time, `start + int(t * trading_days)`. */
  function Dates(c: TimeGrid.Calendar): (ds: seq<int>)
    ensures |ds| == |c.times|
  {
    seq(|c.times|, i requires 0 <= i < |c.times| => c.start + DayOffset(c.times[i], c.tradingDays))
  }

  lemma OffsetMonotone(t1: real, t2: real, days: real)
    requires 0.0 <= t1 <= t2 && days >= 0.0
    ensures 0 <= DayOffset(t1, days) <= DayOffset(t2, days)
  {
    TimeGrid.MulMonotone(0.0, t1, days);
    TimeGrid.MulMonotone(t1, t2, days);
    var a := t1 * days;
    var b := t2 * days;
    assert 0.0 <= a <= b;
  }

  lemma OffsetAtMostDays(t: real, days: real)
    requires 0.0 <= t <= 1.0 && days >= 0.0
    ensures DayOffset(t, days) <= days.Floor
  {
    TimeGrid.MulMonotone(t, 1.0, days);
    var a := t * days;
    assert a <= days;
  }

  /** For a well-formed grid and a non-negative trading-day count: one date
      per time, the first one the start date, never decreasing, and all
      within `trading_days` whole days of the start. */
  lemma DatesShape(c: TimeGrid.Calendar)
    requires TimeGrid.WellFormed(c) && c.tradingDays >= 0.0
    ensures |Dates(c)| == c.nSteps >= 1
    ensures Dates(c)[0] == c.start
    ensures NonDecreasing(Dates(c))
    ensures forall i :: 0 <= i < |Dates(c)| ==> c.start <= Dates(c)[i] <= c.start + c.tradingDays.Floor
  {
    var ds := Dates(c);
    assert c.times[0] == 0.0;
    assert ds[0] == c.start + DayOffset(0.0, c.tradingDays);
    forall i, j | 0 <= i <= j < |ds|
      ensures ds[i] <= ds[j]
    {
      TimeGrid.MulMonotone(i as real, j as real, c.dt);
      OffsetMonotone(c.times[i], c.times[j], c.tradingDays);
    }
    forall i | 0 <= i < |ds|
      ensures c.start <= ds[i] <= c.start + c.tradingDays.Floor
    {
      OffsetMonotone(0.0, c.times[i], c.tradingDays);
      OffsetAtMostDays(c.times[i], c.tradingDays);
    }
  }

  /** The end date is never read: calendars that differ only in their end
      date have the same dates. */
  lemma DatesIgnoreEnd(start: int, end1: int, end2: int, dt: Option<real>, nSteps: Option<int>, tradingDays: Option<real>)
    ensures NewCalendar(start, end1, dt, nSteps, tradingDays).Ok?
        == NewCalendar(start, end2, dt, nSteps, tradingDays).Ok?
    ensures NewCalendar(start, end1, dt, nSteps, tradingDays).Ok? ==>
      Dates(NewCalendar(start, end1, dt, nSteps, tradingDays).value)
        == Dates(NewCalendar(start, end2, dt, nSteps, tradingDays).value)
  {
  }
}
