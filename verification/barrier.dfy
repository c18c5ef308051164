/** The barrier feature of `C_Vanilla_V1/Barrier.py`: observation dates
    snapped to the nearest grid date, and the path columns at those dates.
    The barrier's terms are stored as given; nothing here evaluates the
    barrier. */
module Barriers {
  import opened Wrappers
  import opened Seqs
  import TimeGrid

  /** `barrier_mecanism` and `barrier_exercise`: these mirror the values the
      source lists. The source never checks a barrier against them, so no
      member of this model reads them either. */
  const Mechanisms: seq<string> := ["U&I", "U&O", "D&I", "D&O"]
  const Exercises: seq<string> := ["EU", "US"]

  /** A two-dimensional array of path values: one row per scenario, `cols`
      columns (time steps). */
  datatype Matrix = Matrix(cols: nat, rows: seq<seq<real>>)

  predicate Rectangular(m: Matrix) {
    forall r :: 0 <= r < |m.rows| ==> |m.rows[r]| == m.cols
  }

  datatype Barrier = Barrier(
    start: int,
    end: int,
    mechanism: string,
    exercise: string,
    valueMethod: string,
    level: real,
    spot: real,
    paths: Matrix,
    observationDates: Option<seq<int>>,
    calendar: Option<TimeGrid.Calendar>)

  /** The loop of `update_observation_dates` as a whole: every observation
      date replaced by the nearest grid date. `min` over an empty grid raises
      on the first date, so only a non-empty list can fail. */
  function SnapAll(c: TimeGrid.Calendar, obs: seq<int>): (r: Result<seq<int>>)
    ensures r.Err? <==> |obs| > 0 && |TimeGrid.Dates(c)| == 0
    ensures r.Err? ==> r.error == ValueError(EmptyArgument)
    ensures r.Ok? ==> |r.value| == |obs|
    ensures r.Ok? ==> forall j :: 0 <= j < |obs| ==>
      && r.value[j] in TimeGrid.Dates(c)
      && TimeGrid.NearestDate(c, obs[j]) == Ok(r.value[j])
  {
    if |obs| == 0 then Ok([])
    else if |TimeGrid.Dates(c)| == 0 then Err(ValueError(EmptyArgument))
    else Ok(seq(|obs|, j requires 0 <= j < |obs| => TimeGrid.NearestDate(c, obs[j]).value))
  }

  /** Dates already on the grid stay put; the others move to the grid date
      nearest to them (the earlier one on a tie). */
  lemma SnapKeepsGridDates(c: TimeGrid.Calendar, obs: seq<int>)
    requires SnapAll(c, obs).Ok?
    ensures forall j :: 0 <= j < |obs| && obs[j] in TimeGrid.Dates(c) ==> SnapAll(c, obs).value[j] == obs[j]
    ensures forall j, g :: 0 <= j < |obs| && g in TimeGrid.Dates(c) ==>
      Dist(SnapAll(c, obs).value[j], obs[j]) <= Dist(g, obs[j])
  {
    forall j | 0 <= j < |obs| && obs[j] in TimeGrid.Dates(c)
      ensures SnapAll(c, obs).value[j] == obs[j]
    {
      TimeGrid.NearestOfGridDate(c, obs[j]);
    }
  }

  /** Snapping is idempotent: a snapped list snaps to itself. */
  lemma SnapIdempotent(c: TimeGrid.Calendar, obs: seq<int>)
    requires SnapAll(c, obs).Ok?
    ensures SnapAll(c, SnapAll(c, obs).value) == SnapAll(c, obs)
  {
    var s := SnapAll(c, obs).value;
    if |s| > 0 {
      assert s[0] in TimeGrid.Dates(c);
      forall j | 0 <= j < |s|
        ensures TimeGrid.NearestDate(c, s[j]) == Ok(s[j])
      {
        TimeGrid.NearestOfGridDate(c, s[j]);
      }
      assert SnapAll(c, s).value == s;
    }
  }

  /** `update_observation_dates` on the list object itself: each date that
      differs from its nearest grid date is overwritten in place. */
  method SnapInPlace(c: TimeGrid.Calendar, obs: array<int>) returns (r: Result<()>)
    modifies obs
    ensures r.Ok? <==> SnapAll(c, old(obs[..])).Ok?
    ensures r.Ok? ==> obs[..] == SnapAll(c, old(obs[..])).value
    ensures r.Err? ==> r.error == ValueError(EmptyArgument) && obs[..] == old(obs[..])
  {
    ghost var original := obs[..];
    var t := 0;
    while t < obs.Length
      invariant 0 <= t <= obs.Length
      invariant obs[t..] == original[t..]
      invariant forall j :: 0 <= j < t ==> TimeGrid.NearestDate(c, original[j]) == Ok(obs[j])
      invariant t > 0 ==> |TimeGrid.Dates(c)| > 0
    {
      var nearest := TimeGrid.NearestDate(c, obs[t]);
      if nearest.Err? {
        assert obs[..] == original;
        return Err(nearest.error);
      }
      if nearest.value != obs[t] {
        obs[t] := nearest.value;
      }
      assert obs[t + 1..] == original[t + 1..];
      t := t + 1;
    }
    if t > 0 {
      assert SnapAll(c, original).value == obs[..];
    }
    r := Ok(());
  }

  /** `Barrier_Feature.__init__`: the terms and paths are stored as given.
      Without a calendar or without observation dates both are stored as
      missing; otherwise the dates are snapped at once. */
  function NewBarrier(start: int, end: int, mechanism: string, exercise: string, level: real, spot: real,
                      valueMethod: string, paths: Matrix, observationDates: Option<seq<int>>,
                      calendar: Option<TimeGrid.Calendar>)
    : (r: Result<Barrier>)
    ensures calendar.None? || observationDates.None? ==>
      r.Ok? && r.value.calendar.None? && r.value.observationDates.None?
    ensures calendar.Some? && observationDates.Some? ==>
      && (r.Ok? <==> SnapAll(calendar.value, observationDates.value).Ok?)
      && (r.Err? ==> r.error == ValueError(EmptyArgument))
      && (r.Ok? ==>
            && r.value.calendar == calendar
            && r.value.observationDates == Some(SnapAll(calendar.value, observationDates.value).value))
    ensures r.Ok? ==>
      && r.value.start == start && r.value.end == end
      && r.value.mechanism == mechanism && r.value.exercise == exercise
      && r.value.level == level && r.value.spot == spot
      && r.value.valueMethod == valueMethod && r.value.paths == paths
  {
    if calendar.None? || observationDates.None? then
      Ok(Barrier(start, end, mechanism, exercise, valueMethod, level, spot, paths, None, None))
    else
      var snapped :- SnapAll(calendar.value, observationDates.value);
      Ok(Barrier(start, end, mechanism, exercise, valueMethod, level, spot, paths, Some(snapped), calendar))
  }

  /** `update_observation_dates` on a stored barrier. */
  function UpdateObservationDates(b: Barrier): (r: Result<Barrier>)
    ensures b.calendar.None? || b.observationDates.None? ==> r == Err(ValueError(MissingCalendarOrDates))
    ensures b.calendar.Some? && b.observationDates.Some? ==>
      && (r.Ok? <==> SnapAll(b.calendar.value, b.observationDates.value).Ok?)
      && (r.Ok? ==> r.value == b.(observationDates := Some(SnapAll(b.calendar.value, b.observationDates.value).value)))
  {
    if b.calendar.None? || b.observationDates.None? then Err(ValueError(MissingCalendarOrDates))
    else
      var snapped :- SnapAll(b.calendar.value, b.observationDates.value);
      Ok(b.(observationDates := Some(snapped)))
  }

  /** Updating a barrier that the constructor already snapped changes
      nothing. */
  lemma UpdateAfterConstructionIsNoOp(start: int, end: int, mechanism: string, exercise: string, level: real,
                                      spot: real, valueMethod: string, paths: Matrix, obs: seq<int>,
                                      calendar: TimeGrid.Calendar)
    requires NewBarrier(start, end, mechanism, exercise, level, spot, valueMethod, paths, Some(obs), Some(calendar)).Ok?
    ensures var b := NewBarrier(start, end, mechanism, exercise, level, spot, valueMethod, paths, Some(obs), Some(calendar)).value;
      UpdateObservationDates(b) == Ok(b)
  {
    SnapIdempotent(calendar, obs);
  }

  /** `[get_dates.index(d) for d in observation_dates]`: the grid position
      of every date, or the `ValueError` of the first absent one. */
  function GridIndices(grid: seq<int>, obs: seq<int>): (r: Result<seq<nat>>)
    ensures r.Err? <==> exists j :: 0 <= j < |obs| && obs[j] !in grid
    ensures r.Err? ==> r.error == ValueError(NotInList)
    ensures r.Ok? ==> |r.value| == |obs|
    ensures r.Ok? ==> forall j :: 0 <= j < |obs| ==> r.value[j] < |grid| && grid[r.value[j]] == obs[j]
    ensures r.Ok? ==> forall j :: 0 <= j < |obs| ==> r.value[j] == IndexOf(grid, obs[j])
  {
    if exists j :: 0 <= j < |obs| && obs[j] !in grid then Err(ValueError(NotInList))
    else Ok(seq(|obs|, j requires 0 <= j < |obs| => IndexOf(grid, obs[j])))
  }

  /** `paths[:, indices]`: the listed columns, in the listed order, for
      every row; an index past the last column raises. */
  function SelectColumns(m: Matrix, indices: seq<nat>): (r: Result<Matrix>)
    requires Rectangular(m)
    ensures r.Err? <==> exists j :: 0 <= j < |indices| && indices[j] >= m.cols
    ensures r.Err? ==> r.error == IndexError
    ensures r.Ok? ==> r.value.cols == |indices| && |r.value.rows| == |m.rows| && Rectangular(r.value)
    ensures r.Ok? ==> forall row, j :: 0 <= row < |m.rows| && 0 <= j < |indices| ==>
      r.value.rows[row][j] == m.rows[row][indices[j]]
  {
    if exists j :: 0 <= j < |indices| && indices[j] >= m.cols then Err(IndexError)
    else Ok(Matrix(|indices|, seq(|m.rows|, row requires 0 <= row < |m.rows| =>
      seq(|indices|, j requires 0 <= j < |indices| => m.rows[row][indices[j]]))))
  }

  predicate OnGrid(grid: seq<int>, obs: seq<int>) {
    forall j :: 0 <= j < |obs| ==> obs[j] in grid
  }

  /** Every observation date's grid position is a column of the matrix. */
  predicate ColumnsExist(grid: seq<int>, obs: seq<int>, cols: nat)
    requires OnGrid(grid, obs)
  {
    forall j :: 0 <= j < |obs| ==> IndexOf(grid, obs[j]) < cols
  }

  /** The columns of `m` at the grid positions of the dates `obs`: a date
      off the grid raises `ValueError` before any column is read, a position
      past the last column then raises `IndexError`. */
  function ColumnsAt(grid: seq<int>, obs: seq<int>, m: Matrix): (r: Result<Matrix>)
    requires Rectangular(m)
    ensures !OnGrid(grid, obs) ==> r == Err(ValueError(NotInList))
    ensures OnGrid(grid, obs) ==> (r.Ok? <==> ColumnsExist(grid, obs, m.cols))
    ensures OnGrid(grid, obs) && !ColumnsExist(grid, obs, m.cols) ==> r == Err(IndexError)
    ensures r.Ok? ==> r.value.cols == |obs| && |r.value.rows| == |m.rows| && Rectangular(r.value)
    ensures r.Ok? ==> OnGrid(grid, obs) && forall row, j :: 0 <= row < |m.rows| && 0 <= j < |obs| ==>
      r.value.rows[row][j] == m.rows[row][IndexOf(grid, obs[j])]
  {
    var indices :- GridIndices(grid, obs);
    SelectColumns(m, indices)
  }

  /** `reduce_to_strike_dates`: the path columns at the observation dates,
      which needs both the calendar and the dates. */
  function ReduceToStrikeDates(b: Barrier): (r: Result<Matrix>)
    requires Rectangular(b.paths)
    ensures b.calendar.None? || b.observationDates.None? ==> r == Err(ValueError(MissingCalendarOrDates))
    ensures b.calendar.Some? && b.observationDates.Some? ==>
      r == ColumnsAt(TimeGrid.Dates(b.calendar.value), b.observationDates.value, b.paths)
  {
    if b.calendar.None? || b.observationDates.None? then Err(ValueError(MissingCalendarOrDates))
    else ColumnsAt(TimeGrid.Dates(b.calendar.value), b.observationDates.value, b.paths)
  }

  /** Equal observation dates select equal columns. */
  lemma DuplicateDatesDuplicateColumns(b: Barrier, j1: nat, j2: nat)
    requires Rectangular(b.paths) && ReduceToStrikeDates(b).Ok?
    requires b.observationDates.Some? && j1 < |b.observationDates.value| && j2 < |b.observationDates.value|
    requires b.observationDates.value[j1] == b.observationDates.value[j2]
    ensures var m := ReduceToStrikeDates(b).value;
      forall row :: 0 <= row < |m.rows| ==> m.rows[row][j1] == m.rows[row][j2]
  {
  }

  /** A barrier built with a calendar and dates always reduces: snapping
      puts every date on the grid, so each has a position, and a path
      matrix with a column per grid date has every such position. */
  lemma SnappedBarrierReduces(start: int, end: int, mechanism: string, exercise: string, level: real,
                              spot: real, valueMethod: string, paths: Matrix, obs: seq<int>,
                              calendar: TimeGrid.Calendar)
    requires Rectangular(paths) && paths.cols >= |TimeGrid.Dates(calendar)|
    requires NewBarrier(start, end, mechanism, exercise, level, spot, valueMethod, paths, Some(obs), Some(calendar)).Ok?
    ensures var b := NewBarrier(start, end, mechanism, exercise, level, spot, valueMethod, paths, Some(obs), Some(calendar)).value;
      && ReduceToStrikeDates(b).Ok?
      && ReduceToStrikeDates(b).value.cols == |obs|
  {
    var b := NewBarrier(start, end, mechanism, exercise, level, spot, valueMethod, paths, Some(obs), Some(calendar)).value;
    var grid := TimeGrid.Dates(calendar);
    var snapped := b.observationDates.value;
    assert forall j :: 0 <= j < |snapped| ==> snapped[j] in grid;
    assert OnGrid(grid, snapped);
    assert ColumnsExist(grid, snapped, paths.cols);
  }
}
