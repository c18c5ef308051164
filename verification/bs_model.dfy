/** The Black-Scholes engine of `B_Model_V1/bs_model.py`: validated market
    parameters per underlying, the portfolio, how the model wires its path
    block, and the log-path arithmetic of `apply_bs_value` and
    `apply_bs_percentage`.

    `log`, `exp`, `sqrt` and `round(., 6)` are not interpreted: they are
    the fields of a `Numerics` value the caller supplies. */
module BlackScholes {
  import opened Wrappers
  import opened Seqs
  import TimeGrid
  import PathBlocks

  /** `accuracy_float`: the decimals `np.round` keeps. This mirrors the
      source value only: rounding is the `Numerics.round` parameter, which
      stands for `np.round(., AccuracyDigits)`, so no member reads it. */
  const AccuracyDigits: nat := 6

  /** numpy's `log`, `exp`, `sqrt` and `round(., AccuracyDigits)`. */
  datatype Numerics = Numerics(
    log: real -> real,
    exp: real -> real,
    sqrt: real -> real,
    round: real -> real)

  datatype UnderlyingParams = UnderlyingParams(isin: string, spot: real, vol: real, rate: real, div: real)

  predicate ValidParams(p: UnderlyingParams) {
    && p.spot > 0.0
    && p.vol >= 0.0
    && -1.0 <= p.rate <= 1.0
    && -1.0 <= p.div <= 1.0
  }

  /** `UnderlyingParams.__post_init__`: spot, then volatility, then rate,
      then dividend yield; the first violated bound raises. Zero volatility
      and the rate and dividend endpoints -1 and 1 are accepted. */
  function NewUnderlyingParams(isin: string, spot: real, vol: real, rate: real, div: real)
    : (r: Result<UnderlyingParams>)
    ensures spot <= 0.0 ==> r == Err(ValueError(NonPositiveSpot))
    ensures spot > 0.0 && vol < 0.0 ==> r == Err(ValueError(NegativeVol))
    ensures spot > 0.0 && vol >= 0.0 && !(-1.0 <= rate <= 1.0) ==> r == Err(ValueError(RateOutOfRange))
    ensures spot > 0.0 && vol >= 0.0 && -1.0 <= rate <= 1.0 && !(-1.0 <= div <= 1.0) ==>
      r == Err(ValueError(DivOutOfRange))
    ensures r.Ok? <==> ValidParams(UnderlyingParams(isin, spot, vol, rate, div))
    ensures r.Ok? ==> r.value == UnderlyingParams(isin, spot, vol, rate, div)
  {
    if spot <= 0.0 then Err(ValueError(NonPositiveSpot))
    else if vol < 0.0 then Err(ValueError(NegativeVol))
    else if !(-1.0 <= rate <= 1.0) then Err(ValueError(RateOutOfRange))
    else if !(-1.0 <= div <= 1.0) then Err(ValueError(DivOutOfRange))
    else Ok(UnderlyingParams(isin, spot, vol, rate, div))
  }

  /** One item of the `underlyings` dict; the portfolio is the dict's items
      in iteration (insertion) order. */
  datatype Entry = Entry(key: string, params: UnderlyingParams)

  /** `PortfolioParams.__post_init__`: an empty mapping raises. */
  function NewPortfolio(underlyings: seq<Entry>): (r: Result<seq<Entry>>)
    ensures r.Err? <==> |underlyings| == 0
    ensures r.Err? ==> r.error == ValueError(EmptyPortfolio)
    ensures r.Ok? ==> r.value == underlyings
  {
    if |underlyings| == 0 then Err(ValueError(EmptyPortfolio)) else Ok(underlyings)
  }

  datatype BSModel = BSModel(
    config: PathBlocks.SimulationConfig,
    underlyings: seq<Entry>,
    paths: PathBlocks.PathBlock)

  /** `BS_Model.__post_init__`: validate the simulation settings, then the
      portfolio, then build the path block with one scenario per path, the
      calendar's step count, one dimension per underlying, and the
      configured antithetic flag and seed. The model inherits the settings'
      defaults, so an omitted flag (`None`) means antithetic sampling. */
  function NewModel(calendar: TimeGrid.Calendar, nPaths: int, seed: PathBlocks.Seed, antithetic: Option<bool>,
                    underlyings: seq<Entry>, z: nat -> real)
    : (r: Result<BSModel>)
    ensures PathBlocks.NewConfig(calendar, nPaths, seed, antithetic).Err? ==>
      r == Err(PathBlocks.NewConfig(calendar, nPaths, seed, antithetic).error)
    ensures PathBlocks.NewConfig(calendar, nPaths, seed, antithetic).Ok? && |underlyings| == 0 ==>
      r == Err(ValueError(EmptyPortfolio))
    ensures r.Ok? ==>
      && r.value.config == PathBlocks.SimulationConfig(calendar, nPaths, seed,
                                                       if antithetic.Some? then antithetic.value else true)
      && r.value.underlyings == underlyings
      && r.value.paths.nSim == nPaths
      && r.value.paths.nSteps == calendar.nSteps
      && r.value.paths.d == |underlyings|
      && r.value.paths.antithetic == r.value.config.antithetic
      && r.value.paths.seed == seed
      && PathBlocks.NewPathBlock(nPaths, calendar.nSteps, |underlyings|, seed, Some(r.value.config.antithetic), z)
         == Ok(r.value.paths)
    ensures PathBlocks.NewConfig(calendar, nPaths, seed, antithetic).Ok? && |underlyings| > 0 ==>
      (r.Err? <==> PathBlocks.NewPathBlock(nPaths, calendar.nSteps, |underlyings|, seed, antithetic, z).Err?)
  {
    var config :- PathBlocks.NewConfig(calendar, nPaths, seed, antithetic);
    var portfolio :- NewPortfolio(underlyings);
    var block :- PathBlocks.NewPathBlock(nPaths, calendar.nSteps, |portfolio|, seed, Some(config.antithetic), z);
    Ok(BSModel(config, portfolio, block))
  }

  /** What a built model guarantees about its draws: the tensor has the
      block's shape, one dimension per underlying, one step per grid point,
      a zero first step, and mirrored halves in antithetic mode. */
  predicate Consistent(m: BSModel) {
    && m.paths.nSim >= 0 && m.paths.nSteps >= 1 && m.paths.d >= 0
    && PathBlocks.Shape(m.paths.normals, m.paths.nSim, m.paths.nSteps, m.paths.d)
    && m.paths.d == |m.underlyings|
    && m.paths.nSteps == m.config.calendar.nSteps
    && (forall i, k :: 0 <= i < m.paths.nSim && 0 <= k < m.paths.d ==> m.paths.normals[i][0][k] == 0.0)
    && (m.paths.antithetic ==>
          PathBlocks.Mirrored(m.paths.normals, m.paths.nSim))
  }

  /** Every model `NewModel` builds is consistent. */
  lemma NewModelConsistent(calendar: TimeGrid.Calendar, nPaths: int, seed: PathBlocks.Seed, antithetic: Option<bool>,
                           underlyings: seq<Entry>, z: nat -> real)
    requires NewModel(calendar, nPaths, seed, antithetic, underlyings, z).Ok?
    ensures Consistent(NewModel(calendar, nPaths, seed, antithetic, underlyings, z).value)
  {
    if NewModel(calendar, nPaths, seed, antithetic, underlyings, z).value.config.antithetic {
      PathBlocks.AntitheticPairs(nPaths, calendar.nSteps, |underlyings|, seed, z);
    }
  }

  /** A model over a calendar with a positive step count (or step) and a
      valid seed is always built. */
  lemma NewModelSucceeds(calendar: TimeGrid.Calendar, nPaths: int, seed: PathBlocks.Seed, antithetic: Option<bool>,
                         underlyings: seq<Entry>, z: nat -> real)
    requires TimeGrid.WellFormed(calendar) && nPaths > 0 && |underlyings| > 0
    requires seed.NoSeed? || (seed.IntSeed? && 0 <= seed.n < PathBlocks.SeedBound)
    ensures NewModel(calendar, nPaths, seed, antithetic, underlyings, z).Ok?
  {
  }

  // The per-underlying vectors, all read in the same portfolio order.

  function Spots(u: seq<Entry>): (v: seq<real>)
    ensures |v| == |u|
    ensures forall k :: 0 <= k < |u| ==> v[k] == u[k].params.spot
  {
    seq(|u|, k requires 0 <= k < |u| => u[k].params.spot)
  }

  function Vols(u: seq<Entry>): (v: seq<real>)
    ensures |v| == |u|
    ensures forall k :: 0 <= k < |u| ==> v[k] == u[k].params.vol
  {
    seq(|u|, k requires 0 <= k < |u| => u[k].params.vol)
  }

  function Rates(u: seq<Entry>): (v: seq<real>)
    ensures |v| == |u|
    ensures forall k :: 0 <= k < |u| ==> v[k] == u[k].params.rate
  {
    seq(|u|, k requires 0 <= k < |u| => u[k].params.rate)
  }

  function Divs(u: seq<Entry>): (v: seq<real>)
    ensures |v| == |u|
    ensures forall k :: 0 <= k < |u| ==> v[k] == u[k].params.div
  {
    seq(|u|, k requires 0 <= k < |u| => u[k].params.div)
  }

  /** `rates - divs - 0.5 * vols ** 2`, elementwise. */
  function Drifts(u: seq<Entry>): (m: seq<real>)
    ensures |m| == |u|
    ensures forall k :: 0 <= k < |u| ==>
      m[k] == u[k].params.rate - u[k].params.div - 0.5 * u[k].params.vol * u[k].params.vol
  {
    var vols := Vols(u);
    var rates := Rates(u);
    var divs := Divs(u);
    seq(|u|, k requires 0 <= k < |u| => rates[k] - divs[k] - 0.5 * vols[k] * vols[k])
  }

  /** Entry `k` of every vector belongs to the same underlying: the drift at
      `k` is the risk-neutral drift of the `k`-th entry, whose spot, vol,
      rate and dividend sit at `k` in the other vectors. Reordering the
      portfolio reorders all the vectors alike. */
  lemma VectorsAligned(u: seq<Entry>, perm: seq<nat>)
    requires |perm| == |u| && forall j :: 0 <= j < |perm| ==> perm[j] < |u|
    ensures forall k :: 0 <= k < |u| ==>
      && Drifts(u)[k] == u[k].params.rate - u[k].params.div - 0.5 * u[k].params.vol * u[k].params.vol
      && Spots(u)[k] == u[k].params.spot
      && Vols(u)[k] == u[k].params.vol
    ensures var v := seq(|perm|, j requires 0 <= j < |perm| => u[perm[j]]);
      forall j :: 0 <= j < |perm| ==>
        && Drifts(v)[j] == Drifts(u)[perm[j]]
        && Spots(v)[j] == Spots(u)[perm[j]]
        && Vols(v)[j] == Vols(u)[perm[j]]
  {
  }

  /** The step length numpy pairs with step `t` when the increment vector
      is broadcast against the step axis: its own entry, or the single
      entry of a length-one vector. */
  function StepAt(dt: seq<real>, t: nat): real
    requires |dt| >= 1 && (|dt| == 1 || t < |dt|)
  {
    if |dt| == 1 then dt[0] else dt[t]
  }

  /** `outer(dt, drifts) + outer(sqrt(dt), vols) * Z`: the log-return of
      every (scenario, step, underlying). */
  function LogIncrements(dt: seq<real>, drifts: seq<real>, vols: seq<real>, sqrt: real -> real,
                         z: PathBlocks.Tensor, nSteps: nat, d: nat)
    : (inc: PathBlocks.Tensor)
    requires |dt| == nSteps || |dt| == 1
    requires |drifts| == d && |vols| == d
    requires PathBlocks.Shape(z, |z|, nSteps, d)
    ensures PathBlocks.Shape(inc, |z|, nSteps, d)
    ensures forall i, t, k {:trigger inc[i][t][k]} :: 0 <= i < |z| && 0 <= t < nSteps && 0 <= k < d ==>
      inc[i][t][k] == StepAt(dt, t) * drifts[k] + sqrt(StepAt(dt, t)) * vols[k] * z[i][t][k]
  {
    seq(|z|, i requires 0 <= i < |z| =>
      seq(nSteps, t requires 0 <= t < nSteps =>
        seq(d, k requires 0 <= k < d =>
          StepAt(dt, t) * drifts[k] + sqrt(StepAt(dt, t)) * vols[k] * z[i][t][k])))
  }

  /** The values of one underlying `k` across the steps of one scenario. */
  function Column(row: seq<seq<real>>, k: nat): (col: seq<real>)
    requires forall t :: 0 <= t < |row| ==> k < |row[t]|
    ensures |col| == |row|
    ensures forall t :: 0 <= t < |row| ==> col[t] == row[t][k]
  {
    seq(|row|, t requires 0 <= t < |row| => row[t][k])
  }

  /** `cumsum(., axis=1)`: running totals along the step axis, separately
      for every scenario and underlying. */
  function CumSumSteps(a: PathBlocks.Tensor, nSteps: nat, d: nat): (c: PathBlocks.Tensor)
    requires PathBlocks.Shape(a, |a|, nSteps, d)
    ensures PathBlocks.Shape(c, |a|, nSteps, d)
    ensures forall i, t, k {:trigger c[i][t][k]} :: 0 <= i < |a| && 0 <= t < nSteps && 0 <= k < d ==>
      c[i][t][k] == RunningSum(0.0, Column(a[i], k))[t]
  {
    seq(|a|, i requires 0 <= i < |a| =>
      seq(nSteps, t requires 0 <= t < nSteps =>
        seq(d, k requires 0 <= k < d => RunningSum(0.0, Column(a[i], k))[t])))
  }

  /** The model's cumulative log-returns before rounding, or the broadcast
      error numpy raises when the increment vector fits neither the step
      count nor length one. */
  function CumulativeLogReturns(m: BSModel, sqrt: real -> real): (r: Result<PathBlocks.Tensor>)
    requires m.config.calendar.tradingDays != 0.0
    requires Consistent(m)
    ensures r.Err? <==> |TimeGrid.TimeIncrements(m.config.calendar)| !in {m.paths.nSteps, 1}
    ensures r.Err? ==> r.error == ValueError(BroadcastMismatch)
    ensures r.Ok? ==> PathBlocks.Shape(r.value, m.paths.nSim, m.paths.nSteps, m.paths.d)
  {
    var dt := TimeGrid.TimeIncrements(m.config.calendar);
    if |dt| != m.paths.nSteps && |dt| != 1 then Err(ValueError(BroadcastMismatch))
    else
      var inc := LogIncrements(dt, Drifts(m.underlyings), Vols(m.underlyings), sqrt,
                               m.paths.normals, m.paths.nSteps, m.paths.d);
      Ok(CumSumSteps(inc, m.paths.nSteps, m.paths.d))
  }

  /** Adds `log spot[k]` to every entry of underlying `k` (numpy broadcasts
      the vector over the last axis). */
  function AddLogSpots(c: PathBlocks.Tensor, nSteps: nat, logSpots: seq<real>): (r: PathBlocks.Tensor)
    requires PathBlocks.Shape(c, |c|, nSteps, |logSpots|)
    ensures PathBlocks.Shape(r, |c|, nSteps, |logSpots|)
    ensures forall i, t, k :: 0 <= i < |c| && 0 <= t < nSteps && 0 <= k < |logSpots| ==>
      r[i][t][k] == logSpots[k] + c[i][t][k]
  {
    seq(|c|, i requires 0 <= i < |c| =>
      seq(nSteps, t requires 0 <= t < nSteps =>
        seq(|logSpots|, k requires 0 <= k < |logSpots| => logSpots[k] + c[i][t][k])))
  }

  /** Applies a scalar function to every entry. */
  function MapTensor(f: real -> real, a: PathBlocks.Tensor): (r: PathBlocks.Tensor)
    ensures |r| == |a|
    ensures forall i :: 0 <= i < |a| ==> |r[i]| == |a[i]|
    ensures forall i, t :: 0 <= i < |a| && 0 <= t < |a[i]| ==> |r[i][t]| == |a[i][t]|
    ensures forall i, t, k :: 0 <= i < |a| && 0 <= t < |a[i]| && 0 <= k < |a[i][t]| ==> r[i][t][k] == f(a[i][t][k])
  {
    seq(|a|, i requires 0 <= i < |a| =>
      seq(|a[i]|, t requires 0 <= t < |a[i]| =>
        seq(|a[i][t]|, k requires 0 <= k < |a[i][t]| => f(a[i][t][k]))))
  }

  /** `np.log(spots)`. */
  function LogSpots(u: seq<Entry>, log: real -> real): (v: seq<real>)
    ensures |v| == |u|
    ensures forall k :: 0 <= k < |u| ==> v[k] == log(u[k].params.spot)
  {
    seq(|u|, k requires 0 <= k < |u| => log(u[k].params.spot))
  }

  /** `apply_bs_value` before `exp`: `log(spots) + cumsum(...)`, the
      percentage-mode log-returns shifted by the log spot of each underlying. */
  function ValueLogPaths(m: BSModel, num: Numerics): (r: Result<PathBlocks.Tensor>)
    requires m.config.calendar.tradingDays != 0.0
    requires Consistent(m)
    ensures r.Ok? == CumulativeLogReturns(m, num.sqrt).Ok?
    ensures r.Ok? ==> PathBlocks.Shape(r.value, m.paths.nSim, m.paths.nSteps, m.paths.d)
    ensures r.Ok? ==> forall i, t, k :: 0 <= i < m.paths.nSim && 0 <= t < m.paths.nSteps && 0 <= k < m.paths.d ==>
      r.value[i][t][k] == num.log(m.underlyings[k].params.spot) + CumulativeLogReturns(m, num.sqrt).value[i][t][k]
  {
    var c :- CumulativeLogReturns(m, num.sqrt);
    Ok(AddLogSpots(c, m.paths.nSteps, LogSpots(m.underlyings, num.log)))
  }

  /** `apply_bs_value`: `round(exp(log paths), 6)`, absolute price levels. */
  function ApplyValue(m: BSModel, num: Numerics): (r: Result<PathBlocks.Tensor>)
    requires m.config.calendar.tradingDays != 0.0
    requires Consistent(m)
    ensures r.Ok? == CumulativeLogReturns(m, num.sqrt).Ok?
    ensures r.Ok? ==> PathBlocks.Shape(r.value, m.paths.nSim, m.paths.nSteps, m.paths.d)
    ensures r.Ok? ==> forall i, t, k :: 0 <= i < m.paths.nSim && 0 <= t < m.paths.nSteps && 0 <= k < m.paths.d ==>
      r.value[i][t][k] == num.round(num.exp(ValueLogPaths(m, num).value[i][t][k]))
  {
    var l :- ValueLogPaths(m, num);
    Ok(MapTensor(num.round, MapTensor(num.exp, l)))
  }

  /** `apply_bs_percentage`: `exp(round(cumsum(...), 6))`, the growth factor
      relative to spot; the rounding comes before `exp` here. */
  function ApplyPercentage(m: BSModel, num: Numerics): (r: Result<PathBlocks.Tensor>)
    requires m.config.calendar.tradingDays != 0.0
    requires Consistent(m)
    ensures r.Ok? == CumulativeLogReturns(m, num.sqrt).Ok?
    ensures r.Ok? ==> PathBlocks.Shape(r.value, m.paths.nSim, m.paths.nSteps, m.paths.d)
    ensures r.Ok? ==> forall i, t, k :: 0 <= i < m.paths.nSim && 0 <= t < m.paths.nSteps && 0 <= k < m.paths.d ==>
      r.value[i][t][k] == num.exp(num.round(CumulativeLogReturns(m, num.sqrt).value[i][t][k]))
  {
    var c :- CumulativeLogReturns(m, num.sqrt);
    Ok(MapTensor(num.exp, MapTensor(num.round, c)))
  }

  /** The running total moves by exactly the increment of the step. */
  lemma CumSumStep(a: PathBlocks.Tensor, nSteps: nat, d: nat, i: nat, t: nat, k: nat)
    requires PathBlocks.Shape(a, |a|, nSteps, d)
    requires i < |a| && 1 <= t < nSteps && k < d
    ensures CumSumSteps(a, nSteps, d)[i][t][k] == CumSumSteps(a, nSteps, d)[i][t - 1][k] + a[i][t][k]
  {
    RunningSumStep(0.0, Column(a[i], k), t);
  }

  /** The running total starts at the first increment. */
  lemma CumSumFirst(a: PathBlocks.Tensor, nSteps: nat, d: nat, i: nat, k: nat)
    requires PathBlocks.Shape(a, |a|, nSteps, d)
    requires i < |a| && 0 < nSteps && k < d
    ensures CumSumSteps(a, nSteps, d)[i][0][k] == a[i][0][k]
  {
    RunningSumIsPrefixSum(0.0, Column(a[i], k), 0);
    assert Column(a[i], k)[..1] == [a[i][0][k]];
  }

  /** The discretised geometric Brownian motion: from one step to the next,
      the log-return of scenario `i` and underlying `k` grows by
      `dt * drift + sqrt(dt) * vol * Z`. */
  lemma LogReturnRecursion(m: BSModel, sqrt: real -> real, i: nat, t: nat, k: nat)
    requires m.config.calendar.tradingDays != 0.0
    requires Consistent(m)
    requires CumulativeLogReturns(m, sqrt).Ok?
    requires i < m.paths.nSim && 1 <= t < m.paths.nSteps && k < m.paths.d
    ensures |TimeGrid.TimeIncrements(m.config.calendar)| == 1 || t < |TimeGrid.TimeIncrements(m.config.calendar)|
    ensures CumulativeLogReturns(m, sqrt).value[i][t][k]
      == CumulativeLogReturns(m, sqrt).value[i][t - 1][k]
         + StepAt(TimeGrid.TimeIncrements(m.config.calendar), t) * Drifts(m.underlyings)[k]
         + sqrt(StepAt(TimeGrid.TimeIncrements(m.config.calendar), t)) * Vols(m.underlyings)[k]
           * m.paths.normals[i][t][k]
  {
    CumulativeLogReturnsValue(m, sqrt);
    IncrementRecursion(TimeGrid.TimeIncrements(m.config.calendar), m.underlyings, sqrt, m.paths.normals,
                       m.paths.nSim, m.paths.nSteps, m.paths.d, CumulativeLogReturns(m, sqrt).value, i, t, k);
  }

  /** When the broadcast succeeds, the cumulative log-returns are the running
      totals of the log increments. */
  lemma CumulativeLogReturnsValue(m: BSModel, sqrt: real -> real)
    requires m.config.calendar.tradingDays != 0.0
    requires Consistent(m)
    requires CumulativeLogReturns(m, sqrt).Ok?
    ensures |TimeGrid.TimeIncrements(m.config.calendar)| == m.paths.nSteps
            || |TimeGrid.TimeIncrements(m.config.calendar)| == 1
    ensures CumulativeLogReturns(m, sqrt).value
      == CumSumSteps(LogIncrements(TimeGrid.TimeIncrements(m.config.calendar), Drifts(m.underlyings),
                                   Vols(m.underlyings), sqrt, m.paths.normals, m.paths.nSteps, m.paths.d),
                     m.paths.nSteps, m.paths.d)
  {
  }

  /** One step of the running totals of the log increments adds that step's
      increment. */
  lemma IncrementRecursion(dt: seq<real>, u: seq<Entry>, sqrt: real -> real, z: PathBlocks.Tensor,
                           nSim: nat, nSteps: nat, d: nat, c: PathBlocks.Tensor, i: nat, t: nat, k: nat)
    requires |dt| == nSteps || |dt| == 1
    requires d == |u|
    requires PathBlocks.Shape(z, nSim, nSteps, d)
    requires c == CumSumSteps(LogIncrements(dt, Drifts(u), Vols(u), sqrt, z, nSteps, d), nSteps, d)
    requires i < nSim && 1 <= t < nSteps && k < d
    ensures c[i][t][k] == c[i][t - 1][k] + StepAt(dt, t) * Drifts(u)[k] + sqrt(StepAt(dt, t)) * Vols(u)[k] * z[i][t][k]
  {
    var inc := LogIncrements(dt, Drifts(u), Vols(u), sqrt, z, nSteps, d);
    CumSumStep(inc, nSteps, d, i, t, k);
  }

  /** The first log-return of every path is zero: the first time increment
      and the first draw are both zero. */
  lemma FirstLogReturnZero(m: BSModel, sqrt: real -> real, i: nat, k: nat)
    requires m.config.calendar.tradingDays != 0.0
    requires Consistent(m)
    requires CumulativeLogReturns(m, sqrt).Ok?
    requires i < m.paths.nSim && k < m.paths.d
    ensures CumulativeLogReturns(m, sqrt).value[i][0][k] == 0.0
  {
    var dt := TimeGrid.TimeIncrements(m.config.calendar);
    var inc := LogIncrements(dt, Drifts(m.underlyings), Vols(m.underlyings), sqrt,
                             m.paths.normals, m.paths.nSteps, m.paths.d);
    var s := StepAt(dt, 0);
    assert s == 0.0;
    var zik := m.paths.normals[i][0][k];
    assert zik == 0.0;
    var mu := Drifts(m.underlyings)[k];
    var w := sqrt(s) * Vols(m.underlyings)[k];
    assert inc[i][0][k] == s * mu + w * zik;
    CumSumFirst(inc, m.paths.nSteps, m.paths.d, i, k);
  }

  /** Every path starts at the spot: in value mode the first level is
      `round(exp(log spot))`, in percentage mode it is `exp(round(0))`. */
  lemma PathsStartAtSpot(m: BSModel, num: Numerics, i: nat, k: nat)
    requires m.config.calendar.tradingDays != 0.0
    requires Consistent(m)
    requires CumulativeLogReturns(m, num.sqrt).Ok?
    requires i < m.paths.nSim && k < m.paths.d
    ensures ValueLogPaths(m, num).value[i][0][k] == num.log(m.underlyings[k].params.spot)
    ensures ApplyValue(m, num).value[i][0][k] == num.round(num.exp(num.log(m.underlyings[k].params.spot)))
    ensures ApplyPercentage(m, num).value[i][0][k] == num.exp(num.round(0.0))
  {
    FirstLogReturnZero(m, num.sqrt, i, k);
    var c := CumulativeLogReturns(m, num.sqrt).value;
  }

  /** Elapsed year fraction up to step `t`, as the broadcast increments
      add it up. */
  function Elapsed(dt: seq<real>, t: nat): real
    requires |dt| >= 1 && (|dt| == 1 || t < |dt|)
  {
    if t == 0 then StepAt(dt, 0) else Elapsed(dt, t - 1) + StepAt(dt, t)
  }

  /** Without broadcasting, the elapsed time is the plain prefix sum of the
      increments; over the whole grid it is the calendar's horizon. */
  lemma {:induction false} ElapsedIsPrefixSum(dt: seq<real>, t: nat)
    requires t < |dt|
    ensures Elapsed(dt, t) == Sum(dt[..t + 1])
  {
    if t > 0 {
      ElapsedIsPrefixSum(dt, t - 1);
      SumSnoc(dt[..t + 1]);
      assert dt[..t + 1][..t] == dt[..t];
    } else {
      assert dt[..1][1..] == [];
    }
  }

  /** The log-return of a noiseless underlying with drift `mu`: the drift
      accrued step by step over the broadcast increments. */
  function DriftPath(dt: seq<real>, mu: real, t: nat): real
    requires |dt| >= 1 && (|dt| == 1 || t < |dt|)
  {
    if t == 0 then StepAt(dt, 0) * mu else DriftPath(dt, mu, t - 1) + StepAt(dt, t) * mu
  }

  /** The accrued drift is `mu` times the elapsed year fraction. */
  lemma {:induction false} DriftPathScales(dt: seq<real>, mu: real, t: nat)
    requires |dt| >= 1 && (|dt| == 1 || t < |dt|)
    ensures DriftPath(dt, mu, t) == mu * Elapsed(dt, t)
  {
    if t > 0 {
      DriftPathScales(dt, mu, t - 1);
      var e := Elapsed(dt, t - 1);
      var s := StepAt(dt, t);
      assert mu * (e + s) == mu * e + s * mu;
    }
  }

  /** A running total of pure drift increments is the drift path. */
  lemma {:induction false} RunningSumOfDrift(xs: seq<real>, dt: seq<real>, mu: real, t: nat)
    requires |dt| >= 1 && (|dt| == 1 || |xs| <= |dt|)
    requires t < |xs|
    requires forall s :: 0 <= s < |xs| ==> xs[s] == StepAt(dt, s) * mu
    ensures RunningSum(0.0, xs)[t] == DriftPath(dt, mu, t)
  {
    if t > 0 {
      RunningSumOfDrift(xs, dt, mu, t - 1);
      RunningSumStep(0.0, xs, t);
    }
  }

  /** Two running totals whose increments always add up to twice the drift
      increment add up to twice the drift path. */
  lemma {:induction false} RunningSumOfPairs(xs: seq<real>, ys: seq<real>, dt: seq<real>, mu: real, t: nat)
    requires |dt| >= 1 && (|dt| == 1 || |xs| <= |dt|)
    requires t < |xs| == |ys|
    requires forall s :: 0 <= s < |xs| ==> xs[s] + ys[s] == 2.0 * (StepAt(dt, s) * mu)
    ensures RunningSum(0.0, xs)[t] + RunningSum(0.0, ys)[t] == 2.0 * DriftPath(dt, mu, t)
  {
    if t > 0 {
      RunningSumOfPairs(xs, ys, dt, mu, t - 1);
      RunningSumStep(0.0, xs, t);
      RunningSumStep(0.0, ys, t);
    }
  }

  /** A zero-volatility underlying follows the deterministic drift path,
      the same in every scenario. */
  lemma ZeroVolDeterministic(m: BSModel, sqrt: real -> real, i: nat, t: nat, k: nat)
    requires m.config.calendar.tradingDays != 0.0
    requires Consistent(m)
    requires CumulativeLogReturns(m, sqrt).Ok?
    requires i < m.paths.nSim && t < m.paths.nSteps && k < m.paths.d
    requires m.underlyings[k].params.vol == 0.0
    ensures var dt := TimeGrid.TimeIncrements(m.config.calendar);
      && (|dt| == 1 || t < |dt|)
      && CumulativeLogReturns(m, sqrt).value[i][t][k] == DriftPath(dt, Drifts(m.underlyings)[k], t)
  {
    var dt := TimeGrid.TimeIncrements(m.config.calendar);
    var mu := Drifts(m.underlyings)[k];
    var inc := LogIncrements(dt, Drifts(m.underlyings), Vols(m.underlyings), sqrt,
                             m.paths.normals, m.paths.nSteps, m.paths.d);
    var col := Column(inc[i], k);
    forall s | 0 <= s < |col|
      ensures col[s] == StepAt(dt, s) * mu
    {
      NoiseVanishes(sqrt(StepAt(dt, s)), Vols(m.underlyings)[k], m.paths.normals[i][s][k]);
    }
    RunningSumOfDrift(col, dt, mu, t);
  }

  /** A zero volatility removes the diffusion term. */
  lemma NoiseVanishes(sq: real, vol: real, x: real)
    requires vol == 0.0
    ensures sq * vol * x == 0.0
  {
  }

  /** Opposite draws give diffusion terms that cancel. */
  lemma NoiseCancels(sm: real, w: real, x: real, y: real)
    requires y == -x
    ensures (sm + w * x) + (sm + w * y) == 2.0 * sm
  {
  }

  /** The increments of two scenarios with opposite draws add up to twice
      the drift increment. */
  lemma PairIncrements(dt: seq<real>, drifts: seq<real>, vols: seq<real>, sqrt: real -> real,
                       z: PathBlocks.Tensor, nSteps: nat, d: nat, i: nat, j: nat, s: nat, k: nat)
    requires |dt| == nSteps || |dt| == 1
    requires |drifts| == d && |vols| == d
    requires PathBlocks.Shape(z, |z|, nSteps, d)
    requires i < |z| && j < |z| && s < nSteps && k < d
    requires z[j][s][k] == -z[i][s][k]
    ensures var inc := LogIncrements(dt, drifts, vols, sqrt, z, nSteps, d);
      inc[i][s][k] + inc[j][s][k] == 2.0 * (StepAt(dt, s) * drifts[k])
  {
    var step := StepAt(dt, s);
    NoiseCancels(step * drifts[k], sqrt(step) * vols[k], z[i][s][k], z[j][s][k]);
  }

  /** Column form of `PairIncrements` for a mirrored tensor. */
  lemma MirroredColumns(dt: seq<real>, drifts: seq<real>, vols: seq<real>, sqrt: real -> real,
                        z: PathBlocks.Tensor, nSim: nat, nSteps: nat, d: nat, i: nat, k: nat)
    requires |dt| == nSteps || |dt| == 1
    requires |drifts| == d && |vols| == d
    requires PathBlocks.Shape(z, nSim, nSteps, d)
    requires PathBlocks.Mirrored(z, nSim)
    requires i < nSim / 2 && k < d
    ensures var inc := LogIncrements(dt, drifts, vols, sqrt, z, nSteps, d);
      forall s :: 0 <= s < nSteps ==>
        Column(inc[i], k)[s] + Column(inc[nSim / 2 + i], k)[s] == 2.0 * (StepAt(dt, s) * drifts[k])
  {
    var inc := LogIncrements(dt, drifts, vols, sqrt, z, nSteps, d);
    var half := nSim / 2;
    forall s | 0 <= s < nSteps
      ensures Column(inc[i], k)[s] + Column(inc[half + i], k)[s] == 2.0 * (StepAt(dt, s) * drifts[k])
    {
      PathBlocks.MirroredEntry(z, nSim, i, s, k);
      PairColumnEntry(dt, drifts, vols, sqrt, z, nSteps, d, i, half + i, s, k);
    }
  }

  /** `PairIncrements` read through the two scenarios' columns. */
  lemma PairColumnEntry(dt: seq<real>, drifts: seq<real>, vols: seq<real>, sqrt: real -> real,
                        z: PathBlocks.Tensor, nSteps: nat, d: nat, i: nat, j: nat, s: nat, k: nat)
    requires |dt| == nSteps || |dt| == 1
    requires |drifts| == d && |vols| == d
    requires PathBlocks.Shape(z, |z|, nSteps, d)
    requires i < |z| && j < |z| && s < nSteps && k < d
    requires z[j][s][k] == -z[i][s][k]
    ensures var inc := LogIncrements(dt, drifts, vols, sqrt, z, nSteps, d);
      Column(inc[i], k)[s] + Column(inc[j], k)[s] == 2.0 * (StepAt(dt, s) * drifts[k])
  {
    PairIncrements(dt, drifts, vols, sqrt, z, nSteps, d, i, j, s, k);
  }

  /** Running totals of a mirrored tensor's increments cancel pairwise. */
  lemma MirroredPathsCancel(dt: seq<real>, drifts: seq<real>, vols: seq<real>, sqrt: real -> real,
                            z: PathBlocks.Tensor, nSim: nat, nSteps: nat, d: nat, i: nat, t: nat, k: nat)
    requires |dt| == nSteps || |dt| == 1
    requires |drifts| == d && |vols| == d
    requires PathBlocks.Shape(z, nSim, nSteps, d)
    requires PathBlocks.Mirrored(z, nSim)
    requires i < nSim / 2 && t < nSteps && k < d
    ensures var c := CumSumSteps(LogIncrements(dt, drifts, vols, sqrt, z, nSteps, d), nSteps, d);
      c[i][t][k] + c[nSim / 2 + i][t][k] == 2.0 * DriftPath(dt, drifts[k], t)
  {
    var inc := LogIncrements(dt, drifts, vols, sqrt, z, nSteps, d);
    MirroredColumns(dt, drifts, vols, sqrt, z, nSim, nSteps, d, i, k);
    RunningSumOfPairs(Column(inc[i], k), Column(inc[nSim / 2 + i], k), dt, drifts[k], t);
  }

  /** The successful cumulative log-returns, spelled out. */
  lemma UnfoldCumulativeLogReturns(m: BSModel, sqrt: real -> real)
    requires m.config.calendar.tradingDays != 0.0
    requires Consistent(m)
    requires CumulativeLogReturns(m, sqrt).Ok?
    ensures var dt := TimeGrid.TimeIncrements(m.config.calendar);
      && (|dt| == m.paths.nSteps || |dt| == 1)
      && CumulativeLogReturns(m, sqrt).value
         == CumSumSteps(LogIncrements(dt, Drifts(m.underlyings), Vols(m.underlyings), sqrt,
                                      m.paths.normals, m.paths.nSteps, m.paths.d), m.paths.nSteps, m.paths.d)
  {
  }

  /** In an antithetic block the noise of scenario `i` and of its mirror
      `nSim / 2 + i` cancels: the two log-returns always add up to twice
      the deterministic drift path. */
  lemma AntitheticPairCancels(m: BSModel, sqrt: real -> real, i: nat, t: nat, k: nat)
    requires m.config.calendar.tradingDays != 0.0
    requires Consistent(m)
    requires m.paths.antithetic
    requires CumulativeLogReturns(m, sqrt).Ok?
    requires i < m.paths.nSim / 2 && t < m.paths.nSteps && k < m.paths.d
    ensures var dt := TimeGrid.TimeIncrements(m.config.calendar);
      var c := CumulativeLogReturns(m, sqrt).value;
      && (|dt| == 1 || t < |dt|)
      && c[i][t][k] + c[m.paths.nSim / 2 + i][t][k] == 2.0 * DriftPath(dt, Drifts(m.underlyings)[k], t)
  {
    var dt := TimeGrid.TimeIncrements(m.config.calendar);
    UnfoldCumulativeLogReturns(m, sqrt);
    MirroredPathsCancel(dt, Drifts(m.underlyings), Vols(m.underlyings),
                        sqrt, m.paths.normals, m.paths.nSim, m.paths.nSteps, m.paths.d, i, t, k);
  }
}
