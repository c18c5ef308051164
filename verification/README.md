# Note_V1 pricer core in Dafny

This project models the deterministic core of a small Monte Carlo option
pricer: the simulation time grid (`Calendar`), the barrier feature's
observation dates, the configuration and layout of the normal draws
(`SimulationConfig`, `PathBlock`), the Black-Scholes engine's validation,
wiring and log-path structure (`BS_Model`), and the instrument descriptors
(`Option` families, `Underlying`). Each of the two engine generations gets
its own module where the code differs. Where the code is the same, one
definition serves both: `Calendar.__post_init__` and the
`UnderlyingParams`/`PortfolioParams` validators are word for word the same
in both generations.

Modelling conventions:

- Dates are integer day numbers. Times and year fractions are exact reals.
- Python's `int()` on a float is truncation toward zero (`Seqs.Trunc`).
- Errors are values: `Result<T>` is `Ok(value)` or `Err(error)`. The error
  names the Python exception (`ValueError`, `ZeroDivisionError`, `IndexError`,
  `TypeError`) and, for `ValueError`, which check raised it.
- The normal draws are a stream `z: nat -> real` that `PathBlock` reads in C
  order. A seed only selects a stream, so seeding is the caller's choice of
  `z`.
- `log`, `exp`, `sqrt` and `round(., 6)` are function parameters
  (`BlackScholes.Numerics`), and so is the strike's `round(., 5)`. The
  market-data summary and the random identifier of `Underlying` are oracle
  parameters too.
- Tensors are `seq<seq<seq<real>>>`, indexed scenario, step, underlying. The
  barrier's path matrix is a `Matrix` of rows.

Modules, one per file:

| module | file | models |
|---|---|---|
| `Wrappers` | wrappers.dfy | `Option`, `Result`, the error causes |
| `Seqs` | seqs.dfy | `sorted(set(.))`, `list.index`, `cumsum`, `int()` |
| `TimeGrid` | timegrid.dfy | `B_Model_V1/timegrid.py` |
| `LegacyTimeGrid` | legacy_timegrid.dfy | `Model_V1/timegrid.py` |
| `PathBlocks` | path_block.dfy | `Model_V1/base.py` |
| `BlackScholes` | bs_model.dfy | `B_Model_V1/bs_model.py` |
| `LegacyBlackScholes` | legacy_bs_model.dfy | `Model_V1/BS_model.py` |
| `Underlyings` | underlying.dfy | `A_Underlying_V1/underlying_class.py` |
| `Vanilla` | option.dfy | `C_Vanilla_V1/Option.py` |
| `LegacyOptions` | legacy_option.dfy | `Vanilla_V1/Option.py` |
| `Barriers` | barrier.dfy | `C_Vanilla_V1/Barrier.py` |

## Model

| member | source | states |
|---|---|---|
| Seqs.Trunc | B_Model_V1/timegrid.py:24 | `int(x)` is the integer between 0 and `x` that is less than one away from `x` |
| Seqs.SortedUnique | B_Model_V1/timegrid.py:37-38 | deduplicating and sorting gives a strictly increasing list with exactly the input's members, never longer than the input |
| Seqs.IncreasingEnumerationUnique | B_Model_V1/timegrid.py:37-38 | two strictly increasing lists with the same members are equal, so deduplicate-then-sort has exactly one possible result |
| Seqs.SortedUniqueIsCanonical | B_Model_V1/timegrid.py:37-38 | any strictly increasing list with the input's members is the result of `sorted(set(.))` |
| Seqs.IndexOf | C_Vanilla_V1/Barrier.py:49 | `list.index` returns a position holding the value, and no earlier position holds it |
| Seqs.RunningSum | B_Model_V1/bs_model.py:63 | `np.cumsum` keeps the length, and its first entry is the starting value plus the first input |
| Seqs.RunningSumIsPrefixSum | B_Model_V1/bs_model.py:63 | entry `t` of a cumulative sum is the starting value plus the sum of the first `t+1` inputs |
| Seqs.RunningSumStep | B_Model_V1/bs_model.py:84 | consecutive cumulative-sum entries differ by exactly the input at the later position |
| TimeGrid.Build | B_Model_V1/timegrid.py:17-32 | both or neither of `dt`/`n_steps` raises a `ValueError`; a zero `dt` or `n_steps` divides by zero; otherwise the times are `i*dt` for `i < n_steps` and the dates and trading days are kept |
| TimeGrid.NewCalendar | B_Model_V1/timegrid.py:11-32 | an omitted trading-day count is 365, and construction fails exactly when `Build` does |
| TimeGrid.StepCountGrid | B_Model_V1/timegrid.py:27-30 | `n_steps = n >= 1` stores `n+1` steps of `1/n`, times `i/n` from exactly 0 to exactly 1 |
| TimeGrid.FixedStepGrid | B_Model_V1/timegrid.py:23-25 | a positive `dt` gives `floor(1/dt)+1` steps, all times in [0,1], and one more step would pass 1 |
| TimeGrid.FixedStepFits | B_Model_V1/timegrid.py:24-25 | `int(1/dt)+1` multiples of a positive `dt` fit in [0,1] and one more does not |
| TimeGrid.Dates | B_Model_V1/timegrid.py:34-38 | the grid dates are strictly increasing, are exactly the day offsets of the times, and are no more than the times |
| TimeGrid.ScaledTimeWithinSpan | B_Model_V1/timegrid.py:36 | a time in [0,1] maps to a whole-day offset in [0, span] |
| TimeGrid.RawDates | B_Model_V1/timegrid.py:36 | one date per grid time, before deduplication |
| TimeGrid.RawDatesNonDecreasing | B_Model_V1/timegrid.py:36 | for a well-formed grid with start no later than end, the raw dates never decrease along the times |
| TimeGrid.DatesWithinSpan | B_Model_V1/timegrid.py:34-38 | for a well-formed grid with start no later than end, the dates are non-empty, begin at the start date and stay in [start, end] |
| TimeGrid.StepCountDatesReachEnd | B_Model_V1/timegrid.py:27-38 | with a step count, the last grid date is the end date |
| TimeGrid.Gaps | B_Model_V1/timegrid.py:42 | one year fraction per pair of consecutive dates, each the day gap over the trading days |
| TimeGrid.Increments | B_Model_V1/timegrid.py:42-43 | a leading 0 then the gaps: as long as the dates, and `[0.0]` for no dates |
| TimeGrid.IncrementsPositive | B_Model_V1/timegrid.py:42-43 | over increasing dates and positive trading days, every increment after the first is positive |
| TimeGrid.TimeIncrements | B_Model_V1/timegrid.py:40-44 | as long as the grid dates, first entry 0, later entries positive for positive trading days |
| TimeGrid.DifferencesTelescope | B_Model_V1/timegrid.py:42 | the gaps sum to the span from the first to the last date in trading years |
| TimeGrid.IncrementsSumToHorizon | B_Model_V1/timegrid.py:40-44 | the increments sum to (last grid date minus start) over the trading days |
| TimeGrid.NearestIndex | B_Model_V1/timegrid.py:48 | the position of a date at minimal distance, with every earlier position strictly farther |
| TimeGrid.NearestDate | B_Model_V1/timegrid.py:46-49 | fails exactly on an empty grid; otherwise returns a grid date no farther than any other, and the earliest on a tie |
| TimeGrid.NearestOfGridDate | B_Model_V1/timegrid.py:46-49 | a date already on the grid is its own nearest date |
| LegacyTimeGrid.NewCalendar | Model_V1/timegrid.py:11-32 | same step validation; the default trading-day count is 252; `n_steps = n >= 1` gives `n+1` times of step `1/n` from 0 |
| LegacyTimeGrid.Dates | Model_V1/timegrid.py:34-36 | one date per time, with no deduplication |
| LegacyTimeGrid.OffsetMonotone | Model_V1/timegrid.py:36 | later times never map to earlier day offsets |
| LegacyTimeGrid.OffsetAtMostDays | Model_V1/timegrid.py:36 | a time in [0,1] maps to at most the whole trading-day count |
| LegacyTimeGrid.DatesShape | Model_V1/timegrid.py:34-36 | for a well-formed grid: `n_steps` dates, the first the start date, non-decreasing, all within `trading_days` days of the start |
| LegacyTimeGrid.DatesIgnoreEnd | Model_V1/timegrid.py:34-36 | calendars that differ only in their end date have the same dates |
| PathBlocks.NewConfig | Model_V1/base.py:13-21 | non-positive `n_paths` raises, then any seed other than `None` or a Python `int` raises, numpy integers and arrays included; otherwise every setting is stored, an omitted `antithetic` flag as its default `True` |
| PathBlocks.CheckSeed | Model_V1/base.py:36-38 | `np.random.seed` accepts no seed, an integer or numpy integer in [0, 2**32 - 1], and a non-empty integer sequence with every entry in that range; an empty sequence raises `ValueError`, then a sequence entry outside the signed 64-bit range raises `TypeError` from the safe cast, then an out-of-range value raises `ValueError`; anything else raises `TypeError` |
| PathBlocks.IntegerSeedForms | Model_V1/base.py:20-21 | numpy treats `n` and a numpy integer `n` alike, and `[n]` too while `n` fits a signed 64-bit integer (above that the list raises `TypeError`, the integer `ValueError`); the configuration accepts only the Python `int` |
| PathBlocks.Sample | Model_V1/base.py:48 | a block of the requested shape whose entry (i,t,k) is the stream value at its C-order position |
| PathBlocks.Negate | Model_V1/base.py:43 | same shape, every entry negated |
| PathBlocks.ZeroFirstStep | Model_V1/base.py:50-51 | step 0 becomes 0.0 for every scenario and underlying; every other step is untouched |
| PathBlocks.Draws | Model_V1/base.py:40-48 | the drawn block has exactly `n_sim` scenarios of `n_steps` steps of `d` values, for odd and even `n_sim` |
| PathBlocks.NewPathBlock | Model_V1/base.py:32-52 | a seed numpy rejects raises its error first; otherwise a negative dimension or zero steps raise; it succeeds exactly when the seed is accepted, `n_sim` and `d` are non-negative and `n_steps` is positive, with the requested shape and a zero first step; an omitted `antithetic` flag is its default `False` |
| PathBlocks.OmittedAntitheticDefaults | Model_V1/base.py:13-14 | leaving out `antithetic` means `True` for the settings but `False` for a path block (base.py:33) |
| PathBlocks.AntitheticPairs | Model_V1/base.py:40-43 | in antithetic mode, scenario `half+i` is the negation of scenario `i` for every `i < n_sim // 2` |
| PathBlocks.AntitheticFreshHalf | Model_V1/base.py:41-43 | in antithetic mode, the first half reads the stream from its start |
| PathBlocks.AntitheticOddExtra | Model_V1/base.py:44-46 | with odd `n_sim`, the last scenario comes from the second draw, read just after the first half |
| PathBlocks.ExtraScenarioIndependent | Model_V1/base.py:42-46 | the extra scenario reads no stream position the first half read |
| PathBlocks.PlainLayout | Model_V1/base.py:47-48 | without antithetic mode, switched off or omitted, every step after the first is the draw itself |
| BlackScholes.NewUnderlyingParams | B_Model_V1/bs_model.py:17-25 | spot, volatility, rate, dividend are checked in that order; zero volatility and the rate and dividend endpoints are accepted |
| BlackScholes.NewPortfolio | B_Model_V1/bs_model.py:31-33 | fails exactly on an empty portfolio |
| BlackScholes.NewModel | B_Model_V1/bs_model.py:38-47 | config errors first, then the empty portfolio; the block has `n_paths` scenarios, the calendar's step count, one column per underlying, and the configured seed and antithetic flag, which is `True` when omitted |
| BlackScholes.NewModelConsistent | B_Model_V1/bs_model.py:41-47 | every model built has the block shape, a zero first step, and mirrored scenarios when antithetic |
| BlackScholes.NewModelSucceeds | B_Model_V1/bs_model.py:38-47 | a well-formed calendar, positive `n_paths`, a valid seed and a non-empty portfolio always build |
| BlackScholes.VectorsAligned | B_Model_V1/bs_model.py:50-57 | drift `k` is `rate - div - vol^2/2` of underlying `k`; reordering the portfolio reorders every vector the same way |
| BlackScholes.LogIncrements | B_Model_V1/bs_model.py:58-61 | increment (i,t,k) is `dt_t * drift_k + sqrt(dt_t) * vol_k * z(i,t,k)`, with a length-one `dt` broadcast |
| BlackScholes.CumSumSteps | B_Model_V1/bs_model.py:63 | a cumulative sum along the steps, separately for each scenario and underlying |
| BlackScholes.CumulativeLogReturns | B_Model_V1/bs_model.py:79-84 | a broadcast error exactly when the increment count is neither `n_steps` nor 1; otherwise a block of the model's shape |
| BlackScholes.AddLogSpots | B_Model_V1/bs_model.py:63 | adds underlying `k`'s log spot to every entry of column `k` |
| BlackScholes.ValueLogPaths | B_Model_V1/bs_model.py:55-63 | the value-mode log path is the percentage-mode cumulative return plus the log spot, entry by entry |
| BlackScholes.ApplyValue | B_Model_V1/bs_model.py:49-68 | each price is `round(exp(.))` of the value-mode log path |
| BlackScholes.ApplyPercentage | B_Model_V1/bs_model.py:70-88 | each factor is `exp(round(.))` of the cumulative return: rounding comes before `exp` |
| BlackScholes.CumSumStep | B_Model_V1/bs_model.py:84 | each cumulative entry is the previous one plus that step's increment |
| BlackScholes.CumSumFirst | B_Model_V1/bs_model.py:84 | the first cumulative entry is the first increment |
| BlackScholes.LogReturnRecursion | B_Model_V1/bs_model.py:61-63 | the log return obeys the geometric Brownian motion step `c_t = c_(t-1) + dt_t mu + sqrt(dt_t) sigma z_t` |
| BlackScholes.IncrementRecursion | B_Model_V1/bs_model.py:61-63 | for any step vector, portfolio and draws, the running total of `outer(dt, drifts) + outer(sqrt(dt), vols) * Z` grows at step `t` by exactly that step's increment |
| BlackScholes.FirstLogReturnZero | B_Model_V1/bs_model.py:58-63 | the first log return is 0, because `dt[0] = 0` and the step-0 draws are zero |
| BlackScholes.PathsStartAtSpot | B_Model_V1/bs_model.py:63-66 | every value-mode path starts at `round(exp(log spot))`; every percentage path starts at `exp(round(0))` |
| BlackScholes.ElapsedIsPrefixSum | B_Model_V1/bs_model.py:61-63 | the elapsed year fraction at step `t` is the sum of the first `t+1` increments |
| BlackScholes.DriftPathScales | B_Model_V1/bs_model.py:61-63 | the accumulated drift is the drift times the elapsed year fraction |
| BlackScholes.Drifts | B_Model_V1/bs_model.py:57 | one drift per underlying, equal to its rate minus its dividend minus half its squared volatility |
| BlackScholes.RunningSumOfDrift | B_Model_V1/bs_model.py:61-63 | cumulating pure drift increments gives the accumulated drift |
| BlackScholes.RunningSumOfPairs | B_Model_V1/bs_model.py:61-63 | two increment sequences that add to twice the drift have cumulative sums that add to twice the accumulated drift |
| BlackScholes.ZeroVolDeterministic | B_Model_V1/bs_model.py:61-63 | with zero volatility, the log return is the accumulated drift whatever the draws |
| BlackScholes.PairIncrements | B_Model_V1/bs_model.py:61 | increments from opposite draws add to twice the drift increment |
| BlackScholes.MirroredColumns | B_Model_V1/bs_model.py:61 | over a mirrored block, mirrored scenarios' increments add to twice the drift increment at every step |
| BlackScholes.MirroredPathsCancel | B_Model_V1/bs_model.py:61-63 | over a mirrored block, mirrored scenarios' log returns add to twice the accumulated drift |
| BlackScholes.AntitheticPairCancels | B_Model_V1/bs_model.py:61-63 | in an antithetic model, the log returns of scenarios `i` and `half+i` add to twice the accumulated drift |
| LegacyBlackScholes.NewModel | Model_V1/BS_model.py:37-46 | the same validation order, with the settings' defaults; the block is built without the flag, so it is always non-antithetic; construction fails exactly when the plain block does |
| LegacyBlackScholes.AntitheticIgnored | Model_V1/BS_model.py:40-45 | the configured antithetic flag, switched off or left at its default `True`, does not change the block |
| LegacyBlackScholes.SeededRedrawRepeats | Model_V1/BS_model.py:46 | with a seed, the second initialisation reproduces the first block |
| LegacyBlackScholes.UnseededRedrawContinues | Model_V1/BS_model.py:46 | without a seed, the kept block reads the stream after the values the first draw consumed |
| LegacyBlackScholes.NewModelConsistent | Model_V1/BS_model.py:37-46 | every model built satisfies the same invariant as the later engine's models |
| Underlyings.UpperChar | A_Underlying_V1/underlying_class.py:36-40 | a lower-case ASCII letter moves to upper case; any other character is kept; the result is never lower case |
| Underlyings.Upper | A_Underlying_V1/underlying_class.py:36-40 | same length, each character upper-cased |
| Underlyings.UpperFixedPoints | A_Underlying_V1/underlying_class.py:36-40 | upper-casing leaves a string unchanged exactly when it has no lower-case letter; it is idempotent |
| Underlyings.TablesAreUpperCase | A_Underlying_V1/underlying_class.py:4-19 | every accepted type and exchange code is already upper case |
| Underlyings.NewUnderlying | A_Underlying_V1/underlying_class.py:22-42 | symbol length, ISIN length, type, exchange are checked in that order on the raw input; stored fields are upper-cased; type and exchange equal their inputs; a given description and id are kept |
| Underlyings.GetInfo | A_Underlying_V1/underlying_class.py:44-45 | the summary is 41 characters longer than its fields, opens with the name, and ends with the ISIN and a full stop |
| Underlyings.InfoEndsWithIsin | A_Underlying_V1/underlying_class.py:40-45 | the upper-cased ISIN is the twelve characters before the summary's final full stop |
| Vanilla.NewTerms | C_Vanilla_V1/Option.py:15-30 | the start must precede the end, then the strike must be positive; the maturity is the positive day span; the strike is stored rounded; everything else unchanged |
| Vanilla.StrikeCheckedBeforeRounding | C_Vanilla_V1/Option.py:20-26 | acceptance does not depend on rounding, so a positive strike that rounds to 0 is accepted |
| Vanilla.NewOption | C_Vanilla_V1/Option.py:15-30 | accepted exactly for start before end and positive strike, with the shared terms |
| Vanilla.NewCall | C_Vanilla_V1/Option.py:42-46 | the shared terms; rebate defaults to 0 and leverage to 1 |
| Vanilla.NewPut | C_Vanilla_V1/Option.py:61-65 | the shared terms; rebate defaults to 0 and leverage to 1 |
| Vanilla.NewDigital | C_Vanilla_V1/Option.py:81-85 | the shared terms; payout and rebate default to 0 |
| Vanilla.NewDigitalCall | C_Vanilla_V1/Option.py:99-101 | accepted exactly when the digital option is, and tagged as a call |
| Vanilla.NewDigitalPut | C_Vanilla_V1/Option.py:115-117 | accepted exactly when the digital option is, and tagged as a put |
| Vanilla.DigitalSidesForward | C_Vanilla_V1/Option.py:99-117 | digital calls and puts carry the digital option's terms, payout and rebate, and fail with its error |
| Vanilla.FamiliesShareValidation | C_Vanilla_V1/Option.py:42-85 | every family accepts the same inputs, fails with the same error, and stores the same terms |
| LegacyOptions.NewTerms | Vanilla_V1/Option.py:16-32 | type, dates, strike, then method are checked in that order; on success the maturity is the span and the strike is rounded |
| LegacyOptions.RefinesLaterTerms | Vanilla_V1/Option.py:18-32 | the earlier terms accept what the later ones accept, restricted to the listed type and method, and store the same values |
| LegacyOptions.NewLegacyOption | Vanilla_V1/Option.py:41-61 | the shared terms, basket and underlyings unchanged, rebate defaulting to 0 |
| LegacyOptions.CallPutSymmetric | Vanilla_V1/Option.py:41-61 | a call and a put from the same arguments differ only in their side |
| Barriers.SnapAll | C_Vanilla_V1/Barrier.py:39-43 | fails only for a non-empty list on an empty grid; otherwise keeps the length and replaces every date by its nearest grid date |
| Barriers.SnapKeepsGridDates | C_Vanilla_V1/Barrier.py:39-43 | dates already on the grid stay; every snapped date is no farther from the original than any grid date |
| Barriers.SnapIdempotent | C_Vanilla_V1/Barrier.py:39-43 | snapping a snapped list changes nothing |
| Barriers.SnapInPlace | C_Vanilla_V1/Barrier.py:35-43 | the array is overwritten with the snapped dates, or left as it was when the grid is empty |
| Barriers.NewBarrier | C_Vanilla_V1/Barrier.py:12-33 | without a calendar or dates both are stored as missing; otherwise the dates are snapped; the terms and paths are stored as given |
| Barriers.UpdateObservationDates | C_Vanilla_V1/Barrier.py:35-43 | a missing calendar or date list raises; otherwise only the dates change, to their snapped values |
| Barriers.UpdateAfterConstructionIsNoOp | C_Vanilla_V1/Barrier.py:28-43 | updating a freshly built barrier leaves it unchanged |
| Barriers.GridIndices | C_Vanilla_V1/Barrier.py:49 | fails exactly when some date is off the grid; otherwise each date's first grid position |
| Barriers.SelectColumns | C_Vanilla_V1/Barrier.py:50 | an index past the last column raises; otherwise each row keeps the listed columns in the listed order |
| Barriers.ColumnsAt | C_Vanilla_V1/Barrier.py:49-50 | an off-grid date raises `ValueError` first, then a missing column `IndexError`; otherwise column `j` of every row is the path value at date `j`'s grid position |
| Barriers.ReduceToStrikeDates | C_Vanilla_V1/Barrier.py:45-51 | a missing calendar or date list raises; otherwise the columns at the observation dates |
| Barriers.DuplicateDatesDuplicateColumns | C_Vanilla_V1/Barrier.py:49-51 | equal observation dates give equal columns |
| Barriers.SnappedBarrierReduces | C_Vanilla_V1/Barrier.py:33-51 | a barrier built with a calendar and dates, over a matrix with a column per grid date, always reduces, to one column per date |

## Left out

- Random number generation: `np.random.seed` and `np.random.normal` are the
  caller's stream `z`. Their statistics and seed determinism are not
  modelled. The seed range check is numpy's `[0, 2**32 - 1]`; an accepted
  seed's value does not change the stream `z`.
- PathBlocks.CheckSeed: a seed sequence is one-dimensional. numpy's
  `ValueError` for a nested (multi-dimensional) integer array is not
  modelled; such a seed falls under `OtherSeed`. `ArraySeed` is a list or a
  signed-integer array: a numpy unsigned 64-bit array of two or more entries
  raises `TypeError` from the safe cast whatever its values, and a numpy
  array of one entry is squeezed and read as an integer. Neither dtype nor
  squeezing is modelled.
- Floating point: times, year fractions and path values are exact reals, so
  a float product that lands just under a whole day (`(1/49)*49`) is not
  reproduced. `log`, `exp`, `sqrt` and both roundings are uninterpreted
  parameters.
- Seqs.RunningSum: its own contract gives the length and the first entry
  only. Every later entry is stated by `Seqs.RunningSumIsPrefixSum` and
  `Seqs.RunningSumStep`, kept out of the function's contract because every
  proof about the log paths would then carry it.
- TimeGrid.TimeIncrements: requires a non-zero trading-day count. With 0,
  numpy divides to infinities and raises nothing.
- BlackScholes.CumulativeLogReturns: requires a non-zero trading-day count,
  as above. It treats an increment vector longer than a one-step block as a
  broadcast error, where numpy would broadcast. Calendars built by
  `TimeGrid.Build` with one step have one grid date, so this case does not
  arise from them.
- BlackScholes.ValueLogPaths: requires a non-zero trading-day count, as above.
- BlackScholes.ApplyValue: requires a non-zero trading-day count, as above.
- BlackScholes.ApplyPercentage: requires a non-zero trading-day count, as above.
- BlackScholes.LogReturnRecursion: requires a non-zero trading-day count, as
  do the other lemmas about the log paths.
- `apply_bs_formula` in `Model_V1/BS_model.py` is not modelled. It reads
  `calendar.get_time_dt`, which the `Model_V1` calendar does not define, so
  it raises `AttributeError`. The module-level demo script after it is
  plumbing.
- `B_Model_V1/base.py` is not part of this model. `B_Model_V1/bs_model.py`
  imports it; it is taken to be `Model_V1/base.py`.
- `A_Underlying_V1/database.py` (CSV storage and prompts) and
  `C_Vanilla_V1/Model.py` (three stored fields) are not modelled.
- Payoffs, basket reduction and barrier triggering have no code behind them
  and are not modelled. `barrier_mecanism` and `barrier_exercise` are listed
  but never checked; the barrier level is stored as given, with no
  conversion of relative levels.
- The `yfinance` summary lookup and `uuid4` are oracle parameters of
  `Underlyings.NewUnderlying`.
- Underlyings.NewUnderlying: upper-casing is modelled for ASCII letters
  only. Python's `str.upper` can lengthen a string (`'ß'.upper() == 'SS'`),
  so a 12-character ISIN that passes the check can be stored with 13
  characters, and a symbol can grow past its limit. The stored-length facts
  (`|isin| == IsinLength`, `|symbol| <= SymbolMaxLength`) and
  `Underlyings.InfoEndsWithIsin`'s twelve characters hold for the model, not
  for such input.
- `__repr__`, `__dict__` and the diagnostic `print` in
  `update_observation_dates` are presentation only.
- Barriers.NewBarrier: the snapped dates are a new value. In the code, the
  caller's own list object is overwritten. `Barriers.SnapInPlace` models that
  in-place overwrite on an array.
- `reduce_to_strike_dates` indexes the path array's second axis. The model
  takes a two-dimensional matrix; a three-dimensional block selects the same
  steps with the underlyings kept.

## Findings

| source | as written | input that shows it | evidently intended | confidence | as-written member | corrected member |
|---|---|---|---|---|---|---|
| Model_V1/BS_model.py:40-45 | the `PathBlock` is built without the configured `antithetic` flag, so it falls back to its default `False` | `antithetic=True`, `n_paths=2`: the two scenarios are independent draws, not negations of each other | forward the flag, as `B_Model_V1/bs_model.py:45` does | not executed | LegacyBlackScholes.AntitheticIgnored | BlackScholes.NewModelConsistent |
