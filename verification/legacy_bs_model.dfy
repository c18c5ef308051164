/** The earlier engine of `Model_V1/BS_model.py`. Its parameter and
    portfolio validation is the same as in `BlackScholes`; what differs is
    the path block: the `antithetic` flag is not forwarded, so the block is
    always a plain one, and its initialiser runs a second time after the
    dataclass has already run it once. */
module LegacyBlackScholes {
  import opened Wrappers
  import TimeGrid
  import PathBlocks
  import BlackScholes

  /** How many stream values a plain block draws. */
  function Consumed(nSim: nat, nSteps: nat, d: nat): nat {
    nSim * nSteps * d
  }

  /** The stream with its first `n` values already used. */
  function Skip(z: nat -> real, n: nat): nat -> real {
    (i: nat) => z(n + i)
  }

  /** `BS_Model.__post_init__`: validate settings and portfolio, build a
      block without passing the flag, so it takes the block's default and is
      plain (the dataclass runs its initialiser), then run the
      initialiser again. A seeded block reseeds and draws the same values; an
      unseeded one continues the stream after the first draw. */
  function NewModel(calendar: TimeGrid.Calendar, nPaths: int, seed: PathBlocks.Seed, antithetic: Option<bool>,
                    underlyings: seq<BlackScholes.Entry>, z: nat -> real)
    : (r: Result<BlackScholes.BSModel>)
    ensures PathBlocks.NewConfig(calendar, nPaths, seed, antithetic).Err? ==>
      r == Err(PathBlocks.NewConfig(calendar, nPaths, seed, antithetic).error)
    ensures PathBlocks.NewConfig(calendar, nPaths, seed, antithetic).Ok? && |underlyings| == 0 ==>
      r == Err(ValueError(EmptyPortfolio))
    ensures PathBlocks.NewConfig(calendar, nPaths, seed, antithetic).Ok? && |underlyings| > 0 ==>
      (r.Err? <==> PathBlocks.NewPathBlock(nPaths, calendar.nSteps, |underlyings|, seed, None, z).Err?)
    ensures r.Ok? ==>
      && r.value.config == PathBlocks.SimulationConfig(calendar, nPaths, seed,
                                                       if antithetic.Some? then antithetic.value else true)
      && r.value.underlyings == underlyings
      && r.value.paths.nSim == nPaths
      && r.value.paths.nSteps == calendar.nSteps
      && r.value.paths.d == |underlyings|
      && r.value.paths.seed == seed
      && !r.value.paths.antithetic
  {
    var config :- PathBlocks.NewConfig(calendar, nPaths, seed, antithetic);
    var portfolio :- BlackScholes.NewPortfolio(underlyings);
    var first :- PathBlocks.NewPathBlock(nPaths, calendar.nSteps, |portfolio|, seed, None, z);
    var stream := if !seed.NoSeed? then z else Skip(z, Consumed(nPaths, calendar.nSteps, |portfolio|));
    // The second run meets the same checks as the first, so it cannot fail.
    var second := PathBlocks.NewPathBlock(nPaths, calendar.nSteps, |portfolio|, seed, None, stream);
    Ok(BlackScholes.BSModel(config, portfolio, second.value))
  }

  /** The configured antithetic flag, given or left at its default `True`,
      has no effect on the draws. */
  lemma AntitheticIgnored(calendar: TimeGrid.Calendar, nPaths: int, seed: PathBlocks.Seed,
                          underlyings: seq<BlackScholes.Entry>, z: nat -> real)
    ensures var on := NewModel(calendar, nPaths, seed, None, underlyings, z);
      var off := NewModel(calendar, nPaths, seed, Some(false), underlyings, z);
      && on.Ok? == off.Ok?
      && (on.Ok? ==> on.value.paths == off.value.paths)
  {
  }

  /** With a seed, the second initialisation reseeds and reproduces the
      block the first one drew. */
  lemma SeededRedrawRepeats(calendar: TimeGrid.Calendar, nPaths: int, seed: PathBlocks.Seed, antithetic: Option<bool>,
                            underlyings: seq<BlackScholes.Entry>, z: nat -> real)
    requires seed.IntSeed?
    requires NewModel(calendar, nPaths, seed, antithetic, underlyings, z).Ok?
    ensures PathBlocks.NewPathBlock(nPaths, calendar.nSteps, |underlyings|, seed, None, z)
      == Ok(NewModel(calendar, nPaths, seed, antithetic, underlyings, z).value.paths)
  {
  }

  /** Without a seed, the block the model keeps is the second draw: after
      the zeroed step it reads the stream right after the values the first
      draw consumed. */
  lemma UnseededRedrawContinues(calendar: TimeGrid.Calendar, nPaths: int, antithetic: Option<bool>,
                                underlyings: seq<BlackScholes.Entry>, z: nat -> real)
    requires NewModel(calendar, nPaths, PathBlocks.NoSeed, antithetic, underlyings, z).Ok?
    ensures var m := NewModel(calendar, nPaths, PathBlocks.NoSeed, antithetic, underlyings, z).value;
      var n := Consumed(nPaths, calendar.nSteps, |underlyings|);
      forall i, t, k :: 0 <= i < nPaths && 1 <= t < calendar.nSteps && 0 <= k < |underlyings| ==>
        m.paths.normals[i][t][k] == z(n + PathBlocks.Flat(i, t, k, calendar.nSteps, |underlyings|))
  {
    var n := Consumed(nPaths, calendar.nSteps, |underlyings|);
    PathBlocks.PlainLayout(nPaths, calendar.nSteps, |underlyings|, PathBlocks.NoSeed, None, Skip(z, n));
  }

  /** Every model the earlier engine builds satisfies the invariant the
      log-path lemmas of `BlackScholes` rely on. */
  lemma NewModelConsistent(calendar: TimeGrid.Calendar, nPaths: int, seed: PathBlocks.Seed, antithetic: Option<bool>,
                           underlyings: seq<BlackScholes.Entry>, z: nat -> real)
    requires NewModel(calendar, nPaths, seed, antithetic, underlyings, z).Ok?
    ensures BlackScholes.Consistent(NewModel(calendar, nPaths, seed, antithetic, underlyings, z).value)
  {
  }
}
