/** The stochastic driver of `Model_V1/base.py`: the simulation settings and
    the block of standard-normal draws, indexed (scenario, time step,
    underlying).

    The random generator is not modelled: the normal variates are a stream
    `z`, read in the C order numpy fills an array in, the first sampler call
    from position 0 and a second one from where the first stopped. The seed
    only chooses the stream, so it is checked but not used. */
module PathBlocks {
  import opened Wrappers
  import TimeGrid

  type Tensor = seq<seq<seq<real>>>

  /** The seed as Python sees it: `None`; a Python `int` (a `bool` is one);
      a numpy integer scalar, which numpy reads as an integer but which is
      not an `int` to `isinstance`; a one-dimensional sequence of integers
      (a list or a numpy array); or any other object, such as a float or a
      string, that numpy cannot read as integers. Both dataclasses default
      `seed` to `None`, so an omitted seed is `NoSeed`. */
  datatype Seed =
    | NoSeed
    | IntSeed(n: int)
    | NumpyIntSeed(n: int)
    | ArraySeed(values: seq<int>)
    | OtherSeed

  /** numpy's legacy seeding accepts integers in [0, 2**32 - 1]. */
  const SeedBound: int := 0x1_0000_0000

  /** A seed sequence is cast to signed 64-bit integers: entries must lie in
      [-2**63, 2**63 - 1]. */
  const Int64Bound: int := 0x8000_0000_0000_0000

  /** `SimulationConfig.antithetic` defaults to `True`. */
  const DefaultAntithetic: bool := true

  /** `PathBlock.antithetic` defaults to `False`. */
  const DefaultBlockAntithetic: bool := false

  datatype SimulationConfig = SimulationConfig(
    calendar: TimeGrid.Calendar,
    nPaths: int,
    seed: Seed,
    antithetic: bool)

  /** `SimulationConfig.__post_init__`: the scenario count must be positive,
      then the seed must be `None` or an integer. An omitted `antithetic`
      flag (`None`) is stored as the field's default, `True`. */
  function NewConfig(calendar: TimeGrid.Calendar, nPaths: int, seed: Seed, antithetic: Option<bool>)
    : (r: Result<SimulationConfig>)
    ensures nPaths <= 0 ==> r == Err(ValueError(NonPositivePaths))
    ensures nPaths > 0 && !(seed.NoSeed? || seed.IntSeed?) ==> r == Err(ValueError(SeedNotInteger))
    ensures r.Ok? <==> nPaths > 0 && (seed.NoSeed? || seed.IntSeed?)
    ensures r.Ok? ==>
      && r.value.calendar == calendar && r.value.nPaths == nPaths
      && r.value.seed == seed
      && r.value.antithetic == (if antithetic.Some? then antithetic.value else true)
  {
    if nPaths <= 0 then Err(ValueError(NonPositivePaths))
    else if !(seed.NoSeed? || seed.IntSeed?) then Err(ValueError(SeedNotInteger))
    else Ok(SimulationConfig(calendar, nPaths, seed, if antithetic.Some? then antithetic.value else DefaultAntithetic))
  }

  /** Every scenario has `nSteps` steps of `d` values each. */
  predicate Shape(a: Tensor, nSim: nat, nSteps: nat, d: nat) {
    && |a| == nSim
    && (forall i :: 0 <= i < |a| ==> |a[i]| == nSteps)
    && (forall i, t :: 0 <= i < |a| && 0 <= t < |a[i]| ==> |a[i][t]| == d)
  }

  /** The position of entry (i, t, k) in C order. */
  function Flat(i: nat, t: nat, k: nat, nSteps: nat, d: nat): nat {
    (i * nSteps + t) * d + k
  }

  /** `np.random.normal(size=(rows, nSteps, d))` reading the stream from
      position `offset`. */
  function Sample(z: nat -> real, offset: nat, rows: nat, nSteps: nat, d: nat): (a: Tensor)
    ensures Shape(a, rows, nSteps, d)
    ensures forall i, t, k :: 0 <= i < rows && 0 <= t < nSteps && 0 <= k < d ==>
      a[i][t][k] == z(offset + Flat(i, t, k, nSteps, d))
  {
    seq(rows, i requires 0 <= i < rows =>
      seq(nSteps, t requires 0 <= t < nSteps =>
        seq(d, k requires 0 <= k < d => z(offset + Flat(i, t, k, nSteps, d)))))
  }

  /** Elementwise negation, numpy's unary minus. */
  function Negate(a: Tensor): (b: Tensor)
    ensures |b| == |a|
    ensures forall i :: 0 <= i < |a| ==> |b[i]| == |a[i]|
    ensures forall i, t :: 0 <= i < |a| && 0 <= t < |a[i]| ==> |b[i][t]| == |a[i][t]|
    ensures forall i, t, k :: 0 <= i < |a| && 0 <= t < |a[i]| && 0 <= k < |a[i][t]| ==> b[i][t][k] == -a[i][t][k]
  {
    seq(|a|, i requires 0 <= i < |a| =>
      seq(|a[i]|, t requires 0 <= t < |a[i]| =>
        seq(|a[i][t]|, k requires 0 <= k < |a[i][t]| => -a[i][t][k])))
  }

  /** `array[:, 0, :] = 0.0`. */
  function ZeroFirstStep(a: Tensor): (b: Tensor)
    ensures |b| == |a|
    ensures forall i :: 0 <= i < |a| ==> |b[i]| == |a[i]|
    ensures forall i, t :: 0 <= i < |a| && 0 <= t < |a[i]| ==> |b[i][t]| == |a[i][t]|
    ensures forall i, k :: 0 <= i < |a| && 0 < |a[i]| && 0 <= k < |a[i][0]| ==> b[i][0][k] == 0.0
    ensures forall i, t :: 0 <= i < |a| && 1 <= t < |a[i]| ==> b[i][t] == a[i][t]
  {
    seq(|a|, i requires 0 <= i < |a| =>
      seq(|a[i]|, t requires 0 <= t < |a[i]| =>
        if t == 0 then seq(|a[i][t]|, k => 0.0) else a[i][t]))
  }

  datatype PathBlock = PathBlock(
    nSim: int,
    nSteps: int,
    d: int,
    seed: Seed,
    antithetic: bool,
    normals: Tensor)

  /** The draws before the first step is zeroed: in antithetic mode the
      first `nSim / 2` scenarios, their negations, and one more sampled
      scenario when `nSim` is odd; otherwise `nSim` sampled scenarios. */
  function Draws(nSim: nat, nSteps: nat, d: nat, antithetic: bool, z: nat -> real): (a: Tensor)
    ensures Shape(a, nSim, nSteps, d)
  {
    if antithetic then
      var half := nSim / 2;
      var main := Sample(z, 0, half, nSteps, d);
      var paired := main + Negate(main);
      if nSim % 2 != 0 then paired + Sample(z, half * nSteps * d, 1, nSteps, d) else paired
    else
      Sample(z, 0, nSim, nSteps, d)
  }

  /** numpy's `np.random.seed` on the legacy generator: `None` is always
      accepted; an integer, plain or numpy, must lie in [0, 2**32 - 1]; a
      sequence must be non-empty, then cast safely to signed 64-bit integers
      (an entry outside that type raises `TypeError`), and then have every
      entry in [0, 2**32 - 1]; anything else cannot be cast to integers. */
  function CheckSeed(seed: Seed): (r: Result<()>)
    ensures seed.NoSeed? ==> r.Ok?
    ensures seed.IntSeed? || seed.NumpyIntSeed? ==>
      if 0 <= seed.n < SeedBound then r.Ok? else r == Err(ValueError(SeedOutOfRange))
    ensures seed.ArraySeed? && |seed.values| == 0 ==> r == Err(ValueError(EmptySeed))
    ensures seed.ArraySeed? && |seed.values| > 0 &&
            (exists j :: 0 <= j < |seed.values| && !(-Int64Bound <= seed.values[j] < Int64Bound)) ==>
      r == Err(TypeError)
    ensures seed.ArraySeed? && |seed.values| > 0 &&
            (forall j :: 0 <= j < |seed.values| ==> -Int64Bound <= seed.values[j] < Int64Bound) ==>
      if forall j :: 0 <= j < |seed.values| ==> 0 <= seed.values[j] < SeedBound
      then r.Ok? else r == Err(ValueError(SeedOutOfRange))
    ensures seed.OtherSeed? ==> r == Err(TypeError)
  {
    match seed
    case NoSeed => Ok(())
    case IntSeed(n) => if 0 <= n < SeedBound then Ok(()) else Err(ValueError(SeedOutOfRange))
    case NumpyIntSeed(n) => if 0 <= n < SeedBound then Ok(()) else Err(ValueError(SeedOutOfRange))
    case ArraySeed(vs) =>
      if |vs| == 0 then Err(ValueError(EmptySeed))
      else if exists j :: 0 <= j < |vs| && !(-Int64Bound <= vs[j] < Int64Bound) then Err(TypeError)
      else if exists j :: 0 <= j < |vs| && !(0 <= vs[j] < SeedBound) then Err(ValueError(SeedOutOfRange))
      else Ok(())
    case OtherSeed => Err(TypeError)
  }

  /** numpy accepts a numpy integer exactly when it accepts the plain
      integer, and so it does a one-element sequence whose entry fits a
      signed 64-bit integer; a larger entry fails the sequence's cast with
      `TypeError` where the plain integer fails the range test with
      `ValueError`. The simulation settings accept only
      the plain integer, so the other two reach numpy only through a
      `PathBlock` built directly. */
  lemma IntegerSeedForms(calendar: TimeGrid.Calendar, nPaths: int, n: int, antithetic: Option<bool>)
    ensures CheckSeed(NumpyIntSeed(n)) == CheckSeed(IntSeed(n))
    ensures -Int64Bound <= n < Int64Bound ==> CheckSeed(ArraySeed([n])) == CheckSeed(IntSeed(n))
    ensures n >= Int64Bound ==>
      && CheckSeed(ArraySeed([n])) == Err(TypeError)
      && CheckSeed(IntSeed(n)) == Err(ValueError(SeedOutOfRange))
    ensures nPaths > 0 ==>
      && NewConfig(calendar, nPaths, IntSeed(n), antithetic).Ok?
      && NewConfig(calendar, nPaths, NumpyIntSeed(n), antithetic) == Err(ValueError(SeedNotInteger))
      && NewConfig(calendar, nPaths, ArraySeed([n]), antithetic) == Err(ValueError(SeedNotInteger))
  {
    var vs := [n];
    assert vs[0] == n;
  }

  /** `PathBlock.__post_init__`: seed the generator, draw, then zero the
      first time step. The seed, a negative size and a missing first step
      each make numpy raise, in that order. An omitted `antithetic` flag
      (`None`) is the field's default, `False`. */
  function NewPathBlock(nSim: int, nSteps: int, d: int, seed: Seed, antithetic: Option<bool>, z: nat -> real)
    : (r: Result<PathBlock>)
    ensures CheckSeed(seed).Err? ==> r == Err(CheckSeed(seed).error)
    ensures r.Ok? <==> CheckSeed(seed).Ok? && nSim >= 0 && nSteps >= 1 && d >= 0
    ensures CheckSeed(seed).Ok? && (nSim < 0 || nSteps < 0 || d < 0) ==> r == Err(ValueError(NegativeDimensions))
    ensures CheckSeed(seed).Ok? && nSim >= 0 && nSteps == 0 && d >= 0 ==> r == Err(IndexError)
    ensures r.Ok? ==>
      && r.value.nSim == nSim && r.value.nSteps == nSteps && r.value.d == d
      && r.value.seed == seed
      && r.value.antithetic == (if antithetic.Some? then antithetic.value else false)
      && Shape(r.value.normals, nSim, nSteps, d)
    ensures r.Ok? ==> forall i, k :: 0 <= i < nSim && 0 <= k < d ==> r.value.normals[i][0][k] == 0.0
  {
    if CheckSeed(seed).Err? then Err(CheckSeed(seed).error)
    else if nSim < 0 || nSteps < 0 || d < 0 then Err(ValueError(NegativeDimensions))
    else if nSteps == 0 then Err(IndexError)
    else
      var flag := if antithetic.Some? then antithetic.value else DefaultBlockAntithetic;
      Ok(PathBlock(nSim, nSteps, d, seed, flag, ZeroFirstStep(Draws(nSim, nSteps, d, flag, z))))
  }

  /** The two dataclasses default `antithetic` differently: a configuration
      built without the flag pairs its scenarios, a block built without it
      does not. */
  lemma OmittedAntitheticDefaults(calendar: TimeGrid.Calendar, nPaths: int, seed: Seed,
                                  nSim: int, nSteps: int, d: int, z: nat -> real)
    ensures NewConfig(calendar, nPaths, seed, None) == NewConfig(calendar, nPaths, seed, Some(true))
    ensures NewPathBlock(nSim, nSteps, d, seed, None, z) == NewPathBlock(nSim, nSteps, d, seed, Some(false), z)
    ensures NewConfig(calendar, nPaths, seed, None).Ok? && NewPathBlock(nSim, nSteps, d, seed, None, z).Ok? ==>
      NewConfig(calendar, nPaths, seed, None).value.antithetic
      && !NewPathBlock(nSim, nSteps, d, seed, None, z).value.antithetic
  {
  }

  lemma MulLe(a: nat, b: nat, c: nat)
    requires a <= b
    ensures a * c <= b * c
  {
  }

  /** Entries of a `rows`-scenario block occupy the first
      `rows * nSteps * d` stream positions. */
  lemma FlatBelow(i: nat, t: nat, k: nat, rows: nat, nSteps: nat, d: nat)
    requires i < rows && t < nSteps && k < d
    ensures Flat(i, t, k, nSteps, d) < rows * nSteps * d
  {
    var row := i * nSteps + t;
    MulLe(i + 1, rows, nSteps);
    var x := (i + 1) * nSteps;
    assert x == i * nSteps + nSteps;
    var y := rows * nSteps;
    assert row + 1 <= y;
    MulLe(row + 1, y, d);
    var u := (row + 1) * d;
    assert u == row * d + d;
    assert u <= y * d;
  }

  /** Scenarios `nSim / 2 .. 2 * (nSim / 2)` are the negation of the
      first `nSim / 2` scenarios. */
  predicate Mirrored(a: Tensor, nSim: nat)
    requires |a| == nSim
  {
    a[nSim / 2 .. 2 * (nSim / 2)] == Negate(a[..nSim / 2])
  }

  /** The antithetic draws are mirrored before the first step is zeroed. */
  lemma DrawsMirrored(nSim: nat, nSteps: nat, d: nat, z: nat -> real)
    ensures Mirrored(Draws(nSim, nSteps, d, true, z), nSim)
  {
    var half := nSim / 2;
    var main := Sample(z, 0, half, nSteps, d);
    var paired := main + Negate(main);
    var raw := Draws(nSim, nSteps, d, true, z);
    assert raw[..2 * half] == paired;
    assert raw[..half] == paired[..half] == main;
    assert raw[half .. 2 * half] == paired[half ..] == Negate(main);
  }

  /** Zeroing the first step keeps a mirrored block mirrored: the zeroed
      step is its own negation. */
  lemma ZeroingKeepsMirror(raw: Tensor, nSim: nat)
    requires |raw| == nSim
    requires Mirrored(raw, nSim)
    ensures Mirrored(ZeroFirstStep(raw), nSim)
  {
    var half := nSim / 2;
    var a := ZeroFirstStep(raw);
    var hi := a[half .. 2 * half];
    var neg := Negate(a[..half]);
    var rawNeg := Negate(raw[..half]);
    forall i | 0 <= i < half
      ensures hi[i] == neg[i]
    {
      assert raw[half + i] == rawNeg[i];
      forall t | 0 <= t < |hi[i]|
        ensures hi[i][t] == neg[i][t]
      {
        forall k | 0 <= k < |hi[i][t]|
          ensures hi[i][t][k] == neg[i][t][k]
        {
          assert hi[i][t][k] == a[half + i][t][k];
        }
      }
    }
  }

  /** Entry form of `Mirrored`. */
  lemma MirroredEntry(a: Tensor, nSim: nat, i: nat, t: nat, k: nat)
    requires |a| == nSim && Mirrored(a, nSim)
    requires i < nSim / 2 && t < |a[i]| && k < |a[i][t]|
    ensures a[nSim / 2 + i][t][k] == -a[i][t][k]
  {
    var half := nSim / 2;
    assert a[half + i] == a[half .. 2 * half][i] == Negate(a[..half])[i];
    assert a[..half][i] == a[i];
  }

  /** In antithetic mode, scenarios `half .. 2*half` are the negation of
      scenarios `0 .. half` at every step and underlying. */
  lemma AntitheticPairs(nSim: int, nSteps: int, d: int, seed: Seed, z: nat -> real)
    requires NewPathBlock(nSim, nSteps, d, seed, Some(true), z).Ok?
    ensures Mirrored(NewPathBlock(nSim, nSteps, d, seed, Some(true), z).value.normals, nSim)
  {
    DrawsMirrored(nSim, nSteps, d, z);
    ZeroingKeepsMirror(Draws(nSim, nSteps, d, true, z), nSim);
  }

  /** In antithetic mode the first `half` scenarios are fresh draws after
      the zeroed step. */
  lemma AntitheticFreshHalf(nSim: int, nSteps: int, d: int, seed: Seed, z: nat -> real)
    requires NewPathBlock(nSim, nSteps, d, seed, Some(true), z).Ok?
    ensures var a := NewPathBlock(nSim, nSteps, d, seed, Some(true), z).value.normals;
      forall i, t, k :: 0 <= i < nSim / 2 && 1 <= t < nSteps && 0 <= k < d ==>
        a[i][t][k] == z(Flat(i, t, k, nSteps, d))
  {
    var half := nSim / 2;
    var main := Sample(z, 0, half, nSteps, d);
    var raw := Draws(nSim, nSteps, d, true, z);
    assert forall i :: 0 <= i < half ==> raw[i] == main[i];
  }

  /** With an odd antithetic count, the last scenario is a fresh draw from
      the second sampler call, which starts where the first one stopped. */
  lemma AntitheticOddExtra(nSim: int, nSteps: int, d: int, seed: Seed, z: nat -> real)
    requires NewPathBlock(nSim, nSteps, d, seed, Some(true), z).Ok? && nSim % 2 != 0
    ensures var a := NewPathBlock(nSim, nSteps, d, seed, Some(true), z).value.normals;
      forall t, k :: 1 <= t < nSteps && 0 <= k < d ==>
        a[nSim - 1][t][k] == z(Flat(nSim / 2, t, k, nSteps, d))
  {
    var half := nSim / 2;
    var raw := Draws(nSim, nSteps, d, true, z);
    var a := ZeroFirstStep(raw);
    var extra := Sample(z, half * nSteps * d, 1, nSteps, d);
    assert raw[nSim - 1] == extra[0];
    forall t, k | 1 <= t < nSteps && 0 <= k < d
      ensures a[nSim - 1][t][k] == z(Flat(half, t, k, nSteps, d))
    {
      FlatShift(half, t, k, nSteps, d);
      assert a[nSim - 1][t] == extra[0][t];
    }
  }

  /** Row `half` of a block starts `half * nSteps * d` positions in. */
  lemma FlatShift(half: nat, t: nat, k: nat, nSteps: nat, d: nat)
    ensures half * nSteps * d + Flat(0, t, k, nSteps, d) == Flat(half, t, k, nSteps, d)
  {
    assert Flat(half, t, k, nSteps, d) == (half * nSteps) * d + t * d + k;
  }

  /** The extra scenario of an odd antithetic block reads only stream
      positions that no paired scenario reads, so it is independent of
      them. */
  lemma ExtraScenarioIndependent(half: nat, nSteps: nat, d: nat, i: nat, t: nat, k: nat, t': nat, k': nat)
    requires i < half && t < nSteps && k < d && t' < nSteps && k' < d
    ensures Flat(i, t, k, nSteps, d) != Flat(half, t', k', nSteps, d)
  {
    FlatBelow(i, t, k, half, nSteps, d);
    assert Flat(half, t', k', nSteps, d) >= half * nSteps * d by {
      assert Flat(half, t', k', nSteps, d) == (half * nSteps) * d + t' * d + k';
    }
  }

  /** Without antithetic pairing, whether switched off or omitted, every
      scenario is a fresh draw after the zeroed step. */
  lemma PlainLayout(nSim: int, nSteps: int, d: int, seed: Seed, antithetic: Option<bool>, z: nat -> real)
    requires antithetic != Some(true)
    requires NewPathBlock(nSim, nSteps, d, seed, antithetic, z).Ok?
    ensures var a := NewPathBlock(nSim, nSteps, d, seed, antithetic, z).value.normals;
      forall i, t, k :: 0 <= i < nSim && 1 <= t < nSteps && 0 <= k < d ==>
        a[i][t][k] == z(Flat(i, t, k, nSteps, d))
  {
  }
}
