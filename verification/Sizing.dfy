/**
 * Leverage caps and volatility targeting (execution/sizing.py). Square roots enter as
 * parameters: `root` maps a variance to a volatility, `rootDays` is the root of the
 * number of trading days.
 */
module Sizing {
  import opened Common
  import opened Orders

  datatype VixBucket = VeryLow | SweetSpot | Elevated | Stress | Crisis

  datatype DrawdownBucket = Normal | Yellow | Orange | Red | ForcedCash

  const EWMA_LAMBDA := 0.94
  const VOL_FLOOR_ANNUAL := 0.08
  const CAP_LEVERAGE := 1.75
  const DAY_CHANGE_CAP := 0.10
  const MAX_MASTER_CAPABILITY := 1.5

  function BaseMaxGross(agent: AgentId): real {
    match agent case Haiku => 1.5 case Sonnet => 1.25 case Opus => 1.0 case Manager => 1.0
  }

  function BaseVolTarget(agent: AgentId): real {
    match agent case Haiku => 0.3 case Sonnet => 0.25 case Opus => 0.2 case Manager => 0.1
  }

  function VixScalar(v: VixBucket): real {
    match v case VeryLow => 0.6 case SweetSpot => 1.0 case Elevated => 0.8 case Stress => 0.5 case Crisis => 0.25
  }

  function DrawdownScalar(d: DrawdownBucket): real {
    match d case Normal => 1.0 case Yellow => 0.75 case Orange => 0.5 case Red => 0.25 case ForcedCash => 0.0
  }

  /** The Manager's weight for a sleeve, kept within a quarter and twice. */
  function SleeveWeight(weights: map<AgentId, real>, agent: AgentId): real {
    Max(0.25, Min(2.0, ValueOr(weights, agent, 1.0)))
  }

  /** effective_max_gross; `None` stands for the error above the allowed capability. */
  function EffectiveMaxGross(agent: AgentId, capability: real, vix: VixBucket, drawdown: DrawdownBucket,
                             weights: map<AgentId, real>): Option<real> {
    if capability > MAX_MASTER_CAPABILITY then None
    else Some(Max(BaseMaxGross(agent) * capability * VixScalar(vix) * DrawdownScalar(drawdown)
                  * SleeveWeight(weights, agent), 0.0))
  }

  lemma ProductBelow(x: real, y: real, a: real, b: real)
    requires 0.0 <= x <= a && 0.0 <= y <= b
    ensures 0.0 <= x * y <= a * b
  {
    assert x * y <= a * y;
    assert a * y <= a * b;
  }

  lemma AtMostProduct(x: real, y: real, a: real, b: real)
    requires x <= a && 0.0 <= y <= b && 0.0 <= a
    ensures x * y <= a * b
  {
    if x >= 0.0 {
      ProductBelow(x, y, a, b);
    } else {
      ProductBelow(-x, y, -x, y);
      ProductBelow(a, b, a, b);
      assert -x * y == -(x * y);
    }
  }

  lemma CapProduct(base: real, capability: real, vix: real, drawdown: real, weight: real)
    requires 0.0 <= base <= 1.5 && capability <= 1.5 && 0.0 <= vix <= 1.0 && 0.0 <= drawdown <= 1.0
          && 0.0 <= weight <= 2.0
    ensures base * capability * vix * drawdown * weight <= 4.5
    ensures drawdown == 0.0 ==> base * capability * vix * drawdown * weight == 0.0
  {
    AtMostProduct(capability, base, 1.5, 1.5);
    var p := base * capability;
    AtMostProduct(p, vix, 2.25, 1.0);
    AtMostProduct(p * vix, drawdown, 2.25, 1.0);
    AtMostProduct(p * vix * drawdown, weight, 2.25, 2.0);
    if drawdown == 0.0 {
      assert p * vix * drawdown == 0.0;
    }
  }

  /** The cap never lets a sleeve past 4.5 times its equity, whatever the Manager asks for. */
  lemma CapIsBounded(agent: AgentId, capability: real, vix: VixBucket, drawdown: DrawdownBucket,
                     weights: map<AgentId, real>)
    ensures var cap := EffectiveMaxGross(agent, capability, vix, drawdown, weights);
            && (cap.None? <==> capability > MAX_MASTER_CAPABILITY)
            && (cap.Some? ==> 0.0 <= cap.value <= 4.5 && (drawdown == ForcedCash ==> cap.value == 0.0))
  {
    if capability <= MAX_MASTER_CAPABILITY {
      CapProduct(BaseMaxGross(agent), capability, VixScalar(vix), DrawdownScalar(drawdown),
                 SleeveWeight(weights, agent));
    }
  }

  function SizingMultiplier(realizedVol: real, volTarget: real): real {
    Min(volTarget / Max(realizedVol, VOL_FLOOR_ANNUAL), CAP_LEVERAGE)
  }

  /** vol_targeted_position_value */
  function VolTargetedValue(weight: real, equity: real, realizedVol: real, volTarget: real): real {
    weight * equity * SizingMultiplier(realizedVol, volTarget)
  }

  lemma QuotientPositive(x: real, y: real)
    requires x >= 0.0 && y > 0.0
    ensures x / y >= 0.0 && (x > 0.0 ==> x / y > 0.0)
  {
  }

  lemma TargetIsPositive(weight: real, equity: real, realizedVol: real, volTarget: real)
    requires weight >= 0.0 && equity >= 0.0 && volTarget >= 0.0
    ensures 0.0 <= VolTargetedValue(weight, equity, realizedVol, volTarget) <= CAP_LEVERAGE * (weight * equity)
  {
    QuotientPositive(volTarget, Max(realizedVol, VOL_FLOOR_ANNUAL));
    ProductBelow(weight, equity, weight, equity);
    ProductBelow(weight * equity, SizingMultiplier(realizedVol, volTarget), weight * equity, CAP_LEVERAGE);
  }

  // ── The volatility estimator ─────────────────────────────────────────────────

  function Pow(x: real, n: nat): real {
    if n == 0 then 1.0 else x * Pow(x, n - 1)
  }

  /** The variance after a list of daily returns, oldest first. */
  function Variance(decay: real, history: seq<real>): real {
    if history == [] then 0.0
    else
      var r := history[|history| - 1];
      decay * Variance(decay, history[..|history| - 1]) + (1.0 - decay) * (r * r)
  }

  /** The same as one weighted sum: a return k days old weighs (1 - decay) times decay to the k. */
  function WeightedSquares(decay: real, history: seq<real>): real {
    if history == [] then 0.0
    else (1.0 - decay) * Pow(decay, |history| - 1) * (history[0] * history[0]) + WeightedSquares(decay, history[1..])
  }

  lemma Scale(decay: real, w: real, p: real, q: real, rest: real)
    ensures decay * (w * p * q + rest) == w * (decay * p) * q + decay * rest
  {
    assert decay * (w * p * q) == (decay * (w * p)) * q;
    assert decay * (w * p) == w * (decay * p);
  }

  lemma FirstWeighs(decay: real, history: seq<real>)
    requires history != []
    ensures WeightedSquares(decay, history)
         == (1.0 - decay) * Pow(decay, |history| - 1) * (history[0] * history[0]) + WeightedSquares(decay, history[1..])
  {
  }

  lemma LastWeighs(decay: real, r: real)
    ensures WeightedSquares(decay, [r]) == (1.0 - decay) * (r * r) && WeightedSquares(decay, []) == 0.0
  {
    assert [r][1..] == [];
    FirstWeighs(decay, [r]);
  }

  /** Appending a day: every earlier weight decays by one more factor. */
  lemma {:induction false} OneMoreDay(decay: real, history: seq<real>, r: real)
    ensures WeightedSquares(decay, history + [r]) == decay * WeightedSquares(decay, history) + (1.0 - decay) * (r * r)
  {
    hide WeightedSquares;
    LastWeighs(decay, r);
    if history == [] {
      assert [] + [r] == [r];
    } else {
      var x, rest := history[0], history[1..];
      assert (history + [r])[1..] == rest + [r];
      OneMoreDay(decay, rest, r);
      FirstWeighs(decay, history + [r]);
      FirstWeighs(decay, history);
      var p := Pow(decay, |rest|);
      assert Pow(decay, |rest| + 1) == decay * p;
      hide Pow;
      Scale(decay, 1.0 - decay, p, x * x, WeightedSquares(decay, rest));
    }
  }

  /** The running variance is its closed form. */
  lemma {:induction false} VarianceIsWeightedSum(decay: real, history: seq<real>)
    ensures Variance(decay, history) == WeightedSquares(decay, history)
  {
    hide WeightedSquares;
    LastWeighs(decay, 0.0);
    if history != [] {
      var init, r := history[..|history| - 1], history[|history| - 1];
      assert history == init + [r];
      VarianceIsWeightedSum(decay, init);
      OneMoreDay(decay, init, r);
    }
  }

  /** The variance never passes the largest squared return. */
  lemma {:induction false} VarianceBelowLargest(decay: real, history: seq<real>, largest: real)
    requires 0.0 <= decay <= 1.0 && largest >= 0.0
          && forall i :: 0 <= i < |history| ==> history[i] * history[i] <= largest
    ensures 0.0 <= Variance(decay, history) <= largest
  {
    if history != [] {
      var init, r := history[..|history| - 1], history[|history| - 1];
      VarianceBelowLargest(decay, init, largest);
      Convex(decay, Variance(decay, init), r * r, largest);
    }
  }

  lemma SumTimes(a: real, b: real, c: real)
    ensures (a + b) * c == a * c + b * c
  {
  }

  lemma BothBelow(a: real, b: real, x: real, y: real, bound: real)
    requires a >= 0.0 && b >= 0.0 && 0.0 <= x <= bound && 0.0 <= y <= bound
    ensures 0.0 <= a * x + b * y <= a * bound + b * bound
  {
    ProductBelow(a, x, a, bound);
    ProductBelow(b, y, b, bound);
  }

  lemma Whole(a: real, c: real)
    ensures a * c + (1.0 - a) * c == c
  {
  }

  lemma Convex(a: real, x: real, y: real, bound: real)
    requires 0.0 <= a <= 1.0 && 0.0 <= x <= bound && 0.0 <= y <= bound
    ensures 0.0 <= a * x + (1.0 - a) * y <= bound
  {
    BothBelow(a, 1.0 - a, x, y, bound);
    Whole(a, bound);
  }

  function AnnualVol(variance: real, root: real -> real, rootDays: real): real
    requires rootDays > 0.0
  {
    var floorDaily := VOL_FLOOR_ANNUAL / rootDays;
    (if variance == 0.0 then floorDaily else Max(root(variance), floorDaily)) * rootDays
  }

  lemma AnnualVolHasFloor(variance: real, root: real -> real, rootDays: real)
    requires rootDays > 0.0
    ensures AnnualVol(variance, root, rootDays) >= VOL_FLOOR_ANNUAL
  {
    var floorDaily := VOL_FLOOR_ANNUAL / rootDays;
    assert floorDaily * rootDays == VOL_FLOOR_ANNUAL;
    var daily := if variance == 0.0 then floorDaily else Max(root(variance), floorDaily);
    assert (daily - floorDaily) * rootDays >= 0.0;
  }

  class EwmaVolEstimator {
    const decay: real
    const root: real -> real
    const rootDays: real
    var variance: real
    ghost var history: seq<real>

    ghost predicate Valid()
      reads this
    {
      variance == Variance(decay, history) && rootDays > 0.0
    }

    constructor (root: real -> real, rootDays: real, decay: real := EWMA_LAMBDA)
      requires rootDays > 0.0
      ensures Valid() && history == [] && this.decay == decay && this.root == root && this.rootDays == rootDays
    {
      this.decay, this.root, this.rootDays, variance, history := decay, root, rootDays, 0.0, [];
    }

    method Update(dailyReturn: real)
      requires Valid()
      modifies this
      ensures Valid() && history == old(history) + [dailyReturn]
      ensures variance == WeightedSquares(decay, history)
    {
      variance := decay * variance + (1.0 - decay) * (dailyReturn * dailyReturn);
      history := history + [dailyReturn];
      assert history[..|history| - 1] == old(history);
      VarianceIsWeightedSum(decay, history);
    }

    method DailyVol() returns (vol: real)
      requires Valid()
      ensures vol * rootDays == AnnualVol(variance, root, rootDays)
    {
      var floorDaily := VOL_FLOOR_ANNUAL / rootDays;
      if variance == 0.0 {
        return floorDaily;
      }
      return Max(root(variance), floorDaily);
    }

    method AnnualisedVol() returns (vol: real)
      requires Valid()
      ensures vol == AnnualVol(variance, root, rootDays)
    {
      var daily := DailyVol();
      return daily * rootDays;
    }
  }

  // ── The leverage sizer ───────────────────────────────────────────────────────

  /** The leverage aimed at, before the limit on the daily change. */
  function Goal(targetVol: real, vol: real): real
    requires vol > 0.0
  {
    Min(targetVol / vol, CAP_LEVERAGE)
  }

  function NextLeverage(prev: Option<real>, goal: real): real {
    if prev.None? then goal
    else Min(Max(goal, prev.value * (1.0 - DAY_CHANGE_CAP)), prev.value * (1.0 + DAY_CHANGE_CAP))
  }

  predicate InBand(x: real) {
    0.0 < x <= CAP_LEVERAGE
  }

  /** Leverage stays in its range and within ten percent of the day before. */
  lemma LeverageStaysInBand(prev: Option<real>, goal: real)
    requires InBand(goal) && (prev.Some? ==> InBand(prev.value))
    ensures var next := NextLeverage(prev, goal);
            InBand(next) && (prev.Some? ==> 0.9 * prev.value <= next <= 1.1 * prev.value)
  {
  }

  lemma GoalInBand(targetVol: real, vol: real)
    requires targetVol > 0.0 && vol > 0.0
    ensures InBand(Goal(targetVol, vol))
  {
    QuotientPositive(targetVol, vol);
  }

  /** Leverage after some days of one constant goal. */
  function LeverageAfter(start: real, goal: real, days: nat): real {
    if days == 0 then start else NextLeverage(Some(LeverageAfter(start, goal, days - 1)), goal)
  }

  lemma {:induction false} PowGrows(n: nat)
    ensures Pow(1.1, n) >= 1.0 + 0.1 * n as real
    ensures 0.0 < Pow(0.9, n) && Pow(0.9, n) * Pow(1.1, n) <= 1.0
  {
    if n > 0 {
      PowGrows(n - 1);
      var a, b := Pow(0.9, n - 1), Pow(1.1, n - 1);
      assert (0.9 * a) * (1.1 * b) == 0.99 * (a * b);
      assert a * b > 0.0;
    }
  }

  lemma StepUp(x: real, goal: real, free: real)
    requires goal > 0.0 && free > 0.0 && x == Min(goal, free)
    ensures NextLeverage(Some(x), goal) == Min(goal, 1.1 * free)
  {
  }

  lemma StepDown(x: real, goal: real, free: real)
    requires goal > 0.0 && free > 0.0 && x == Max(goal, free)
    ensures NextLeverage(Some(x), goal) == Max(goal, 0.9 * free)
  {
  }

  /** A quantity after some days of one constant rate. */
  function Compound(start: real, rate: real, days: nat): real {
    if days == 0 then start else rate * Compound(start, rate, days - 1)
  }

  lemma {:induction false} CompoundIsPower(start: real, rate: real, days: nat)
    ensures Compound(start, rate, days) == start * Pow(rate, days)
  {
    if days > 0 {
      CompoundIsPower(start, rate, days - 1);
      var p := Pow(rate, days - 1);
      assert rate * (start * p) == start * (rate * p);
    }
  }

  lemma {:induction false} CompoundPositive(start: real, days: nat)
    requires start > 0.0
    ensures Compound(start, 1.1, days) > 0.0 && Compound(start, 0.9, days) > 0.0
  {
    if days > 0 {
      CompoundPositive(start, days - 1);
    }
  }

  /** Until it arrives, leverage moves towards the goal by the full ten percent. */
  lemma {:induction false} LeverageFollows(start: real, goal: real, days: nat)
    requires InBand(start) && InBand(goal)
    ensures start <= goal ==> LeverageAfter(start, goal, days) == Min(goal, Compound(start, 1.1, days))
    ensures start >= goal ==> LeverageAfter(start, goal, days) == Max(goal, Compound(start, 0.9, days))
  {
    if days > 0 {
      LeverageFollows(start, goal, days - 1);
      CompoundPositive(start, days - 1);
      if start <= goal {
        StepUp(LeverageAfter(start, goal, days - 1), goal, Compound(start, 1.1, days - 1));
      }
      if start >= goal {
        StepDown(LeverageAfter(start, goal, days - 1), goal, Compound(start, 0.9, days - 1));
      }
    }
  }

  /** Enough days for a start and a goal. */
  function DaysToReach(start: real, goal: real): nat
    requires InBand(start) && InBand(goal)
  {
    QuotientPositive(goal, start);
    QuotientPositive(start, goal);
    (10.0 * Max(goal / start, start / goal)).Floor + 1
  }

  lemma EnoughGrowth(start: real, goal: real, days: nat)
    requires InBand(start) && InBand(goal) && days >= DaysToReach(start, goal)
    ensures Pow(1.1, days) >= goal / start && Pow(1.1, days) >= start / goal
  {
    PowGrows(days);
    var ratio := Max(goal / start, start / goal);
    assert 0.1 * days as real >= ratio;
  }

  lemma CompoundReachesUp(start: real, goal: real, days: nat)
    requires InBand(start) && InBand(goal) && days >= DaysToReach(start, goal)
    ensures Compound(start, 1.1, days) >= goal
  {
    hide Pow, DaysToReach, Compound;
    EnoughGrowth(start, goal, days);
    CompoundIsPower(start, 1.1, days);
    ReachUp(start, goal, Pow(1.1, days));
  }

  lemma CompoundReachesDown(start: real, goal: real, days: nat)
    requires InBand(start) && InBand(goal) && days >= DaysToReach(start, goal) && goal < start
    ensures Compound(start, 0.9, days) <= goal
  {
    hide Pow, DaysToReach, Compound;
    EnoughGrowth(start, goal, days);
    CompoundIsPower(start, 0.9, days);
    PowGrows(days);
    ReachDown(start, goal, Pow(1.1, days), Pow(0.9, days));
  }

  /** A constant goal is reached in finitely many days, from either side, and then kept. */
  lemma GoalIsReachedAndKept(start: real, goal: real, days: nat)
    requires InBand(start) && InBand(goal) && days >= DaysToReach(start, goal)
    ensures LeverageAfter(start, goal, days) == goal
  {
    hide LeverageAfter, DaysToReach, Compound;
    LeverageFollows(start, goal, days);
    if start <= goal {
      CompoundReachesUp(start, goal, days);
    } else {
      CompoundReachesDown(start, goal, days);
    }
  }

  lemma ReachUp(start: real, goal: real, growth: real)
    requires 0.0 < start && growth >= goal / start
    ensures start * growth >= goal
  {
    assert start * (goal / start) == goal;
    assert start * (growth - goal / start) >= 0.0;
  }

  lemma ReachDown(start: real, goal: real, growth: real, shrink: real)
    requires 0.0 < goal < start && growth >= start / goal && shrink > 0.0 && shrink * growth <= 1.0
    ensures start * shrink <= goal
  {
    ReachUp(goal, start, growth);
    assert start * shrink <= (goal * growth) * shrink;
    assert (goal * growth) * shrink == goal * (shrink * growth);
    assert goal * (1.0 - shrink * growth) >= 0.0;
  }

  class VolTargetSizer {
    const estimator: EwmaVolEstimator
    const targetVol: real
    var prevLeverage: Option<real>

    ghost predicate Valid()
      reads this, estimator
    {
      estimator.Valid() && targetVol > 0.0 && (prevLeverage.Some? ==> InBand(prevLeverage.value))
    }

    constructor (estimator: EwmaVolEstimator, targetVol: real)
      requires estimator.Valid() && targetVol > 0.0
      ensures Valid() && this.estimator == estimator && this.targetVol == targetVol && prevLeverage == None
    {
      this.estimator, this.targetVol, prevLeverage := estimator, targetVol, None;
    }

    /** Today's leverage, once the estimator has today's return. */
    method TargetLeverage() returns (leverage: real)
      requires Valid()
      modifies this
      ensures Valid() && prevLeverage == Some(leverage) && InBand(leverage)
      ensures AnnualVol(estimator.variance, estimator.root, estimator.rootDays) > 0.0
      ensures leverage
           == NextLeverage(old(prevLeverage),
                           Goal(targetVol, AnnualVol(estimator.variance, estimator.root, estimator.rootDays)))
      ensures old(prevLeverage).Some? ==> 0.9 * old(prevLeverage).value <= leverage <= 1.1 * old(prevLeverage).value
    {
      var vol := estimator.AnnualisedVol();
      AnnualVolHasFloor(estimator.variance, estimator.root, estimator.rootDays);
      GoalInBand(targetVol, vol);
      var capped := Min(targetVol / vol, CAP_LEVERAGE);
      LeverageStaysInBand(prevLeverage, capped);
      if prevLeverage.Some? {
        var maxUp := prevLeverage.value * (1.0 + DAY_CHANGE_CAP);
        var maxDown := prevLeverage.value * (1.0 - DAY_CHANGE_CAP);
        capped := Min(Max(capped, maxDown), maxUp);
      }
      prevLeverage := Some(capped);
      return capped;
    }
  }
}
