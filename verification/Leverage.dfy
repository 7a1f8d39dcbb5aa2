/** Choosing the leverage of one trade: the smallest of three caps, shifted
    down a fifth at a time while the expected funding drag is too high. */
module Leverage {
  import opened Basics
  import opened Contracts

  const LIQ_SAFETY_STOP_BUFFER: real := 4.0
  const STEP: real := 0.8

  function VenueMaxLeverage(asset: string): (cap: real)
    ensures cap >= 10.0
  {
    if asset == "BTC" then 40.0
    else if asset == "ETH" then 25.0
    else if asset == "SOL" || asset == "XRP" || asset == "BNB" then 20.0
    else 10.0
  }

  /** The default self-imposed cap per tier; the runner may override it. */
  function OperationalCap(tier: Tier): real {
    match tier
    case T1 => 5.0
    case T2 => 3.0
    case T3 => 3.0
    case T4 => 1.5
  }

  function Ceil(x: real): int {
    -(-x).Floor
  }

  /** Whole hourly funding intervals in the hold, at least one. */
  function Intervals(holdHours: real): int {
    if Ceil(holdHours) >= 1 then Ceil(holdHours) else 1
  }

  function MaintenanceRate(venue: real): real {
    if venue > 0.0 then 1.0 / (2.0 * venue) else 0.05
  }

  function LiqSafetyCap(stopPct: real, venue: real): real {
    var denominator := LIQ_SAFETY_STOP_BUFFER * stopPct + MaintenanceRate(venue);
    if denominator > 0.0 then 1.0 / denominator else venue
  }

  function Caps(asset: string, operational: real, stopPct: real): LeverageCaps {
    var venue := VenueMaxLeverage(asset);
    LeverageCaps(venue, operational, LiqSafetyCap(stopPct, venue))
  }

  function Least(caps: LeverageCaps): real {
    Min(Min(caps.venue, caps.operational), caps.liqSafety)
  }

  predicate Excessive(chosen: real, dragRate: real, ceiling: real) {
    chosen * dragRate > ceiling && chosen > 1.0
  }

  /** Where the reduction ends, and after how many steps. */
  function Reduce(chosen: real, dragRate: real, ceiling: real): real
    decreases 5.0 * chosen
  {
    if Excessive(chosen, dragRate, ceiling) then Reduce(chosen * STEP, dragRate, ceiling) else chosen
  }

  function Steps(chosen: real, dragRate: real, ceiling: real): nat
    decreases 5.0 * chosen
  {
    if Excessive(chosen, dragRate, ceiling) then 1 + Steps(chosen * STEP, dragRate, ceiling) else 0
  }

  function Pow(base: real, k: nat): real {
    if k == 0 then 1.0 else base * Pow(base, k - 1)
  }

  /** start x 0.8^k */
  function Geometric(start: real, k: nat): real {
    start * Pow(STEP, k)
  }

  /** The leverage the three caps and the funding drag leave. */
  function Chosen(caps: LeverageCaps, dragRate: real, ceiling: real): real {
    Max(Reduce(Least(caps), dragRate, ceiling), 1.0)
  }

  function DragRate(fundingRate: real, holdHours: real): real {
    Abs(fundingRate) * Intervals(holdHours) as real
  }

  function Drag(chosen: real, fundingRate: real, intervals: real): real {
    chosen * Abs(fundingRate) * intervals
  }

  lemma {:induction false} DragIs(chosen: real, fundingRate: real, holdHours: real)
    ensures Drag(chosen, fundingRate, Intervals(holdHours) as real) == chosen * DragRate(fundingRate, holdHours)
  {
    var a, i := Abs(fundingRate), Intervals(holdHours) as real;
    assert chosen * a * i == chosen * (a * i);
  }

  /** The whole choice, with the inputs it refuses. */
  function Choose(asset: string, notional: real, operational: real, stopPct: real, fundingRate: real, holdHours: real,
                  ceiling: real): Result<(real, LeverageCaps)> {
    if notional <= 0.0 || stopPct <= 0.0 || holdHours < 0.0 then Err(ValueError)
    else
      var caps := Caps(asset, operational, stopPct);
      Ok((Chosen(caps, DragRate(fundingRate, holdHours), ceiling), caps))
  }

  method ChooseLeverage(asset: string, notional: real, operational: real, stopPct: real, fundingRate: real,
                        holdHours: real, ceiling: real)
    returns (r: Result<(real, LeverageCaps)>)
    ensures r == Choose(asset, notional, operational, stopPct, fundingRate, holdHours, ceiling)
  {
    if notional <= 0.0 {
      return Err(ValueError);
    }
    if stopPct <= 0.0 {
      return Err(ValueError);
    }
    if holdHours < 0.0 {
      return Err(ValueError);
    }
    var venue := VenueMaxLeverage(asset);
    var liqSafety := LiqSafetyCap(stopPct, venue);
    var caps := LeverageCaps(venue, operational, liqSafety);
    var chosen := Min(Min(venue, operational), liqSafety);
    var intervals := Intervals(holdHours) as real;
    ghost var rate := DragRate(fundingRate, holdHours);
    var drag := Drag(chosen, fundingRate, intervals);
    hide Drag, DragRate, LiqSafetyCap;
    DragIs(chosen, fundingRate, holdHours);
    while drag > ceiling && chosen > 1.0
      invariant drag == chosen * rate
      invariant Reduce(chosen, rate, ceiling) == Reduce(Least(caps), rate, ceiling)
      decreases 5.0 * chosen
    {
      chosen := chosen * 0.8;
      drag := Drag(chosen, fundingRate, intervals);
      DragIs(chosen, fundingRate, holdHours);
    }
    chosen := Max(chosen, 1.0);
    r := Ok((chosen, caps));
  }

  // --------------------------------------------------------------- properties

  lemma {:induction false} GeometricStep(start: real, k: nat)
    ensures Geometric(start, 0) == start
    ensures Geometric(start * STEP, k) == Geometric(start, k + 1)
  {
    var p := Pow(STEP, k);
    assert Pow(STEP, k + 1) == STEP * p;
    assert start * STEP * p == start * (STEP * p);
  }

  /** The reduction is a power of 0.8, and the least one that stops: every
      smaller power is still excessive. */
  lemma {:induction false} ReduceIsGeometric(start: real, dragRate: real, ceiling: real)
    ensures
      var k := Steps(start, dragRate, ceiling);
      && Reduce(start, dragRate, ceiling) == Geometric(start, k)
      && !Excessive(Geometric(start, k), dragRate, ceiling)
    ensures forall i: nat :: i < Steps(start, dragRate, ceiling) ==> Excessive(Geometric(start, i), dragRate, ceiling)
    decreases 5.0 * start
  {
    hide Geometric;
    GeometricStep(start, 0);
    if Excessive(start, dragRate, ceiling) {
      var k := Steps(start * STEP, dragRate, ceiling);
      ReduceIsGeometric(start * STEP, dragRate, ceiling);
      GeometricStep(start, k);
      forall i: nat | i < k + 1
        ensures Excessive(Geometric(start, i), dragRate, ceiling)
      {
        if i > 0 {
          GeometricStep(start, i - 1);
        }
      }
    }
  }

  /** Main result on the loop: the leverage is max(1, start x 0.8^k) for the
      least k that meets the drag ceiling or has fallen to 1 or below; so it
      meets the ceiling or is exactly 1. */
  lemma {:induction false} ChosenIsLeastReduction(caps: LeverageCaps, dragRate: real, ceiling: real)
    ensures
      var start := Least(caps);
      var k := Steps(start, dragRate, ceiling);
      var chosen := Chosen(caps, dragRate, ceiling);
      && chosen == Max(1.0, Geometric(start, k))
      && (forall i: nat :: i < k ==> Excessive(Geometric(start, i), dragRate, ceiling))
      && (chosen * dragRate <= ceiling || chosen == 1.0)
  {
    ReduceIsGeometric(Least(caps), dragRate, ceiling);
  }

  lemma {:induction false} ReduceShrinks(start: real, dragRate: real, ceiling: real)
    requires start > 0.0
    ensures 0.0 < Reduce(start, dragRate, ceiling) <= start
    decreases 5.0 * start
  {
    if Excessive(start, dragRate, ceiling) {
      ReduceShrinks(start * STEP, dragRate, ceiling);
    }
  }

  lemma {:induction false} ReduceMonotone(start: real, low: real, high: real, ceiling: real)
    requires low <= high && start > 0.0
    ensures Max(Reduce(start, high, ceiling), 1.0) <= Max(Reduce(start, low, ceiling), 1.0)
    decreases 5.0 * start
  {
    if Excessive(start, low, ceiling) {
      assert start * low <= start * high;
      ReduceMonotone(start * STEP, low, high, ceiling);
    } else {
      ReduceShrinks(start, high, ceiling);
    }
  }

  lemma {:induction false} CapsPositive(asset: string, operational: real, stopPct: real)
    requires stopPct > 0.0 && operational > 0.0
    ensures
      var caps := Caps(asset, operational, stopPct);
      Least(caps) > 0.0 && caps.liqSafety * (LIQ_SAFETY_STOP_BUFFER * stopPct + MaintenanceRate(caps.venue)) == 1.0
  {
    var venue := VenueMaxLeverage(asset);
    assert 1.0 / (2.0 * venue) > 0.0;
    var denominator := LIQ_SAFETY_STOP_BUFFER * stopPct + MaintenanceRate(venue);
    assert denominator > 0.0;
    assert 1.0 / denominator > 0.0;
  }

  lemma {:induction false} IntervalsMonotone(short: real, long: real)
    requires short <= long
    ensures 1 <= Intervals(short) <= Intervals(long)
  {
  }

  /** More funding or a longer hold never raises the leverage. */
  lemma {:induction false} ChosenNonIncreasing(asset: string, operational: real, stopPct: real, ceiling: real,
                                               rate: real, rate': real, hold: real, hold': real)
    requires stopPct > 0.0 && operational > 0.0
    requires Abs(rate) <= Abs(rate') && hold <= hold'
    ensures
      var caps := Caps(asset, operational, stopPct);
      Chosen(caps, DragRate(rate', hold'), ceiling) <= Chosen(caps, DragRate(rate, hold), ceiling)
  {
    var caps := Caps(asset, operational, stopPct);
    IntervalsMonotone(hold, hold');
    CapsPositive(asset, operational, stopPct);
    var a, b, i, j := Abs(rate), Abs(rate'), Intervals(hold) as real, Intervals(hold') as real;
    ProductMonotone(a, b, i, j);
    ReduceMonotone(Least(caps), DragRate(rate, hold), DragRate(rate', hold'), ceiling);
  }

  /** The floor of 1 can lift the leverage over a cap below 1; it respects all
      three caps exactly when each of them is at least 1. */
  lemma {:induction false} RespectsCapsIff(asset: string, operational: real, stopPct: real, dragRate: real,
                                           ceiling: real)
    requires stopPct > 0.0 && operational > 0.0
    ensures
      var caps := Caps(asset, operational, stopPct);
      var chosen := Chosen(caps, dragRate, ceiling);
      (chosen <= caps.venue && chosen <= caps.operational && chosen <= caps.liqSafety)
      <==> (caps.venue >= 1.0 && caps.operational >= 1.0 && caps.liqSafety >= 1.0)
  {
    CapsPositive(asset, operational, stopPct);
    ReduceShrinks(Least(Caps(asset, operational, stopPct)), dragRate, ceiling);
  }

  /** With the default caps per tier only the liquidation cap can fall below the
      floor, so the leverage respects all three exactly when that one is at
      least 1. */
  lemma {:induction false} DefaultCapsRespectedIff(asset: string, tier: Tier, stopPct: real, dragRate: real,
                                                   ceiling: real)
    requires stopPct > 0.0
    ensures
      var caps := Caps(asset, OperationalCap(tier), stopPct);
      var chosen := Chosen(caps, dragRate, ceiling);
      (chosen <= caps.venue && chosen <= caps.operational && chosen <= caps.liqSafety) <==> caps.liqSafety >= 1.0
  {
    RespectsCapsIff(asset, OperationalCap(tier), stopPct, dragRate, ceiling);
    hide Chosen, LiqSafetyCap;
  }

  /** With caps of at least 1, liquidation sits at least four stop distances
      plus the maintenance margin away from entry. */
  lemma {:induction false} LiquidationBeyondStop(asset: string, operational: real, stopPct: real, dragRate: real,
                                                 ceiling: real)
    requires stopPct > 0.0 && operational >= 1.0
    requires Caps(asset, operational, stopPct).liqSafety >= 1.0
    ensures
      var caps := Caps(asset, operational, stopPct);
      var chosen := Chosen(caps, dragRate, ceiling);
      chosen > 0.0 && 1.0 / chosen >= 4.0 * stopPct + 0.5 / caps.venue
  {
    var caps := Caps(asset, operational, stopPct);
    var chosen := Chosen(caps, dragRate, ceiling);
    CapsPositive(asset, operational, stopPct);
    RespectsCapsIff(asset, operational, stopPct, dragRate, ceiling);
    Reciprocal(chosen, caps.liqSafety, LIQ_SAFETY_STOP_BUFFER * stopPct + MaintenanceRate(caps.venue));
  }

  // ------------------------------------------------------------- wider stops

  /** No reduction is needed, no leverage above 1 meets the ceiling, or the
      reduction ends exactly at it. */
  predicate Steady(start: real, rate: real, ceiling: real) {
    || !Excessive(start, rate, ceiling)
    || rate >= ceiling
    || Reduce(start, rate, ceiling) * rate == ceiling
  }

  lemma {:induction false} ReduceEnds(start: real, rate: real, ceiling: real)
    ensures !Excessive(Reduce(start, rate, ceiling), rate, ceiling)
    decreases 5.0 * start
  {
    if Excessive(start, rate, ceiling) {
      ReduceEnds(start * STEP, rate, ceiling);
    }
  }

  lemma {:induction false} LowerStartsFollow(start: real, low: real, rate: real, ceiling: real)
    requires 0.0 < low <= start && rate >= 0.0 && Steady(start, rate, ceiling)
    ensures Max(Reduce(low, rate, ceiling), 1.0) <= Max(Reduce(start, rate, ceiling), 1.0)
  {
    var l, s := Reduce(low, rate, ceiling), Reduce(start, rate, ceiling);
    ReduceShrinks(low, rate, ceiling);
    ReduceEnds(low, rate, ceiling);
    if Excessive(start, rate, ceiling) && l > 1.0 {
      assert l * rate <= ceiling;
      if rate >= ceiling {
        RateAtCeiling(start, l, rate, ceiling);
      } else {
        assert rate > 0.0 by {
          assert start * rate > ceiling > rate;
        }
        assert s * rate == ceiling;
        Divides(l, s, rate, ceiling);
      }
    }
  }

  lemma {:induction false} RateAtCeiling(start: real, l: real, rate: real, ceiling: real)
    requires start * rate > ceiling && rate >= ceiling && rate >= 0.0 && start > 0.0
    ensures l > 1.0 ==> l * rate > ceiling
  {
    if rate == 0.0 {
      assert ceiling < 0.0;
    } else if l > 1.0 {
      assert l * rate > rate;
    }
  }

  lemma {:induction false} Divides(l: real, s: real, rate: real, between: real)
    requires rate > 0.0 && l * rate <= between && between <= s * rate
    ensures l <= s
  {
    assert l > s ==> (l - s) * rate > 0.0;
  }

  /** Unsettled, the start at which the drag just meets the ceiling gets more. */
  lemma {:induction false} CeilingStartGetsMore(start: real, rate: real, ceiling: real)
    requires start > 0.0 && rate >= 0.0 && !Steady(start, rate, ceiling)
    ensures rate > 0.0
    ensures
      var low := Ratio(ceiling, rate);
      1.0 < low < start && Reduce(low, rate, ceiling) == low > Max(Reduce(start, rate, ceiling), 1.0)
  {
    assert rate > 0.0 by {
      assert start * rate > ceiling > rate;
    }
    var low, s := Ratio(ceiling, rate), Reduce(start, rate, ceiling);
    assert low * rate == ceiling;
    Divides(low, start, rate, ceiling);
    assert low > 1.0 by {
      Divides(1.0, low, rate, ceiling);
      assert low != 1.0;
    }
    ReduceEnds(start, rate, ceiling);
    if s > 1.0 {
      assert s * rate <= ceiling;
      Divides(s, low, rate, ceiling);
    }
  }

  lemma {:induction false} StopForCap(asset: string, stopPct: real, cap: real)
    requires stopPct > 0.0 && 0.0 < cap <= LiqSafetyCap(stopPct, VenueMaxLeverage(asset))
    ensures
      var venue := VenueMaxLeverage(asset);
      var wider := Ratio(Ratio(1.0, cap) - MaintenanceRate(venue), LIQ_SAFETY_STOP_BUFFER);
      wider >= stopPct && LiqSafetyCap(wider, venue) == cap
  {
    var venue := VenueMaxLeverage(asset);
    var mm := MaintenanceRate(venue);
    assert mm > 0.0;
    var d := LIQ_SAFETY_STOP_BUFFER * stopPct + mm;
    assert d > 0.0;
    var r := Ratio(1.0, cap);
    assert cap * r == 1.0;
    InverseOrder(cap, Ratio(1.0, d), r, d);
    var wider := Ratio(r - mm, LIQ_SAFETY_STOP_BUFFER);
    assert LIQ_SAFETY_STOP_BUFFER * wider + mm == r;
    hide MaintenanceRate, VenueMaxLeverage, Ratio;
    assert r > 0.0;
    assert 1.0 / r == cap;
  }

  lemma {:induction false} InverseOrder(x: real, y: real, r: real, d: real)
    requires 0.0 < x <= y && x * r == 1.0 && y * d == 1.0
    ensures r >= d > 0.0
  {
    assert r > 0.0 && d > 0.0;
    assert x * d <= y * d;
    assert r < d ==> x * (d - r) > 0.0;
  }

  lemma {:induction false} WiderLowersCaps(asset: string, operational: real, stopPct: real, wider: real)
    requires 0.0 < stopPct <= wider && operational > 0.0
    ensures 0.0 < Least(Caps(asset, operational, wider)) <= Least(Caps(asset, operational, stopPct))
  {
    CapsPositive(asset, operational, stopPct);
    CapsPositive(asset, operational, wider);
    var venue := VenueMaxLeverage(asset);
    var x, y := LiqSafetyCap(wider, venue), LiqSafetyCap(stopPct, venue);
    var mm := MaintenanceRate(venue);
    hide LiqSafetyCap, MaintenanceRate, VenueMaxLeverage;
    SmallerInverse(x, y, LIQ_SAFETY_STOP_BUFFER * wider + mm, LIQ_SAFETY_STOP_BUFFER * stopPct + mm);
  }

  lemma {:induction false} SmallerInverse(x: real, y: real, r: real, d: real)
    requires x > 0.0 && y > 0.0 && x * r == 1.0 && y * d == 1.0 && r >= d
    ensures x <= y
  {
    assert y * r >= y * d;
    assert x > y ==> (x - y) * r > 0.0 by {
      assert r > 0.0;
    }
  }

  /** Main result on the stop: no wider stop gets more leverage exactly when the
      reduction is settled at the caps of this stop; otherwise the wider stop
      whose safety cap just meets the drag ceiling escapes a whole step down
      and gets more. */
  lemma {:induction false} WiderStopMonotoneIff(asset: string, operational: real, stopPct: real, fundingRate: real,
                                                hold: real, ceiling: real)
    requires stopPct > 0.0 && operational > 0.0
    ensures
      var rate := DragRate(fundingRate, hold);
      var chosen := Chosen(Caps(asset, operational, stopPct), rate, ceiling);
      (forall wider :: wider >= stopPct ==> Chosen(Caps(asset, operational, wider), rate, ceiling) <= chosen)
      <==> Steady(Least(Caps(asset, operational, stopPct)), rate, ceiling)
  {
    var rate := DragRate(fundingRate, hold);
    var start := Least(Caps(asset, operational, stopPct));
    assert rate >= 0.0 by {
      ProductMonotone(0.0, Abs(fundingRate), 1.0, Intervals(hold) as real);
    }
    CapsPositive(asset, operational, stopPct);
    hide DragRate, Steady, Reduce, LiqSafetyCap;
    if Steady(start, rate, ceiling) {
      forall wider | wider >= stopPct
        ensures Chosen(Caps(asset, operational, wider), rate, ceiling) <= Chosen(Caps(asset, operational, stopPct),
          rate, ceiling)
      {
        WiderLowersCaps(asset, operational, stopPct, wider);
        LowerStartsFollow(start, Least(Caps(asset, operational, wider)), rate, ceiling);
      }
    } else {
      CeilingStartGetsMore(start, rate, ceiling);
      var low := Ratio(ceiling, rate);
      StopForCap(asset, stopPct, low);
      var wider := Ratio(Ratio(1.0, low) - MaintenanceRate(VenueMaxLeverage(asset)), LIQ_SAFETY_STOP_BUFFER);
      assert Least(Caps(asset, operational, wider)) == low;
      assert Chosen(Caps(asset, operational, wider), rate, ceiling) > Chosen(Caps(asset, operational, stopPct), rate,
        ceiling);
    }
  }

  /** A concrete pair: the narrower stop is unsettled, and a slightly wider one
      gets more leverage. */
  lemma {:induction false} WiderStopRaisesLeverage()
    ensures
      var narrow, wide := Caps("OP", 10.0, 0.0175), Caps("OP", 10.0, 0.01875);
      Chosen(narrow, DragRate(0.025, 1.0), 0.2) < Chosen(wide, DragRate(0.025, 1.0), 0.2) == 8.0
  {
    var narrow, wide := Caps("OP", 10.0, 0.0175), Caps("OP", 10.0, 0.01875);
    assert VenueMaxLeverage("OP") == 10.0;
    var n, w := narrow.liqSafety, wide.liqSafety;
    assert n * 0.12 == 1.0 && w * 0.125 == 1.0;
    assert w == 8.0 && 8.3 < n < 8.4;
    assert Ceil(1.0) == 1;
    assert DragRate(0.025, 1.0) == 0.025;
    assert Least(narrow) == n && Least(wide) == 8.0;
    hide Caps, DragRate, Least;
    assert Excessive(n, 0.025, 0.2) && !Excessive(n * STEP, 0.025, 0.2) && !Excessive(8.0, 0.025, 0.2);
    assert Reduce(n, 0.025, 0.2) == n * STEP;
  }

  lemma {:induction false} ProductMonotone(a: real, b: real, i: real, j: real)
    requires 0.0 <= a <= b && 0.0 <= i <= j
    ensures a * i <= b * j
  {
    assert a * i <= b * i;
    assert b * i <= b * j;
  }

  lemma {:induction false} Reciprocal(x: real, y: real, d: real)
    requires 0.0 < x <= y && y * d == 1.0
    ensures 1.0 / x >= d
  {
    var r := 1.0 / x;
    assert x * r == 1.0;
    assert (y - x) * d == 1.0 - x * d;
    assert d > 0.0;
    assert x * d <= 1.0;
    assert x * (r - d) >= 0.0;
  }
}
