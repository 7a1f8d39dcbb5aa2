/** One-side slippage. The cost model and the paper executor carry the same
    formula; it is written once here and used by both. */
module Slippage {
  import opened Basics
  import opened Contracts

  /** Sqrt-law impact in basis points, with the flat fallback when the book
      depth is missing; a negative ratio is outside the domain of sqrt. */
  function DepthSlippageBps(schedule: Schedule, maths: Maths, notional: real, depth: Option<real>): Result<real> {
    if depth.None? || depth.value <= EPS then
      Ok(schedule.flatBps)
    else
      var ratio := notional / depth.value;
      if ratio < 0.0 then Err(MathDomain) else Ok(schedule.slippageK * maths.sqrt(ratio) * BPS)
  }

  function SideSlippageBps(schedule: Schedule, maths: Maths, notional: real, market: Market): Result<real> {
    DepthSlippageBps(schedule, maths, notional, market.depth)
  }

  lemma {:induction false} SlippageDefined(schedule: Schedule, maths: Maths, notional: real, market: Market)
    requires notional >= 0.0
    ensures SideSlippageBps(schedule, maths, notional, market).Ok?
  {
    if market.depth.Some? && market.depth.value > EPS {
      assert notional / market.depth.value >= 0.0;
    }
  }

  /** The root really is one, on its domain. */
  ghost predicate TrueRoot(maths: Maths) {
    forall x :: x >= 0.0 ==> maths.sqrt(x) >= 0.0 && Times(maths.sqrt(x), maths.sqrt(x)) == x
  }

  /** The square-root law without the root: against a known depth the squared
      impact times the depth is proportional to the notional; without one the
      impact is flat. */
  lemma {:induction false} SquareRootLaw(schedule: Schedule, maths: Maths, notional: real, market: Market)
    requires TrueRoot(maths) && notional >= 0.0
    ensures
      var bps := SideSlippageBps(schedule, maths, notional, market);
      if market.depth.Some? && market.depth.value > EPS then
        && bps.Ok? && (schedule.slippageK >= 0.0 ==> bps.value >= 0.0)
        && Times(Times(bps.value, bps.value), market.depth.value)
             == Times(Times(schedule.slippageK * 10000.0, schedule.slippageK * 10000.0), notional)
      else bps == Ok(schedule.flatBps)
  {
    if market.depth.Some? && market.depth.value > EPS {
      var depth := market.depth.value;
      var ratio := notional / depth;
      assert ratio * depth == notional;
      assert ratio >= 0.0;
      RootLaw(schedule.slippageK, maths.sqrt(ratio), ratio, depth, notional);
    }
  }

  lemma {:induction false} RootLaw(k: real, root: real, ratio: real, depth: real, notional: real)
    requires root >= 0.0 && Times(root, root) == ratio && Times(ratio, depth) == notional
    ensures k >= 0.0 ==> k * root * BPS >= 0.0
    ensures Times(Times(k * root * BPS, k * root * BPS), depth) == Times(Times(k * BPS, k * BPS), notional)
  {
    var c := k * BPS;
    assert k * root * BPS == c * root;
    assert (c * root) * (c * root) == (c * c) * (root * root);
    assert (c * c) * ratio * depth == (c * c) * (ratio * depth);
    if k >= 0.0 {
      assert k * root >= 0.0;
    }
  }

  /** So four times the notional costs twice the basis points, and as much as a
      quarter of the depth does. */
  lemma {:induction false} QuadrupleDoubles(schedule: Schedule, maths: Maths, notional: real, market: Market)
    requires TrueRoot(maths) && notional >= 0.0 && schedule.slippageK >= 0.0
    requires market.depth.Some? && market.depth.value / 4.0 > EPS
    ensures
      var bps := SideSlippageBps(schedule, maths, notional, market);
      var shallow := market.(depth := Some(market.depth.value / 4.0));
      && bps.Ok? && SideSlippageBps(schedule, maths, 4.0 * notional, market) == Ok(2.0 * bps.value)
      && SideSlippageBps(schedule, maths, notional, shallow) == Ok(2.0 * bps.value)
  {
    var depth, k := market.depth.value, Times(schedule.slippageK * 10000.0, schedule.slippageK * 10000.0);
    var shallow := market.(depth := Some(depth / 4.0));
    SquareRootLaw(schedule, maths, notional, market);
    SquareRootLaw(schedule, maths, 4.0 * notional, market);
    SquareRootLaw(schedule, maths, notional, shallow);
    var bps := SideSlippageBps(schedule, maths, notional, market).value;
    var more := SideSlippageBps(schedule, maths, 4.0 * notional, market).value;
    var less := SideSlippageBps(schedule, maths, notional, shallow).value;
    hide SideSlippageBps, TrueRoot;
    Quadrupled(bps, more, depth, Times(k, notional), Times(k, 4.0 * notional));
    Quadrupled(bps, less, depth, Times(k, notional), 4.0 * Times(k, notional));
  }

  lemma {:induction false} Quadrupled(x: real, y: real, depth: real, a: real, b: real)
    requires x >= 0.0 && y >= 0.0 && depth > 0.0 && b == 4.0 * a
    requires Times(Times(x, x), depth) == a
    requires Times(Times(y, y), depth) == b || Times(Times(y, y), depth / 4.0) == a
    ensures y == 2.0 * x
  {
    assert Times(Times(y, y), depth) == b;
    assert (y * y - 4.0 * (x * x)) * depth == 0.0;
    var gap, sum := y - 2.0 * x, y + 2.0 * x;
    assert gap * sum == 0.0 by {
      assert y * y - 4.0 * (x * x) == 0.0;
    }
    assert gap > 0.0 ==> gap * sum > 0.0;
    assert gap < 0.0 ==> -gap * sum > 0.0;
  }
}
