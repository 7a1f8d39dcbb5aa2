/** What the indicators guarantee whatever the candles are. */
module IndicatorLaws {
  import opened Basics
  import opened Contracts
  import opened Indicators

  ghost predicate Within(xs: seq<real>, lo: real, hi: real) {
    forall i :: 0 <= i < |xs| ==> lo <= xs[i] <= hi
  }

  lemma {:induction false} SumWithin(xs: seq<real>, lo: real, hi: real)
    requires Within(xs, lo, hi)
    ensures Times(|xs| as real, lo) <= Sum(xs) <= Times(|xs| as real, hi)
    decreases |xs|
  {
    if xs != [] {
      SumWithin(xs[..|xs| - 1], lo, hi);
      OneMore(|xs| as real, lo);
      OneMore(|xs| as real, hi);
      hide Times;
    }
  }

  lemma {:induction false} OneMore(k: real, x: real)
    ensures Times(k, x) == Times(k - 1.0, x) + x
  {
  }

  lemma {:induction false} ProductNonNegative(x: real, y: real)
    requires x >= 0.0 && y >= 0.0
    ensures Times(x, y) >= 0.0
  {
  }

  lemma {:induction false} MeanWithin(total: real, n: nat, lo: real, hi: real)
    requires n >= 1 && Times(n as real, lo) <= total <= Times(n as real, hi)
    ensures lo <= Mean(total, n) <= hi
  {
    var q := Mean(total, n);
    assert q * n as real == total;
    assert n as real * (q - lo) >= 0.0;
    assert n as real * (hi - q) >= 0.0;
  }

  // -------------------------------------------- exponential moving average

  function Dot(ws: seq<real>, xs: seq<real>): real
    requires |ws| == |xs|
    decreases |xs|
  {
    if xs == [] then 0.0
    else Dot(ws[..|xs| - 1], xs[..|xs| - 1]) + Times(ws[|xs| - 1], xs[|xs| - 1])
  }

  function Scale(ws: seq<real>, c: real): (r: seq<real>)
    ensures |r| == |ws|
  {
    seq(|ws|, i requires 0 <= i < |ws| => Times(c, ws[i]))
  }

  /** The weight the average of len closes puts on each of them. */
  function Weights(len: nat, n: nat): (ws: seq<real>)
    requires 1 <= n <= len
    ensures |ws| == len
    decreases len
  {
    if len == n then seq(n, _ => Mean(1.0, n))
    else
      Scale(Weights(len - 1, n), 1.0 - Alpha(n)) + [Alpha(n)]
  }

  lemma {:induction false} SumScale(ws: seq<real>, c: real)
    ensures Sum(Scale(ws, c)) == Times(c, Sum(ws))
    decreases |ws|
  {
    if ws != [] {
      var k := |ws| - 1;
      assert Scale(ws, c)[..k] == Scale(ws[..k], c);
      SumScale(ws[..k], c);
      assert c * (Sum(ws[..k]) + ws[k]) == c * Sum(ws[..k]) + c * ws[k];
    }
  }

  lemma {:induction false} DotScale(ws: seq<real>, xs: seq<real>, c: real)
    requires |ws| == |xs|
    ensures Dot(Scale(ws, c), xs) == Times(c, Dot(ws, xs))
    decreases |xs|
  {
    if xs != [] {
      var k := |xs| - 1;
      assert Scale(ws, c)[..k] == Scale(ws[..k], c);
      DotScale(ws[..k], xs[..k], c);
      var d, w, x := Dot(ws[..k], xs[..k]), ws[k], xs[k];
      assert c * (d + w * x) == c * d + Times(c, w) * x;
    }
  }

  lemma {:induction false} DotUniform(xs: seq<real>, w: real)
    ensures Dot(seq(|xs|, _ => w), xs) == Times(w, Sum(xs))
    decreases |xs|
  {
    if xs != [] {
      var k := |xs| - 1;
      assert seq(|xs|, _ => w)[..k] == seq(k, _ => w);
      DotUniform(xs[..k], w);
      assert w * (Sum(xs[..k]) + xs[k]) == w * Sum(xs[..k]) + w * xs[k];
    }
  }

  lemma {:induction false} SumUniform(n: nat, w: real)
    ensures Sum(seq(n, _ => w)) == Times(n as real, w)
  {
    if n > 0 {
      assert seq(n, _ => w)[..n - 1] == seq(n - 1, _ => w);
      SumUniform(n - 1, w);
      assert (n as real - 1.0) * w + w == n as real * w;
    }
  }

  lemma {:induction false} AlphaWithin(n: nat)
    requires n >= 1
    ensures 0.0 < Alpha(n) <= 1.0
  {
    assert (1.0 - Alpha(n)) * (n as real + 1.0) == n as real - 1.0;
  }

  lemma {:induction false} UniformConvex(n: nat)
    requires n >= 1
    ensures Sum(seq(n, _ => Mean(1.0, n))) == 1.0 && Mean(1.0, n) >= 0.0
  {
    SumUniform(n, Mean(1.0, n));
    assert Times(n as real, Mean(1.0, n)) == 1.0;
  }

  /** The weights are a convex combination. */
  lemma {:induction false} WeightsConvex(len: nat, n: nat)
    requires 1 <= n <= len
    ensures Sum(Weights(len, n)) == 1.0
    ensures forall i :: 0 <= i < len ==> Weights(len, n)[i] >= 0.0
    decreases len
  {
    if len == n {
      UniformConvex(n);
    } else {
      hide Sum, Scale, Alpha;
      WeightsConvex(len - 1, n);
      AlphaWithin(n);
      AppendConvex(Weights(len - 1, n), Alpha(n));
    }
  }

  lemma {:induction false} SumSnoc(ws: seq<real>, w: real)
    ensures Sum(ws + [w]) == Sum(ws) + w
  {
    assert (ws + [w])[..|ws|] == ws;
  }

  lemma {:induction false} DotSnoc(ws: seq<real>, w: real, xs: seq<real>)
    requires |xs| == |ws| + 1
    ensures Dot(ws + [w], xs) == Dot(ws, xs[..|ws|]) + Times(w, xs[|ws|])
  {
    assert (ws + [w])[..|ws|] == ws;
  }

  lemma {:induction false} AppendConvex(ws: seq<real>, alpha: real)
    requires Sum(ws) == 1.0 && 0.0 <= alpha <= 1.0
    requires forall i :: 0 <= i < |ws| ==> ws[i] >= 0.0
    ensures
      var r := Scale(ws, 1.0 - alpha) + [alpha];
      Sum(r) == 1.0 && forall i :: 0 <= i < |r| ==> r[i] >= 0.0
  {
    var r := Scale(ws, 1.0 - alpha) + [alpha];
    SumScale(ws, 1.0 - alpha);
    SumSnoc(Scale(ws, 1.0 - alpha), alpha);
    forall i | 0 <= i < |r|
      ensures r[i] >= 0.0
    {
      if i < |ws| {
        ProductNonNegative(1.0 - alpha, ws[i]);
        ProductNonNegative(ws[i], 1.0 - alpha);
      }
    }
  }

  lemma {:induction false} AppendDot(ws: seq<real>, xs: seq<real>, alpha: real)
    requires |xs| == |ws| + 1
    ensures Dot(Scale(ws, 1.0 - alpha) + [alpha], xs)
      == Times(alpha, xs[|ws|]) + Times(1.0 - alpha, Dot(ws, xs[..|ws|]))
  {
    hide *;
    DotScale(ws, xs[..|ws|], 1.0 - alpha);
    DotSnoc(Scale(ws, 1.0 - alpha), alpha, xs);
  }

  lemma {:induction false} MeanIsShare(total: real, n: nat)
    requires n >= 1
    ensures Times(Mean(1.0, n), total) == Mean(total, n)
  {
    var m := n as real;
    assert Mean(1.0, n) * m == 1.0 && Mean(total, n) * m == total;
    assert (Mean(1.0, n) * total - Mean(total, n)) * m == 0.0;
  }

  lemma {:induction false} EmaIsWeighted(xs: seq<real>, n: nat)
    requires 1 <= n <= |xs|
    ensures EmaOf(xs, n) == Dot(Weights(|xs|, n), xs)
    decreases |xs|
  {
    if |xs| == n {
      DotUniform(xs, Mean(1.0, n));
      MeanIsShare(Sum(xs), n);
    } else {
      hide Dot, Scale, Times, Alpha;
      EmaIsWeighted(xs[..|xs| - 1], n);
      AppendDot(Weights(|xs| - 1, n), xs, Alpha(n));
    }
  }

  lemma {:induction false} DotWithin(ws: seq<real>, xs: seq<real>, lo: real, hi: real)
    requires |ws| == |xs| && Within(xs, lo, hi)
    requires forall i :: 0 <= i < |ws| ==> ws[i] >= 0.0
    ensures Times(Sum(ws), lo) <= Dot(ws, xs) <= Times(Sum(ws), hi)
    decreases |xs|
  {
    if xs == [] {
      assert Times(0.0, lo) == 0.0 && Times(0.0, hi) == 0.0;
    } else {
      var k := |xs| - 1;
      DotWithin(ws[..k], xs[..k], lo, hi);
      TermWithin(Sum(ws[..k]), ws[k], xs[k], lo, hi);
      hide Times;
    }
  }

  lemma {:induction false} TermWithin(total: real, w: real, x: real, lo: real, hi: real)
    requires w >= 0.0 && lo <= x <= hi
    ensures Times(total + w, lo) - Times(total, lo) <= Times(w, x) <= Times(total + w, hi) - Times(total, hi)
  {
    assert w * (x - lo) >= 0.0 && w * (hi - x) >= 0.0;
  }

  /** Main result on the EMA: it is a convex combination of all the closes,
      and so lies between the lowest and the highest of them. */
  lemma {:induction false} EmaConvex(bars: seq<Bar>, n: nat, lo: real, hi: real)
    requires 1 <= n <= |bars|
    requires forall i :: 0 <= i < |bars| ==> lo <= bars[i].close <= hi
    ensures
      var ws := Weights(|bars|, n);
      && Ema(bars, n) == Ok(Dot(ws, Closes(bars)))
      && Sum(ws) == 1.0 && (forall i :: 0 <= i < |ws| ==> ws[i] >= 0.0)
      && lo <= Ema(bars, n).value <= hi
  {
    hide *;
    EmaIs(bars, n);
    EmaIsWeighted(Closes(bars), n);
    WeightsConvex(|bars|, n);
    WithinIff(Closes(bars), lo, hi);
    DotWithin(Weights(|bars|, n), Closes(bars), lo, hi);
    assert Times(1.0, lo) == lo && Times(1.0, hi) == hi by {
      OneTimes(lo);
      OneTimes(hi);
    }
  }

  lemma {:induction false} EmaIs(bars: seq<Bar>, n: nat)
    requires 1 <= n <= |bars|
    ensures Ema(bars, n) == Ok(EmaOf(Closes(bars), n))
  {
  }

  lemma {:induction false} OneTimes(x: real)
    ensures Times(1.0, x) == x
  {
  }

  lemma {:induction false} WithinIff(xs: seq<real>, lo: real, hi: real)
    requires forall i :: 0 <= i < |xs| ==> lo <= xs[i] <= hi
    ensures Within(xs, lo, hi)
  {
  }

  // --------------------------------------------------------- Wilder's forms

  /** At every index the running sum is n times the running mean. */
  lemma {:induction false} WilderFormsAgree(xs: seq<real>, n: nat)
    requires 1 <= n <= |xs|
    ensures WilderSum(xs, n) == Times(n as real, WilderMean(xs, n))
    decreases |xs|
  {
    if |xs| > n {
      var k := |xs| - 1;
      WilderFormsAgree(xs[..k], n);
      BlendIsDecay(WilderSum(xs[..k], n), WilderMean(xs[..k], n), xs[k], n, WilderMean(xs, n));
    }
  }

  lemma {:induction false} BlendIsDecay(total: real, value: real, x: real, n: nat, blended: real)
    requires n >= 1 && total == Times(n as real, value) && blended == Blend(value, x, n)
    ensures Decay(total, x, n) == Times(n as real, blended)
  {
    var m := n as real;
    assert total / m == value;
    assert m * blended == value * (m - 1.0) + x;
    assert value * (m - 1.0) == m * value - value;
  }

  /** The last smoothed true range inside adx is n times the ATR. */
  lemma {:induction false} SmoothedTrueRangeIsAtr(bars: seq<Bar>, n: nat)
    requires n >= 1 && |bars| >= n + 1
    ensures Atr(bars, n).Ok? && WilderSum(TrueRanges(bars), n) == Times(n as real, Atr(bars, n).value)
  {
    WilderFormsAgree(TrueRanges(bars), n);
  }

  lemma {:induction false} BlendWithin(value: real, x: real, n: nat, lo: real, hi: real)
    requires n >= 1 && lo <= value <= hi && lo <= x <= hi
    ensures lo <= Blend(value, x, n) <= hi
  {
    var m := n as real;
    assert (m - 1.0) * (value - lo) >= 0.0;
    assert (m - 1.0) * (hi - value) >= 0.0;
    MeanWithin(Times(value, m - 1.0) + x, n, lo, hi);
  }

  lemma {:induction false} WilderMeanWithin(xs: seq<real>, n: nat, lo: real, hi: real)
    requires 1 <= n <= |xs| && Within(xs, lo, hi)
    ensures lo <= WilderMean(xs, n) <= hi
    decreases |xs|
  {
    if |xs| == n {
      SumWithin(xs, lo, hi);
      MeanWithin(Sum(xs), n, lo, hi);
    } else {
      WilderMeanWithin(xs[..|xs| - 1], n, lo, hi);
      BlendWithin(WilderMean(xs[..|xs| - 1], n), xs[|xs| - 1], n, lo, hi);
    }
  }

  /** The ATR lies between any bounds on the true ranges it smooths. */
  lemma {:induction false} AtrWithinRanges(bars: seq<Bar>, n: nat, lo: real, hi: real)
    requires n >= 1 && |bars| >= n + 1 && Within(TrueRanges(bars), lo, hi)
    ensures Atr(bars, n).Ok? && lo <= Atr(bars, n).value <= hi
  {
    WilderMeanWithin(TrueRanges(bars), n, lo, hi);
  }

  lemma {:induction false} WilderMeanNonNegative(xs: seq<real>, n: nat)
    requires 1 <= n <= |xs|
    requires forall i :: 0 <= i < |xs| ==> xs[i] >= 0.0
    ensures WilderMean(xs, n) >= 0.0
    decreases |xs|
  {
    if |xs| == n {
      SumNonNegative(xs);
    } else {
      WilderMeanNonNegative(xs[..|xs| - 1], n);
      assert WilderMean(xs[..|xs| - 1], n) * (n as real - 1.0) >= 0.0;
    }
  }

  lemma {:induction false} SumNonNegative(xs: seq<real>)
    requires forall i :: 0 <= i < |xs| ==> xs[i] >= 0.0
    ensures Sum(xs) >= 0.0
    decreases |xs|
  {
    if xs != [] {
      SumNonNegative(xs[..|xs| - 1]);
    }
  }

  // ------------------------------------------------------- directional index

  /** A candle whose close lies inside its range. */
  predicate WellFormed(bar: Bar) {
    bar.low <= bar.close <= bar.high
  }

  predicate AllWellFormed(bars: seq<Bar>) {
    forall i :: 0 <= i < |bars| ==> WellFormed(bars[i])
  }

  /** Whichever way the range moved, it moved by at most the true range. */
  lemma {:induction false} MovementWithinRange(prev: Bar, bar: Bar)
    requires WellFormed(prev)
    ensures PlusDm(prev, bar) >= 0.0 && MinusDm(prev, bar) >= 0.0
    ensures PlusDm(prev, bar) + MinusDm(prev, bar) <= TrueRange(prev, bar)
  {
  }

  /** Three series that stay dominated pointwise stay dominated when smoothed. */
  ghost predicate Dominated(trs: seq<real>, plus: seq<real>, minus: seq<real>) {
    && |trs| == |plus| == |minus|
    && forall i :: 0 <= i < |trs| ==> plus[i] >= 0.0 && minus[i] >= 0.0 && plus[i] + minus[i] <= trs[i]
  }

  lemma {:induction false} SumDominated(trs: seq<real>, plus: seq<real>, minus: seq<real>)
    requires Dominated(trs, plus, minus)
    ensures Sum(plus) >= 0.0 && Sum(minus) >= 0.0 && Sum(plus) + Sum(minus) <= Sum(trs)
    decreases |trs|
  {
    if trs != [] {
      var k := |trs| - 1;
      SumDominated(trs[..k], plus[..k], minus[..k]);
    }
  }

  lemma {:induction false} DecayKeeps(tr: real, plus: real, minus: real, x: real, y: real, z: real, n: nat)
    requires n >= 1 && plus >= 0.0 && minus >= 0.0 && plus + minus <= tr
    requires y >= 0.0 && z >= 0.0 && y + z <= x
    ensures Decay(plus, y, n) >= 0.0 && Decay(minus, z, n) >= 0.0
    ensures Decay(plus, y, n) + Decay(minus, z, n) <= Decay(tr, x, n)
  {
    ShareLeft(plus, n);
    ShareLeft(minus, n);
    ShareLeft(tr - plus - minus, n);
    assert Mean(tr - plus - minus, n) == Mean(tr, n) - Mean(plus, n) - Mean(minus, n);
  }

  lemma {:induction false} ShareLeft(v: real, n: nat)
    requires n >= 1 && v >= 0.0
    ensures v - Mean(v, n) >= 0.0
  {
    var m := n as real;
    var q := Mean(v, n);
    assert q * m == v;
    assert q >= 0.0;
    assert q * (m - 1.0) >= 0.0;
  }

  lemma {:induction false} SmoothedDominated(trs: seq<real>, plus: seq<real>, minus: seq<real>, n: nat)
    requires Dominated(trs, plus, minus) && 1 <= n <= |trs|
    ensures
      var tr, p, m := WilderSum(trs, n), WilderSum(plus, n), WilderSum(minus, n);
      p >= 0.0 && m >= 0.0 && p + m <= tr
    decreases |trs|
  {
    if |trs| == n {
      SumDominated(trs, plus, minus);
    } else {
      var k := |trs| - 1;
      SmoothedDominated(trs[..k], plus[..k], minus[..k], n);
      DecayKeeps(WilderSum(trs[..k], n), WilderSum(plus[..k], n), WilderSum(minus[..k], n), trs[k], plus[k], minus[k],
        n);
    }
  }

  ghost predicate InBounds(d: Directional) {
    && d.plus >= 0.0 && d.minus >= 0.0 && d.plus + d.minus <= 100.0
    && Within(d.dx, 0.0, 100.0)
  }

  lemma {:induction false} DxWithin(plus: real, minus: real)
    requires plus >= 0.0 && minus >= 0.0
    ensures 0.0 <= Dx(plus, minus) <= 100.0
  {
    var denominator := plus + minus;
    if denominator > EPS {
      var gap := Abs(plus - minus);
      var q := 100.0 * gap / denominator;
      assert q * denominator == 100.0 * gap;
      assert (100.0 - q) * denominator >= 0.0;
      assert q >= 0.0;
    }
  }

  lemma {:induction false} PercentsWithin(plus: real, minus: real, tr: real)
    requires tr > 0.0 && plus >= 0.0 && minus >= 0.0 && plus + minus <= tr
    ensures Percent(plus, tr) >= 0.0 && Percent(minus, tr) >= 0.0
    ensures Percent(plus, tr) + Percent(minus, tr) <= 100.0
  {
    PercentOf(plus, tr);
    PercentOf(minus, tr);
    PercentOf(plus + minus, tr);
    PercentsAdd(plus, minus, tr);
    hide Percent;
  }

  lemma {:induction false} PercentOf(part: real, whole: real)
    requires whole > 0.0 && part >= 0.0
    ensures Percent(part, whole) >= 0.0 && (part <= whole ==> Percent(part, whole) <= 100.0)
  {
    var q := Percent(part, whole);
    assert q * whole == 100.0 * part;
    assert q < 0.0 ==> q * whole < 0.0;
    assert q > 100.0 ==> (q - 100.0) * whole > 0.0;
  }

  lemma {:induction false} PercentsAdd(a: real, b: real, whole: real)
    requires whole != 0.0
    ensures Percent(a, whole) + Percent(b, whole) == Percent(a + b, whole)
  {
  }

  lemma {:induction false} AdvanceInBounds(d: Directional, tr: real, plus: real, minus: real)
    requires InBounds(d) && plus >= 0.0 && minus >= 0.0 && plus + minus <= tr
    ensures InBounds(Advance(d, tr, plus, minus))
  {
    if tr >= EPS {
      PercentsWithin(plus, minus, tr);
      DxWithin(Percent(plus, tr), Percent(minus, tr));
    }
  }

  lemma {:induction false} DirectionalInBounds(trs: seq<real>, plus: seq<real>, minus: seq<real>, n: nat)
    requires Dominated(trs, plus, minus) && 1 <= n && n - 1 <= |trs|
    ensures InBounds(DirectionalOf(trs, plus, minus, n))
    decreases |trs|
  {
    if |trs| >= n {
      var k := |trs| - 1;
      DirectionalInBounds(trs[..k], plus[..k], minus[..k], n);
      SmoothedDominated(trs, plus, minus, n);
      AdvanceInBounds(DirectionalOf(trs[..k], plus[..k], minus[..k], n), WilderSum(trs, n), WilderSum(plus, n),
        WilderSum(minus, n));
    }
  }

  lemma {:induction false} AdxWithin(dx: seq<real>, n: nat)
    requires n >= 1 && Within(dx, 0.0, 100.0)
    ensures 0.0 <= AdxOf(dx, n) <= 100.0
    decreases |dx|
  {
    if |dx| <= n {
      SumWithin(dx, 0.0, 100.0);
      MeanWithin(Sum(dx), n, 0.0, 100.0);
    } else {
      AdxWithin(dx[..|dx| - 1], n);
      BlendWithin(AdxOf(dx[..|dx| - 1], n), dx[|dx| - 1], n, 0.0, 100.0);
    }
  }

  /** Main result on the ADX: on well-formed candles the pair of directional
      indicators is non-negative and sums to at most 100, and the index lies in
      0..100, whichever low-range steps are skipped. */
  lemma {:induction false} AdxBounds(bars: seq<Bar>, n: nat)
    requires n >= 1 && |bars| >= 2 * n + 1 && AllWellFormed(bars)
    ensures Adx(bars, n).Ok?
    ensures
      var v := Adx(bars, n).value;
      && 0.0 <= v.adx <= 100.0
      && v.plusDi >= 0.0 && v.minusDi >= 0.0 && v.plusDi + v.minusDi <= 100.0
  {
    var trs, plus, minus := TrueRanges(bars), PlusDms(bars), MinusDms(bars);
    forall i | 0 <= i < |trs|
      ensures plus[i] >= 0.0 && minus[i] >= 0.0 && plus[i] + minus[i] <= trs[i]
    {
      MovementWithinRange(bars[i], bars[i + 1]);
    }
    DirectionalInBounds(trs, plus, minus, n);
    AdxWithin(DirectionalOf(trs, plus, minus, n).dx, n);
  }

  // ------------------------------------------------- relative strength index

  /** The RSI never divides by zero and lies in 0..100 on any candles. */
  lemma {:induction false} RsiBounds(bars: seq<Bar>, n: nat)
    requires n >= 1 && |bars| >= n + 1
    ensures Rsi(bars, n).Ok? && 0.0 <= Rsi(bars, n).value <= 100.0
  {
    WilderMeanNonNegative(Gains(bars), n);
    WilderMeanNonNegative(Losses(bars), n);
    StrengthWithin(WilderMean(Gains(bars), n), WilderMean(Losses(bars), n));
  }

  lemma {:induction false} StrengthWithin(gain: real, loss: real)
    requires gain >= 0.0 && loss >= 0.0
    ensures Strength(gain, loss).Ok? && 0.0 <= Strength(gain, loss).value <= 100.0
  {
    if loss >= EPS {
      var rs := gain / loss;
      assert rs >= 0.0;
      var q := 100.0 / (1.0 + rs);
      assert q * (1.0 + rs) == 100.0;
      assert q > 0.0;
      assert q * rs >= 0.0;
    }
  }
}
