// Wilder-smoothed indicators over exact reals
// (libs/market_data/src/market_data/indicators.py).

/** Weighted averages and the facts about them that every indicator uses. */
module Averages {
  import opened Common

  function Sum(xs: seq<real>): real { if xs == [] then 0.0 else Sum(xs[..|xs| - 1]) + xs[|xs| - 1] }

  function Mean(xs: seq<real>): real
    requires xs != []
  {
    Sum(xs) / |xs| as real
  }

  ghost predicate Within(xs: seq<real>, lo: real, hi: real) { forall i :: 0 <= i < |xs| ==> lo <= xs[i] <= hi }

  /** One step from `x` towards `y`. */
  function Blend(x: real, y: real, w: real): real { (y - x) * w + x }

  lemma NonnegProduct(a: real, b: real)
    requires a >= 0.0 && b >= 0.0
    ensures a * b >= 0.0
  {
  }

  lemma BlendWithin(x: real, y: real, w: real, lo: real, hi: real)
    requires 0.0 <= w <= 1.0 && lo <= x <= hi && lo <= y <= hi
    ensures lo <= Blend(x, y, w) <= hi
  {
    NonnegProduct(y - lo, w);
    NonnegProduct(x - lo, 1.0 - w);
    assert (y - lo) * w + (x - lo) * (1.0 - w) == (y - x) * w + x - lo;
    NonnegProduct(hi - y, w);
    NonnegProduct(hi - x, 1.0 - w);
    assert (hi - y) * w + (hi - x) * (1.0 - w) == hi - ((y - x) * w + x);
  }

  /** Wilder's running average. */
  function Wilder(average: real, x: real, period: nat): real
    requires period >= 1
  {
    (average * (period - 1) as real + x) / period as real
  }

  lemma ScaleStrict(a: real, b: real, n: real)
    requires a < b && n > 0.0
    ensures a * n < b * n
  {
    assert (b - a) * n > 0.0;
  }

  lemma Unscale(a: real, b: real, n: real)
    requires n > 0.0 && a * n <= b * n
    ensures a <= b
  {
    if b < a { ScaleStrict(b, a, n); }
  }

  lemma SumQuotient(x: real, y: real, n: real)
    requires n > 0.0
    ensures (x + y) / n == x / n + y / n
  {
  }

  lemma DivideBounds(n: real, x: real, lo: real, hi: real)
    requires n > 0.0 && lo * n <= x <= hi * n
    ensures lo <= x / n <= hi
  {
    var q := x / n;
    assert q * n == x;
    Unscale(lo, q, n);
    Unscale(q, hi, n);
  }

  lemma WilderWithin(average: real, x: real, period: nat, lo: real, hi: real)
    requires period >= 1 && lo <= average <= hi && lo <= x <= hi
    ensures lo <= Wilder(average, x, period) <= hi
  {
    var n, m := period as real, (period - 1) as real;
    assert n == m + 1.0;
    assert (average - lo) * m >= 0.0 && (hi - average) * m >= 0.0;
    assert lo * n == lo * m + lo && hi * n == hi * m + hi;
    DivideBounds(n, average * m + x, lo, hi);
  }

  lemma BoundStep(lo: real, hi: real, sum: real, x: real, n: real)
    requires lo * n <= sum <= hi * n && lo <= x <= hi
    ensures lo * (n + 1.0) <= sum + x <= hi * (n + 1.0)
  {
  }

  lemma {:induction false} SumWithin(xs: seq<real>, lo: real, hi: real)
    requires Within(xs, lo, hi)
    ensures lo * |xs| as real <= Sum(xs) <= hi * |xs| as real
  {
    if xs != [] {
      var n := |xs| - 1;
      SumWithin(xs[..n], lo, hi);
      BoundStep(lo, hi, Sum(xs[..n]), xs[n], n as real);
      assert |xs| as real == n as real + 1.0;
    }
  }

  lemma MeanWithin(xs: seq<real>, lo: real, hi: real)
    requires xs != [] && Within(xs, lo, hi)
    ensures lo <= Mean(xs) <= hi
  {
    SumWithin(xs, lo, hi);
    DivideBounds(|xs| as real, Sum(xs), lo, hi);
  }

  /** Seeded with the mean of the first `period` values, then smoothed. */
  function WilderAverage(xs: seq<real>, period: nat): real
    requires 1 <= period <= |xs|
  {
    if |xs| == period then Mean(xs) else Wilder(WilderAverage(xs[..|xs| - 1], period), xs[|xs| - 1], period)
  }

  lemma {:induction false} WilderAverageWithin(xs: seq<real>, period: nat, lo: real, hi: real)
    requires 1 <= period <= |xs| && Within(xs, lo, hi)
    ensures lo <= WilderAverage(xs, period) <= hi
  {
    if |xs| == period {
      MeanWithin(xs, lo, hi);
    } else {
      WilderAverageWithin(xs[..|xs| - 1], period, lo, hi);
      WilderWithin(WilderAverage(xs[..|xs| - 1], period), xs[|xs| - 1], period, lo, hi);
    }
  }

  /** Seeded with a mean, every later value counts one part in `period`. */
  lemma WilderStep(xs: seq<real>, x: real, period: nat)
    requires 1 <= period <= |xs|
    ensures |xs| == period ==> WilderAverage(xs, period) * period as real == Sum(xs)
    ensures WilderAverage(xs + [x], period) * period as real == WilderAverage(xs, period) * (period - 1) as real + x
  {
    assert (xs + [x])[..|xs|] == xs;
    WholeOf(Sum(xs), |xs| as real);
    WholeOf(WilderAverage(xs, period) * (period - 1) as real + x, period as real);
  }

  lemma WholeOf(a: real, n: real)
    requires n > 0.0
    ensures a / n * n == a
  {
  }

  ghost predicate Nonneg(xs: seq<real>) { forall i :: 0 <= i < |xs| ==> xs[i] >= 0.0 }

  ghost predicate AllZero(xs: seq<real>) { forall i :: 0 <= i < |xs| ==> xs[i] == 0.0 }

  lemma {:induction false} SumZeroIff(xs: seq<real>)
    requires Nonneg(xs)
    ensures Sum(xs) >= 0.0 && (Sum(xs) == 0.0 <==> AllZero(xs))
  {
    if xs != [] {
      var n := |xs| - 1;
      SumZeroIff(xs[..n]);
      assert AllZero(xs) <==> AllZero(xs[..n]) && xs[n] == 0.0;
    }
  }

  lemma QuotientZeroIff(x: real, n: real)
    requires x >= 0.0 && n > 0.0
    ensures x / n >= 0.0 && (x / n == 0.0 <==> x == 0.0)
  {
    assert x / n * n == x;
  }

  lemma StepZeroIff(average: real, x: real, period: nat)
    requires period >= 1 && average >= 0.0 && x >= 0.0
    ensures Wilder(average, x, period) >= 0.0
    ensures Wilder(average, x, period) == 0.0 <==> x == 0.0 && (period == 1 || average == 0.0)
  {
    var m := (period - 1) as real;
    assert average * m >= 0.0;
    if period > 1 && average > 0.0 { assert average * m > 0.0; }
    QuotientZeroIff(average * m + x, period as real);
  }

  /** What a smoothed average of nonnegative values being zero means for the values. */
  ghost predicate Vanishes(xs: seq<real>, period: nat)
    requires 1 <= period <= |xs|
  {
    if period == 1 then xs[|xs| - 1] == 0.0 else AllZero(xs)
  }

  lemma {:induction false} WilderZeroIff(xs: seq<real>, period: nat)
    requires 1 <= period <= |xs| && Nonneg(xs)
    ensures WilderAverage(xs, period) >= 0.0
    ensures WilderAverage(xs, period) == 0.0 <==> Vanishes(xs, period)
  {
    if |xs| == period {
      SumZeroIff(xs);
      QuotientZeroIff(Sum(xs), |xs| as real);
      if period == 1 { assert AllZero(xs) <==> xs[0] == 0.0; }
    } else {
      var n := |xs| - 1;
      WilderZeroIff(xs[..n], period);
      StepZeroIff(WilderAverage(xs[..n], period), xs[n], period);
      assert AllZero(xs) <==> AllZero(xs[..n]) && xs[n] == 0.0;
    }
  }

  method SumOf(xs: seq<real>) returns (total: real)
    ensures total == Sum(xs)
  {
    total := 0.0;
    for i := 0 to |xs|
      invariant total == Sum(xs[..i])
    {
      assert xs[..i + 1][..i] == xs[..i];
      total := total + xs[i];
    }
    assert xs[..|xs|] == xs;
  }

  method SmoothedAverage(xs: seq<real>, period: nat) returns (average: real)
    requires 1 <= period <= |xs|
    ensures average == WilderAverage(xs, period)
  {
    var seed := SumOf(xs[..period]);
    average := seed / period as real;
    assert xs[..period][..period] == xs[..period];
    for i := period to |xs|
      invariant average == WilderAverage(xs[..i], period)
    {
      assert xs[..i + 1][..i] == xs[..i];
      average := Wilder(average, xs[i], period);
    }
    assert xs[..|xs|] == xs;
  }
}

module Indicators {
  import opened Common
  import opened Averages

  // ------------------------------------------------------------------
  // EMA
  // ------------------------------------------------------------------
  function EmaFrom(ema: real, rest: seq<real>, w: real): real {
    if rest == [] then ema else Blend(EmaFrom(ema, rest[..|rest| - 1], w), rest[|rest| - 1], w)
  }

  function Ema(closes: seq<real>, period: nat): real
    requires period >= 1
  {
    if closes == [] then 0.0
    else if |closes| < period then closes[|closes| - 1]
    else EmaFrom(Mean(closes[..period]), closes[period..], 2.0 / (period as real + 1.0))
  }

  method ComputeEma(closes: seq<real>, period: nat) returns (ema: real)
    requires period >= 1
    ensures ema == Ema(closes, period)
  {
    if closes == [] {
      return 0.0;
    }
    if |closes| < period {
      return closes[|closes| - 1];
    }
    var multiplier := 2.0 / (period as real + 1.0);
    var total := SumOf(closes[..period]);
    ema := total / period as real;
    var rest := closes[period..];
    for i := 0 to |rest|
      invariant ema == EmaFrom(Mean(closes[..period]), rest[..i], multiplier)
    {
      assert rest[..i + 1][..i] == rest[..i];
      ema := (rest[i] - ema) * multiplier + ema;
    }
    assert rest[..|rest|] == rest;
  }

  /** Nothing without closes, the last close while there are too few, and then the mean of the first `period`. */
  lemma EmaSeed(closes: seq<real>, period: nat)
    requires period >= 1
    ensures closes == [] ==> Ema(closes, period) == 0.0
    ensures 0 < |closes| < period ==> Ema(closes, period) == closes[|closes| - 1]
    ensures |closes| == period ==> Ema(closes, period) * period as real == Sum(closes)
  {
    if |closes| == period {
      assert closes[..period] == closes && closes[period..] == [];
      TimesQuotient(Sum(closes), period as real);
    }
  }

  lemma EmaNext(closes: seq<real>, x: real, period: nat)
    requires 1 <= period <= |closes|
    ensures Ema(closes + [x], period) == Blend(Ema(closes, period), x, 2.0 / (period as real + 1.0))
  {
    var all, rest := closes + [x], closes[period..] + [x];
    assert all[..period] == closes[..period] && all[period..] == rest;
    assert rest[..|rest| - 1] == closes[period..];
  }

  /** From then on each close counts two parts in `period + 1`. */
  lemma EmaStep(closes: seq<real>, x: real, period: nat)
    requires 1 <= period <= |closes|
    ensures Ema(closes + [x], period) * (period as real + 1.0)
            == 2.0 * x + (period as real - 1.0) * Ema(closes, period)
  {
    EmaNext(closes, x, period);
    WeightedStep(Ema(closes, period), x, period as real);
  }

  lemma TimesQuotient(a: real, n: real)
    requires n > 0.0
    ensures a / n * n == a
  {
  }

  lemma WeightedStep(e: real, x: real, n: real)
    requires n >= 1.0
    ensures Blend(e, x, 2.0 / (n + 1.0)) * (n + 1.0) == 2.0 * x + (n - 1.0) * e
  {
    var w := 2.0 / (n + 1.0);
    TimesQuotient(2.0, n + 1.0);
    assert ((x - e) * w + e) * (n + 1.0) == (x - e) * (w * (n + 1.0)) + e * (n + 1.0);
  }

  lemma {:induction false} EmaFromWithin(ema: real, rest: seq<real>, w: real, lo: real, hi: real)
    requires 0.0 <= w <= 1.0 && lo <= ema <= hi && Within(rest, lo, hi)
    ensures lo <= EmaFrom(ema, rest, w) <= hi
  {
    if rest != [] {
      EmaFromWithin(ema, rest[..|rest| - 1], w, lo, hi);
      BlendWithin(EmaFrom(ema, rest[..|rest| - 1], w), rest[|rest| - 1], w, lo, hi);
    }
  }

  lemma WeightBounded(period: nat)
    requires period >= 1
    ensures 0.0 <= 2.0 / (period as real + 1.0) <= 1.0
  {
    DivideBounds(period as real + 1.0, 2.0, 0.0, 1.0);
  }

  /** The EMA of any nonempty series lies between any bounds of its closes, so between their
      minimum and maximum. */
  lemma EmaWithin(closes: seq<real>, period: nat, lo: real, hi: real)
    requires period >= 1 && closes != [] && Within(closes, lo, hi)
    ensures lo <= Ema(closes, period) <= hi
  {
    if |closes| >= period {
      MeanWithin(closes[..period], lo, hi);
      WeightBounded(period);
      EmaFromWithin(Mean(closes[..period]), closes[period..], 2.0 / (period as real + 1.0), lo, hi);
    }
  }

  // ------------------------------------------------------------------
  // RSI
  // ------------------------------------------------------------------
  function Up(d: real): real { Max(d, 0.0) }

  function Down(d: real): real { Abs(Min(d, 0.0)) }

  function Gains(closes: seq<real>): (g: seq<real>)
    requires closes != []
    ensures |g| == |closes| - 1 && forall i :: 0 <= i < |g| ==> g[i] == Up(closes[i + 1] - closes[i])
  {
    seq(|closes| - 1, i requires 0 <= i < |closes| - 1 => Up(closes[i + 1] - closes[i]))
  }

  function Losses(closes: seq<real>): (l: seq<real>)
    requires closes != []
    ensures |l| == |closes| - 1 && forall i :: 0 <= i < |l| ==> l[i] == Down(closes[i + 1] - closes[i])
  {
    seq(|closes| - 1, i requires 0 <= i < |closes| - 1 => Down(closes[i + 1] - closes[i]))
  }

  lemma UpDown(d: real)
    ensures Up(d) >= 0.0 && Down(d) >= 0.0 && Up(-d) == Down(d) && Down(-d) == Up(d)
    ensures Up(d) == 0.0 && Down(d) == 0.0 <==> d == 0.0
    ensures Up(d) - Down(d) == d && (Up(d) == 0.0 || Down(d) == 0.0)
  {
  }

  /** The index from average gain and average loss. */
  function Strength(gain: real, loss: real): real
    requires gain >= 0.0 && loss >= 0.0
  {
    if loss == 0.0 then 100.0
    else
      assert gain / loss >= 0.0 by { QuotientZeroIff(gain, loss); }
      100.0 - 100.0 / (1.0 + gain / loss)
  }

  lemma MovementsNonneg(closes: seq<real>)
    requires closes != []
    ensures Nonneg(Gains(closes)) && Nonneg(Losses(closes))
  {
    forall i | 0 <= i < |closes| - 1 ensures Gains(closes)[i] >= 0.0 && Losses(closes)[i] >= 0.0 {
      UpDown(closes[i + 1] - closes[i]);
    }
  }

  lemma GainsNonneg(closes: seq<real>, period: nat)
    requires 1 <= period < |closes|
    ensures WilderAverage(Gains(closes), period) >= 0.0 && WilderAverage(Losses(closes), period) >= 0.0
  {
    MovementsNonneg(closes);
    WilderZeroIff(Gains(closes), period);
    WilderZeroIff(Losses(closes), period);
  }

  function Rsi(closes: seq<real>, period: nat): real
    requires period >= 1
  {
    if |closes| < period + 1 then 50.0
    else
      GainsNonneg(closes, period);
      Strength(WilderAverage(Gains(closes), period), WilderAverage(Losses(closes), period))
  }

  method Movements(closes: seq<real>) returns (gains: seq<real>, losses: seq<real>)
    requires closes != []
    ensures gains == Gains(closes) && losses == Losses(closes)
  {
    gains, losses := [], [];
    for i := 1 to |closes|
      invariant |gains| == |losses| == i - 1
      invariant forall k :: 0 <= k < i - 1 ==> gains[k] == Gains(closes)[k] && losses[k] == Losses(closes)[k]
    {
      var d := closes[i] - closes[i - 1];
      gains := gains + [Up(d)];
      losses := losses + [Down(d)];
    }
  }

  method ComputeRsi(closes: seq<real>, period: nat) returns (rsi: real)
    requires period >= 1
    ensures rsi == Rsi(closes, period)
  {
    if |closes| < period + 1 {
      return 50.0;
    }
    var gains, losses := Movements(closes);
    var gain := SmoothedAverage(gains, period);
    var loss := SmoothedAverage(losses, period);
    GainsNonneg(closes, period);
    if loss == 0.0 {
      return 100.0;
    }
    QuotientZeroIff(gain, loss);
    var rs := gain / loss;
    return 100.0 - 100.0 / (1.0 + rs);
  }

  /** With a positive loss the index is the gain's share of the total movement. */
  lemma StrengthIsShare(gain: real, loss: real)
    requires gain >= 0.0 && loss > 0.0
    ensures Strength(gain, loss) * (gain + loss) == 100.0 * gain
  {
    QuotientZeroIff(gain, loss);
    var rs := gain / loss;
    assert rs * loss == gain;
    var q := 100.0 / (1.0 + rs);
    assert q * (1.0 + rs) == 100.0;
    calc {
      q * (gain + loss);
      q * (rs * loss + loss);
      q * ((1.0 + rs) * loss);
      (q * (1.0 + rs)) * loss;
      100.0 * loss;
    }
  }

  lemma ShareBounds(x: real, gain: real, loss: real)
    requires gain >= 0.0 && loss > 0.0 && x * (gain + loss) == 100.0 * gain
    ensures 0.0 <= x <= 100.0
  {
    Unscale(0.0, x, gain + loss);
    Unscale(x, 100.0, gain + loss);
  }

  lemma StrengthWithin(gain: real, loss: real)
    requires gain >= 0.0 && loss >= 0.0
    ensures 0.0 <= Strength(gain, loss) <= 100.0
  {
    if loss > 0.0 {
      StrengthIsShare(gain, loss);
      ShareBounds(Strength(gain, loss), gain, loss);
    }
  }

  /** RSI lies in [0, 100] for every series. */
  lemma RsiWithin(closes: seq<real>, period: nat)
    requires period >= 1
    ensures 0.0 <= Rsi(closes, period) <= 100.0
  {
    if |closes| > period {
      GainsNonneg(closes, period);
      StrengthWithin(WilderAverage(Gains(closes), period), WilderAverage(Losses(closes), period));
    }
  }

  ghost predicate IsShare(x: real, gain: real, loss: real) {
    if loss == 0.0 then x == 100.0 else x * (gain + loss) == 100.0 * gain
  }

  lemma StrengthIs(gain: real, loss: real)
    requires gain >= 0.0 && loss >= 0.0
    ensures IsShare(Strength(gain, loss), gain, loss)
  {
    if loss != 0.0 { StrengthIsShare(gain, loss); }
  }

  /** Fifty on too few closes, a hundred without losses, and otherwise the average gain's share of the average
      movement, in hundredths. */
  lemma RsiIs(closes: seq<real>, period: nat)
    requires period >= 1
    ensures |closes| <= period ==> Rsi(closes, period) == 50.0
    ensures |closes| > period ==>
              IsShare(Rsi(closes, period), WilderAverage(Gains(closes), period), WilderAverage(Losses(closes), period))
  {
    if |closes| > period {
      GainsNonneg(closes, period);
      StrengthIs(WilderAverage(Gains(closes), period), WilderAverage(Losses(closes), period));
    }
  }

  /** Closes mirrored about a level. */
  function Mirror(closes: seq<real>, c: real): (r: seq<real>)
    ensures |r| == |closes| && forall i :: 0 <= i < |r| ==> r[i] == c - closes[i]
  {
    seq(|closes|, i requires 0 <= i < |closes| => c - closes[i])
  }

  lemma MirrorSwaps(closes: seq<real>, c: real)
    requires closes != []
    ensures Gains(Mirror(closes, c)) == Losses(closes) && Losses(Mirror(closes, c)) == Gains(closes)
  {
    var m := Mirror(closes, c);
    forall i | 0 <= i < |closes| - 1 ensures Gains(m)[i] == Losses(closes)[i] && Losses(m)[i] == Gains(closes)[i] {
      var d := closes[i + 1] - closes[i];
      assert m[i + 1] - m[i] == -d;
      UpDown(d);
    }
  }

  lemma CancelShare(x: real, y: real, total: real, gain: real, loss: real)
    requires total > 0.0 && x * total == 100.0 * gain && y * total == 100.0 * loss && gain + loss == total
    ensures x + y == 100.0
  {
    assert (x + y - 100.0) * total == 0.0;
  }

  lemma StrengthSwaps(gain: real, loss: real)
    requires gain >= 0.0 && loss >= 0.0
    ensures Strength(loss, gain) == 100.0 - Strength(gain, loss) <==> gain > 0.0 || loss > 0.0
  {
    if gain > 0.0 && loss > 0.0 {
      StrengthIsShare(gain, loss);
      StrengthIsShare(loss, gain);
      CancelShare(Strength(gain, loss), Strength(loss, gain), gain + loss, gain, loss);
    } else if loss > 0.0 {
      StrengthIsShare(gain, loss);
      assert Strength(gain, loss) == 0.0;
    } else if gain > 0.0 {
      StrengthIsShare(loss, gain);
      assert Strength(loss, gain) == 0.0;
    }
  }

  /** The price did not move where the index looks: in the last step for period one, anywhere otherwise. */
  ghost predicate Flat(closes: seq<real>, period: nat)
    requires 1 <= period < |closes|
  {
    if period == 1 then closes[|closes| - 1] == closes[|closes| - 2]
    else forall i :: 0 <= i < |closes| - 1 ==> closes[i + 1] == closes[i]
  }

  lemma FlatIff(closes: seq<real>, period: nat)
    requires 1 <= period < |closes|
    ensures Vanishes(Gains(closes), period) && Vanishes(Losses(closes), period) <==> Flat(closes, period)
  {
    forall i | 0 <= i < |closes| - 1
      ensures Gains(closes)[i] == 0.0 && Losses(closes)[i] == 0.0 <==> closes[i + 1] == closes[i]
    {
      UpDown(closes[i + 1] - closes[i]);
    }
  }

  lemma MirrorRsi(closes: seq<real>, period: nat, c: real)
    requires 1 <= period < |closes|
    ensures WilderAverage(Gains(closes), period) >= 0.0 && WilderAverage(Losses(closes), period) >= 0.0
    ensures Rsi(Mirror(closes, c), period)
            == Strength(WilderAverage(Losses(closes), period), WilderAverage(Gains(closes), period))
  {
    MirrorSwaps(closes, c);
    GainsNonneg(closes, period);
  }

  lemma MovedIff(closes: seq<real>, period: nat)
    requires 1 <= period < |closes|
    ensures !Flat(closes, period) <==>
              WilderAverage(Gains(closes), period) > 0.0 || WilderAverage(Losses(closes), period) > 0.0
  {
    MovementsNonneg(closes);
    WilderZeroIff(Gains(closes), period);
    WilderZeroIff(Losses(closes), period);
    FlatIff(closes, period);
  }

  /** Mirroring the closes sends RSI to 100 - RSI exactly when there are too few closes or they are
      not flat; a flat series reads 100 both ways. */
  lemma MirrorIff(closes: seq<real>, period: nat, c: real)
    requires period >= 1
    ensures Rsi(Mirror(closes, c), period) == 100.0 - Rsi(closes, period)
            <==> |closes| <= period || !Flat(closes, period)
  {
    if |closes| > period {
      MirrorRsi(closes, period, c);
      MovedIff(closes, period);
      StrengthSwaps(WilderAverage(Gains(closes), period), WilderAverage(Losses(closes), period));
    }
  }

  // ------------------------------------------------------------------
  // ADX
  // ------------------------------------------------------------------
  const ADX_NEUTRAL := 25.0

  datatype Bar = Bar(high: real, low: real, close: real)

  ghost predicate WellFormed(bars: seq<Bar>) {
    forall i :: 0 <= i < |bars| ==> bars[i].low <= bars[i].close <= bars[i].high
  }

  function TrueRange(bar: Bar, prev: Bar): real {
    Max(bar.high - bar.low, Max(Abs(bar.high - prev.close), Abs(bar.low - prev.close)))
  }

  function PlusMove(bar: Bar, prev: Bar): real {
    var up, down := bar.high - prev.high, prev.low - bar.low;
    if up > down && up > 0.0 then up else 0.0
  }

  function MinusMove(bar: Bar, prev: Bar): real {
    var up, down := bar.high - prev.high, prev.low - bar.low;
    if down > up && down > 0.0 then down else 0.0
  }

  /** The three smoothed sums. */
  datatype Sums = Sums(range: real, plus: real, minus: real)

  /** A smoothed sum loses a period's share and gains the new value. */
  function Decay(x: real, v: real, period: nat): real
    requires period >= 1
  {
    x - x / period as real + v
  }

  /** Sums after bar `n` (bars 1..period seed them by plain addition). */
  function SumsAt(bars: seq<Bar>, period: nat, n: nat): Sums
    requires period >= 1 && n < |bars|
  {
    if n == 0 then Sums(0.0, 0.0, 0.0)
    else
      var s, bar, prev := SumsAt(bars, period, n - 1), bars[n], bars[n - 1];
      if n <= period then
        Sums(s.range + TrueRange(bar, prev), s.plus + PlusMove(bar, prev), s.minus + MinusMove(bar, prev))
      else
        Sums(Decay(s.range, TrueRange(bar, prev), period), Decay(s.plus, PlusMove(bar, prev), period),
             Decay(s.minus, MinusMove(bar, prev), period))
  }

  function Index(part: real, range: real): real { if range > 0.0 then 100.0 * part / range else 0.0 }

  function Directional(s: Sums): real {
    var plus, minus := Index(s.plus, s.range), Index(s.minus, s.range);
    if plus + minus > 0.0 then 100.0 * Abs(plus - minus) / (plus + minus) else 0.0
  }

  /** One directional reading per bar after the seed. */
  function Readings(bars: seq<Bar>, period: nat): (dx: seq<real>)
    requires period >= 1 && |bars| >= period + 1
    ensures |dx| == |bars| - 1 - period
    ensures forall i :: 0 <= i < |dx| ==> dx[i] == Directional(SumsAt(bars, period, period + 1 + i))
  {
    seq(|bars| - 1 - period, i requires 0 <= i < |bars| - 1 - period => Directional(SumsAt(bars, period, period + 1 + i)))
  }

  function Adx(bars: seq<Bar>, period: nat): real
    requires period >= 1
  {
    if |bars| < period + 2 then ADX_NEUTRAL
    else
      var dx := Readings(bars, period);
      if |dx| >= period then WilderAverage(dx, period) else Mean(dx)
  }

  method ComputeAdx(bars: seq<Bar>, period: nat) returns (adx: real)
    requires period >= 1
    ensures adx == Adx(bars, period)
  {
    if |bars| < period + 2 {
      return ADX_NEUTRAL;
    }
    var range, plus, minus := 0.0, 0.0, 0.0;
    for i := 1 to period + 1
      invariant Sums(range, plus, minus) == SumsAt(bars, period, i - 1)
    {
      range := range + TrueRange(bars[i], bars[i - 1]);
      plus := plus + PlusMove(bars[i], bars[i - 1]);
      minus := minus + MinusMove(bars[i], bars[i - 1]);
    }
    var dx: seq<real> := [];
    for i := period + 1 to |bars|
      invariant Sums(range, plus, minus) == SumsAt(bars, period, i - 1)
      invariant |dx| == i - period - 1
      invariant forall k :: 0 <= k < |dx| ==> dx[k] == Directional(SumsAt(bars, period, period + 1 + k))
    {
      range := range - range / period as real + TrueRange(bars[i], bars[i - 1]);
      plus := plus - plus / period as real + PlusMove(bars[i], bars[i - 1]);
      minus := minus - minus / period as real + MinusMove(bars[i], bars[i - 1]);
      dx := dx + [Directional(Sums(range, plus, minus))];
    }
    assert dx == Readings(bars, period);
    if |dx| >= period {
      adx := SmoothedAverage(dx, period);
    } else {
      var total := SumOf(dx);
      adx := total / |dx| as real;
    }
  }

  /** The range of a bar reaches back to the close before; a move counts on the side that moved further, if it
      moved outward at all. */
  lemma MovesAre(bar: Bar, prev: Bar)
    ensures var range := TrueRange(bar, prev);
            && range >= bar.high - bar.low && range >= bar.high - prev.close && range >= prev.close - bar.high
            && range >= bar.low - prev.close && range >= prev.close - bar.low
            && (range == bar.high - bar.low || range == bar.high - prev.close || range == prev.close - bar.high
                || range == bar.low - prev.close || range == prev.close - bar.low)
    ensures PlusMove(bar, prev) ==
              if bar.high - prev.high > prev.low - bar.low && bar.high > prev.high then bar.high - prev.high else 0.0
    ensures MinusMove(bar, prev) ==
              if prev.low - bar.low > bar.high - prev.high && prev.low > bar.low then prev.low - bar.low else 0.0
  {
  }

  /** What a sum keeps when `v` is added to it: all of it while seeding, and all but a period's share afterwards. */
  ghost predicate Keeps(was: real, now: real, v: real, period: nat, seeding: bool) {
    if seeding then now == was + v else (now - v) * period as real == was * (period as real - 1.0)
  }

  lemma DecayKeeps(x: real, v: real, period: nat)
    requires period >= 1
    ensures Keeps(x, Decay(x, v, period), v, period, false)
  {
    KeptShare(x, period as real);
  }

  /** The sums start at nothing, are plain up to bar `period`, and from then on give up a period's share. */
  lemma SumsStep(bars: seq<Bar>, period: nat, n: nat)
    requires period >= 1 && n + 1 < |bars|
    ensures SumsAt(bars, period, 0) == Sums(0.0, 0.0, 0.0)
    ensures var was, now, seeding := SumsAt(bars, period, n), SumsAt(bars, period, n + 1), n + 1 <= period;
            && Keeps(was.range, now.range, TrueRange(bars[n + 1], bars[n]), period, seeding)
            && Keeps(was.plus, now.plus, PlusMove(bars[n + 1], bars[n]), period, seeding)
            && Keeps(was.minus, now.minus, MinusMove(bars[n + 1], bars[n]), period, seeding)
  {
    var was, bar, prev := SumsAt(bars, period, n), bars[n + 1], bars[n];
    DecayKeeps(was.range, TrueRange(bar, prev), period);
    DecayKeeps(was.plus, PlusMove(bar, prev), period);
    DecayKeeps(was.minus, MinusMove(bar, prev), period);
  }

  lemma KeptShare(x: real, n: real)
    requires n > 0.0
    ensures (x - x / n) * n == x * (n - 1.0)
  {
    TimesQuotient(x, n);
  }

  /** A reading is the difference of the two moves over their total, in hundredths, wherever prices ranged. */
  lemma DirectionalIs(s: Sums)
    requires s.range > 0.0 && s.plus >= 0.0 && s.minus >= 0.0 && s.plus + s.minus > 0.0
    ensures Index(s.plus, s.range) * s.range == 100.0 * s.plus && Index(s.minus, s.range) * s.range == 100.0 * s.minus
    ensures Directional(s) * (Index(s.plus, s.range) + Index(s.minus, s.range))
            == 100.0 * Abs(Index(s.plus, s.range) - Index(s.minus, s.range))
  {
    var plus, minus := Index(s.plus, s.range), Index(s.minus, s.range);
    TimesQuotient(100.0 * s.plus, s.range);
    TimesQuotient(100.0 * s.minus, s.range);
    QuotientZeroIff(100.0 * s.plus, s.range);
    QuotientZeroIff(100.0 * s.minus, s.range);
    TimesQuotient(100.0 * Abs(plus - minus), plus + minus);
  }

  /** Twenty-five stands for too few bars. */
  lemma AdxNeedsBars(bars: seq<Bar>, period: nat)
    requires period >= 1 && |bars| < period + 2
    ensures Adx(bars, period) == 25.0
  {
  }

  /** On a well-formed bar the two directional moves together never exceed the true range. */
  lemma MovesBounded(bar: Bar, prev: Bar)
    requires bar.low <= bar.close <= bar.high && prev.low <= prev.close <= prev.high
    ensures PlusMove(bar, prev) >= 0.0 && MinusMove(bar, prev) >= 0.0
    ensures PlusMove(bar, prev) + MinusMove(bar, prev) <= TrueRange(bar, prev)
  {
  }

  ghost predicate Bounded(s: Sums) { s.plus >= 0.0 && s.minus >= 0.0 && s.plus + s.minus <= s.range }

  lemma DecayShare(x: real, period: nat)
    requires period >= 1 && x >= 0.0
    ensures 0.0 <= x / period as real <= x
  {
    var n := period as real;
    assert x * n >= x;
    DivideBounds(n, x, 0.0, x);
  }

  lemma DecayBounded(s: Sums, range: real, plus: real, minus: real, period: nat)
    requires period >= 1 && Bounded(s) && Bounded(Sums(range, plus, minus))
    ensures Bounded(Sums(Decay(s.range, range, period), Decay(s.plus, plus, period), Decay(s.minus, minus, period)))
  {
    DecayShare(s.plus, period);
    DecayShare(s.minus, period);
    DecayShare(s.range - s.plus - s.minus, period);
    SplitQuotient(s.range, s.plus, s.minus, period as real);
  }

  lemma SplitQuotient(a: real, b: real, c: real, n: real)
    requires n > 0.0
    ensures (a - b - c) / n == a / n - b / n - c / n
  {
  }

  lemma {:induction false} SumsBounded(bars: seq<Bar>, period: nat, n: nat)
    requires period >= 1 && n < |bars| && WellFormed(bars)
    ensures Bounded(SumsAt(bars, period, n))
  {
    if n > 0 {
      var s, bar, prev := SumsAt(bars, period, n - 1), bars[n], bars[n - 1];
      SumsBounded(bars, period, n - 1);
      MovesBounded(bar, prev);
      if n > period {
        DecayBounded(s, TrueRange(bar, prev), PlusMove(bar, prev), MinusMove(bar, prev), period);
      }
    }
  }

  lemma IndexBounded(a: real, b: real, range: real)
    requires a >= 0.0 && b >= 0.0 && a + b <= range
    ensures Index(a, range) >= 0.0 && Index(b, range) >= 0.0 && Index(a, range) + Index(b, range) <= 100.0
  {
    if range > 0.0 {
      DivideBounds(range, 100.0 * a, 0.0, 100.0);
      DivideBounds(range, 100.0 * b, 0.0, 100.0);
      DivideBounds(range, 100.0 * a + 100.0 * b, 0.0, 100.0);
      SumQuotient(100.0 * a, 100.0 * b, range);
    }
  }

  /** +DI and -DI are nonnegative and never add up to more than 100, at any smoothing step. */
  lemma DirectionalIndexesBounded(bars: seq<Bar>, period: nat, n: nat)
    requires period >= 1 && n < |bars| && WellFormed(bars)
    ensures var s := SumsAt(bars, period, n);
            && Index(s.plus, s.range) >= 0.0 && Index(s.minus, s.range) >= 0.0
            && Index(s.plus, s.range) + Index(s.minus, s.range) <= 100.0
  {
    SumsBounded(bars, period, n);
    var s := SumsAt(bars, period, n);
    IndexBounded(s.plus, s.minus, s.range);
  }

  lemma DirectionalWithin(bars: seq<Bar>, period: nat, n: nat)
    requires period >= 1 && n < |bars| && WellFormed(bars)
    ensures 0.0 <= Directional(SumsAt(bars, period, n)) <= 100.0
  {
    DirectionalIndexesBounded(bars, period, n);
    var s := SumsAt(bars, period, n);
    var plus, minus := Index(s.plus, s.range), Index(s.minus, s.range);
    if plus + minus > 0.0 {
      DivideBounds(plus + minus, 100.0 * Abs(plus - minus), 0.0, 100.0);
    }
  }

  /** ADX lies in [0, 100] for every well-formed series of any length. */
  lemma AdxWithin(bars: seq<Bar>, period: nat)
    requires period >= 1 && WellFormed(bars)
    ensures 0.0 <= Adx(bars, period) <= 100.0
  {
    if |bars| >= period + 2 {
      var dx := Readings(bars, period);
      forall i | 0 <= i < |dx| ensures 0.0 <= dx[i] <= 100.0 {
        DirectionalWithin(bars, period, period + 1 + i);
      }
      if |dx| >= period {
        WilderAverageWithin(dx, period, 0.0, 100.0);
      } else {
        MeanWithin(dx, 0.0, 100.0);
      }
    }
  }
}
