/** Technical indicators over a price series, with pandas' float64 arithmetic
    idealised as real arithmetic and NaN made explicit as `Undefined`. */
module Indicators {
  import opened Common

  // ---------------------------------------------------------------------------
  // Relative strength index

  /** `data.diff()` at position i; the NaN at position 0 takes neither
      branch of `where`, so it counts as no move. */
  function Delta(p: seq<real>, i: nat): real
    requires i < |p|
  {
    if i == 0 then 0.0 else p[i] - p[i - 1]
  }

  datatype Side = Up | Down

  /** `delta.where(delta > 0, 0)` (Up) and `-delta.where(delta < 0, 0)` (Down). */
  function Move(p: seq<real>, i: nat, side: Side): (r: real)
    requires i < |p|
    ensures r >= 0.0
  {
    var d := Delta(p, i);
    match side
    case Up => if d > 0.0 then d else 0.0
    case Down => if d < 0.0 then -d else 0.0
  }

  /** Sum of the moves in the `w` positions ending at `i`. */
  function WindowSum(p: seq<real>, side: Side, i: nat, w: nat): (r: real)
    requires i < |p| && w <= i + 1
    ensures r >= 0.0
  {
    if w == 0 then 0.0
    else Move(p, i, side) + (if w == 1 then 0.0 else WindowSum(p, side, i - 1, w - 1))
  }

  /** `.rolling(window).mean()` of the moves, where it is defined. */
  function AverageMove(p: seq<real>, side: Side, i: nat, window: nat): (r: real)
    requires i < |p| && 1 <= window <= i + 1
    ensures r >= 0.0
  {
    WindowSum(p, side, i, window) / window as real
  }

  /** `calculate_rsi` at position `i`. `rs = gain / loss` is infinite when
      only the loss is 0, which makes the RSI 100; both 0 makes it NaN. A
      window of 0, which `rolling` accepts, averages nothing and gives NaN. */
  function RsiAt(p: seq<real>, window: nat, i: nat): (r: Measure)
    requires i < |p|
    ensures r.Value? ==> 0.0 <= r.v <= 100.0
  {
    if window == 0 || i + 1 < window then Undefined
    else
      var gain := AverageMove(p, Up, i, window);
      var loss := AverageMove(p, Down, i, window);
      RsiBounds(gain, loss);
      if loss == 0.0 then (if gain == 0.0 then Undefined else Value(100.0))
      else Value(100.0 - 100.0 / (1.0 + gain / loss))
  }

  /** `calculate_rsi(data, window)` */
  function Rsi(p: seq<real>, window: nat): (r: seq<Measure>)
    ensures |r| == |p|
  {
    seq(|p|, i requires 0 <= i < |p| => RsiAt(p, window, i))
  }

  /** The RSI is undefined exactly in the first `window - 1` positions and on
      windows without any move. */
  lemma RsiDefinedFrom(p: seq<real>, window: nat, i: nat)
    requires i < |p|
    ensures RsiAt(p, window, i).Undefined? <==>
              i + 1 < window ||
              (WindowSum(p, Up, i, window) == 0.0 && WindowSum(p, Down, i, window) == 0.0)
  {
  }

  lemma DivOfQuotient(a: real, b: real, c: real)
    requires b > 0.0 && c > 0.0
    ensures a / (b / c) == a * c / b
  {
  }

  lemma AddQuotients(a: real, b: real, c: real)
    requires c != 0.0
    ensures a / c + b / c == (a + b) / c
  {
  }

  /** `100 - 100 / (1 + gain / loss)` is `100 * gain / (gain + loss)`. */
  lemma RsiAlgebra(gain: real, loss: real)
    requires gain >= 0.0 && loss > 0.0
    ensures 100.0 - 100.0 / (1.0 + gain / loss) == 100.0 * gain / (gain + loss)
    ensures 0.0 <= 100.0 * gain / (gain + loss) <= 100.0
  {
    var total := gain + loss;
    AddQuotients(loss, gain, loss);
    assert loss / loss == 1.0;
    assert 1.0 + gain / loss == total / loss;
    DivOfQuotient(100.0, total, loss);
    AddQuotients(100.0 * loss, 100.0 * gain, total);
    assert 100.0 * total / total == 100.0;
  }

  /** The formula of `calculate_rsi` stays in [0, 100] whenever the loss is
      positive. */
  lemma RsiBounds(gain: real, loss: real)
    requires gain >= 0.0 && loss >= 0.0
    ensures loss > 0.0 ==> 0.0 <= 100.0 - 100.0 / (1.0 + gain / loss) <= 100.0
  {
    if loss > 0.0 {
      RsiAlgebra(gain, loss);
    }
  }

  /** Wherever the RSI is defined it is 100 * gain / (gain + loss), hence in
      [0, 100]. */
  lemma RsiRange(p: seq<real>, window: nat, i: nat)
    requires window >= 1 && i < |p|
    requires RsiAt(p, window, i).Value?
    ensures var gain := AverageMove(p, Up, i, window);
            var loss := AverageMove(p, Down, i, window);
            gain + loss > 0.0 &&
            RsiAt(p, window, i).v == 100.0 * gain / (gain + loss) &&
            0.0 <= RsiAt(p, window, i).v <= 100.0
  {
    var gain := AverageMove(p, Up, i, window);
    var loss := AverageMove(p, Down, i, window);
    var n := window as real;
    assert gain == WindowSum(p, Up, i, window) / n && gain >= 0.0;
    assert loss == WindowSum(p, Down, i, window) / n && loss >= 0.0;
    if loss > 0.0 {
      RsiAlgebra(gain, loss);
    }
  }

  lemma {:induction false} NoMovesOn(p: seq<real>, side: Side, i: nat, w: nat)
    requires i < |p| && w <= i + 1
    requires forall j :: i + 1 - w <= j <= i ==> Move(p, j, side) == 0.0
    ensures WindowSum(p, side, i, w) == 0.0
  {
    if w > 1 {
      NoMovesOn(p, side, i - 1, w - 1);
    }
  }

  predicate StrictlyIncreasing(p: seq<real>)
  {
    forall j :: 0 < j < |p| ==> p[j - 1] < p[j]
  }

  predicate StrictlyDecreasing(p: seq<real>)
  {
    forall j :: 0 < j < |p| ==> p[j - 1] > p[j]
  }

  /** On a rising series no window has a loss, so the RSI saturates at 100
      (not NaN) once the window is full and holds at least one real move. */
  lemma RsiRising(p: seq<real>, window: nat, i: nat)
    requires window >= 1 && i < |p| && i + 1 >= window && i >= 1
    requires StrictlyIncreasing(p)
    ensures RsiAt(p, window, i) == Value(100.0)
  {
    NoMovesOn(p, Down, i, window);
    assert Move(p, i, Up) > 0.0;
    assert WindowSum(p, Up, i, window) > 0.0;
  }

  /** On a falling series no window has a gain, so the RSI is 0. */
  lemma RsiFalling(p: seq<real>, window: nat, i: nat)
    requires window >= 1 && i < |p| && i + 1 >= window && i >= 1
    requires StrictlyDecreasing(p)
    ensures RsiAt(p, window, i) == Value(0.0)
  {
    NoMovesOn(p, Up, i, window);
    assert Move(p, i, Down) > 0.0;
    assert WindowSum(p, Down, i, window) > 0.0;
  }

  /** A flat window gives 0 / 0: the RSI is NaN, not an error. */
  lemma RsiFlat(p: seq<real>, window: nat, i: nat)
    requires i < |p|
    requires forall j :: 0 < j < |p| ==> p[j] == p[j - 1]
    ensures RsiAt(p, window, i) == Undefined
  {
    if window >= 1 && i + 1 >= window {
      NoMovesOn(p, Up, i, window);
      NoMovesOn(p, Down, i, window);
    }
  }

  // ---------------------------------------------------------------------------
  // Exponential moving average and MACD

  /** `ewm(span=span)`: the smoothing factor 2 / (span + 1). pandas refuses a
      span below 1. */
  function Alpha(span: nat): (a: real)
    requires span >= 1
    ensures 0.0 < a <= 1.0
  {
    2.0 / (span as real + 1.0)
  }

  /** `ewm(..., adjust=False).mean()` at position t: seeded with the first
      observation, then y[t] = (1 - alpha) * y[t-1] + alpha * x[t]. */
  function EmaAt(x: seq<real>, alpha: real, t: nat): real
    requires t < |x|
  {
    if t == 0 then x[0] else (1.0 - alpha) * EmaAt(x, alpha, t - 1) + alpha * x[t]
  }

  function Ema(x: seq<real>, span: nat): (r: seq<real>)
    requires span >= 1
    ensures |r| == |x|
    ensures |x| > 0 ==> r[0] == x[0]
  {
    seq(|x|, t requires 0 <= t < |x| => EmaAt(x, Alpha(span), t))
  }

  /** A constant series is a fixed point of the EMA. */
  lemma {:induction false} EmaConstant(x: seq<real>, alpha: real, c: real, t: nat)
    requires t < |x|
    requires forall j :: 0 <= j < |x| ==> x[j] == c
    ensures EmaAt(x, alpha, t) == c
  {
    if t > 0 {
      EmaConstant(x, alpha, c, t - 1);
      assert (1.0 - alpha) * c + alpha * c == c;
    }
  }

  lemma Scaled(c: real, a: real, b: real)
    requires c >= 0.0 && a <= b
    ensures c * a <= c * b
  {
  }

  lemma SumsBelow(p: real, q: real, r: real, s: real)
    requires p <= r && q <= s
    ensures p + q <= r + s
  {
  }

  lemma ConvexAbove(alpha: real, a: real, b: real, hi: real)
    requires 0.0 <= alpha <= 1.0 && a <= hi && b <= hi
    ensures (1.0 - alpha) * a + alpha * b <= hi
  {
    Scaled(1.0 - alpha, a, hi);
    Scaled(alpha, b, hi);
    assert (1.0 - alpha) * hi + alpha * hi == hi;
    SumsBelow((1.0 - alpha) * a, alpha * b, (1.0 - alpha) * hi, alpha * hi);
  }

  lemma ConvexBelow(alpha: real, a: real, b: real, lo: real)
    requires 0.0 <= alpha <= 1.0 && lo <= a && lo <= b
    ensures lo <= (1.0 - alpha) * a + alpha * b
  {
    Scaled(1.0 - alpha, lo, a);
    Scaled(alpha, lo, b);
    assert (1.0 - alpha) * lo + alpha * lo == lo;
    SumsBelow((1.0 - alpha) * lo, alpha * lo, (1.0 - alpha) * a, alpha * b);
  }

  /** Each EMA value is a weighted average of the observations so far, so it
      stays within their range. */
  lemma {:induction false} EmaWithin(x: seq<real>, alpha: real, lo: real, hi: real, t: nat)
    requires 0.0 <= alpha <= 1.0
    requires t < |x|
    requires forall j :: 0 <= j <= t ==> lo <= x[j] <= hi
    ensures lo <= EmaAt(x, alpha, t) <= hi
  {
    if t > 0 {
      EmaWithin(x, alpha, lo, hi, t - 1);
      ConvexAbove(alpha, EmaAt(x, alpha, t - 1), x[t], hi);
      ConvexBelow(alpha, EmaAt(x, alpha, t - 1), x[t], lo);
    }
  }

  datatype MacdLines = MacdLines(macd: seq<real>, signal: seq<real>)

  /** `calculate_macd`: short EMA minus long EMA, and the EMA of that. */
  function Macd(p: seq<real>, short: nat, long: nat, signal: nat): (r: MacdLines)
    requires short >= 1 && long >= 1 && signal >= 1
    ensures |r.macd| == |p| && |r.signal| == |p|
    ensures |p| > 0 ==> r.macd[0] == 0.0 && r.signal[0] == 0.0
  {
    var s := Ema(p, short);
    var l := Ema(p, long);
    var m := seq(|p|, t requires 0 <= t < |p| => s[t] - l[t]);
    MacdLines(m, Ema(m, signal))
  }

  /** On a constant price series both lines are identically 0. */
  lemma MacdConstant(p: seq<real>, short: nat, long: nat, signal: nat, c: real)
    requires short >= 1 && long >= 1 && signal >= 1
    requires forall j :: 0 <= j < |p| ==> p[j] == c
    ensures forall t :: 0 <= t < |p| ==>
              Macd(p, short, long, signal).macd[t] == 0.0 && Macd(p, short, long, signal).signal[t] == 0.0
  {
    var r := Macd(p, short, long, signal);
    forall t | 0 <= t < |p| ensures r.macd[t] == 0.0 {
      EmaConstant(p, Alpha(short), c, t);
      EmaConstant(p, Alpha(long), c, t);
    }
    forall t | 0 <= t < |p| ensures r.signal[t] == 0.0 {
      EmaConstant(r.macd, Alpha(signal), 0.0, t);
    }
  }

  /** Both lines stay within the spread of the prices: if every price lies
      in [lo, hi], the MACD and the signal lie in [lo - hi, hi - lo]. */
  lemma MacdBounded(p: seq<real>, short: nat, long: nat, signal: nat, lo: real, hi: real)
    requires short >= 1 && long >= 1 && signal >= 1
    requires forall j :: 0 <= j < |p| ==> lo <= p[j] <= hi
    ensures forall t :: 0 <= t < |p| ==>
              lo - hi <= Macd(p, short, long, signal).macd[t] <= hi - lo &&
              lo - hi <= Macd(p, short, long, signal).signal[t] <= hi - lo
  {
    var r := Macd(p, short, long, signal);
    forall t | 0 <= t < |p| ensures lo - hi <= r.macd[t] <= hi - lo {
      EmaWithin(p, Alpha(short), lo, hi, t);
      EmaWithin(p, Alpha(long), lo, hi, t);
    }
    forall t | 0 <= t < |p| ensures lo - hi <= r.signal[t] <= hi - lo {
      EmaWithin(r.macd, Alpha(signal), lo - hi, hi - lo, t);
    }
  }

  // ---------------------------------------------------------------------------
  // Beta

  function Sum(x: seq<real>): real
  {
    if x == [] then 0.0 else x[0] + Sum(x[1..])
  }

  function Mean(x: seq<real>): real
    requires |x| > 0
  {
    Sum(x) / |x| as real
  }

  /** Sum of the products of deviations from the given means. */
  function CrossDeviation(x: seq<real>, y: seq<real>, mx: real, my: real): real
    requires |x| == |y|
  {
    if x == [] then 0.0 else (x[0] - mx) * (y[0] - my) + CrossDeviation(x[1..], y[1..], mx, my)
  }

  /** `Series.cov`: sample covariance (divisor n - 1), NaN below two points. */
  function SampleCov(x: seq<real>, y: seq<real>): (r: Measure)
    requires |x| == |y|
    ensures r.Value? <==> |x| >= 2
  {
    if |x| < 2 then Undefined
    else Value(CrossDeviation(x, y, Mean(x), Mean(y)) / (|x| - 1) as real)
  }

  /** `Series.var`: sample variance (divisor n - 1), NaN below two points. */
  function SampleVar(x: seq<real>): (r: Measure)
    ensures r.Value? <==> |x| >= 2
    ensures r.Value? ==> r.v >= 0.0
  {
    SquaresNonNegative(x, if |x| > 0 then Mean(x) else 0.0);
    SampleCov(x, x)
  }

  /** `calculate_beta`: covariance over market variance. Nothing guards a
      zero variance; the division then gives NaN. */
  function Beta(stock: seq<real>, market: seq<real>): (r: Measure)
    requires |stock| == |market|
    ensures r.Value? <==> SampleVar(market).Value? && SampleVar(market).v != 0.0
    ensures r.Value? ==> r.v * SampleVar(market).v == SampleCov(stock, market).v
  {
    match (SampleCov(stock, market), SampleVar(market))
    case (Value(c), Value(v)) =>
      if v == 0.0 then Undefined
      else
        QuotientTimes(c, v);
        Value(c / v)
    case _ => Undefined
  }

  lemma QuotientTimes(c: real, v: real)
    requires v != 0.0
    ensures (c / v) * v == c
  {
  }

  /** Covariance is symmetric in its two series. */
  lemma {:induction false} CrossDeviationSymmetric(x: seq<real>, y: seq<real>, mx: real, my: real)
    requires |x| == |y|
    ensures CrossDeviation(x, y, mx, my) == CrossDeviation(y, x, my, mx)
  {
    if x != [] {
      CrossDeviationSymmetric(x[1..], y[1..], mx, my);
    }
  }

  lemma CovSymmetric(x: seq<real>, y: seq<real>)
    requires |x| == |y|
    ensures SampleCov(x, y) == SampleCov(y, x)
  {
    if |x| >= 2 {
      CrossDeviationSymmetric(x, y, Mean(x), Mean(y));
    }
  }

  lemma {:induction false} SquaresNonNegative(x: seq<real>, mx: real)
    ensures CrossDeviation(x, x, mx, mx) >= 0.0
  {
    if x != [] {
      SquaresNonNegative(x[1..], mx);
      Square(x[0] - mx);
    }
  }

  lemma NegativeSquare(d: real)
    requires d < 0.0
    ensures d * d > 0.0
  {
    var e := -d;
    assert e * e > 0.0;
    assert d * d == e * e;
  }

  lemma Square(d: real)
    ensures d * d >= 0.0
    ensures d != 0.0 ==> d * d > 0.0
  {
    if d > 0.0 {
      assert d * d > 0.0;
    } else if d < 0.0 {
      NegativeSquare(d);
    }
  }

  /** A market series with no variance leaves beta undefined: the source
      divides by it unguarded and gets NaN, never an infinity. */
  lemma BetaZeroVariance(stock: seq<real>, market: seq<real>)
    requires |stock| == |market|
    requires SampleVar(market) == Value(0.0)
    ensures Beta(stock, market) == Undefined
  {
  }

  /** A series measured against itself has beta 1. */
  lemma BetaSelf(market: seq<real>)
    requires |market| >= 2 && SampleVar(market) != Value(0.0)
    ensures Beta(market, market) == Value(1.0)
  {
    var v := SampleVar(market).v;
    assert SampleCov(market, market) == Value(v);
    assert v / v == 1.0;
  }

  /** The series k * x. */
  function Scale(k: real, x: seq<real>): (r: seq<real>)
    ensures |r| == |x| && forall i :: 0 <= i < |x| ==> r[i] == k * x[i]
  {
    if x == [] then [] else [k * x[0]] + Scale(k, x[1..])
  }

  lemma Distribute(k: real, a: real, b: real)
    ensures k * a + k * b == k * (a + b)
  {
  }

  lemma ScaledProduct(k: real, a: real, b: real, c: real)
    ensures (k * a - k * b) * c == k * ((a - b) * c)
  {
  }

  lemma ScaledQuotient(k: real, a: real, n: real)
    requires n != 0.0
    ensures k * a / n == k * (a / n)
  {
  }

  lemma {:induction false} SumScale(k: real, x: seq<real>)
    ensures Sum(Scale(k, x)) == k * Sum(x)
  {
    if x != [] {
      SumScale(k, x[1..]);
      Distribute(k, x[0], Sum(x[1..]));
    }
  }

  lemma {:induction false} CrossDeviationScale(k: real, x: seq<real>, m: seq<real>, mx: real, kmx: real, mm: real)
    requires |x| == |m| && kmx == k * mx
    ensures CrossDeviation(Scale(k, x), m, kmx, mm) == k * CrossDeviation(x, m, mx, mm)
  {
    if x != [] {
      CrossDeviationScale(k, x[1..], m[1..], mx, kmx, mm);
      ScaledProduct(k, x[0], mx, m[0] - mm);
      Distribute(k, (x[0] - mx) * (m[0] - mm), CrossDeviation(x[1..], m[1..], mx, mm));
    }
  }

  lemma MeanScale(k: real, x: seq<real>)
    requires |x| > 0
    ensures Mean(Scale(k, x)) == k * Mean(x)
  {
    var n := |x| as real;
    var s := Sum(x);
    SumScale(k, x);
    assert Sum(Scale(k, x)) == k * s;
    assert Mean(Scale(k, x)) == Sum(Scale(k, x)) / n;
    ScaledQuotient(k, s, n);
    assert Mean(x) == s / n;
  }

  lemma CovOf(x: seq<real>, y: seq<real>)
    requires |x| == |y| >= 2
    ensures SampleCov(x, y) == Value(CrossDeviation(x, y, Mean(x), Mean(y)) / (|x| - 1) as real)
  {
  }

  lemma CovScale(k: real, x: seq<real>, y: seq<real>, c: real)
    requires |x| == |y| >= 2 && SampleCov(x, y) == Value(c)
    ensures SampleCov(Scale(k, x), y) == Value(k * c)
  {
    var n := (|x| - 1) as real;
    var d := CrossDeviation(x, y, Mean(x), Mean(y));
    CovOf(x, y);
    assert c == d / n;
    var sx := Scale(k, x);
    assert |sx| == |x|;
    MeanScale(k, x);
    var mk := Mean(sx);
    assert mk == k * Mean(x);
    CrossDeviationScale(k, x, y, Mean(x), mk, Mean(y));
    assert CrossDeviation(sx, y, mk, Mean(y)) == k * d;
    CovOf(sx, y);
    ScaledQuotient(k, d, n);
  }

  lemma QuotientOfScaled(k: real, v: real)
    requires v != 0.0
    ensures k * v / v == k
  {
  }

  lemma BetaOfMeasures(stock: seq<real>, market: seq<real>, c: real, v: real)
    requires |stock| == |market|
    requires SampleCov(stock, market) == Value(c) && SampleVar(market) == Value(v) && v != 0.0
    ensures Beta(stock, market) == Value(c / v)
  {
  }

  lemma BetaOfScaledMeasures(stock: seq<real>, market: seq<real>, k: real, v: real)
    requires |stock| == |market|
    requires SampleCov(stock, market) == Value(k * v) && SampleCov(market, market) == Value(v) && v != 0.0
    ensures Beta(stock, market) == Value(k)
  {
    BetaOfMeasures(stock, market, k * v, v);
    QuotientOfScaled(k, v);
  }

  /** A stock that moves k times the market has beta k; beta(m, m) = 1 is the
      case k = 1. */
  lemma BetaOfScaledMarket(k: real, market: seq<real>)
    requires |market| >= 2 && SampleVar(market) != Value(0.0)
    ensures Beta(Scale(k, market), market) == Value(k)
  {
    var v := SampleVar(market).v;
    CovScale(k, market, market, v);
    BetaOfScaledMeasures(Scale(k, market), market, k, v);
  }
}
