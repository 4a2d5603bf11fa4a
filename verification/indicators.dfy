/**
 * The technical indicators of `analytics/indicators.py`: simple and
 * exponential moving averages, Wilder's RSI, MACD and Bollinger bands, over
 * `real` prices. Each indicator is a specification function giving every entry
 * of its output directly, and a method that fills a preallocated buffer the way
 * the source does, proved to produce the same list.
 */
module Indicators {
  import opened Wrappers
  import opened Numbers

  const WindowError := "window must be > 0"
  const PeriodError := "period must be > 0"
  /** The failed `assert avg_gain is not None` of `rsi` when the period is 1. */
  const SeedMissing := "AssertionError"

  // ---------------------------------------------------------------------------
  // sma
  // ---------------------------------------------------------------------------

  /** The mean of the `window` values ending at `i`, once there are that many. */
  function SmaAt(values: seq<real>, window: nat, i: nat): (r: Option<real>)
    requires 0 < window && i < |values|
    ensures r.None? <==> i < window - 1
  {
    if i < window - 1 then None else Some(Sum(values[i + 1 - window..i + 1]) / window as real)
  }

  function SmaOf(values: seq<real>, window: nat): (r: seq<Option<real>>)
    requires 0 < window
    ensures |r| == |values|
    ensures forall i :: 0 <= i < |values| ==> (r[i].None? <==> i < window - 1)
  {
    seq(|values|, i requires 0 <= i < |values| => SmaAt(values, window, i))
  }

  /** Where the running sum of `sma` starts once `i` values are in. */
  function WindowStart(i: nat, window: nat): nat {
    if i >= window then i - window else 0
  }

  /** One more value enters the running window sum, and the oldest leaves it once the window is full. */
  lemma WindowSumStep(values: seq<real>, window: nat, i: nat)
    requires 0 < window && i < |values|
    ensures Sum(values[WindowStart(i + 1, window)..i + 1])
         == Sum(values[WindowStart(i, window)..i]) + values[i] - (if i >= window then values[i - window] else 0.0)
  {
    SumExtend(values, WindowStart(i, window), i);
    if i >= window {
      SumDropFirst(values, i - window, i + 1);
    }
  }

  /**
   * `sma`: raises for a window that is not positive; otherwise one entry per
   * value, None before the first full window and the window's mean after.
   */
  method Sma(values: seq<real>, window: int) returns (r: Result<seq<Option<real>>>)
    ensures window <= 0 ==> r == Err(WindowError)
    ensures window > 0 ==> r == Ok(SmaOf(values, window))
  {
    if window <= 0 {
      return Err(WindowError);
    }
    var out := new Option<real>[|values|](_ => None);
    ghost var want := SmaOf(values, window);
    var s := 0.0;
    for i := 0 to |values|
      invariant s == Sum(values[WindowStart(i, window)..i])
      invariant forall j :: 0 <= j < i ==> out[j] == want[j]
      invariant forall j :: i <= j < |values| ==> out[j] == None
    {
      WindowSumStep(values, window, i);
      s := s + values[i];
      if i >= window {
        s := s - values[i - window];
      }
      if i >= window - 1 {
        assert WindowStart(i + 1, window) == i + 1 - window;
        out[i] := Some(s / window as real);
      }
    }
    assert forall j :: 0 <= j < |values| ==> out[..][j] == SmaOf(values, window)[j];
    assert out[..] == SmaOf(values, window);
    r := Ok(out[..]);
  }

  // ---------------------------------------------------------------------------
  // ema
  // ---------------------------------------------------------------------------

  /** The smoothing factor `2 / (window + 1)`. */
  function Alpha(window: nat): (k: real)
    requires 0 < window
    ensures 0.0 < k <= 1.0
  {
    2.0 / (window as real + 1.0)
  }

  /** One step of the average: a move of `k` of the way from `prev` towards `x`. */
  function EmaStep(prev: real, x: real, k: real): real {
    (x - prev) * k + prev
  }

  /** The running average seeded with the first value. */
  function EmaRaw(values: seq<real>, window: nat, i: nat): real
    requires 0 < window && i < |values|
  {
    if i == 0 then values[0]
    else EmaStep(EmaRaw(values, window, i - 1), values[i], Alpha(window))
  }

  function EmaOf(values: seq<real>, window: nat): (r: seq<Option<real>>)
    requires 0 < window
    ensures |r| == |values|
    ensures forall i :: 0 <= i < |values| ==> (r[i].None? <==> i < window - 1)
  {
    seq(|values|, i requires 0 <= i < |values| => if i < window - 1 then None else Some(EmaRaw(values, window, i)))
  }

  /** The average never leaves the range of the values it has seen. */
  lemma {:induction false} EmaBounded(values: seq<real>, window: nat, i: nat, lo: real, hi: real)
    requires 0 < window && i < |values|
    requires forall j :: 0 <= j <= i ==> lo <= values[j] <= hi
    ensures lo <= EmaRaw(values, window, i) <= hi
  {
    if i > 0 {
      EmaBounded(values, window, i - 1, lo, hi);
      var prev, k, x := EmaRaw(values, window, i - 1), Alpha(window), values[i];
      Between(k, x, prev, lo, hi);
    }
  }

  /** A step of `k` towards `x`, with 0 <= k <= 1, stays between `p` and `x`. */
  lemma Between(k: real, x: real, p: real, lo: real, hi: real)
    requires 0.0 <= k <= 1.0 && lo <= x <= hi && lo <= p <= hi
    ensures lo <= (x - p) * k + p <= hi
  {
    var d := x - p;
    var s := d * k;
    assert (x - p) * k == s;
    if d >= 0.0 {
      ScaleWithin(d, k);
      assert 0.0 <= s <= d;
    } else {
      ScaleWithin(-d, k);
      assert (-d) * k == -s;
      assert d <= s <= 0.0;
    }
  }

  lemma ScaleWithin(d: real, k: real)
    requires 0.0 <= k <= 1.0 && 0.0 <= d
    ensures 0.0 <= d * k <= d
  {
    MulMonotone(d, 0.0, k);
    MulMonotone(d, k, 1.0);
  }

  /**
   * `ema`: raises for a window that is not positive; otherwise fills every
   * entry with the running average, then blanks the first `window - 1`.
   */
  method Ema(values: seq<real>, window: int) returns (r: Result<seq<Option<real>>>)
    ensures window <= 0 ==> r == Err(WindowError)
    ensures window > 0 ==> r == Ok(EmaOf(values, window))
  {
    if window <= 0 {
      return Err(WindowError);
    }
    var out := new Option<real>[|values|](_ => None);
    var k := 2.0 / (window as real + 1.0);
    assert k == Alpha(window);
    ghost var raw := seq(|values|, j requires 0 <= j < |values| => EmaRaw(values, window, j));
    var prev: Option<real> := None;
    for i := 0 to |values|
      invariant i == 0 <==> prev.None?
      invariant i > 0 ==> prev == Some(raw[i - 1])
      invariant forall j :: 0 <= j < i ==> out[j] == Some(raw[j])
    {
      var x := values[i];
      if prev.None? {
        prev := Some(x);
      } else {
        prev := Some(EmaStep(prev.value, x, k));
      }
      out[i] := prev;
    }
    ghost var filled := out[..];
    for i := 0 to MinInt(window - 1, |values|)
      invariant forall j :: 0 <= j < i ==> out[j] == None
      invariant forall j :: i <= j < |values| ==> out[j] == filled[j]
    {
      out[i] := None;
    }
    assert forall j :: 0 <= j < |values| ==> out[..][j] == EmaOf(values, window)[j];
    assert out[..] == EmaOf(values, window);
    r := Ok(out[..]);
  }

  // ---------------------------------------------------------------------------
  // rsi
  // ---------------------------------------------------------------------------

  /** The rise into each value; 0 for the first value and for a fall. */
  function Gains(values: seq<real>): (g: seq<real>)
    ensures |g| == |values| && NonNegatives(g)
  {
    seq(|values|, i requires 0 <= i < |values| => if i == 0 then 0.0 else Max(0.0, values[i] - values[i - 1]))
  }

  /** The fall into each value; 0 for the first value and for a rise. */
  function Losses(values: seq<real>): (l: seq<real>)
    ensures |l| == |values| && NonNegatives(l)
  {
    seq(|values|, i requires 0 <= i < |values| => if i == 0 then 0.0 else Max(0.0, -(values[i] - values[i - 1])))
  }

  /** One step of Wilder's smoothing. */
  function WilderStep(avg: real, x: real, period: nat): real
    requires 0 < period
  {
    (avg * (period - 1) as real + x) / period as real
  }

  /**
   * Wilder's average of `xs` at `i`: seeded at `period - 1` with the sum of
   * entries 1 to `period - 1` divided by `period`, then smoothed.
   */
  function Wilder(xs: seq<real>, period: nat, i: nat): real
    requires 2 <= period && period - 1 <= i < |xs|
    decreases i
  {
    if i == period - 1 then Sum(xs[1..period]) / period as real
    else WilderStep(Wilder(xs, period, i - 1), xs[i], period)
  }

  /** `100 - 100 / (1 + rs)`, where a zero average loss makes `rs` infinite and the index 100. */
  function RsiValue(avgGain: real, avgLoss: real): real
    requires avgGain >= 0.0 && avgLoss >= 0.0
  {
    if avgLoss != 0.0 then
      QuotientNonNegative(avgGain, avgLoss);
      100.0 - 100.0 / (1.0 + avgGain / avgLoss)
    else 100.0
  }

  /** Entries that are all non-negative, as gains and losses are. */
  predicate NonNegatives(xs: seq<real>) {
    forall i :: 0 <= i < |xs| ==> xs[i] >= 0.0
  }

  /** The index from the smoothed gains `g` and losses `l`, at every position from `period` on. */
  function RsiSeries(g: seq<real>, l: seq<real>, period: nat): (r: seq<Option<real>>)
    requires 2 <= period && |g| == |l| && NonNegatives(g) && NonNegatives(l)
    ensures |r| == |g|
    ensures forall i :: 0 <= i < |g| ==> (r[i].None? <==> i < period)
  {
    seq(|g|, i requires 0 <= i < |g| =>
      if i < period then None
      else
        WilderNonNegative(g, period, i);
        WilderNonNegative(l, period, i);
        Some(RsiValue(Wilder(g, period, i), Wilder(l, period, i))))
  }

  /**
   * `rsi`: raises for a period that is not positive; for a period of 1 the
   * smoothed averages are never seeded and the assertion before the first
   * update fails as soon as there are two values.
   */
  function RsiOf(values: seq<real>, period: int): (r: Result<seq<Option<real>>>)
    ensures r.Err? <==> period <= 0 || (period == 1 && |values| >= 2)
    ensures period <= 0 ==> r == Err(PeriodError)
    ensures period == 1 && |values| >= 2 ==> r == Err(SeedMissing)
    ensures r.Ok? ==> |r.value| == |values|
    ensures r.Ok? ==> forall i :: 0 <= i < |values| ==> (r.value[i].None? <==> i < period)
  {
    if period <= 0 then Err(PeriodError)
    else if period == 1 then
      if |values| >= 2 then Err(SeedMissing) else Ok(seq(|values|, _ => None))
    else Ok(RsiSeries(Gains(values), Losses(values), period))
  }

  lemma {:induction false} WilderNonNegative(xs: seq<real>, period: nat, i: nat)
    requires 2 <= period && period - 1 <= i < |xs|
    requires NonNegatives(xs)
    ensures Wilder(xs, period, i) >= 0.0
  {
    if i == period - 1 {
      SumNonNegative(xs[1..period]);
      assert Sum(xs[1..period]) / period as real >= 0.0;
    } else {
      WilderNonNegative(xs, period, i - 1);
      var avg := Wilder(xs, period, i - 1);
      ProductNonNegative(avg, (period - 1) as real);
    }
  }

  /** With non-negative averages the index lies in 0..100. */
  lemma RsiValueRange(avgGain: real, avgLoss: real)
    requires avgGain >= 0.0 && avgLoss >= 0.0
    ensures 0.0 <= RsiValue(avgGain, avgLoss) <= 100.0
  {
    if avgLoss != 0.0 {
      var rs := avgGain / avgLoss;
      QuotientNonNegative(avgGain, avgLoss);
      var q := 100.0 / (1.0 + rs);
      assert 0.0 < q <= 100.0 by {
        QuotientBelow(100.0, 1.0 + rs);
      }
    }
  }

  /** Every value `rsi` gives is between 0 and 100. */
  lemma RsiRange(values: seq<real>, period: int, i: nat)
    requires RsiOf(values, period).Ok? && i < |values|
    requires RsiOf(values, period).value[i].Some?
    ensures 0.0 <= RsiOf(values, period).value[i].value <= 100.0
  {
    var g, l := Gains(values), Losses(values);
    WilderNonNegative(g, period, i);
    WilderNonNegative(l, period, i);
    RsiValueRange(Wilder(g, period, i), Wilder(l, period, i));
  }

  /** Prices that never fall have an index of 100 wherever it is defined. */
  lemma RsiNeverFalling(values: seq<real>, period: int, i: nat)
    requires forall j :: 0 < j < |values| ==> values[j - 1] <= values[j]
    requires RsiOf(values, period).Ok? && i < |values|
    requires RsiOf(values, period).value[i].Some?
    ensures RsiOf(values, period).value[i].value == 100.0
  {
    NoFallNoLoss(values);
    WilderZero(Losses(values), period, i);
  }

  lemma NoFallNoLoss(values: seq<real>)
    requires forall j :: 0 < j < |values| ==> values[j - 1] <= values[j]
    ensures forall j :: 0 <= j < |values| ==> Losses(values)[j] == 0.0
  {
    forall j | 0 <= j < |values|
      ensures Losses(values)[j] == 0.0
    {
      if j > 0 {
        assert values[j - 1] <= values[j];
      }
    }
  }

  lemma {:induction false} WilderZero(xs: seq<real>, period: nat, i: nat)
    requires 2 <= period && period - 1 <= i < |xs|
    requires forall j :: 0 <= j < |xs| ==> xs[j] == 0.0
    ensures Wilder(xs, period, i) == 0.0
  {
    if i == period - 1 {
      SumZero(xs[1..period]);
    } else {
      WilderZero(xs, period, i - 1);
    }
  }

  /** The first loop of `rsi`: each value's gain and loss against the one before. */
  method GainsAndLosses(values: seq<real>) returns (gains: seq<real>, losses: seq<real>)
    ensures gains == Gains(values) && losses == Losses(values)
  {
    var n := |values|;
    gains, losses := seq(n, _ => 0.0), seq(n, _ => 0.0);
    ghost var g, l := Gains(values), Losses(values);
    var i := 1;
    while i < n
      invariant 1 <= i <= MaxInt(n, 1)
      invariant |gains| == n && |losses| == n
      invariant forall j :: 0 <= j < n ==> gains[j] == if j < i then g[j] else 0.0
      invariant forall j :: 0 <= j < n ==> losses[j] == if j < i then l[j] else 0.0
    {
      var delta := values[i] - values[i - 1];
      gains := gains[i := Max(0.0, delta)];
      losses := losses[i := Max(0.0, -delta)];
      i := i + 1;
    }
  }

  /**
   * `rsi` as the source computes it: the gains and losses first, then the
   * smoothing pass.
   */
  method Rsi(values: seq<real>, period: int) returns (r: Result<seq<Option<real>>>)
    ensures r == RsiOf(values, period)
  {
    if period <= 0 {
      return Err(PeriodError);
    }
    var gains, losses := GainsAndLosses(values);
    r := Smooth(gains, losses, period);
  }

  /**
   * The second loop of `rsi`: seeds the averages at `period - 1`, smooths them
   * after and turns them into the index; with a period of 1 the averages are
   * never seeded and the assertion fails at the second value.
   */
  method Smooth(gains: seq<real>, losses: seq<real>, period: nat) returns (r: Result<seq<Option<real>>>)
    requires 0 < period && |gains| == |losses| && NonNegatives(gains) && NonNegatives(losses)
    ensures period == 1 && |gains| >= 2 ==> r == Err(SeedMissing)
    ensures period == 1 && |gains| < 2 ==> r == Ok(seq(|gains|, _ => None))
    ensures period >= 2 ==> r == Ok(RsiSeries(gains, losses, period))
  {
    var n := |gains|;
    var out: seq<Option<real>> := seq(n, _ => None);
    var avgGain: Option<real> := None;
    var avgLoss: Option<real> := None;
    ghost var want := if period >= 2 then RsiSeries(gains, losses, period) else seq(n, _ => None);
    var i := 1;
    while i < n
      invariant 1 <= i <= MaxInt(n, 1)
      invariant period == 1 ==> i == 1
      invariant i < period || period < 2 ==> avgGain.None? && avgLoss.None?
      invariant 2 <= period <= i ==> avgGain == Some(Wilder(gains, period, i - 1))
      invariant 2 <= period <= i ==> avgLoss == Some(Wilder(losses, period, i - 1))
      invariant |out| == n
      invariant forall j :: 0 <= j < n ==> out[j] == if j < i then want[j] else None
    {
      if i < period {
        if i == period - 1 {
          avgGain := Some(Sum(gains[1..period]) / period as real);
          avgLoss := Some(Sum(losses[1..period]) / period as real);
        }
      } else {
        if avgGain.None? || avgLoss.None? {
          return Err(SeedMissing);
        }
        avgGain := Some(WilderStep(avgGain.value, gains[i], period));
        avgLoss := Some(WilderStep(avgLoss.value, losses[i], period));
        WilderNonNegative(gains, period, i);
        WilderNonNegative(losses, period, i);
        out := out[i := Some(RsiValue(avgGain.value, avgLoss.value))];
      }
      i := i + 1;
    }
    assert out == want;
    r := Ok(out);
  }

  // ---------------------------------------------------------------------------
  // macd
  // ---------------------------------------------------------------------------

  /** The three lists `macd` returns. */
  datatype MacdLines = MacdLines(line: seq<Option<real>>, signal: seq<Option<real>>, hist: seq<Option<real>>)

  /** Entrywise `a - b` where both are present. */
  function Diff(a: seq<Option<real>>, b: seq<Option<real>>): (r: seq<Option<real>>)
    requires |a| == |b|
    ensures |r| == |a|
    ensures forall i :: 0 <= i < |a| ==> (r[i].Some? <==> a[i].Some? && b[i].Some?)
  {
    seq(|a|, i requires 0 <= i < |a| => if a[i].Some? && b[i].Some? then Some(a[i].value - b[i].value) else None)
  }

  /** The latest value present at or before `i`, or 0 when there is none. */
  function Carried(xs: seq<Option<real>>, i: nat): real
    requires i < |xs|
  {
    if xs[i].Some? then xs[i].value
    else if i == 0 then 0.0
    else Carried(xs, i - 1)
  }

  /** The line with each gap replaced by the value before it (0 at the start). */
  function Filled(xs: seq<Option<real>>): (r: seq<real>)
    ensures |r| == |xs|
  {
    seq(|xs|, i requires 0 <= i < |xs| => Carried(xs, i))
  }

  /** The MACD line, its signal line and the histogram, for positive spans. */
  function MacdOf(values: seq<real>, fast: int, slow: int, signal: int): (r: Result<MacdLines>)
    ensures r.Err? <==> fast <= 0 || slow <= 0 || signal <= 0
    ensures r.Err? ==> r.error == WindowError
  {
    if fast <= 0 || slow <= 0 || signal <= 0 then Err(WindowError)
    else
      var line := Diff(EmaOf(values, fast), EmaOf(values, slow));
      var sig := EmaOf(Filled(line), signal);
      Ok(MacdLines(line, sig, Diff(line, sig)))
  }

  /** A gap-free prefix followed by values carries nothing but zeros into the gaps. */
  lemma {:induction false} CarriedPrefix(xs: seq<Option<real>>, start: nat, i: nat)
    requires i < |xs|
    requires forall j :: 0 <= j < |xs| ==> (xs[j].None? <==> j < start)
    ensures Carried(xs, i) == if i < start then 0.0 else xs[i].value
  {
    if i >= start {
    } else if i > 0 {
      CarriedPrefix(xs, start, i - 1);
    }
  }

  /**
   * The shape of `macd`'s output: the line starts at the slower average, the
   * signal line after `signal - 1` values, and the histogram where both exist,
   * as their difference; the gaps of the line are filled with zeros.
   */
  lemma MacdShape(values: seq<real>, fast: int, slow: int, signal: int, i: nat)
    requires MacdOf(values, fast, slow, signal).Ok? && i < |values|
    ensures var m := MacdOf(values, fast, slow, signal).value;
      && |m.line| == |m.signal| == |m.hist| == |values|
      && (m.line[i].None? <==> i < MaxInt(fast, slow) - 1)
      && (m.signal[i].None? <==> i < signal - 1)
      && (m.hist[i].None? <==> i < MaxInt(MaxInt(fast, slow), signal) - 1)
      && (m.hist[i].Some? ==> m.hist[i].value == m.line[i].value - m.signal[i].value)
  {
  }

  /** The series the signal line averages: zero before the MACD line starts, the line after. */
  lemma MacdFilled(values: seq<real>, fast: int, slow: int, i: nat)
    requires 0 < fast && 0 < slow && i < |values|
    ensures var line := Diff(EmaOf(values, fast), EmaOf(values, slow));
      Filled(line)[i] == if i < MaxInt(fast, slow) - 1 then 0.0 else line[i].value
  {
    var line := Diff(EmaOf(values, fast), EmaOf(values, slow));
    CarriedPrefix(line, MaxInt(fast, slow) - 1, i);
  }

  /**
   * `macd`: the two averages, their difference where both exist, the line
   * with its gaps filled, the average of that, and the histogram.
   */
  method Macd(values: seq<real>, fast: int, slow: int, signal: int) returns (r: Result<MacdLines>)
    ensures r == MacdOf(values, fast, slow, signal)
  {
    var emaFast := Ema(values, fast);
    if emaFast.Err? {
      return Err(emaFast.error);
    }
    var emaSlow := Ema(values, slow);
    if emaSlow.Err? {
      return Err(emaSlow.error);
    }
    var n := |values|;
    var a, b := emaFast.value, emaSlow.value;
    var line := new Option<real>[n](_ => None);
    ghost var wantLine := Diff(a, b);
    for i := 0 to n
      invariant forall j :: 0 <= j < i ==> line[j] == wantLine[j]
    {
      line[i] := if a[i].Some? && b[i].Some? then Some(a[i].value - b[i].value) else None;
    }
    var ln := line[..];
    assert ln == wantLine;
    var filled := FillGaps(ln);
    var sig := Ema(filled, signal);
    if sig.Err? {
      return Err(sig.error);
    }
    var s := sig.value;
    var hist := seq(n, i requires 0 <= i < n => if ln[i].None? || s[i].None? then None else Some(ln[i].value - s[i].value));
    assert hist == Diff(ln, s);
    r := Ok(MacdLines(ln, s, hist));
  }

  /** The loop of `macd` that carries the last value across the gaps of the line. */
  method FillGaps(xs: seq<Option<real>>) returns (filled: seq<real>)
    ensures filled == Filled(xs)
  {
    filled := [];
    var last := 0.0;
    for i := 0 to |xs|
      invariant |filled| == i
      invariant forall j :: 0 <= j < i ==> filled[j] == Carried(xs, j)
      invariant i > 0 ==> last == Carried(xs, i - 1)
      invariant i == 0 ==> last == 0.0
    {
      if xs[i].None? {
        filled := filled + [last];
      } else {
        last := xs[i].value;
        filled := filled + [last];
      }
    }
  }

  // ---------------------------------------------------------------------------
  // bollinger
  // ---------------------------------------------------------------------------

  /** The three lists `bollinger` returns. */
  datatype Bands = Bands(upper: seq<Option<real>>, mid: seq<Option<real>>, lower: seq<Option<real>>)

  /** The squared distances of `ws` from `m`. */
  function Squares(ws: seq<real>, m: real): (r: seq<real>)
    ensures |r| == |ws| && NonNegatives(r)
  {
    seq(|ws|, j requires 0 <= j < |ws| => Square(ws[j] - m))
  }

  function Square(d: real): (r: real)
    ensures r >= 0.0
  {
    if d >= 0.0 then ProductNonNegative(d, d); d * d
    else ProductNonNegative(-d, -d); d * d
  }

  /** The population variance of the window ending at `i`, about its mean `m`. */
  function WindowVariance(values: seq<real>, window: nat, i: nat, m: real): (v: real)
    requires 0 < window && window - 1 <= i < |values|
    ensures v >= 0.0
  {
    var ws := values[i + 1 - window..i + 1];
    SumNonNegative(Squares(ws, m));
    Sum(Squares(ws, m)) / window as real
  }

  /**
   * The bands at `i` for a square root `sqrt`: the mean of the window plus and
   * minus `numStd` standard deviations, once the window is full.
   */
  function BandAt(values: seq<real>, window: nat, numStd: real, sqrt: real -> real, i: nat, upper: bool): (r: Option<real>)
    requires 0 < window && i < |values|
    ensures r.None? <==> i < window - 1
  {
    if i < window - 1 then None
    else
      var m := SmaAt(values, window, i).value;
      var sd := sqrt(WindowVariance(values, window, i, m));
      Some(if upper then m + numStd * sd else m - numStd * sd)
  }

  /** `bollinger`: raises as `sma` does for a window that is not positive. */
  function BollingerOf(values: seq<real>, window: int, numStd: real, sqrt: real -> real): (r: Result<Bands>)
    ensures r.Err? <==> window <= 0
    ensures r.Err? ==> r.error == WindowError
    ensures r.Ok? ==> r.value.mid == SmaOf(values, window)
    ensures r.Ok? ==> |r.value.upper| == |r.value.lower| == |values|
  {
    if window <= 0 then Err(WindowError)
    else
      Ok(Bands(seq(|values|, i requires 0 <= i < |values| => BandAt(values, window, numStd, sqrt, i, true)),
               SmaOf(values, window),
               seq(|values|, i requires 0 <= i < |values| => BandAt(values, window, numStd, sqrt, i, false))))
  }

  /** A square root: non-negative, and squaring to its argument. */
  ghost predicate IsSqrt(sqrt: real -> real) {
    forall v :: 0.0 <= v ==> 0.0 <= sqrt(v) && sqrt(v) * sqrt(v) == v
  }

  /**
   * The bands are present exactly where the middle band is, lie the same
   * distance either side of it, and for a non-negative `numStd` enclose it.
   */
  lemma BandsAroundMid(values: seq<real>, window: int, numStd: real, sqrt: real -> real, i: nat)
    requires BollingerOf(values, window, numStd, sqrt).Ok? && i < |values|
    requires IsSqrt(sqrt)
    ensures var b := BollingerOf(values, window, numStd, sqrt).value;
      && (b.upper[i].None? <==> b.mid[i].None?)
      && (b.lower[i].None? <==> b.mid[i].None?)
      && (b.mid[i].Some? ==> b.upper[i].value - b.mid[i].value == b.mid[i].value - b.lower[i].value)
      && (b.mid[i].Some? && 0.0 <= numStd ==> b.lower[i].value <= b.mid[i].value <= b.upper[i].value)
  {
    var b := BollingerOf(values, window, numStd, sqrt).value;
    if i >= window - 1 {
      var m := SmaAt(values, window, i).value;
      var sd := sqrt(WindowVariance(values, window, i, m));
      assert b.upper[i].value == m + numStd * sd;
      assert b.lower[i].value == m - numStd * sd;
      if 0.0 <= numStd {
        ProductNonNegative(numStd, sd);
      }
    }
  }

  /**
   * `bollinger` as the source computes it: the simple average for the middle
   * band, then for each full window its variance, its square root and the
   * two bands.
   */
  method Bollinger(values: seq<real>, window: int, numStd: real, sqrt: real -> real) returns (r: Result<Bands>)
    ensures r == BollingerOf(values, window, numStd, sqrt)
  {
    var ma := Sma(values, window);
    if ma.Err? {
      return Err(ma.error);
    }
    var mid := ma.value;
    var n := |values|;
    var upper: seq<Option<real>> := seq(n, _ => None);
    var lower: seq<Option<real>> := seq(n, _ => None);
    ghost var wantUpper := seq(n, j requires 0 <= j < n => BandAt(values, window, numStd, sqrt, j, true));
    ghost var wantLower := seq(n, j requires 0 <= j < n => BandAt(values, window, numStd, sqrt, j, false));
    for i := 0 to n
      invariant |upper| == n && |lower| == n
      invariant forall j :: 0 <= j < n ==> upper[j] == if j < i then wantUpper[j] else None
      invariant forall j :: 0 <= j < n ==> lower[j] == if j < i then wantLower[j] else None
    {
      if i < window - 1 {
        continue;
      }
      var u, l := BandsAt(values, window, numStd, sqrt, mid, i);
      upper := upper[i := Some(u)];
      lower := lower[i := Some(l)];
    }
    assert upper == wantUpper && lower == wantLower;
    r := Ok(Bands(upper, mid, lower));
  }

  /** One full window of `bollinger`: its mean, variance, deviation and the two bands. */
  method BandsAt(values: seq<real>, window: nat, numStd: real, sqrt: real -> real, mid: seq<Option<real>>, i: nat)
    returns (upper: real, lower: real)
    requires 0 < window && window - 1 <= i < |values| && mid == SmaOf(values, window)
    ensures Some(upper) == BandAt(values, window, numStd, sqrt, i, true)
    ensures Some(lower) == BandAt(values, window, numStd, sqrt, i, false)
  {
    var ws := values[i - window + 1..i + 1];
    var mean := Sum(ws) / window as real;
    var m := if mid[i].Some? then mid[i].value else mean;
    assert m == SmaAt(values, window, i).value;
    var variance := Sum(Squares(ws, m)) / window as real;
    assert variance == WindowVariance(values, window, i, m);
    var std := sqrt(variance);
    assert std == sqrt(WindowVariance(values, window, i, m));
    upper := m + numStd * std;
    lower := m - numStd * std;
    assert upper == BandAt(values, window, numStd, sqrt, i, true).value;
  }
}
