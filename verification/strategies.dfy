/**
 * The trading strategies of `analytics/strategies.py`: a moving-average
 * crossover, an RSI mean-reversion rule and a confluence of the two with the
 * MACD histogram, each optionally gated by the Bollinger bandwidth.
 *
 * Each strategy's settings are a value checked once when it is built. Its
 * `generate` is a method that walks the closes as the source does, keeping the
 * previous moving-average difference and appending signals; it is proved to
 * return the signals of a specification function that says, index by index,
 * whether a signal is due there and which.
 *
 * Two operations of the host language are parameters: `sqrt` is `x ** 0.5`
 * (used by the bands), and `fixed(x, n)` is the fixed-point formatting
 * `f"{x:.nf}"` used in the reason texts.
 */
module Strategies {
  import opened Wrappers
  import opened Numbers
  import opened Text
  import opened Signals
  import opened Indicators

  const FastNotBelowSlow := "fast must be < slow"
  const ThresholdsInvalid := "rsi thresholds invalid"
  /** The band width `bollinger` is called with. */
  const BandStd := 2.0

  // ---------------------------------------------------------------------------
  // Shared pieces
  // ---------------------------------------------------------------------------

  /** The signals present in `xs`, in order. */
  function Present(xs: seq<Option<Signal>>): seq<Signal> {
    if xs == [] then []
    else Present(xs[..|xs| - 1]) + (if xs[|xs| - 1].Some? then [xs[|xs| - 1].value] else [])
  }

  /** One more entry adds its signal, if any, at the end. */
  lemma PresentStep(xs: seq<Option<Signal>>, i: nat)
    requires i < |xs|
    ensures Present(xs[..i + 1]) == Present(xs[..i]) + (if xs[i].Some? then [xs[i].value] else [])
  {
    assert xs[..i + 1][..i] == xs[..i];
  }

  /** Every signal in `xs` carries its own position as its index. */
  predicate IndexedBy(xs: seq<Option<Signal>>) {
    forall i :: 0 <= i < |xs| && xs[i].Some? ==> xs[i].value.index == i
  }

  predicate StrictlyIncreasing(r: seq<Signal>) {
    forall a, b :: 0 <= a < b < |r| ==> r[a].index < r[b].index
  }

  /**
   * Collecting the signals of an indexed list gives at most one signal per
   * index, in strictly increasing index order, each the one due at its index,
   * and misses none.
   */
  lemma {:induction false} PresentIndexed(xs: seq<Option<Signal>>)
    requires IndexedBy(xs)
    ensures var r := Present(xs);
      && StrictlyIncreasing(r)
      && (forall k :: 0 <= k < |r| ==> 0 <= r[k].index < |xs| && xs[r[k].index] == Some(r[k]))
      && (forall i :: 0 <= i < |xs| && xs[i].Some? ==> xs[i].value in r)
  {
    if xs != [] {
      var init := xs[..|xs| - 1];
      assert IndexedBy(init);
      PresentIndexed(init);
      var r0 := Present(init);
      var r := Present(xs);
      assert r == r0 + (if xs[|xs| - 1].Some? then [xs[|xs| - 1].value] else []);
      forall k | 0 <= k < |r|
        ensures 0 <= r[k].index < |xs| && xs[r[k].index] == Some(r[k])
      {
        if k < |r0| {
          assert r[k] == r0[k];
        }
      }
      forall i | 0 <= i < |xs| && xs[i].Some?
        ensures xs[i].value in r
      {
        if i < |init| {
          assert init[i] == xs[i];
        }
      }
    }
  }

  /** The moving averages turned from non-positive to positive. */
  predicate CrossUp(prev: real, diff: real) {
    prev <= 0.0 && diff > 0.0
  }

  /** The moving averages turned from non-negative to negative. */
  predicate CrossDown(prev: real, diff: real) {
    prev >= 0.0 && diff < 0.0
  }

  /**
   * The Bollinger bandwidth filter: with a positive `minBandwidth`, an index
   * passes only where the bands exist, the middle is non-zero and
   * `(upper - lower) / mid` is at least `minBandwidth`.
   */
  predicate Passes(minBandwidth: real, b: Bands, i: nat)
    requires i < |b.upper| && i < |b.mid| && i < |b.lower|
  {
    minBandwidth <= 0.0
    || (&& b.mid[i].Some? && b.upper[i].Some? && b.lower[i].Some? && b.mid[i].value != 0.0
        && Bandwidth(b.upper[i].value, b.lower[i].value, b.mid[i].value) >= minBandwidth)
  }

  /** The filter as each `generate` loop applies it at close `i`. */
  method PassesFilter(minBandwidth: real, b: Bands, i: nat) returns (ok: bool)
    requires i < |b.upper| && i < |b.mid| && i < |b.lower|
    ensures ok == Passes(minBandwidth, b, i)
  {
    if minBandwidth <= 0.0 {
      return true;
    }
    var m, u, low := b.mid[i], b.upper[i], b.lower[i];
    if m.None? || u.None? || low.None? || m.value == 0.0 {
      return false;
    }
    var bandwidth := Bandwidth(u.value, low.value, m.value);
    ok := bandwidth >= minBandwidth;
  }

  /** `(u - low) / m`: the width of the bands relative to the middle. */
  function Bandwidth(u: real, low: real, m: real): real
    requires m != 0.0
  {
    (u - low) / m
  }

  /** Bands whose three lists have `n` entries. */
  predicate BandsOfLength(b: Bands, n: nat) {
    |b.upper| == n && |b.mid| == n && |b.lower| == n
  }

  /** `min(1.0, abs(diff) / s) if s else 0.0`: at most 1, and not negative when the slow average is positive. */
  function DistanceConfidence(diff: real, s: real): (c: real)
    ensures c <= 1.0
    ensures s > 0.0 ==> c >= 0.0
  {
    if s != 0.0 then
      if s > 0.0 then QuotientNonNegative(Abs(diff), s); Min(1.0, Abs(diff) / s)
      else Min(1.0, Abs(diff) / s)
    else 0.0
  }

  /** The MA differences of the two averages, and the bands, as the strategies receive them. */
  function MeanGaps(closes: seq<real>, fast: nat, slow: nat): (d: seq<Option<real>>)
    requires 0 < fast && 0 < slow
    ensures |d| == |closes|
    ensures forall i :: 0 <= i < |closes| ==> (d[i].None? <==> i < MaxInt(fast, slow) - 1)
  {
    Diff(SmaOf(closes, fast), SmaOf(closes, slow))
  }

  // ---------------------------------------------------------------------------
  // MovingAverageCrossStrategy
  // ---------------------------------------------------------------------------

  datatype MaCross = MaCross(fast: int, slow: int, minBandwidth: real, bbWindow: int)

  /** The constructor: refuses a fast window that is not shorter than the slow one. */
  function NewMaCross(fast: int, slow: int, minBandwidth: real, bbWindow: int): (r: Result<MaCross>)
    ensures r.Err? <==> fast >= slow
    ensures r.Err? ==> r.error == FastNotBelowSlow
    ensures r.Ok? ==> r.value.fast < r.value.slow
  {
    if fast >= slow then Err(FastNotBelowSlow) else Ok(MaCross(fast, slow, minBandwidth, bbWindow))
  }

  function MaReason(c: MaCross, up: bool, conf: real, fixed: (real, nat) -> string): string {
    "MA" + IntToString(c.fast) + (if up then " cross above MA" else " cross below MA") + IntToString(c.slow)
      + " [conf " + fixed(conf * 100.0, 0) + "%]"
  }

  /**
   * The signal due at close `i`: there must be a difference of the averages at
   * `i - 1` and at `i`, the index must pass the bandwidth filter, and the
   * difference must change sign, upwards for a buy and downwards for a sell.
   * The filter at `i - 1` plays no part: a filtered index still records its
   * difference.
   */
  function MaCrossAt(c: MaCross, fastMa: seq<Option<real>>, slowMa: seq<Option<real>>, b: Bands,
                     fixed: (real, nat) -> string, i: nat): (r: Option<Signal>)
    requires i < |fastMa| == |slowMa| && BandsOfLength(b, |fastMa|)
    ensures r.Some? ==> r.value.index == i
  {
    var d := Diff(fastMa, slowMa);
    if i == 0 || d[i - 1].None? || d[i].None? || !Passes(c.minBandwidth, b, i) then None
    else
      var prev, diff := d[i - 1].value, d[i].value;
      var conf := DistanceConfidence(diff, slowMa[i].value);
      if CrossUp(prev, diff) then Some(Signal(i, "buy", MaReason(c, true, conf, fixed), Some(conf)))
      else if CrossDown(prev, diff) then Some(Signal(i, "sell", MaReason(c, false, conf, fixed), Some(conf)))
      else None
  }

  /**
   * A signal is due exactly where both differences exist, the filter passes
   * and the difference changes sign: a buy when it turns positive, a sell when
   * it turns negative, with a confidence of at most 1.
   */
  lemma MaCrossAtCases(c: MaCross, closes: seq<real>, b: Bands, fixed: (real, nat) -> string, i: nat)
    requires 0 < c.fast && 0 < c.slow && i < |closes| && BandsOfLength(b, |closes|)
    ensures var r := MaCrossAt(c, SmaOf(closes, c.fast), SmaOf(closes, c.slow), b, fixed, i);
      var d := MeanGaps(closes, c.fast, c.slow);
      r.Some? <==> (&& MaxInt(c.fast, c.slow) <= i && Passes(c.minBandwidth, b, i)
                    && (CrossUp(d[i - 1].value, d[i].value) || CrossDown(d[i - 1].value, d[i].value)))
    ensures var r := MaCrossAt(c, SmaOf(closes, c.fast), SmaOf(closes, c.slow), b, fixed, i);
      var d := MeanGaps(closes, c.fast, c.slow);
      r.Some? ==> && (r.value.kind == "buy" <==> CrossUp(d[i - 1].value, d[i].value))
                  && (r.value.kind == "sell" <==> CrossDown(d[i - 1].value, d[i].value))
                  && r.value.confidence.Some? && r.value.confidence.value <= 1.0
  {
  }

  function MaCrossDue(c: MaCross, closes: seq<real>, b: Bands, fixed: (real, nat) -> string): (xs: seq<Option<Signal>>)
    requires 0 < c.fast && 0 < c.slow && BandsOfLength(b, |closes|)
    ensures |xs| == |closes| && IndexedBy(xs)
  {
    seq(|closes|, i requires 0 <= i < |closes| => MaCrossAt(c, SmaOf(closes, c.fast), SmaOf(closes, c.slow), b, fixed, i))
  }

  /** `generate`: raises when a window is not positive, as `sma` and `bollinger` do. */
  function MaCrossOf(c: MaCross, closes: seq<real>, sqrt: real -> real, fixed: (real, nat) -> string): (r: Result<seq<Signal>>)
    ensures r.Err? <==> c.fast <= 0 || c.slow <= 0 || c.bbWindow <= 0
    ensures r.Err? ==> r.error == WindowError
  {
    if c.fast <= 0 || c.slow <= 0 || c.bbWindow <= 0 then Err(WindowError)
    else Ok(Present(MaCrossDue(c, closes, BollingerOf(closes, c.bbWindow, BandStd, sqrt).value, fixed)))
  }

  /**
   * The crossover emits at most one signal per close, in increasing order of
   * index, each the one due at its index, and every one that is due.
   */
  lemma MaCrossSignals(c: MaCross, closes: seq<real>, sqrt: real -> real, fixed: (real, nat) -> string)
    requires MaCrossOf(c, closes, sqrt, fixed).Ok?
    ensures var r := MaCrossOf(c, closes, sqrt, fixed).value;
      var b := BollingerOf(closes, c.bbWindow, BandStd, sqrt).value;
      var xs := MaCrossDue(c, closes, b, fixed);
      && StrictlyIncreasing(r)
      && (forall k :: 0 <= k < |r| ==> 0 <= r[k].index < |closes| && xs[r[k].index] == Some(r[k]))
      && (forall i :: 0 <= i < |closes| && xs[i].Some? ==> xs[i].value in r)
  {
    var b := BollingerOf(closes, c.bbWindow, BandStd, sqrt).value;
    PresentIndexed(MaCrossDue(c, closes, b, fixed));
  }

  /** `MovingAverageCrossStrategy.generate`. */
  method MaCrossGenerate(c: MaCross, closes: seq<real>, sqrt: real -> real, fixed: (real, nat) -> string)
    returns (r: Result<seq<Signal>>)
    ensures r == MaCrossOf(c, closes, sqrt, fixed)
  {
    var fastMa := Sma(closes, c.fast);
    if fastMa.Err? {
      return Err(fastMa.error);
    }
    var slowMa := Sma(closes, c.slow);
    if slowMa.Err? {
      return Err(slowMa.error);
    }
    var bands := Bollinger(closes, c.bbWindow, BandStd, sqrt);
    if bands.Err? {
      return Err(bands.error);
    }
    ghost var want := MaCrossDue(c, closes, bands.value, fixed);
    var sigs: seq<Signal> := [];
    var prevDiff: Option<real> := None;
    for i := 0 to |closes|
      invariant prevDiff == if 0 < i then Diff(fastMa.value, slowMa.value)[i - 1] else None
      invariant sigs == Present(want[..i])
    {
      PresentStep(want, i);
      var sig;
      sig, prevDiff := MaCrossVisit(c, fastMa.value, slowMa.value, bands.value, fixed, i, prevDiff);
      if sig.Some? {
        sigs := sigs + [sig.value];
      }
    }
    assert want[..|closes|] == want;
    r := Ok(sigs);
  }

  /**
   * One pass of `generate`'s loop: the signal due at close `i`, if any, and
   * the difference to remember for the next close (unchanged while the
   * averages are not both defined).
   */
  method MaCrossVisit(c: MaCross, fastMa: seq<Option<real>>, slowMa: seq<Option<real>>, b: Bands,
                      fixed: (real, nat) -> string, i: nat, prevDiff: Option<real>)
    returns (sig: Option<Signal>, next: Option<real>)
    requires i < |fastMa| == |slowMa| && BandsOfLength(b, |fastMa|)
    requires prevDiff == if 0 < i then Diff(fastMa, slowMa)[i - 1] else None
    requires fastMa[i].None? || slowMa[i].None? ==> prevDiff.None?
    ensures sig == MaCrossAt(c, fastMa, slowMa, b, fixed, i)
    ensures next == Diff(fastMa, slowMa)[i]
  {
    ghost var d := Diff(fastMa, slowMa);
    var f, s := fastMa[i], slowMa[i];
    if f.None? || s.None? {
      return None, prevDiff;
    }
    var diff := f.value - s.value;
    next := Some(diff);
    assert d[i] == next;
    var passes := PassesFilter(c.minBandwidth, b, i);
    if !passes {
      return None, next;
    }
    sig := None;
    if prevDiff.Some? {
      assert d[i - 1] == prevDiff;
      if prevDiff.value <= 0.0 && diff > 0.0 {
        var conf := DistanceConfidence(diff, s.value);
        sig := Some(Signal(i, "buy", MaReason(c, true, conf, fixed), Some(conf)));
      } else if prevDiff.value >= 0.0 && diff < 0.0 {
        var conf := DistanceConfidence(diff, s.value);
        sig := Some(Signal(i, "sell", MaReason(c, false, conf, fixed), Some(conf)));
      }
    }
  }

  // ---------------------------------------------------------------------------
  // RSIReversionStrategy
  // ---------------------------------------------------------------------------

  /** The settings of the RSI mean-reversion rule; its constructor checks nothing. */
  datatype RsiReversion = RsiReversion(period: int, low: int, high: int, minBandwidth: real, bbWindow: int)

  function RsiReason(c: RsiReversion, buy: bool, v: real, conf: real, fixed: (real, nat) -> string): string {
    "RSI " + fixed(v, 1) + (if buy then " < " + IntToString(c.low) else " > " + IntToString(c.high))
      + " [conf " + fixed(conf * 100.0, 0) + "%]"
  }

  /** `min(1.0, gap / 20.0)`: the further past the threshold, the surer, up to 1. */
  function ThresholdConfidence(gap: real): (conf: real)
    ensures conf <= 1.0
    ensures gap > 0.0 ==> conf > 0.0
  {
    Min(1.0, gap / 20.0)
  }

  /**
   * The signal due at close `i`: where the index exists and the filter passes,
   * a buy below `low` and otherwise a sell above `high`.
   */
  function RsiReversionAt(c: RsiReversion, rs: seq<Option<real>>, b: Bands, fixed: (real, nat) -> string, i: nat): (r: Option<Signal>)
    requires i < |rs| && BandsOfLength(b, |rs|)
    ensures r.Some? <==> (&& rs[i].Some? && Passes(c.minBandwidth, b, i)
                          && (rs[i].value < c.low as real || rs[i].value > c.high as real))
    ensures r.Some? ==> && r.value.index == i
                        && (r.value.kind == "buy" <==> rs[i].value < c.low as real)
                        && (r.value.kind == "sell" <==> !(rs[i].value < c.low as real) && rs[i].value > c.high as real)
                        && r.value.confidence.Some? && 0.0 < r.value.confidence.value <= 1.0
  {
    if rs[i].None? || !Passes(c.minBandwidth, b, i) then None
    else
      var v := rs[i].value;
      if v < c.low as real then
        var conf := ThresholdConfidence(c.low as real - v);
        Some(Signal(i, "buy", RsiReason(c, true, v, conf, fixed), Some(conf)))
      else if v > c.high as real then
        var conf := ThresholdConfidence(v - c.high as real);
        Some(Signal(i, "sell", RsiReason(c, false, v, conf, fixed), Some(conf)))
      else None
  }

  function RsiReversionDue(c: RsiReversion, rs: seq<Option<real>>, b: Bands, fixed: (real, nat) -> string): (xs: seq<Option<Signal>>)
    requires BandsOfLength(b, |rs|)
    ensures |xs| == |rs| && IndexedBy(xs)
  {
    seq(|rs|, i requires 0 <= i < |rs| => RsiReversionAt(c, rs, b, fixed, i))
  }

  /** `generate`: raises as `rsi` does, then as `bollinger` does. */
  function RsiReversionOf(c: RsiReversion, closes: seq<real>, sqrt: real -> real, fixed: (real, nat) -> string): (r: Result<seq<Signal>>)
    ensures r.Err? <==> RsiOf(closes, c.period).Err? || c.bbWindow <= 0
    ensures RsiOf(closes, c.period).Err? ==> r == Err(RsiOf(closes, c.period).error)
  {
    var rs := RsiOf(closes, c.period);
    if rs.Err? then Err(rs.error)
    else if c.bbWindow <= 0 then Err(WindowError)
    else Ok(Present(RsiReversionDue(c, rs.value, BollingerOf(closes, c.bbWindow, BandStd, sqrt).value, fixed)))
  }

  /** The reversion rule emits at most one signal per close, in increasing order, each the one due, and every one due. */
  lemma RsiReversionSignals(c: RsiReversion, closes: seq<real>, sqrt: real -> real, fixed: (real, nat) -> string)
    requires RsiReversionOf(c, closes, sqrt, fixed).Ok?
    ensures var r := RsiReversionOf(c, closes, sqrt, fixed).value;
      var rs := RsiOf(closes, c.period).value;
      var b := BollingerOf(closes, c.bbWindow, BandStd, sqrt).value;
      var xs := RsiReversionDue(c, rs, b, fixed);
      && StrictlyIncreasing(r)
      && (forall k :: 0 <= k < |r| ==> 0 <= r[k].index < |closes| && xs[r[k].index] == Some(r[k]))
      && (forall i :: 0 <= i < |closes| && xs[i].Some? ==> xs[i].value in r)
  {
    var rs := RsiOf(closes, c.period).value;
    var b := BollingerOf(closes, c.bbWindow, BandStd, sqrt).value;
    PresentIndexed(RsiReversionDue(c, rs, b, fixed));
  }

  /** `RSIReversionStrategy.generate`. */
  method RsiReversionGenerate(c: RsiReversion, closes: seq<real>, sqrt: real -> real, fixed: (real, nat) -> string)
    returns (r: Result<seq<Signal>>)
    ensures r == RsiReversionOf(c, closes, sqrt, fixed)
  {
    var rs := Rsi(closes, c.period);
    if rs.Err? {
      return Err(rs.error);
    }
    var bands := Bollinger(closes, c.bbWindow, BandStd, sqrt);
    if bands.Err? {
      return Err(bands.error);
    }
    var b := bands.value;
    ghost var want := RsiReversionDue(c, rs.value, b, fixed);
    var sigs: seq<Signal> := [];
    for i := 0 to |rs.value|
      invariant sigs == Present(want[..i])
    {
      PresentStep(want, i);
      var sig := RsiReversionVisit(c, rs.value, b, fixed, i);
      if sig.Some? {
        sigs := sigs + [sig.value];
      }
    }
    assert want[..|rs.value|] == want;
    r := Ok(sigs);
  }

  /** One pass of the reversion loop: the signal due at close `i`, if any. */
  method RsiReversionVisit(c: RsiReversion, rs: seq<Option<real>>, b: Bands, fixed: (real, nat) -> string, i: nat)
    returns (sig: Option<Signal>)
    requires i < |rs| && BandsOfLength(b, |rs|)
    ensures sig == RsiReversionAt(c, rs, b, fixed, i)
  {
    var v := rs[i];
    if v.None? {
      return None;
    }
    var passes := PassesFilter(c.minBandwidth, b, i);
    if !passes {
      return None;
    }
    sig := None;
    if v.value < c.low as real {
      var conf := ThresholdConfidence(c.low as real - v.value);
      sig := Some(Signal(i, "buy", RsiReason(c, true, v.value, conf, fixed), Some(conf)));
    } else if v.value > c.high as real {
      var conf := ThresholdConfidence(v.value - c.high as real);
      sig := Some(Signal(i, "sell", RsiReason(c, false, v.value, conf, fixed), Some(conf)));
    }
  }

  // ---------------------------------------------------------------------------
  // ConfluenceStrategy
  // ---------------------------------------------------------------------------

  datatype Confluence = Confluence(fast: int, slow: int, rsiPeriod: int, rsiBuy: int, rsiSell: int,
                                   minBandwidth: real, bbWindow: int)

  /** The spans of the MACD the confluence rule reads: the defaults of `macd`. */
  const MacdFast := 12
  const MacdSlow := 26
  const MacdSignal := 9
  /** Each signal has all three confirmations. */
  const Confirms := 3

  /**
   * The constructor: refuses a fast window that is not shorter than the slow
   * one, then thresholds that are not `0 < rsi_sell < rsi_buy < 100`.
   */
  function NewConfluence(fast: int, slow: int, rsiPeriod: int, rsiBuy: int, rsiSell: int,
                         minBandwidth: real, bbWindow: int): (r: Result<Confluence>)
    ensures r.Err? <==> fast >= slow || !(0 < rsiSell < rsiBuy < 100)
    ensures fast >= slow ==> r == Err(FastNotBelowSlow)
    ensures fast < slow && !(0 < rsiSell < rsiBuy < 100) ==> r == Err(ThresholdsInvalid)
    ensures r.Ok? ==> r.value.fast < r.value.slow && 0 < r.value.rsiSell < r.value.rsiBuy < 100
  {
    if fast >= slow then Err(FastNotBelowSlow)
    else if !(0 < rsiSell < rsiBuy < 100) then Err(ThresholdsInvalid)
    else Ok(Confluence(fast, slow, rsiPeriod, rsiBuy, rsiSell, minBandwidth, bbWindow))
  }

  /** `min(1.0, base * 0.6 + 0.2 * dist_ma + 0.2 * dist_rsi)`: at most 1, at least 0.6 for non-negative distances. */
  function ConfluenceConfidence(distMa: real, distRsi: real): (conf: real)
    ensures conf <= 1.0
    ensures distMa >= 0.0 && distRsi >= 0.0 ==> conf >= 0.6
  {
    var base := Confirms as real / 3.0;
    Min(1.0, base * 0.6 + 0.2 * distMa + 0.2 * distRsi)
  }

  function ConfluenceReason(c: Confluence, up: bool, rv: real, conf: real, fixed: (real, nat) -> string): string {
    "Confluence: MA" + IntToString(c.fast) + "/" + IntToString(c.slow)
      + (if up then " up + RSI " else " down + RSI ") + fixed(rv, 1)
      + (if up then " + MACD>0" else " + MACD<0") + " [conf " + fixed(conf * 100.0, 0) + "%]"
  }

  /** An up-cross confirmed by the RSI at or above `rsi_buy` and a positive histogram. */
  predicate ConfirmedUp(c: Confluence, prev: real, diff: real, rv: real, h: real) {
    CrossUp(prev, diff) && rv >= c.rsiBuy as real && h > 0.0
  }

  /** A down-cross confirmed by the RSI at or below `rsi_sell` and a negative histogram. */
  predicate ConfirmedDown(c: Confluence, prev: real, diff: real, rv: real, h: real) {
    CrossDown(prev, diff) && rv <= c.rsiSell as real && h < 0.0
  }

  /**
   * The signal due at close `i`: the averages' difference at `i - 1` and `i`,
   * the RSI and the histogram at `i` must all exist and the filter pass; then
   * a confirmed up-cross buys and a confirmed down-cross sells.
   */
  function ConfluenceAt(c: Confluence, fastMa: seq<Option<real>>, slowMa: seq<Option<real>>,
                        rs: seq<Option<real>>, hist: seq<Option<real>>,
                        b: Bands, fixed: (real, nat) -> string, i: nat): (r: Option<Signal>)
    requires i < |fastMa| == |slowMa| == |rs| == |hist| && BandsOfLength(b, |fastMa|)
    ensures r.Some? ==> r.value.index == i
  {
    var d := Diff(fastMa, slowMa);
    if i == 0 || d[i - 1].None? || d[i].None? || hist[i].None? || rs[i].None? || !Passes(c.minBandwidth, b, i) then None
    else
      var prev, diff, rv, h := d[i - 1].value, d[i].value, rs[i].value, hist[i].value;
      var distMa := DistanceConfidence(diff, slowMa[i].value);
      if ConfirmedUp(c, prev, diff, rv, h) then
        var conf := ConfluenceConfidence(distMa, Min(1.0, (rv - c.rsiBuy as real) / 20.0));
        Some(Signal(i, "buy", ConfluenceReason(c, true, rv, conf, fixed), Some(conf)))
      else if ConfirmedDown(c, prev, diff, rv, h) then
        var conf := ConfluenceConfidence(distMa, Min(1.0, (c.rsiSell as real - rv) / 20.0));
        Some(Signal(i, "sell", ConfluenceReason(c, false, rv, conf, fixed), Some(conf)))
      else None
  }

  /**
   * A signal is due exactly where both differences, the RSI and the histogram
   * exist, the filter passes and a cross is confirmed: a buy for a confirmed
   * up-cross, otherwise a sell, with a confidence of at most 1.
   */
  lemma ConfluenceAtCases(c: Confluence, closes: seq<real>, rs: seq<Option<real>>, hist: seq<Option<real>>,
                          b: Bands, fixed: (real, nat) -> string, i: nat)
    requires 0 < c.fast && 0 < c.slow && i < |closes| == |rs| == |hist| && BandsOfLength(b, |closes|)
    ensures var r := ConfluenceAt(c, SmaOf(closes, c.fast), SmaOf(closes, c.slow), rs, hist, b, fixed, i);
      var d := MeanGaps(closes, c.fast, c.slow);
      r.Some? <==> (&& MaxInt(c.fast, c.slow) <= i && rs[i].Some? && hist[i].Some? && Passes(c.minBandwidth, b, i)
                    && (|| ConfirmedUp(c, d[i - 1].value, d[i].value, rs[i].value, hist[i].value)
                        || ConfirmedDown(c, d[i - 1].value, d[i].value, rs[i].value, hist[i].value)))
    ensures var r := ConfluenceAt(c, SmaOf(closes, c.fast), SmaOf(closes, c.slow), rs, hist, b, fixed, i);
      var d := MeanGaps(closes, c.fast, c.slow);
      r.Some? ==> && (r.value.kind == "buy" <==> ConfirmedUp(c, d[i - 1].value, d[i].value, rs[i].value, hist[i].value))
                  && (r.value.kind == "sell" <==> !ConfirmedUp(c, d[i - 1].value, d[i].value, rs[i].value, hist[i].value))
                  && r.value.confidence.Some? && r.value.confidence.value <= 1.0
  {
  }

  function ConfluenceDue(c: Confluence, closes: seq<real>, rs: seq<Option<real>>, hist: seq<Option<real>>,
                         b: Bands, fixed: (real, nat) -> string): (xs: seq<Option<Signal>>)
    requires 0 < c.fast && 0 < c.slow && |closes| == |rs| == |hist| && BandsOfLength(b, |closes|)
    ensures |xs| == |closes| && IndexedBy(xs)
  {
    seq(|closes|, i requires 0 <= i < |closes| => ConfluenceAt(c, SmaOf(closes, c.fast), SmaOf(closes, c.slow), rs, hist, b, fixed, i))
  }

  /** The histogram of `macd` with its default spans; these are positive, so it never raises. */
  function DefaultHist(closes: seq<real>): (h: seq<Option<real>>)
    ensures |h| == |closes|
  {
    MacdShapeLength(closes);
    MacdOf(closes, MacdFast, MacdSlow, MacdSignal).value.hist
  }

  lemma MacdShapeLength(closes: seq<real>)
    ensures MacdOf(closes, MacdFast, MacdSlow, MacdSignal).Ok?
    ensures |MacdOf(closes, MacdFast, MacdSlow, MacdSignal).value.hist| == |closes|
  {
  }

  /** `generate`: raises as `sma`, then `rsi`, then `bollinger` do; `macd` with its defaults cannot raise. */
  function ConfluenceOf(c: Confluence, closes: seq<real>, sqrt: real -> real, fixed: (real, nat) -> string): (r: Result<seq<Signal>>)
    ensures r.Err? <==> c.fast <= 0 || c.slow <= 0 || RsiOf(closes, c.rsiPeriod).Err? || c.bbWindow <= 0
    ensures c.fast <= 0 || c.slow <= 0 ==> r == Err(WindowError)
  {
    if c.fast <= 0 || c.slow <= 0 then Err(WindowError)
    else
      var rs := RsiOf(closes, c.rsiPeriod);
      if rs.Err? then Err(rs.error)
      else if c.bbWindow <= 0 then Err(WindowError)
      else Ok(Present(ConfluenceDue(c, closes, rs.value, DefaultHist(closes),
                                    BollingerOf(closes, c.bbWindow, BandStd, sqrt).value, fixed)))
  }

  /** The confluence rule emits at most one signal per close, in increasing order, each the one due, and every one due. */
  lemma ConfluenceSignals(c: Confluence, closes: seq<real>, sqrt: real -> real, fixed: (real, nat) -> string)
    requires ConfluenceOf(c, closes, sqrt, fixed).Ok?
    ensures var r := ConfluenceOf(c, closes, sqrt, fixed).value;
      var rs := RsiOf(closes, c.rsiPeriod).value;
      var b := BollingerOf(closes, c.bbWindow, BandStd, sqrt).value;
      var xs := ConfluenceDue(c, closes, rs, DefaultHist(closes), b, fixed);
      && StrictlyIncreasing(r)
      && (forall k :: 0 <= k < |r| ==> 0 <= r[k].index < |closes| && xs[r[k].index] == Some(r[k]))
      && (forall i :: 0 <= i < |closes| && xs[i].Some? ==> xs[i].value in r)
  {
    var rs := RsiOf(closes, c.rsiPeriod).value;
    var b := BollingerOf(closes, c.bbWindow, BandStd, sqrt).value;
    PresentIndexed(ConfluenceDue(c, closes, rs, DefaultHist(closes), b, fixed));
  }

  /** `ConfluenceStrategy.generate`. */
  method ConfluenceGenerate(c: Confluence, closes: seq<real>, sqrt: real -> real, fixed: (real, nat) -> string)
    returns (r: Result<seq<Signal>>)
    ensures r == ConfluenceOf(c, closes, sqrt, fixed)
  {
    var fastMa := Sma(closes, c.fast);
    if fastMa.Err? {
      return Err(fastMa.error);
    }
    var slowMa := Sma(closes, c.slow);
    if slowMa.Err? {
      return Err(slowMa.error);
    }
    var rs := Rsi(closes, c.rsiPeriod);
    if rs.Err? {
      return Err(rs.error);
    }
    var lines := Macd(closes, MacdFast, MacdSlow, MacdSignal);
    MacdShapeLength(closes);
    var hist := lines.value.hist;
    var bands := Bollinger(closes, c.bbWindow, BandStd, sqrt);
    if bands.Err? {
      return Err(bands.error);
    }
    ghost var want := ConfluenceDue(c, closes, rs.value, hist, bands.value, fixed);
    var sigs: seq<Signal> := [];
    var prevDiff: Option<real> := None;
    for i := 0 to |closes|
      invariant prevDiff == if 0 < i then Diff(fastMa.value, slowMa.value)[i - 1] else None
      invariant sigs == Present(want[..i])
    {
      PresentStep(want, i);
      var sig;
      sig, prevDiff := ConfluenceVisit(c, fastMa.value, slowMa.value, rs.value, hist, bands.value, fixed, i, prevDiff);
      if sig.Some? {
        sigs := sigs + [sig.value];
      }
    }
    assert want[..|closes|] == want;
    r := Ok(sigs);
  }

  /** One pass of the confluence loop: the signal due at close `i`, if any, and the difference to remember. */
  method ConfluenceVisit(c: Confluence, fastMa: seq<Option<real>>, slowMa: seq<Option<real>>,
                         rs: seq<Option<real>>, hist: seq<Option<real>>,
                         b: Bands, fixed: (real, nat) -> string, i: nat, prevDiff: Option<real>)
    returns (sig: Option<Signal>, next: Option<real>)
    requires i < |fastMa| == |slowMa| == |rs| == |hist| && BandsOfLength(b, |fastMa|)
    requires prevDiff == if 0 < i then Diff(fastMa, slowMa)[i - 1] else None
    requires fastMa[i].None? || slowMa[i].None? ==> prevDiff.None?
    ensures sig == ConfluenceAt(c, fastMa, slowMa, rs, hist, b, fixed, i)
    ensures next == Diff(fastMa, slowMa)[i]
  {
    ghost var d := Diff(fastMa, slowMa);
    var f, s := fastMa[i], slowMa[i];
    if f.None? || s.None? {
      return None, prevDiff;
    }
    var diff := f.value - s.value;
    next := Some(diff);
    assert d[i] == next;
    var h := hist[i];
    var rv := rs[i];
    var passes := PassesFilter(c.minBandwidth, b, i);
    if !passes {
      return None, next;
    }
    sig := None;
    if prevDiff.Some? && h.Some? && rv.Some? {
      assert d[i - 1] == prevDiff;
      if prevDiff.value <= 0.0 && diff > 0.0 && rv.value >= c.rsiBuy as real && h.value > 0.0 {
        var distMa := DistanceConfidence(diff, s.value);
        var distRsi := Min(1.0, (rv.value - c.rsiBuy as real) / 20.0);
        var conf := ConfluenceConfidence(distMa, distRsi);
        sig := Some(Signal(i, "buy", ConfluenceReason(c, true, rv.value, conf, fixed), Some(conf)));
      } else if prevDiff.value >= 0.0 && diff < 0.0 && rv.value <= c.rsiSell as real && h.value < 0.0 {
        var distMa := DistanceConfidence(diff, s.value);
        var distRsi := Min(1.0, (c.rsiSell as real - rv.value) / 20.0);
        var conf := ConfluenceConfidence(distMa, distRsi);
        sig := Some(Signal(i, "sell", ConfluenceReason(c, false, rv.value, conf, fixed), Some(conf)));
      }
    }
  }
}
