/**
 * The long-only backtest of `analytics/backtest.py`: a book of cash and
 * quantity that goes all in on a buy and all out on a sell at close prices,
 * the equity curve it marks to market, the trade statistics that pair buys
 * with sells, the drawdown of the curve, and the normalisation of the loose
 * signal inputs of `quick_backtest`. Prices are `real`s.
 */
module Backtests {
  import opened Wrappers
  import opened Numbers
  import opened Text
  import opened Signals

  // ---------------------------------------------------------------------------
  // The book and one fill
  // ---------------------------------------------------------------------------

  /** The simulated account: `cash` and `qty`. */
  datatype Book = Book(cash: real, qty: real)

  /** `cash + qty * price`, the mark-to-market value. */
  function Value(b: Book, price: real): real {
    b.cash + b.qty * price
  }

  /** Either nothing is held or no cash is left. */
  predicate FlatOrAllIn(b: Book) {
    b.qty == 0.0 || b.cash == 0.0
  }

  predicate NonNegative(b: Book) {
    b.cash >= 0.0 && b.qty >= 0.0
  }

  /**
   * One signal at one close: a buy when flat spends all the cash, a sell when
   * long sells everything; anything else leaves the book alone. A fill never
   * changes the value of the book at the price it fills at.
   */
  function Fill(b: Book, kind: string, price: real): (r: Book)
    ensures Value(r, price) == Value(b, price)
    ensures r != b ==>
              (kind == "buy" && b.qty == 0.0 && price > 0.0 && r.cash == 0.0)
              || (kind == "sell" && b.qty > 0.0 && r.qty == 0.0)
    ensures NonNegative(b) && price >= 0.0 ==> NonNegative(r)
  {
    if kind == "buy" && b.qty == 0.0 then
      var q := if price > 0.0 then b.cash / price else 0.0;
      assert q * price == (if price > 0.0 then b.cash else 0.0);
      Book(b.cash - q * price, q)
    else if kind == "sell" && b.qty > 0.0 then
      Book(b.cash + b.qty * price, 0.0)
    else
      b
  }

  // ---------------------------------------------------------------------------
  // The simulation loop
  // ---------------------------------------------------------------------------

  /** The book and the position `sig_idx` of the next signal to look at. */
  datatype Cursor = Cursor(book: Book, next: nat)

  /** The inner `while`: fills, in order, the signals from `j` on whose index is `i`. */
  function Drain(b: Book, sigs: seq<Signal>, j: nat, i: int, price: real): (c: Cursor)
    requires j <= |sigs|
    ensures j <= c.next <= |sigs|
    ensures c.next < |sigs| ==> sigs[c.next].index != i
    ensures Value(c.book, price) == Value(b, price)
    ensures FlatOrAllIn(b) ==> FlatOrAllIn(c.book)
    ensures NonNegative(b) && price >= 0.0 ==> NonNegative(c.book)
    decreases |sigs| - j
  {
    if j < |sigs| && sigs[j].index == i then
      Drain(Fill(b, sigs[j].kind, price), sigs, j + 1, i, price)
    else
      Cursor(b, j)
  }

  /** Passes over the signals from `j` on whose index lies before close `i`. */
  function Skip(sigs: seq<Signal>, j: nat, i: int): (k: nat)
    requires j <= |sigs|
    ensures j <= k <= |sigs|
    ensures k < |sigs| ==> sigs[k].index >= i
    decreases |sigs| - j
  {
    if j < |sigs| && sigs[j].index < i then Skip(sigs, j + 1, i) else j
  }

  /** The signals the inner loop fills all have the current index. */
  lemma {:induction false} DrainPasses(b: Book, sigs: seq<Signal>, j: nat, i: int, price: real)
    requires j <= |sigs|
    ensures forall k :: j <= k < Drain(b, sigs, j, i, price).next ==> sigs[k].index == i
    decreases |sigs| - j
  {
    if j < |sigs| && sigs[j].index == i {
      DrainPasses(Fill(b, sigs[j].kind, price), sigs, j + 1, i, price);
    }
  }

  /** The signals passed over all lie before the current index. */
  lemma {:induction false} SkipPasses(sigs: seq<Signal>, j: nat, i: int)
    requires j <= |sigs|
    ensures forall m :: j <= m < Skip(sigs, j, i) ==> sigs[m].index < i
    decreases |sigs| - j
  {
    if j < |sigs| && sigs[j].index < i {
      SkipPasses(sigs, j + 1, i);
    }
  }

  /** The state after some closes: the book, `sig_idx` and the equity curve so far. */
  datatype Run = Run(book: Book, next: nat, curve: seq<real>)

  /**
   * The state after the first `n` closes: at each close the signals of
   * earlier indices that were never reached are passed over, the signals of
   * this index are filled, and the book is marked to market.
   */
  function Simulate(closes: seq<real>, sigs: seq<Signal>, cash: real, n: nat): (r: Run)
    requires n <= |closes|
    ensures r.next <= |sigs|
    ensures |r.curve| == n
  {
    if n == 0 then Run(Book(cash, 0.0), 0, [])
    else
      var p := Simulate(closes, sigs, cash, n - 1);
      var c := Drain(p.book, sigs, Skip(sigs, p.next, n - 1), n - 1, closes[n - 1]);
      Run(c.book, c.next, p.curve + [Value(c.book, closes[n - 1])])
  }

  /** The loop as written: there is no pass over signals whose index was never reached. */
  function SimulateAsWritten(closes: seq<real>, sigs: seq<Signal>, cash: real, n: nat): (r: Run)
    requires n <= |closes|
    ensures r.next <= |sigs|
    ensures |r.curve| == n
  {
    if n == 0 then Run(Book(cash, 0.0), 0, [])
    else
      var p := SimulateAsWritten(closes, sigs, cash, n - 1);
      var c := Drain(p.book, sigs, p.next, n - 1, closes[n - 1]);
      Run(c.book, c.next, p.curve + [Value(c.book, closes[n - 1])])
  }

  /**
   * The reference: fill, one after the other, every signal whose index is a
   * close, at that close, ignoring the others.
   */
  function Replay(closes: seq<real>, sigs: seq<Signal>, b: Book): Book
    decreases |sigs|
  {
    if sigs == [] then b
    else
      var before := Replay(closes, sigs[..|sigs| - 1], b);
      var s := sigs[|sigs| - 1];
      if 0 <= s.index < |closes| then Fill(before, s.kind, closes[s.index]) else before
  }

  /** Replaying one more signal. */
  lemma ReplayStep(closes: seq<real>, sigs: seq<Signal>, b: Book, j: nat)
    requires j < |sigs|
    ensures Replay(closes, sigs[..j + 1], b)
         == if 0 <= sigs[j].index < |closes| then Fill(Replay(closes, sigs[..j], b), sigs[j].kind, closes[sigs[j].index])
            else Replay(closes, sigs[..j], b)
  {
    assert sigs[..j + 1][..j] == sigs[..j];
  }

  /** Signals whose index is not a close change nothing. */
  lemma {:induction false} ReplaySkip(closes: seq<real>, sigs: seq<Signal>, b: Book, j: nat, k: nat)
    requires j <= k <= |sigs|
    requires forall m :: j <= m < k ==> !(0 <= sigs[m].index < |closes|)
    ensures Replay(closes, sigs[..k], b) == Replay(closes, sigs[..j], b)
    decreases k
  {
    if j < k {
      ReplaySkip(closes, sigs, b, j, k - 1);
      ReplayStep(closes, sigs, b, k - 1);
    }
  }

  lemma {:induction false} DrainReplays(closes: seq<real>, sigs: seq<Signal>, b0: Book, b: Book, j: nat, i: nat)
    requires j <= |sigs| && i < |closes|
    requires b == Replay(closes, sigs[..j], b0)
    ensures Drain(b, sigs, j, i, closes[i]).book == Replay(closes, sigs[..Drain(b, sigs, j, i, closes[i]).next], b0)
    decreases |sigs| - j
  {
    if j < |sigs| && sigs[j].index == i {
      ReplayStep(closes, sigs, b0, j);
      DrainReplays(closes, sigs, b0, Fill(b, sigs[j].kind, closes[i]), j + 1, i);
    }
  }

  /** After the first `n` closes the signals passed are exactly those of an earlier index. */
  predicate PassedBefore(sigs: seq<Signal>, next: nat, n: int)
    requires next <= |sigs|
  {
    (forall m :: 0 <= m < next ==> sigs[m].index < n)
    && (next < |sigs| ==> sigs[next].index >= n)
  }

  /**
   * On sorted signals, after the first `n` closes, the simulation has passed
   * exactly the signals of earlier indices and its book is their replay.
   */
  lemma {:induction false} SimulateReplays(closes: seq<real>, sigs: seq<Signal>, cash: real, n: nat)
    requires SortedByIndex(sigs)
    requires 1 <= n <= |closes|
    ensures PassedBefore(sigs, Simulate(closes, sigs, cash, n).next, n)
    ensures Simulate(closes, sigs, cash, n).book
         == Replay(closes, sigs[..Simulate(closes, sigs, cash, n).next], Book(cash, 0.0))
  {
    var p := Simulate(closes, sigs, cash, n - 1);
    var j := Skip(sigs, p.next, n - 1);
    SkipPasses(sigs, p.next, n - 1);
    DrainPasses(p.book, sigs, j, n - 1, closes[n - 1]);
    if n == 1 {
      ReplaySkip(closes, sigs, Book(cash, 0.0), 0, j);
    } else {
      SimulateReplays(closes, sigs, cash, n - 1);
      assert j == p.next;
    }
    DrainReplays(closes, sigs, Book(cash, 0.0), p.book, j, n - 1);
    var c := Drain(p.book, sigs, j, n - 1, closes[n - 1]);
    if c.next < |sigs| && c.next > j {
      assert sigs[c.next - 1].index == n - 1;
    }
  }

  /** The point of the last close is the value of the book held before its signals. */
  lemma CurveLast(closes: seq<real>, sigs: seq<Signal>, cash: real, n: nat)
    requires 0 < n <= |closes|
    ensures Simulate(closes, sigs, cash, n).curve[n - 1]
         == Value(Simulate(closes, sigs, cash, n - 1).book, closes[n - 1])
  {
  }

  /** Later closes do not change earlier points. */
  lemma CurveKeeps(closes: seq<real>, sigs: seq<Signal>, cash: real, n: nat, i: nat)
    requires i < n - 1 && n <= |closes|
    ensures Simulate(closes, sigs, cash, n).curve[i] == Simulate(closes, sigs, cash, n - 1).curve[i]
  {
  }

  /** Every close contributes exactly one point, the value of the book held before its signals. */
  lemma {:induction false} CurveMarks(closes: seq<real>, sigs: seq<Signal>, cash: real, n: nat, i: nat)
    requires i < n <= |closes|
    ensures Simulate(closes, sigs, cash, n).curve[i] == Value(Simulate(closes, sigs, cash, i).book, closes[i])
    decreases n
  {
    if i == n - 1 {
      CurveLast(closes, sigs, cash, n);
    } else {
      CurveKeeps(closes, sigs, cash, n, i);
      CurveMarks(closes, sigs, cash, n - 1, i);
    }
  }

  /** The book is always flat or all in; with no negative cash or price it never goes negative. */
  lemma {:induction false} SimulateKeepsBook(closes: seq<real>, sigs: seq<Signal>, cash: real, n: nat)
    requires n <= |closes|
    ensures FlatOrAllIn(Simulate(closes, sigs, cash, n).book)
    ensures cash >= 0.0 && (forall i :: 0 <= i < |closes| ==> closes[i] >= 0.0)
            ==> NonNegative(Simulate(closes, sigs, cash, n).book)
  {
    if n > 0 {
      SimulateKeepsBook(closes, sigs, cash, n - 1);
    }
  }

  /**
   * As written, one signal of a negative index sorted first blocks the inner
   * loop for good: no signal is ever filled and the book keeps the initial cash.
   */
  lemma {:induction false} StallsAsWritten(closes: seq<real>, sigs: seq<Signal>, cash: real, n: nat)
    requires |sigs| > 0 && sigs[0].index < 0
    requires n <= |closes|
    ensures SimulateAsWritten(closes, sigs, cash, n).next == 0
    ensures SimulateAsWritten(closes, sigs, cash, n).book == Book(cash, 0.0)
  {
    if n > 0 {
      StallsAsWritten(closes, sigs, cash, n - 1);
    }
  }

  // ---------------------------------------------------------------------------
  // Trade statistics
  // ---------------------------------------------------------------------------

  /** `px`: the close at the signal's index, when there is one and it is positive. */
  function TradePrice(closes: seq<real>, s: Signal): (px: Option<real>)
    ensures px.Some? <==> 0 <= s.index < |closes| && closes[s.index] > 0.0
    ensures px.Some? ==> px.value == closes[s.index]
  {
    if 0 <= s.index < |closes| && closes[s.index] > 0.0 then Some(closes[s.index]) else None
  }

  /** `in_price` and `per_trade_returns`. */
  datatype Pairing = Pairing(entry: Option<real>, closed: seq<real>)

  /** One signal of the pairing loop: a buy opens a trade when none is open, a sell closes the open one. */
  function PairStep(closes: seq<real>, p: Pairing, s: Signal): Pairing
    requires p.entry.Some? ==> p.entry.value > 0.0
  {
    var px := TradePrice(closes, s);
    if px.None? then p
    else if s.kind == "buy" && p.entry.None? then Pairing(px, p.closed)
    else if s.kind == "sell" && p.entry.Some? then Pairing(None, p.closed + [px.value / p.entry.value - 1.0])
    else p
  }

  function Pair(closes: seq<real>, sigs: seq<Signal>): (p: Pairing)
    ensures p.entry.Some? ==> p.entry.value > 0.0
    ensures forall k :: 0 <= k < |p.closed| ==> p.closed[k] > -1.0
  {
    if sigs == [] then Pairing(None, [])
    else
      var p := Pair(closes, sigs[..|sigs| - 1]);
      var s := sigs[|sigs| - 1];
      var px := TradePrice(closes, s);
      assert px.Some? && p.entry.Some? ==> px.value / p.entry.value > 0.0;
      PairStep(closes, p, s)
  }

  /** The number of signals of a kind that have a trade price. */
  function Priced(closes: seq<real>, sigs: seq<Signal>, kind: string): nat {
    if sigs == [] then 0
    else Priced(closes, sigs[..|sigs| - 1], kind)
         + (if sigs[|sigs| - 1].kind == kind && TradePrice(closes, sigs[|sigs| - 1]).Some? then 1 else 0)
  }

  /**
   * Every completed trade takes a priced sell and a priced buy of its own,
   * and so does the trade still open.
   */
  lemma {:induction false} PairsCounted(closes: seq<real>, sigs: seq<Signal>)
    ensures |Pair(closes, sigs).closed| <= Priced(closes, sigs, "sell")
    ensures |Pair(closes, sigs).closed| + (if Pair(closes, sigs).entry.Some? then 1 else 0)
            <= Priced(closes, sigs, "buy")
  {
    if sigs != [] {
      PairsCounted(closes, sigs[..|sigs| - 1]);
    }
  }

  /** The number of positive returns: `sum(1 for r in ... if r > 0)`. */
  function Winners(rs: seq<real>): (w: nat)
    ensures w <= |rs|
  {
    if rs == [] then 0 else Winners(rs[..|rs| - 1]) + (if rs[|rs| - 1] > 0.0 then 1 else 0)
  }

  /** `trade_stats`. */
  datatype Stats = Stats(count: nat, winners: nat, winRate: real, avgReturn: real)

  /** The statistics of the per-trade returns; all zero when no trade completed. */
  function StatsOf(rs: seq<real>): (s: Stats)
    ensures s.count == |rs| && s.winners <= s.count
    ensures 0.0 <= s.winRate <= 1.0
    ensures rs == [] ==> s == Stats(0, 0, 0.0, 0.0)
    ensures rs != [] ==> s.winRate == Winners(rs) as real / |rs| as real
  {
    if rs == [] then Stats(0, 0, 0.0, 0.0)
    else
      FractionOfWhole(Winners(rs) as real, |rs| as real);
      Stats(|rs|, Winners(rs), Winners(rs) as real / |rs| as real, Sum(rs) / |rs| as real)
  }

  // ---------------------------------------------------------------------------
  // Drawdown
  // ---------------------------------------------------------------------------

  /** The highest point of the curve up to and including `i`. */
  function RunningPeak(e: seq<real>, i: nat): (p: real)
    requires i < |e|
    ensures forall j :: 0 <= j <= i ==> e[j] <= p
  {
    if i == 0 then e[0] else Max(RunningPeak(e, i - 1), e[i])
  }

  /** How far point `i` lies below the running peak, as a fraction; 0 when the peak is not positive. */
  function DrawdownAt(e: seq<real>, i: nat): (d: real)
    requires i < |e|
    ensures d <= 0.0
    ensures e[i] >= 0.0 ==> d >= -1.0
  {
    var p := RunningPeak(e, i);
    if p > 0.0 then
      assert e[i] / p <= 1.0 by {
        assert e[i] <= p;
      }
      assert e[i] >= 0.0 ==> e[i] / p >= 0.0;
      e[i] / p - 1.0
    else 0.0
  }

  /** The deepest drawdown among the first `k` points, and 0 when there is none. */
  function WorstDrawdown(e: seq<real>, k: nat): (w: real)
    requires k <= |e|
    ensures w <= 0.0
    ensures forall i :: 0 <= i < k ==> w <= DrawdownAt(e, i)
  {
    if k == 0 then 0.0 else Min(WorstDrawdown(e, k - 1), DrawdownAt(e, k - 1))
  }

  /** `peak`, `max_dd`, `dd_start`, `dd_end` and `cur_start` of the drawdown loop. */
  datatype Scan = Scan(peak: real, maxDd: real, ddStart: nat, ddEnd: nat, curStart: nat)

  /** The drawdown loop over the first `k` points. */
  function ScanTo(e: seq<real>, k: nat): Scan
    requires 0 < |e| && k <= |e|
  {
    if k == 0 then Scan(e[0], 0.0, 0, 0, 0)
    else
      var s := ScanTo(e, k - 1);
      var x := e[k - 1];
      var peak := if x > s.peak then x else s.peak;
      var cur := if x > s.peak then k - 1 else s.curStart;
      var dd := if peak > 0.0 then x / peak - 1.0 else 0.0;
      if dd < s.maxDd then Scan(peak, dd, cur, k - 1, cur)
      else Scan(peak, s.maxDd, s.ddStart, s.ddEnd, cur)
  }

  /** The scan's peak is the running peak, reached at `cur_start`. */
  lemma {:induction false} ScanPeak(e: seq<real>, k: nat)
    requires 0 < |e| && k <= |e|
    ensures ScanTo(e, k).peak == (if k == 0 then e[0] else RunningPeak(e, k - 1))
    ensures ScanTo(e, k).curStart < |e| && (k > 0 ==> ScanTo(e, k).curStart < k)
    ensures e[ScanTo(e, k).curStart] == ScanTo(e, k).peak
  {
    if k > 0 {
      ScanPeak(e, k - 1);
    }
  }

  /** The point scanned at step `k` has the drawdown of `DrawdownAt`. */
  lemma ScanDrawdown(e: seq<real>, k: nat)
    requires 0 < k <= |e|
    ensures ScanTo(e, k).peak == RunningPeak(e, k - 1)
    ensures DrawdownAt(e, k - 1)
         == if ScanTo(e, k).peak > 0.0 then e[k - 1] / ScanTo(e, k).peak - 1.0 else 0.0
  {
    ScanPeak(e, k);
  }

  /** The scan's `max_dd` is the deepest drawdown so far. */
  lemma {:induction false} ScanWorst(e: seq<real>, k: nat)
    requires 0 < |e| && k <= |e|
    ensures ScanTo(e, k).maxDd == WorstDrawdown(e, k)
  {
    if k > 0 {
      ScanWorst(e, k - 1);
      ScanDrawdown(e, k);
    }
  }

  /** A negative `max_dd` is the drawdown at `dd_end`, from the peak at `dd_start`. */
  lemma {:induction false} ScanWitness(e: seq<real>, k: nat)
    requires 0 < |e| && k <= |e|
    ensures ScanTo(e, k).maxDd < 0.0 ==>
              ScanTo(e, k).ddStart <= ScanTo(e, k).ddEnd < k
              && ScanTo(e, k).maxDd == DrawdownAt(e, ScanTo(e, k).ddEnd)
              && e[ScanTo(e, k).ddStart] == RunningPeak(e, ScanTo(e, k).ddEnd)
  {
    if k > 0 {
      ScanWitness(e, k - 1);
      ScanDrawdown(e, k);
      ScanPeak(e, k);
    }
  }

  /** The drawdown part of `_equity_metrics`. */
  datatype Metrics = Metrics(maxDrawdown: real, drawdownStart: Option<nat>, drawdownEnd: Option<nat>)

  /**
   * `_equity_metrics` on a curve of at least two points. `overflows` tells
   * whether the host's double arithmetic overflows on the annualised return
   * `total ** (periods_per_year / max(1, len(rets)))`, as it does for the
   * curve [1, 1000, 500]; the `except` then answers with the fail-soft metrics,
   * a drawdown of 0 with no start and no end.
   */
  function MetricsOf(e: seq<real>, overflows: seq<real> -> bool): Metrics {
    if |e| < 2 || overflows(e) then Metrics(0.0, None, None)
    else
      var s := ScanTo(e, |e|);
      Metrics(s.maxDd, if s.maxDd < 0.0 then Some(s.ddStart) else None, if s.maxDd < 0.0 then Some(s.ddEnd) else None)
  }

  /**
   * Fewer than two points, or an overflowing annualised return, give the
   * fail-soft metrics with no drawdown. Otherwise the maximum drawdown is
   * the deepest drawdown of any point. Either way it is never positive, at least -1 on a curve
   * that never goes negative, and it has a start and an end exactly when it is
   * negative: the end is the deepest point and the start the peak before it.
   */
  lemma MetricsDrawdown(e: seq<real>, overflows: seq<real> -> bool)
    ensures |e| < 2 ==> MetricsOf(e, overflows) == Metrics(0.0, None, None)
    ensures overflows(e) ==> MetricsOf(e, overflows) == Metrics(0.0, None, None)
    ensures |e| >= 2 && !overflows(e) ==> MetricsOf(e, overflows).maxDrawdown == WorstDrawdown(e, |e|)
    ensures MetricsOf(e, overflows).maxDrawdown <= 0.0
    ensures (forall i :: 0 <= i < |e| ==> e[i] >= 0.0) ==> MetricsOf(e, overflows).maxDrawdown >= -1.0
    ensures MetricsOf(e, overflows).drawdownStart.None? <==> MetricsOf(e, overflows).maxDrawdown == 0.0
    ensures MetricsOf(e, overflows).drawdownEnd.None? <==> MetricsOf(e, overflows).maxDrawdown == 0.0
    ensures MetricsOf(e, overflows).drawdownEnd.Some? ==>
              MetricsOf(e, overflows).drawdownStart.value <= MetricsOf(e, overflows).drawdownEnd.value < |e|
              && MetricsOf(e, overflows).maxDrawdown == DrawdownAt(e, MetricsOf(e, overflows).drawdownEnd.value)
              && e[MetricsOf(e, overflows).drawdownStart.value] == RunningPeak(e, MetricsOf(e, overflows).drawdownEnd.value)
  {
    if |e| >= 2 && !overflows(e) {
      ScanWorst(e, |e|);
      ScanWitness(e, |e|);
    }
  }

  // ---------------------------------------------------------------------------
  // The whole backtest
  // ---------------------------------------------------------------------------

  /** The dictionary `run_signals_backtest` returns. */
  datatype Report = Report(
    initialCash: real,
    finalEquity: real,
    totalReturn: real,
    equityCurve: seq<real>,
    trades: seq<SignalDict>,
    metrics: Metrics,
    tradeStats: Stats)

  const ZeroDivision := "float division by zero"

  /**
   * `run_signals_backtest`: sorts the signals by index, runs the book over the
   * closes, and reports. The total return divides by the initial cash, which
   * raises when there is a close and no initial cash. `overflows` is the
   * host's answer to whether the metrics' annualised return overflows.
   */
  function Backtest(closes: seq<real>, signals: seq<Signal>, cash: real, overflows: seq<real> -> bool): (r: Result<Report>)
    ensures r.Err? <==> |closes| > 0 && cash == 0.0
    ensures closes == [] ==>
              r.Ok? && r.value.equityCurve == [] && r.value.finalEquity == cash && r.value.totalReturn == 0.0
              && r.value.metrics == Metrics(0.0, None, None)
    ensures r.Ok? ==> |r.value.equityCurve| == |closes| && |r.value.trades| == |signals|
    ensures r.Ok? ==> r.value.tradeStats.winners <= r.value.tradeStats.count
                      && 0.0 <= r.value.tradeStats.winRate <= 1.0
  {
    var sigs := SortByIndex(signals);
    var curve := Simulate(closes, sigs, cash, |closes|).curve;
    if |curve| > 0 && cash == 0.0 then Err(ZeroDivision)
    else
      Ok(Report(
           cash,
           if |curve| > 0 then curve[|curve| - 1] else cash,
           if |curve| > 0 then curve[|curve| - 1] / cash - 1.0 else 0.0,
           curve,
           seq(|sigs|, k requires 0 <= k < |sigs| => ToDict(sigs[k])),
           MetricsOf(curve, overflows),
           StatsOf(Pair(closes, sigs).closed)))
  }

  /**
   * The report's curve has one point per close, and the final equity is the
   * value, at the last close, of the book that replays the sorted signals.
   */
  lemma {:induction false} FinalEquityReplays(closes: seq<real>, signals: seq<Signal>, cash: real, overflows: seq<real> -> bool)
    requires |closes| > 0 && cash != 0.0
    ensures |Backtest(closes, signals, cash, overflows).value.equityCurve| == |closes|
    ensures Backtest(closes, signals, cash, overflows).value.finalEquity
         == Value(Replay(closes, SortByIndex(signals), Book(cash, 0.0)), closes[|closes| - 1])
  {
    var sigs := SortByIndex(signals);
    var n := |closes|;
    var r := Simulate(closes, sigs, cash, n);
    SimulateReplays(closes, sigs, cash, n);
    ReplaySkip(closes, sigs, Book(cash, 0.0), r.next, |sigs|);
    assert sigs[..|sigs|] == sigs;
  }

  // ---------------------------------------------------------------------------
  // The imperative code
  // ---------------------------------------------------------------------------

  /** The simulation loop, with the pass over signals whose index was never reached. */
  method Simulation(closes: seq<real>, sigs: seq<Signal>, cash: real) returns (curve: seq<real>)
    ensures curve == Simulate(closes, sigs, cash, |closes|).curve
  {
    var book := Book(cash, 0.0);
    var next := 0;
    curve := [];
    for i := 0 to |closes|
      invariant Simulate(closes, sigs, cash, i) == Run(book, next, curve)
    {
      while next < |sigs| && sigs[next].index < i
        invariant next <= |sigs|
        invariant Skip(sigs, next, i) == Skip(sigs, Simulate(closes, sigs, cash, i).next, i)
      {
        next := next + 1;
      }
      var price := closes[i];
      ghost var start := next;
      ghost var before := book;
      while next < |sigs| && sigs[next].index == i
        invariant start <= next <= |sigs|
        invariant Drain(book, sigs, next, i, price) == Drain(before, sigs, start, i, price)
        decreases |sigs| - next
      {
        book := Fill(book, sigs[next].kind, price);
        next := next + 1;
      }
      curve := curve + [Value(book, price)];
    }
  }

  /** The pairing loop and the statistics of `trade_stats`. */
  method TradeStatistics(closes: seq<real>, sigs: seq<Signal>) returns (stats: Stats)
    ensures stats == StatsOf(Pair(closes, sigs).closed)
  {
    var entry: Option<real> := None;
    var closed: seq<real> := [];
    for k := 0 to |sigs|
      invariant Pair(closes, sigs[..k]) == Pairing(entry, closed)
    {
      assert sigs[..k + 1][..k] == sigs[..k];
      var px := if 0 <= sigs[k].index < |closes| then Some(closes[sigs[k].index]) else None;
      if px.None? || px.value <= 0.0 {
        continue;
      }
      if sigs[k].kind == "buy" && entry.None? {
        entry := px;
      } else if sigs[k].kind == "sell" && entry.Some? {
        closed := closed + [px.value / entry.value - 1.0];
        entry := None;
      }
    }
    assert sigs[..|sigs|] == sigs;
    stats := StatsOf(closed);
  }

  /** The drawdown loop of `_equity_metrics`, after its fail-soft cases. */
  method EquityMetrics(equity: seq<real>, overflows: seq<real> -> bool) returns (m: Metrics)
    ensures m == MetricsOf(equity, overflows)
  {
    if |equity| < 2 || overflows(equity) {
      return Metrics(0.0, None, None);
    }
    var peak := equity[0];
    var maxDd := 0.0;
    var ddStart, ddEnd, curStart := 0, 0, 0;
    for i := 0 to |equity|
      invariant ScanTo(equity, i) == Scan(peak, maxDd, ddStart, ddEnd, curStart)
    {
      var x := equity[i];
      if x > peak {
        peak := x;
        curStart := i;
      }
      var drawdown := if peak > 0.0 then x / peak - 1.0 else 0.0;
      if drawdown < maxDd {
        maxDd := drawdown;
        ddStart := curStart;
        ddEnd := i;
      }
    }
    m := Metrics(maxDd, if maxDd < 0.0 then Some(ddStart) else None, if maxDd < 0.0 then Some(ddEnd) else None);
  }

  /** `run_signals_backtest`. */
  method RunSignalsBacktest(closes: seq<real>, signals: seq<Signal>, initialCash: real, overflows: seq<real> -> bool)
    returns (r: Result<Report>)
    ensures r == Backtest(closes, signals, initialCash, overflows)
  {
    var sigs := SortByIndex(signals);
    var curve := Simulation(closes, sigs, initialCash);
    if |curve| > 0 && initialCash == 0.0 {
      return Err(ZeroDivision);
    }
    var totalReturn := if |curve| > 0 then curve[|curve| - 1] / initialCash - 1.0 else 0.0;
    var stats := TradeStatistics(closes, sigs);
    var metrics := EquityMetrics(curve, overflows);
    var trades := seq(|sigs|, k requires 0 <= k < |sigs| => ToDict(sigs[k]));
    r := Ok(Report(initialCash, if |curve| > 0 then curve[|curve| - 1] else initialCash,
                   totalReturn, curve, trades, metrics, stats));
  }

  // ---------------------------------------------------------------------------
  // quick_backtest
  // ---------------------------------------------------------------------------

  /** A loose value inside a tuple or dict signal: an int, a string or None. */
  datatype Scalar = SInt(i: int) | SStr(s: string) | SNone

  /** What `quick_backtest` accepts: a `Signal`, a tuple, a dict, or anything else. */
  datatype RawSignal = RSignal(sig: Signal) | RTuple(items: seq<Scalar>) | RDict(entries: map<string, Scalar>) | ROther

  /** `int(v)`: a string must hold an integer literal; None raises. */
  function IntOf(v: Scalar): (r: Result<int>)
    ensures v.SInt? ==> r == Ok(v.i)
    ensures v.SNone? ==> r.Err?
  {
    match v
    case SInt(i) => Ok(i)
    case SStr(s) =>
      var n := ParseInt(s);
      if n.Some? then Ok(n.value) else Err("invalid literal for int() with base 10")
    case SNone => Err("int() argument must be a string, a bytes-like object or a real number, not 'NoneType'")
  }

  /** `str(v)`. */
  function StrOf(v: Scalar): string {
    match v
    case SInt(i) => IntToString(i)
    case SStr(s) => s
    case SNone => "None"
  }

  predicate Truthy(v: Scalar) {
    match v
    case SInt(i) => i != 0
    case SStr(s) => s != ""
    case SNone => false
  }

  /** Whether `quick_backtest` keeps an input at all. */
  predicate Kept(raw: RawSignal) {
    match raw
    case RSignal(_) => true
    case RTuple(items) => |items| == 2
    case RDict(m) => "index" in m && "kind" in m
    case ROther => false
  }

  /** One input: kept as is, converted, dropped (None), or an error from `int()`. */
  function Convert(raw: RawSignal): (r: Result<Option<Signal>>)
    ensures r.Ok? ==> (r.value.Some? <==> Kept(raw))
    ensures raw.RSignal? ==> r == Ok(Some(raw.sig))
  {
    match raw
    case RSignal(s) => Ok(Some(s))
    case RTuple(items) =>
      if |items| != 2 then Ok(None)
      else
        var idx := IntOf(items[0]);
        if idx.Err? then Err(idx.error)
        else Ok(Some(Signal(idx.value, StrOf(items[1]),
                            "tuple(" + StrOf(items[0]) + "," + StrOf(items[1]) + ")", None)))
    case RDict(m) =>
      if !("index" in m && "kind" in m) then Ok(None)
      else
        var idx := IntOf(m["index"]);
        if idx.Err? then Err(idx.error)
        else
          var reason := if "reason" in m && Truthy(m["reason"]) then StrOf(m["reason"]) else "dict";
          Ok(Some(Signal(idx.value, StrOf(m["kind"]), reason, None)))
    case ROther => Ok(None)
  }

  /** The number of inputs kept. */
  function CountKept(raws: seq<RawSignal>): nat {
    if raws == [] then 0 else CountKept(raws[..|raws| - 1]) + (if Kept(raws[|raws| - 1]) then 1 else 0)
  }

  /** The converted inputs gathered in order, or the first error. */
  function Collect(rs: seq<Result<Option<Signal>>>): Result<seq<Signal>> {
    if rs == [] then Ok([])
    else
      var init := Collect(rs[..|rs| - 1]);
      var c := rs[|rs| - 1];
      if init.Err? then init
      else if c.Err? then Err(c.error)
      else Ok(init.value + (if c.value.Some? then [c.value.value] else []))
  }

  /** Each input converted on its own. */
  function Converted(raws: seq<RawSignal>): (rs: seq<Result<Option<Signal>>>)
    ensures |rs| == |raws|
  {
    seq(|raws|, k requires 0 <= k < |raws| => Convert(raws[k]))
  }

  /** The normalised signals, in input order, or the first error raised by `int()`. */
  function Normalize(raws: seq<RawSignal>): Result<seq<Signal>> {
    Collect(Converted(raws))
  }

  lemma {:induction false} CollectOk(rs: seq<Result<Option<Signal>>>)
    ensures Collect(rs).Ok? <==> forall k :: 0 <= k < |rs| ==> rs[k].Ok?
  {
    if rs != [] {
      var init := rs[..|rs| - 1];
      CollectOk(init);
      assert forall k :: 0 <= k < |init| ==> init[k] == rs[k];
    }
  }

  /** The number of present values among the converted inputs. */
  function CountSome(rs: seq<Result<Option<Signal>>>): nat {
    if rs == [] then 0
    else CountSome(rs[..|rs| - 1]) + (if rs[|rs| - 1].Ok? && rs[|rs| - 1].value.Some? then 1 else 0)
  }

  lemma {:induction false} CollectCount(rs: seq<Result<Option<Signal>>>)
    ensures Collect(rs).Ok? ==> |Collect(rs).value| == CountSome(rs)
  {
    if rs != [] {
      CollectCount(rs[..|rs| - 1]);
    }
  }

  lemma {:induction false} CountSomeKept(rs: seq<Result<Option<Signal>>>, raws: seq<RawSignal>)
    requires |rs| == |raws|
    requires forall k :: 0 <= k < |rs| ==> rs[k].Ok? && (rs[k].value.Some? <==> Kept(raws[k]))
    ensures CountSome(rs) == CountKept(raws)
  {
    if rs != [] {
      var n := |rs| - 1;
      assert forall k :: 0 <= k < n ==> rs[..n][k] == rs[k] && raws[..n][k] == raws[k];
      CountSomeKept(rs[..n], raws[..n]);
    }
  }

  lemma {:induction false} CollectAll(rs: seq<Result<Option<Signal>>>, sigs: seq<Signal>)
    requires |rs| == |sigs|
    requires forall k :: 0 <= k < |rs| ==> rs[k] == Ok(Some(sigs[k]))
    ensures Collect(rs) == Ok(sigs)
  {
    if rs != [] {
      var n := |rs| - 1;
      assert forall k :: 0 <= k < n ==> rs[..n][k] == rs[k];
      CollectAll(rs[..n], sigs[..n]);
      assert sigs[..n] + [sigs[n]] == sigs;
    }
  }

  /** Normalising fails exactly when some input fails to convert. */
  lemma NormalizeOk(raws: seq<RawSignal>)
    ensures Normalize(raws).Ok? <==> forall k :: 0 <= k < |raws| ==> Convert(raws[k]).Ok?
  {
    var rs := Converted(raws);
    CollectOk(rs);
    assert forall k :: 0 <= k < |raws| ==> rs[k] == Convert(raws[k]);
  }

  /** Normalising keeps one signal per kept input and drops every other input. */
  lemma NormalizeCount(raws: seq<RawSignal>)
    ensures Normalize(raws).Ok? ==> |Normalize(raws).value| == CountKept(raws)
  {
    var rs := Converted(raws);
    CollectCount(rs);
    if Normalize(raws).Ok? {
      CollectOk(rs);
      CountSomeKept(rs, raws);
    }
  }

  /** A list of `Signal`s comes through normalisation unchanged. */
  lemma NormalizeSignals(raws: seq<RawSignal>)
    requires forall k :: 0 <= k < |raws| ==> raws[k].RSignal?
    ensures Normalize(raws) == Ok(seq(|raws|, k requires 0 <= k < |raws| => raws[k].sig))
  {
    CollectAll(Converted(raws), seq(|raws|, k requires 0 <= k < |raws| => raws[k].sig));
  }

  /** `quick_backtest`: normalise the inputs, then run the backtest on them. */
  method QuickBacktest(closes: seq<real>, raws: seq<RawSignal>, initialCash: real, overflows: seq<real> -> bool)
    returns (r: Result<Report>)
    ensures Normalize(raws).Err? ==> r == Err(Normalize(raws).error)
    ensures Normalize(raws).Ok? ==> r == Backtest(closes, Normalize(raws).value, initialCash, overflows)
  {
    var norm := NormalizeAll(raws);
    if norm.Err? {
      return Err(norm.error);
    }
    r := RunSignalsBacktest(closes, norm.value, initialCash, overflows);
  }

  /** The loop of `quick_backtest` that builds `norm_signals`, stopped by the first failing `int()`. */
  method NormalizeAll(raws: seq<RawSignal>) returns (r: Result<seq<Signal>>)
    ensures r == Normalize(raws)
  {
    ghost var rs := Converted(raws);
    var norm: seq<Signal> := [];
    for k := 0 to |raws|
      invariant Collect(rs[..k]) == Ok(norm)
    {
      assert rs[..k + 1][..k] == rs[..k];
      var c := Convert(raws[k]);
      assert rs[k] == c;
      if c.Err? {
        CollectFailsFrom(rs, k + 1);
        assert rs[..|rs|] == rs;
        return Err(c.error);
      }
      if c.value.Some? {
        norm := norm + [c.value.value];
      } else {
        assert norm + [] == norm;
      }
    }
    assert rs[..|rs|] == rs;
    r := Ok(norm);
  }

  /** Once a prefix fails, the whole list fails with the same error. */
  lemma {:induction false} CollectFailsFrom(rs: seq<Result<Option<Signal>>>, k: nat)
    requires k <= |rs| && Collect(rs[..k]).Err?
    ensures Collect(rs) == Collect(rs[..k])
    decreases |rs| - k
  {
    if k < |rs| {
      assert rs[..k + 1][..k] == rs[..k];
      CollectFailsFrom(rs, k + 1);
    } else {
      assert rs[..k] == rs;
    }
  }
}
