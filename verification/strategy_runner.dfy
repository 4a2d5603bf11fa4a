/**
 * `StrategyRunner` (`wsapp_gui/strategy_runner.py`): its configuration,
 * `run_once` over the universe with the `_last_signals` record, and
 * `_extract_closes`. Each method is proved against `RunnerSpec`.
 */
module StrategyRunners {
  import opened Wrappers
  import opened Text
  import opened Signals
  import opened RunnerSpec

  /** The parameters a new runner starts with. */
  const DefaultParams: map<string, real> :=
    map["fast" := 10.0, "slow" := 30.0, "rsi_low" := 30.0, "rsi_high" := 70.0,
        "rsi_period" := 14.0, "rsi_buy" := 55.0, "rsi_sell" := 45.0]

  /** The shortest polling interval, in seconds. */
  const MinInterval := 15

  /** `_extract_closes`: finds the first "Time Series" key, then reads the bars by ascending date. */
  method ReadCloses(series: Series) returns (closes: seq<real>)
    ensures closes == ExtractCloses(series)
  {
    var k := 0;
    while k < |series| && !Contains(series[k].0, SeriesMarker)
      invariant k <= |series|
      invariant forall j :: 0 <= j < k ==> !Contains(series[j].0, SeriesMarker)
    {
      k := k + 1;
    }
    closes := [];
    if k == |series| {
      return;
    }
    assert FirstSeries(series) == Some(k);
    match series[k].1
    case NotTable =>
    case Table(items) =>
      var sorted := SortItems(items);
      for i := 0 to |sorted|
        invariant closes == CloseList(sorted[..i])
      {
        assert sorted[..i + 1][..i] == sorted[..i];
        var c := Close(sorted[i].1);
        if c.Some? {
          closes := closes + [c.value];
        }
      }
      assert sorted[..|sorted|] == sorted;
  }

  class StrategyRunner {
    var enabled: bool
    /** Seconds between two runs of the background loop. */
    var intervalSec: int
    /** 'ma_cross', 'rsi_reversion' or 'confluence'. */
    var strategy: string
    var params: map<string, real>
    /** `_last_signals`: the last close index alerted for each (symbol, kind). */
    var lastSignals: map<Key, int>
    var lastReport: string

    constructor()
      ensures !enabled && intervalSec == 300 && strategy == "ma_cross" && params == DefaultParams
      ensures lastSignals == map[] && lastReport == ""
    {
      enabled := false;
      intervalSec := 300;
      strategy := "ma_cross";
      params := DefaultParams;
      lastSignals := map[];
      lastReport := "";
    }

    /**
     * `set_config`: each given setting replaces the current one; the interval
     * is at least fifteen seconds, and given parameters are merged over the
     * current ones, leaving the others as they are.
     */
    method SetConfig(newEnabled: Option<bool>, interval: Option<int>, newStrategy: Option<string>,
                     newParams: Option<map<string, real>>)
      modifies this
      ensures enabled == if newEnabled.Some? then newEnabled.value else old(enabled)
      ensures intervalSec == if interval.Some? then (if interval.value < MinInterval then MinInterval else interval.value)
                             else old(intervalSec)
      ensures strategy == if newStrategy.Some? then newStrategy.value else old(strategy)
      ensures newParams.None? ==> params == old(params)
      ensures newParams.Some? ==> params.Keys == old(params).Keys + newParams.value.Keys
      ensures newParams.Some? ==> forall k :: k in newParams.value ==> params[k] == newParams.value[k]
      ensures newParams.Some? ==> forall k :: k in old(params) && k !in newParams.value ==> params[k] == old(params)[k]
      ensures lastSignals == old(lastSignals) && lastReport == old(lastReport)
      ensures old(intervalSec) >= MinInterval ==> intervalSec >= MinInterval
    {
      if newEnabled.Some? {
        enabled := newEnabled.value;
      }
      if interval.Some? {
        intervalSec := if interval.value < MinInterval then MinInterval else interval.value;
      }
      if newStrategy.Some? {
        strategy := newStrategy.value;
      }
      if newParams.Some? {
        params := params + newParams.value;
      }
    }

    /**
     * `run_once` with whether analytics and the API are available, the
     * universe, each symbol's data, and the trade executor's summary: a skip
     * report when nothing can be evaluated, otherwise the alerts of the fresh
     * signals not yet recorded, with `_last_signals` updated.
     */
    method RunOnce(available: bool, universe: seq<string>, data: map<string, Fetch>, summary: Option<string>)
      returns (report: string, alerts: seq<Alert>)
      modifies this
      ensures !available ==> report == Unavailable && alerts == [] && lastSignals == old(lastSignals)
      ensures available && universe == [] ==> report == NoSymbols && alerts == [] && lastSignals == old(lastSignals)
      ensures available && universe != [] ==>
        var r := Run(old(lastSignals), universe, data);
        lastSignals == r.last && alerts == r.alerts && report == Report(r, summary)
      ensures lastReport == report
      ensures enabled == old(enabled) && intervalSec == old(intervalSec) && strategy == old(strategy) && params == old(params)
    {
      alerts := [];
      if !available {
        report := Unavailable;
        lastReport := report;
        return;
      }
      var syms := Evaluated(universe);
      if syms == [] {
        report := NoSymbols;
        lastReport := report;
        return;
      }
      var buys, sells, checked := 0, 0, 0;
      ghost var t0 := Tally(lastSignals, [], 0, 0, 0);
      for i := 0 to |syms|
        invariant Tally(lastSignals, alerts, buys, sells, checked) == EvalAll(t0, syms[..i], data)
        invariant enabled == old(enabled) && intervalSec == old(intervalSec) && strategy == old(strategy) && params == old(params)
      {
        assert syms[..i + 1][..i] == syms[..i];
        var t := EvalSymbolStep(syms[i], data, Tally(lastSignals, alerts, buys, sells, checked));
        lastSignals, alerts, buys, sells, checked := t.last, t.alerts, t.buys, t.sells, t.checked;
      }
      assert syms[..|syms|] == syms;
      report := Report(Tally(lastSignals, alerts, buys, sells, checked), summary);
      lastReport := report;
    }
  }

  /** One symbol of the loop of `run_once`, alerting its fresh signals one by one. */
  method EvalSymbolStep(sym: string, data: map<string, Fetch>, t: Tally) returns (r: Tally)
    ensures r == EvalSymbol(t, sym, data)
  {
    var f := Lookup(data, sym);
    if f.Failed? {
      return t;
    }
    var closes := ReadCloses(f.series);
    if |closes| < MinCloses || f.sigs == [] {
      return t;
    }
    var lastIndex := |closes| - 1;
    r := AlertDue(t, sym, FreshAt(f.sigs, lastIndex), lastIndex);
    r := r.(checked := r.checked + 1);
  }

  /** The loop over the fresh signals of one symbol. */
  method AlertDue(t: Tally, sym: string, due: seq<Signal>, lastIndex: int) returns (r: Tally)
    ensures r == AlertAll(t, sym, due, lastIndex)
  {
    r := t;
    for j := 0 to |due|
      invariant r == AlertAll(t, sym, due[..j], lastIndex)
    {
      assert due[..j + 1][..j] == due[..j];
      var s := due[j];
      var key := (sym, s.kind);
      if key in r.last && r.last[key] == lastIndex {
        continue;
      }
      r := Tally(r.last[key := lastIndex], r.alerts + [Alert(sym, s)],
                 if s.kind == "buy" then r.buys + 1 else r.buys,
                 if s.kind == "buy" then r.sells else r.sells + 1,
                 r.checked);
    }
    assert due[..|due|] == due;
  }
}
