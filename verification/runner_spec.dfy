/**
 * The strategy runner of `wsapp_gui/strategy_runner.py` as values: reading
 * the closes out of a time-series payload, and one evaluation run over the
 * universe, which alerts each fresh signal of a (symbol, kind) at most once
 * per last-close index.
 */
module RunnerSpec {
  import opened Wrappers
  import opened Text
  import opened Signals

  // ------------------------------------------------------------ the payload

  /** A field of a bar: a number, or a text with the value `float()` reads from it, if any. */
  datatype Field = Number(x: real) | Text(text: string, parsed: Option<real>)

  /** A bar of the series: a dict of fields, or some other value. */
  datatype Bar = Fields(fields: map<string, Field>) | NotDict

  /** A value of the payload: a dict of date to bar (its items in order), or some other value. */
  datatype Value = Table(items: seq<(string, Bar)>) | NotTable

  /** The payload of `get_time_series`: its keys in order, each with its value. */
  type Series = seq<(string, Value)>

  const CloseKey := "4. close"
  const CloseKeyAlt := "4. Close"
  const SeriesMarker := "Time Series"

  /** Python truthiness of a field. */
  predicate Truthy(f: Field) {
    match f
    case Number(x) => x != 0.0
    case Text(t, _) => t != []
  }

  /**
   * `float(row.get('4. close') or row.get('4. Close') or 0.0)`, or None when
   * that raises (the bar is not a dict, or the text is not a number): the
   * bar is then passed over.
   */
  function Close(b: Bar): (r: Option<real>)
    ensures b.NotDict? ==> r.None?
    ensures b.Fields? && CloseKey in b.fields && b.fields[CloseKey].Number? && b.fields[CloseKey].x != 0.0 ==>
      r == Some(b.fields[CloseKey].x)
  {
    match b
    case NotDict => None
    case Fields(m) =>
      var v :=
        if CloseKey in m && Truthy(m[CloseKey]) then m[CloseKey]
        else if CloseKeyAlt in m && Truthy(m[CloseKeyAlt]) then m[CloseKeyAlt]
        else Number(0.0);
      match v
      case Number(x) => Some(x)
      case Text(_, p) => p
  }

  /** Python's order on strings: code point by code point, a proper prefix first. */
  predicate LexLe(a: string, b: string) {
    a == [] || (b != [] && (a[0] < b[0] || (a[0] == b[0] && LexLe(a[1..], b[1..]))))
  }

  /** Any two strings are ordered one way or the other. */
  lemma {:induction false} LexTotal(a: string, b: string)
    ensures LexLe(a, b) || LexLe(b, a)
  {
    if a != [] && b != [] && a[0] == b[0] {
      LexTotal(a[1..], b[1..]);
    }
  }

  /** Each date is no later than the next. */
  predicate Ascending(items: seq<(string, Bar)>) {
    forall i :: 0 <= i < |items| - 1 ==> LexLe(items[i].0, items[i + 1].0)
  }

  function InsertItem(t: seq<(string, Bar)>, x: (string, Bar)): (r: seq<(string, Bar)>)
    ensures |r| == |t| + 1
    ensures r[0] == x || (t != [] && r[0] == t[0])
    ensures Ascending(t) ==> Ascending(r)
  {
    if t == [] then [x]
    else if LexLe(x.0, t[0].0) then [x] + t
    else
      LexTotal(x.0, t[0].0);
      [t[0]] + InsertItem(t[1..], x)
  }

  /** `sorted(ts.items())`: the items by ascending date. */
  function SortItems(items: seq<(string, Bar)>): (r: seq<(string, Bar)>)
    ensures |r| == |items|
    ensures Ascending(r)
  {
    if items == [] then []
    else InsertItem(SortItems(items[..|items| - 1]), items[|items| - 1])
  }

  lemma {:induction false} InsertItemPermutes(t: seq<(string, Bar)>, x: (string, Bar))
    ensures multiset(InsertItem(t, x)) == multiset(t) + multiset{x}
  {
    if t != [] && !LexLe(x.0, t[0].0) {
      InsertItemPermutes(t[1..], x);
      assert t == [t[0]] + t[1..];
    }
  }

  /** The sort is a permutation of the items. */
  lemma {:induction false} SortItemsPermutes(items: seq<(string, Bar)>)
    ensures multiset(SortItems(items)) == multiset(items)
  {
    if items != [] {
      var init := items[..|items| - 1];
      SortItemsPermutes(init);
      InsertItemPermutes(SortItems(init), items[|items| - 1]);
      assert items == init + [items[|items| - 1]];
    }
  }

  /** The closes of the bars, in order, leaving out the bars without one. */
  function CloseList(items: seq<(string, Bar)>): (r: seq<real>)
    ensures |r| <= |items|
  {
    if items == [] then []
    else
      var init := CloseList(items[..|items| - 1]);
      match Close(items[|items| - 1].1)
      case Some(c) => init + [c]
      case None => init
  }

  /** When every bar has a close, the list holds the close of each bar, in order. */
  lemma {:induction false} CloseListAll(items: seq<(string, Bar)>)
    requires forall i :: 0 <= i < |items| ==> Close(items[i].1).Some?
    ensures |CloseList(items)| == |items|
    ensures forall i :: 0 <= i < |items| ==> CloseList(items)[i] == Close(items[i].1).value
  {
    if items != [] {
      CloseListAll(items[..|items| - 1]);
    }
  }

  /** The position of the first key of the payload that contains "Time Series". */
  function FirstSeries(series: Series): (r: Option<nat>)
    ensures r.None? <==> forall i :: 0 <= i < |series| ==> !Contains(series[i].0, SeriesMarker)
    ensures r.Some? ==> r.value < |series| && Contains(series[r.value].0, SeriesMarker)
    ensures r.Some? ==> forall j :: 0 <= j < r.value ==> !Contains(series[j].0, SeriesMarker)
  {
    if series == [] then None
    else if Contains(series[0].0, SeriesMarker) then Some(0)
    else match FirstSeries(series[1..])
      case None => None
      case Some(k) => Some(k + 1)
  }

  /**
   * `_extract_closes`: the closes of the bars of the first "Time Series"
   * value, by ascending date; nothing when there is no such key or its value
   * is not a dict.
   */
  function ExtractCloses(series: Series): (r: seq<real>)
    ensures FirstSeries(series).None? ==> r == []
    ensures FirstSeries(series).Some? && series[FirstSeries(series).value].1.NotTable? ==> r == []
  {
    match FirstSeries(series)
    case None => []
    case Some(k) =>
      match series[k].1
      case Table(items) => CloseList(SortItems(items))
      case NotTable => []
  }

  // ---------------------------------------------------------------- a run

  /** What evaluating one symbol gets: an exception, or the payload and the strategy's signals on its closes. */
  datatype Fetch = Failed | Fetched(series: Series, sigs: seq<Signal>)

  /** A symbol whose data was never fetched counts as failed. */
  function Lookup(data: map<string, Fetch>, sym: string): Fetch {
    if sym in data then data[sym] else Failed
  }

  /** The least number of closes a series needs to be evaluated. */
  const MinCloses := 30
  /** How many symbols of the universe one run evaluates. */
  const MaxSymbols := 50

  /** The symbol is evaluated: enough closes and some signal. */
  predicate Ready(f: Fetch) {
    f.Fetched? && |ExtractCloses(f.series)| >= MinCloses && f.sigs != []
  }

  /** The index of the last close. */
  function LastIndex(f: Fetch): int
    requires Ready(f)
  {
    |ExtractCloses(f.series)| - 1
  }

  /** The signals at the given close index, in order. */
  function FreshAt(sigs: seq<Signal>, idx: int): (r: seq<Signal>)
    ensures forall s :: s in r <==> s in sigs && s.index == idx
  {
    if sigs == [] then []
    else
      assert forall s :: s in sigs <==> s == sigs[0] || s in sigs[1..];
      (if sigs[0].index == idx then [sigs[0]] else []) + FreshAt(sigs[1..], idx)
  }

  /** The fresh signals of an evaluated symbol. */
  function FreshOf(f: Fetch): seq<Signal>
    requires Ready(f)
  {
    FreshAt(f.sigs, LastIndex(f))
  }

  /** A fresh signal alerted for a symbol. */
  datatype Alert = Alert(sym: string, signal: Signal)

  /** `(symbol, kind)`, the key of `_last_signals`. */
  type Key = (string, string)

  /** `_last_signals` with the alerts and counters of the run so far. */
  datatype Tally = Tally(last: map<Key, int>, alerts: seq<Alert>, buys: nat, sells: nat, checked: nat)

  /** One fresh signal: skipped when its key already records this index, otherwise alerted and recorded. */
  function AlertOne(t: Tally, sym: string, s: Signal, idx: int): Tally {
    var key := (sym, s.kind);
    if key in t.last && t.last[key] == idx then t
    else Tally(t.last[key := idx], t.alerts + [Alert(sym, s)],
               if s.kind == "buy" then t.buys + 1 else t.buys,
               if s.kind == "buy" then t.sells else t.sells + 1,
               t.checked)
  }

  /** The fresh signals of a symbol, in order. */
  function AlertAll(t: Tally, sym: string, due: seq<Signal>, idx: int): Tally {
    if due == [] then t
    else AlertOne(AlertAll(t, sym, due[..|due| - 1], idx), sym, due[|due| - 1], idx)
  }

  /** One symbol of the loop of `run_once`. */
  function EvalSymbol(t: Tally, sym: string, data: map<string, Fetch>): Tally {
    var f := Lookup(data, sym);
    if !Ready(f) then t
    else
      var r := AlertAll(t, sym, FreshOf(f), LastIndex(f));
      r.(checked := r.checked + 1)
  }

  /** The symbols, in order. */
  function EvalAll(t: Tally, syms: seq<string>, data: map<string, Fetch>): Tally {
    if syms == [] then t
    else EvalSymbol(EvalAll(t, syms[..|syms| - 1], data), syms[|syms| - 1], data)
  }

  /** The symbols one run evaluates: the first fifty of the universe. */
  function Evaluated(universe: seq<string>): (r: seq<string>)
    ensures |r| <= MaxSymbols && |r| <= |universe| && r == universe[..|r|]
    ensures |universe| >= MaxSymbols ==> |r| == MaxSymbols
    ensures |universe| < MaxSymbols ==> r == universe
  {
    if |universe| > MaxSymbols then universe[..MaxSymbols] else universe
  }

  /** The tally of a run over the universe, from the recorded signals `last`. */
  function Run(last: map<Key, int>, universe: seq<string>, data: map<string, Fetch>): Tally {
    EvalAll(Tally(last, [], 0, 0, 0), Evaluated(universe), data)
  }

  // ---------------------------------------------------------- run lemmas

  /**
   * Alerting the signals of a symbol records each of their kinds at `idx`,
   * touches no other key, and appends alerts of that symbol only, one counter
   * step per alert.
   */
  lemma {:induction false} AlertAllFrame(t: Tally, sym: string, due: seq<Signal>, idx: int)
    ensures var r := AlertAll(t, sym, due, idx);
      && (forall s :: s in due ==> (sym, s.kind) in r.last && r.last[(sym, s.kind)] == idx)
      && (forall k :: k in t.last ==> k in r.last)
      && (forall k :: k in r.last ==> (k in t.last && r.last[k] == t.last[k]) || (k.0 == sym && r.last[k] == idx))
      && |t.alerts| <= |r.alerts| && r.alerts[..|t.alerts|] == t.alerts
      && (forall i :: |t.alerts| <= i < |r.alerts| ==> r.alerts[i].sym == sym && r.alerts[i].signal in due)
      && r.buys + r.sells == t.buys + t.sells + |r.alerts| - |t.alerts|
      && r.checked == t.checked
  {
    if due != [] {
      var init := due[..|due| - 1];
      AlertAllFrame(t, sym, init, idx);
      var m := AlertAll(t, sym, init, idx);
      assert forall s :: s in due ==> s in init || s == due[|due| - 1];
      var r := AlertOne(m, sym, due[|due| - 1], idx);
      if r != m {
        assert r.alerts[..|t.alerts|] == m.alerts[..|t.alerts|];
      }
    }
  }

  /** When every kind of the signals is already recorded at `idx`, alerting them changes nothing. */
  lemma {:induction false} AlertAllSilent(t: Tally, sym: string, due: seq<Signal>, idx: int)
    requires forall s :: s in due ==> (sym, s.kind) in t.last && t.last[(sym, s.kind)] == idx
    ensures AlertAll(t, sym, due, idx) == t
  {
    if due != [] {
      AlertAllSilent(t, sym, due[..|due| - 1], idx);
    }
  }

  /** The key records the last close index of its symbol's data. */
  predicate Holds(last: map<Key, int>, key: Key, data: map<string, Fetch>) {
    var f := Lookup(data, key.0);
    key in last && Ready(f) && last[key] == LastIndex(f)
  }

  /** Every fresh signal of the symbol has its key recorded at the last close index. */
  predicate Marked(last: map<Key, int>, sym: string, data: map<string, Fetch>) {
    var f := Lookup(data, sym);
    Ready(f) ==> forall s :: s in FreshOf(f) ==> Holds(last, (sym, s.kind), data)
  }

  /** Evaluating a symbol marks it, and keeps every key that already holds. */
  lemma EvalSymbolFrame(t: Tally, sym: string, data: map<string, Fetch>)
    ensures var r := EvalSymbol(t, sym, data);
      && Marked(r.last, sym, data)
      && (forall k :: Holds(t.last, k, data) ==> Holds(r.last, k, data))
      && |t.alerts| <= |r.alerts| && r.alerts[..|t.alerts|] == t.alerts
      && r.buys + r.sells == t.buys + t.sells + |r.alerts| - |t.alerts|
      && r.checked <= t.checked + 1
  {
    var f := Lookup(data, sym);
    if Ready(f) {
      AlertAllFrame(t, sym, FreshOf(f), LastIndex(f));
    }
  }

  /** A key that holds before a run of symbols still holds after it. */
  lemma {:induction false} EvalAllHolds(t: Tally, syms: seq<string>, data: map<string, Fetch>, k: Key)
    requires Holds(t.last, k, data)
    ensures Holds(EvalAll(t, syms, data).last, k, data)
  {
    if syms != [] {
      EvalAllHolds(t, syms[..|syms| - 1], data, k);
      EvalSymbolFrame(EvalAll(t, syms[..|syms| - 1], data), syms[|syms| - 1], data);
    }
  }

  /** After a run of symbols each of them is marked. */
  lemma {:induction false} EvalAllMarks(t: Tally, syms: seq<string>, data: map<string, Fetch>)
    ensures forall i :: 0 <= i < |syms| ==> Marked(EvalAll(t, syms, data).last, syms[i], data)
  {
    if syms != [] {
      var init := syms[..|syms| - 1];
      var m := EvalAll(t, init, data);
      EvalAllMarks(t, init, data);
      EvalSymbolFrame(m, syms[|syms| - 1], data);
      var r := EvalAll(t, syms, data);
      forall i | 0 <= i < |init| ensures Marked(r.last, syms[i], data) {
        assert Marked(m.last, init[i], data);
      }
    }
  }

  /** A run of symbols only appends alerts, each moving one counter, and checks each symbol at most once. */
  lemma {:induction false} EvalAllCounts(t: Tally, syms: seq<string>, data: map<string, Fetch>)
    ensures var r := EvalAll(t, syms, data);
      && |t.alerts| <= |r.alerts| && r.alerts[..|t.alerts|] == t.alerts
      && r.buys + r.sells == t.buys + t.sells + |r.alerts| - |t.alerts|
      && r.checked <= t.checked + |syms|
  {
    if syms != [] {
      var init := syms[..|syms| - 1];
      var m := EvalAll(t, init, data);
      EvalAllCounts(t, init, data);
      EvalSymbolFrame(m, syms[|syms| - 1], data);
      var r := EvalAll(t, syms, data);
      assert r.alerts[..|t.alerts|] == m.alerts[..|t.alerts|];
    }
  }

  /** When every symbol is already marked, a run alerts nothing and records nothing new. */
  lemma {:induction false} EvalAllSilent(t: Tally, syms: seq<string>, data: map<string, Fetch>)
    requires forall i :: 0 <= i < |syms| ==> Marked(t.last, syms[i], data)
    ensures EvalAll(t, syms, data).last == t.last
    ensures EvalAll(t, syms, data).alerts == t.alerts
  {
    if syms != [] {
      EvalAllSilent(t, syms[..|syms| - 1], data);
      var sym := syms[|syms| - 1];
      var f := Lookup(data, sym);
      if Ready(f) {
        AlertAllSilent(EvalAll(t, syms[..|syms| - 1], data), sym, FreshOf(f), LastIndex(f));
      }
    }
  }

  /**
   * Running again on the same data alerts nothing: every fresh signal of the
   * first run has its (symbol, kind) recorded at its close index.
   */
  lemma RerunSilent(last: map<Key, int>, universe: seq<string>, data: map<string, Fetch>)
    ensures var r1 := Run(last, universe, data);
      var r2 := Run(r1.last, universe, data);
      r2.alerts == [] && r2.last == r1.last
  {
    var syms := Evaluated(universe);
    EvalAllMarks(Tally(last, [], 0, 0, 0), syms, data);
    var r1 := Run(last, universe, data);
    EvalAllSilent(Tally(r1.last, [], 0, 0, 0), syms, data);
  }

  /** No two alerts share symbol, kind and close index. */
  predicate NoRepeat(alerts: seq<Alert>) {
    forall i, j :: 0 <= i < j < |alerts| ==>
      (alerts[i].sym, alerts[i].signal.kind, alerts[i].signal.index) != (alerts[j].sym, alerts[j].signal.kind, alerts[j].signal.index)
  }

  /** Each alert is a fresh signal of its symbol, and its key holds. */
  predicate Recorded(t: Tally, data: map<string, Fetch>) {
    forall a :: a in t.alerts ==>
      var f := Lookup(data, a.sym);
      Ready(f) && a.signal in FreshOf(f) && Holds(t.last, (a.sym, a.signal.kind), data)
  }

  lemma AlertOneKeeps(t: Tally, sym: string, s: Signal, data: map<string, Fetch>)
    requires Ready(Lookup(data, sym)) && s in FreshOf(Lookup(data, sym))
    requires Recorded(t, data) && NoRepeat(t.alerts)
    ensures var r := AlertOne(t, sym, s, LastIndex(Lookup(data, sym)));
      Recorded(r, data) && NoRepeat(r.alerts)
  {
    var f := Lookup(data, sym);
    var r := AlertOne(t, sym, s, LastIndex(f));
    if r != t {
      forall a | a in r.alerts
        ensures Holds(r.last, (a.sym, a.signal.kind), data)
      {
        if a in t.alerts {
          assert Holds(t.last, (a.sym, a.signal.kind), data);
        }
      }
      forall i | 0 <= i < |t.alerts|
        ensures (t.alerts[i].sym, t.alerts[i].signal.kind, t.alerts[i].signal.index) != (sym, s.kind, s.index)
      {
        assert t.alerts[i] in t.alerts;
      }
    }
  }

  lemma {:induction false} AlertAllKeeps(t: Tally, sym: string, due: seq<Signal>, data: map<string, Fetch>)
    requires Ready(Lookup(data, sym)) && forall s :: s in due ==> s in FreshOf(Lookup(data, sym))
    requires Recorded(t, data) && NoRepeat(t.alerts)
    ensures var r := AlertAll(t, sym, due, LastIndex(Lookup(data, sym)));
      Recorded(r, data) && NoRepeat(r.alerts)
  {
    if due != [] {
      var init := due[..|due| - 1];
      AlertAllKeeps(t, sym, init, data);
      AlertOneKeeps(AlertAll(t, sym, init, LastIndex(Lookup(data, sym))), sym, due[|due| - 1], data);
    }
  }

  lemma {:induction false} EvalAllKeeps(t: Tally, syms: seq<string>, data: map<string, Fetch>)
    requires Recorded(t, data) && NoRepeat(t.alerts)
    ensures var r := EvalAll(t, syms, data);
      Recorded(r, data) && NoRepeat(r.alerts)
  {
    if syms != [] {
      var m := EvalAll(t, syms[..|syms| - 1], data);
      EvalAllKeeps(t, syms[..|syms| - 1], data);
      var f := Lookup(data, syms[|syms| - 1]);
      if Ready(f) {
        AlertAllKeeps(m, syms[|syms| - 1], FreshOf(f), data);
      }
    }
  }

  /**
   * Within one run every alert is a signal at the last close index of its
   * symbol's series, no (symbol, kind, index) is alerted twice, every alert
   * moved exactly one of the buy and sell counters, and at most fifty
   * symbols were checked.
   */
  lemma RunAlerts(last: map<Key, int>, universe: seq<string>, data: map<string, Fetch>)
    ensures var r := Run(last, universe, data);
      && NoRepeat(r.alerts)
      && (forall a :: a in r.alerts ==>
            Ready(Lookup(data, a.sym)) && a.signal in Lookup(data, a.sym).sigs
            && a.signal.index == LastIndex(Lookup(data, a.sym)))
      && r.buys + r.sells == |r.alerts|
      && r.checked <= MaxSymbols
  {
    var t := Tally(last, [], 0, 0, 0);
    EvalAllKeeps(t, Evaluated(universe), data);
    EvalAllCounts(t, Evaluated(universe), data);
  }

  /** Every key that holds in `last0` still holds. */
  ghost predicate Covers(t: Tally, last0: map<Key, int>, data: map<string, Fetch>) {
    forall k :: Holds(last0, k, data) ==> Holds(t.last, k, data)
  }

  /** The alerts from position `n` on have keys that did not hold in `last0`. */
  ghost predicate NewSince(t: Tally, n: nat, last0: map<Key, int>, data: map<string, Fetch>) {
    n <= |t.alerts| && forall i :: n <= i < |t.alerts| ==> !Holds(last0, (t.alerts[i].sym, t.alerts[i].signal.kind), data)
  }

  lemma AlertOneNew(t: Tally, sym: string, s: Signal, data: map<string, Fetch>, last0: map<Key, int>, n: nat)
    requires Ready(Lookup(data, sym))
    requires Covers(t, last0, data) && NewSince(t, n, last0, data)
    ensures var r := AlertOne(t, sym, s, LastIndex(Lookup(data, sym)));
      Covers(r, last0, data) && NewSince(r, n, last0, data)
  {
    var r := AlertOne(t, sym, s, LastIndex(Lookup(data, sym)));
    if r != t {
      assert !Holds(t.last, (sym, s.kind), data);
      assert !Holds(last0, (sym, s.kind), data);
    }
  }

  lemma {:induction false} AlertAllNew(t: Tally, sym: string, due: seq<Signal>, data: map<string, Fetch>, last0: map<Key, int>, n: nat)
    requires Ready(Lookup(data, sym))
    requires Covers(t, last0, data) && NewSince(t, n, last0, data)
    ensures var r := AlertAll(t, sym, due, LastIndex(Lookup(data, sym)));
      Covers(r, last0, data) && NewSince(r, n, last0, data)
  {
    if due != [] {
      var init := due[..|due| - 1];
      AlertAllNew(t, sym, init, data, last0, n);
      AlertOneNew(AlertAll(t, sym, init, LastIndex(Lookup(data, sym))), sym, due[|due| - 1], data, last0, n);
    }
  }

  lemma {:induction false} EvalAllNew(t: Tally, syms: seq<string>, data: map<string, Fetch>, last0: map<Key, int>, n: nat)
    requires Covers(t, last0, data) && NewSince(t, n, last0, data)
    ensures var r := EvalAll(t, syms, data);
      Covers(r, last0, data) && NewSince(r, n, last0, data)
  {
    if syms != [] {
      var m := EvalAll(t, syms[..|syms| - 1], data);
      EvalAllNew(t, syms[..|syms| - 1], data, last0, n);
      var f := Lookup(data, syms[|syms| - 1]);
      if Ready(f) {
        AlertAllNew(m, syms[|syms| - 1], FreshOf(f), data, last0, n);
      }
    }
  }

  /** A (symbol, kind) already recorded at its symbol's last close index is not alerted again. */
  lemma RunSkipsRecorded(last: map<Key, int>, universe: seq<string>, data: map<string, Fetch>)
    ensures forall a :: a in Run(last, universe, data).alerts ==> !Holds(last, (a.sym, a.signal.kind), data)
  {
    var t := Tally(last, [], 0, 0, 0);
    EvalAllNew(t, Evaluated(universe), data, last, 0);
  }

  // --------------------------------------------------------------- reports

  const Unavailable := "Analytics or API unavailable; skipped."
  const NoSymbols := "No symbols to evaluate."

  /** The report of a finished run, with the trade executor's summary when there is one. */
  function Report(t: Tally, summary: Option<string>): string {
    "Runner: checked=" + NatToString(t.checked) + " buy=" + NatToString(t.buys) + " sell=" + NatToString(t.sells)
      + (if summary.Some? then " | " + summary.value else "")
  }
}
