/**
 * `AIAgent` (`ai_agent.py`): its chat memory, its record of signals, the
 * signal passes of `_generate_signals` with the emitter `_emit`, and the
 * local index `_calculate_rsi`. Each method is proved against `AgentSpec`
 * and `AgentSignalsSpec`.
 */
module Agents {
  import opened Wrappers
  import opened Numbers
  import opened AgentSpec
  import opened AgentSignalsSpec
  import Indicators

  /** `get_signals` keeps the last this many signals. */
  const SignalsShown: nat := 200

  /**
   * `_calculate_rsi`: nothing for fewer than `period + 1` prices; otherwise
   * the rises and falls between consecutive prices, then Wilder's pass.
   */
  method CalculateRsi(prices: seq<real>, period: nat) returns (rsi: seq<real>)
    requires 1 <= period
    ensures rsi == AgentRsi(prices, period)
  {
    if prices == [] || |prices| < period + 1 {
      return [];
    }
    var gains, losses := PriceChanges(prices);
    rsi := WilderPass(gains, losses, period);
  }

  /** The first loop of `_calculate_rsi`: the rise and the fall from each price to the next. */
  method PriceChanges(prices: seq<real>) returns (gains: seq<real>, losses: seq<real>)
    requires prices != []
    ensures gains == Rises(prices) && losses == Falls(prices)
  {
    ghost var rises, falls := Rises(prices), Falls(prices);
    gains, losses := [], [];
    for i := 1 to |prices|
      invariant gains == rises[..i - 1] && losses == falls[..i - 1]
    {
      var ch := prices[i] - prices[i - 1];
      assert rises[..i] == rises[..i - 1] + [Max(0.0, ch)];
      assert falls[..i] == falls[..i - 1] + [Max(0.0, -ch)];
      gains := gains + [Max(0.0, ch)];
      losses := losses + [Max(0.0, -ch)];
    }
    assert rises[..|prices| - 1] == rises && falls[..|prices| - 1] == falls;
  }

  /** The second loop of `_calculate_rsi`: seeds the averages, then smooths them and appends the index. */
  method WilderPass(gains: seq<real>, losses: seq<real>, period: nat) returns (rsi: seq<real>)
    requires 1 <= period <= |gains| && |gains| == |losses|
    requires Indicators.NonNegatives(gains) && Indicators.NonNegatives(losses)
    ensures rsi == RsiSteps(gains, losses, period, |gains| - period)
  {
    var avgGain := Sum(gains[..period]) / period as real;
    var avgLoss := Sum(losses[..period]) / period as real;
    rsi := [];
    for i := period to |gains|
      invariant avgGain == Smoothed(gains, period, i - period)
      invariant avgLoss == Smoothed(losses, period, i - period)
      invariant rsi == RsiSteps(gains, losses, period, i - period)
    {
      avgGain := Indicators.WilderStep(avgGain, gains[i], period);
      avgLoss := Indicators.WilderStep(avgLoss, losses[i], period);
      SmoothedNonNegative(gains, period, i - period + 1);
      SmoothedNonNegative(losses, period, i - period + 1);
      rsi := rsi + [Indicators.RsiValue(avgGain, avgLoss)];
    }
  }

  /** One more batch of signals extends the records and the notes of those before it. */
  lemma Extend(h: seq<Signal>, done: seq<Alarm>, more: seq<Alarm>, now: real, text: Alarm -> string, g: Gating)
    ensures h + Records(done, now, text) + Records(more, now, text) == h + Records(done + more, now, text)
    ensures Notes(done, text, g) + Notes(more, text, g) == Notes(done + more, text, g)
  {
    RecordsAppend(done, more, now, text);
    NotesAppend(done, more, text, g);
    Regroup(h, Records(done, now, text), Records(more, now, text));
  }

  lemma Regroup<T>(a: seq<T>, b: seq<T>, c: seq<T>)
    ensures a + b + c == a + (b + c)
  {
  }

  /** The concentration pass over one more position adds that position's signal. */
  lemma ConcentrationNext(ps: seq<Position>, i: nat, total: real)
    requires i < |ps| && total != 0.0
    ensures ConcentrationAlarms(ps[..i + 1], total) == ConcentrationAlarms(ps[..i], total) + Listed(ConcentrationAlarm(ps[i], total))
  {
    assert ps[..i + 1][..i] == ps[..i];
  }

  /** The PnL pass over one more position adds that position's signal. */
  lemma PnlNext(ps: seq<Position>, i: nat, warn: real, alert: real)
    requires i < |ps|
    ensures PnlAlarms(ps[..i + 1], warn, alert) == PnlAlarms(ps[..i], warn, alert) + Listed(PnlAlarm(ps[i], warn, alert))
  {
    assert ps[..i + 1][..i] == ps[..i];
  }

  /** The technical pass over one more holding adds that holding's alert and its stamp. */
  lemma TechNext(last: map<string, real>, top: seq<Position>, i: nat, now: real, sma: map<string, Reading>)
    requires i < |top|
    ensures var before := TechPass(last, top[..i], now, sma);
      var a := TechAlarm(before.last, top[i], now, sma);
      TechPass(last, top[..i + 1], now, sma)
        == TechState(if a.Some? then before.last[top[i].symbol := now] else before.last, before.alarms + Listed(a))
  {
    assert top[..i + 1][..i] == top[..i];
    var before := TechPass(last, top[..i], now, sma);
    assert before.alarms + [] == before.alarms;
  }

  class AIAgent {
    /** `pnl_warn_pct` and `pnl_alert_pct`. */
    var pnlWarnPct: real
    var pnlAlertPct: real
    /** `history`: every signal emitted, oldest first. */
    var history: seq<Signal>
    /** `last_positions`. */
    var lastPositions: seq<Position>
    /** `_last_metrics`, None while it is the empty dictionary. */
    var lastMetrics: Option<Metrics>
    /** `_history`: the chat memory of (role, text) turns. */
    var chatMemory: seq<(string, string)>
    /** `enable_notifications`, whether `api_manager` is set, and `allow_technical_alerts`. */
    var enableNotifications: bool
    var hasApi: bool
    var allowTechnicalAlerts: bool
    /** `_last_tech_emit`: when each symbol last had a technical alert. */
    var lastTechEmit: map<string, real>

    /** The chat memory stays within its bound. */
    predicate Valid()
      reads this
    {
      |chatMemory| <= 2 * HistoryMax
    }

    /** The switches `_emit` consults, with the predicate's behaviour on this call. */
    function Switches(gate: Gate): Gating
      reads this`enableNotifications, this`hasApi, this`allowTechnicalAlerts
    {
      Gating(enableNotifications, hasApi, allowTechnicalAlerts, gate)
    }

    /**
     * `__init__` with the thresholds, the notification switch, whether the
     * external API manager could be created, and the configured
     * `include_technical` setting.
     */
    constructor(pnlWarn: real, pnlAlert: real, notifications: bool, apiAvailable: bool, includeTechnical: bool)
      ensures Valid()
      ensures pnlWarnPct == pnlWarn && pnlAlertPct == pnlAlert
      ensures history == [] && lastPositions == [] && lastMetrics.None? && chatMemory == [] && lastTechEmit == map[]
      ensures enableNotifications == (notifications && apiAvailable) && hasApi == apiAvailable
      ensures allowTechnicalAlerts == includeTechnical
    {
      pnlWarnPct := pnlWarn;
      pnlAlertPct := pnlAlert;
      history := [];
      lastPositions := [];
      lastMetrics := None;
      chatMemory := [];
      hasApi := apiAvailable;
      enableNotifications := notifications && apiAvailable;
      allowTechnicalAlerts := includeTechnical;
      lastTechEmit := map[];
    }

    /** `get_signals`: the last 200 signals, oldest first. */
    function GetSignals(): (r: seq<Signal>)
      reads this
      ensures |r| <= SignalsShown && |r| <= |history| && r == history[|history| - |r|..]
      ensures |history| <= SignalsShown ==> r == history
    {
      LastOf(history, SignalsShown)
    }

    /** `_append_history`. */
    method AppendHistory(role: string, text: string)
      requires Valid()
      modifies this`chatMemory
      ensures Valid()
      ensures chatMemory == AppendTurn(old(chatMemory), role, text)
    {
      chatMemory := chatMemory + [(role, Text.Strip(text))];
      if |chatMemory| > HistoryMax * 2 {
        chatMemory := chatMemory[|chatMemory| - HistoryMax * 2..];
      }
    }

    /** `_compute_metrics`: computes the metrics of the last positions and stores them. */
    method RefreshMetrics() returns (m: Metrics)
      modifies this`lastMetrics
      ensures m == ComputeMetrics(lastPositions) && lastMetrics == Some(m)
    {
      m := ComputeMetrics(lastPositions);
      lastMetrics := Some(m);
    }

    /** `self._last_metrics or self._compute_metrics()`. */
    method CurrentMetrics() returns (m: Metrics)
      modifies this`lastMetrics
      ensures m == if old(lastMetrics).Some? then old(lastMetrics).value else ComputeMetrics(lastPositions)
      ensures lastMetrics == Some(m)
    {
      if lastMetrics.Some? {
        m := lastMetrics.value;
      } else {
        m := RefreshMetrics();
      }
    }

    /**
     * `_emit` at time `now`, with the answer of `notifications_allowed` on
     * this call: records the signal with its explained message, and returns
     * the notification it forwards, if any.
     */
    method Emit(level: string, code: string, message: string, now: real, gate: Gate) returns (sent: seq<Note>)
      modifies this`history
      ensures history == old(history) + [Signal(now, level, code, Enriched(code, message))]
      ensures sent == if Forwards(IsTech(code), Switches(gate)) then [Note(level, code, Enriched(code, message))] else []
    {
      var text := Enriched(code, message);
      history := history + [Signal(now, level, code, text)];
      var allowed := true;
      if IsTech(code) && !allowTechnicalAlerts {
        allowed := false;
      }
      match gate {
        case NoGate =>
        case Answers(b) => allowed := b && allowed;
        case Raises =>
      }
      sent := [];
      if enableNotifications && hasApi && allowed {
        sent := [Note(level, code, text)];
      }
    }

    /** Emits `alarm` with the message the caller formats for it. */
    method EmitAlarm(a: Alarm, now: real, gate: Gate, text: Alarm -> string) returns (sent: seq<Note>)
      modifies this`history
      ensures history == old(history) + Records([a], now, text)
      ensures sent == Notes([a], text, Switches(gate))
    {
      sent := Emit(LevelName(a.level), CodeName(a.code), text(a), now, gate);
      CodeOfName(a.code);
      TechCodes(a.code);
      assert [a][..0] == [];
      assert Records([a], now, text) == [Record(a, now, text)];
    }

    /** One position of the concentration loop of `_generate_signals`. */
    method EmitConcentrationOf(p: Position, total: real, now: real, gate: Gate, text: Alarm -> string)
      returns (sent: seq<Note>)
      requires total != 0.0
      modifies this`history
      ensures history == old(history) + Records(Listed(ConcentrationAlarm(p, total)), now, text)
      ensures sent == Notes(Listed(ConcentrationAlarm(p, total)), text, Switches(gate))
    {
      var share := p.value / total;
      sent := [];
      if share > ConcentrationShare {
        sent := EmitAlarm(Alarm(Warn, Concentration, p.symbol), now, gate, text);
      }
    }

    /** One turn of the concentration loop: the signal of `ps[i]` follows those of the positions before it. */
    method EmitConcentrationTurn(ps: seq<Position>, i: nat, total: real, ghost h: seq<Signal>, before: seq<Note>,
                                 now: real, gate: Gate, text: Alarm -> string) returns (sent: seq<Note>)
      requires i < |ps| && total != 0.0
      requires history == h + Records(ConcentrationAlarms(ps[..i], total), now, text)
      requires before == Notes(ConcentrationAlarms(ps[..i], total), text, Switches(gate))
      modifies this`history
      ensures history == h + Records(ConcentrationAlarms(ps[..i + 1], total), now, text)
      ensures sent == Notes(ConcentrationAlarms(ps[..i + 1], total), text, Switches(gate))
    {
      ghost var done := ConcentrationAlarms(ps[..i], total);
      ghost var step := Listed(ConcentrationAlarm(ps[i], total));
      var n := EmitConcentrationOf(ps[i], total, now, gate, text);
      ConcentrationNext(ps, i, total);
      Extend(h, done, step, now, text, Switches(gate));
      sent := before + n;
    }

    /** The concentration loop of `_generate_signals`. */
    method EmitConcentration(ps: seq<Position>, total: real, now: real, gate: Gate, text: Alarm -> string)
      returns (sent: seq<Note>)
      requires total != 0.0
      modifies this`history
      ensures history == old(history) + Records(ConcentrationAlarms(ps, total), now, text)
      ensures sent == Notes(ConcentrationAlarms(ps, total), text, Switches(gate))
    {
      sent := [];
      for i := 0 to |ps|
        invariant history == old(history) + Records(ConcentrationAlarms(ps[..i], total), now, text)
        invariant sent == Notes(ConcentrationAlarms(ps[..i], total), text, Switches(gate))
      {
        sent := EmitConcentrationTurn(ps, i, total, old(history), sent, now, gate, text);
      }
      assert ps[..|ps|] == ps;
    }

    /** One position of the PnL loop of `_generate_signals`. */
    method EmitPnlOf(p: Position, now: real, gate: Gate, text: Alarm -> string) returns (sent: seq<Note>)
      modifies this`history
      ensures history == old(history) + Records(Listed(PnlAlarm(p, pnlWarnPct, pnlAlertPct)), now, text)
      ensures sent == Notes(Listed(PnlAlarm(p, pnlWarnPct, pnlAlertPct)), text, Switches(gate))
    {
      var a: Option<Alarm> := None;
      if p.pnlPct.Some? {
        var pct := p.pnlPct.value;
        if pct <= -pnlAlertPct {
          a := Some(Alarm(Alert, PnlDrop, p.symbol));
        } else if pct <= -pnlWarnPct {
          a := Some(Alarm(Warn, PnlDown, p.symbol));
        } else if pct >= pnlAlertPct {
          a := Some(Alarm(Info, PnlRun, p.symbol));
        }
      }
      assert a == PnlAlarm(p, pnlWarnPct, pnlAlertPct);
      sent := [];
      if a.Some? {
        sent := EmitAlarm(a.value, now, gate, text);
      }
    }

    /** One turn of the PnL loop: the signal of `ps[i]` follows those of the positions before it. */
    method EmitPnlTurn(ps: seq<Position>, i: nat, ghost h: seq<Signal>, before: seq<Note>, now: real, gate: Gate,
                       text: Alarm -> string) returns (sent: seq<Note>)
      requires i < |ps|
      requires history == h + Records(PnlAlarms(ps[..i], pnlWarnPct, pnlAlertPct), now, text)
      requires before == Notes(PnlAlarms(ps[..i], pnlWarnPct, pnlAlertPct), text, Switches(gate))
      modifies this`history
      ensures history == h + Records(PnlAlarms(ps[..i + 1], pnlWarnPct, pnlAlertPct), now, text)
      ensures sent == Notes(PnlAlarms(ps[..i + 1], pnlWarnPct, pnlAlertPct), text, Switches(gate))
    {
      ghost var done := PnlAlarms(ps[..i], pnlWarnPct, pnlAlertPct);
      ghost var step := Listed(PnlAlarm(ps[i], pnlWarnPct, pnlAlertPct));
      var n := EmitPnlOf(ps[i], now, gate, text);
      PnlNext(ps, i, pnlWarnPct, pnlAlertPct);
      Extend(h, done, step, now, text, Switches(gate));
      sent := before + n;
    }

    /** The PnL loop of `_generate_signals`. */
    method EmitPnl(ps: seq<Position>, now: real, gate: Gate, text: Alarm -> string) returns (sent: seq<Note>)
      modifies this`history
      ensures history == old(history) + Records(PnlAlarms(ps, pnlWarnPct, pnlAlertPct), now, text)
      ensures sent == Notes(PnlAlarms(ps, pnlWarnPct, pnlAlertPct), text, Switches(gate))
    {
      sent := [];
      for i := 0 to |ps|
        invariant history == old(history) + Records(PnlAlarms(ps[..i], pnlWarnPct, pnlAlertPct), now, text)
        invariant sent == Notes(PnlAlarms(ps[..i], pnlWarnPct, pnlAlertPct), text, Switches(gate))
      {
        sent := EmitPnlTurn(ps, i, old(history), sent, now, gate, text);
      }
      assert ps[..|ps|] == ps;
    }

    /** One holding of the technical loop of `_generate_signals`. */
    method EmitTechOf(p: Position, now: real, sma: map<string, Reading>, gate: Gate, text: Alarm -> string)
      returns (sent: seq<Note>)
      modifies this`history, this`lastTechEmit
      ensures var a := TechAlarm(old(lastTechEmit), p, now, sma);
        && history == old(history) + Records(Listed(a), now, text)
        && sent == Notes(Listed(a), text, old(Switches(gate)))
        && lastTechEmit == if a.Some? then old(lastTechEmit)[p.symbol := now] else old(lastTechEmit)
    {
      var a: Option<Alarm> := None;
      var lastEmit := if p.symbol in lastTechEmit then lastTechEmit[p.symbol] else 0.0;
      if now - lastEmit >= TechTtl && p.symbol in sma {
        var s := sma[p.symbol];
        if s == Buy {
          a := Some(Alarm(Info, TechBuy, p.symbol));
        } else if s == Sell {
          a := Some(Alarm(Warn, TechSell, p.symbol));
        }
      }
      assert a == TechAlarm(lastTechEmit, p, now, sma);
      sent := [];
      if a.Some? {
        sent := EmitAlarm(a.value, now, gate, text);
        lastTechEmit := lastTechEmit[p.symbol := now];
      }
    }

    /** One turn of the technical loop: `top[i]` is checked with the stamps the holdings before it left. */
    method EmitTechTurn(top: seq<Position>, i: nat, ghost last: map<string, real>, ghost h: seq<Signal>,
                        before: seq<Note>, now: real, sma: map<string, Reading>, gate: Gate, text: Alarm -> string)
      returns (sent: seq<Note>)
      requires i < |top|
      requires var pass := TechPass(last, top[..i], now, sma);
        && history == h + Records(pass.alarms, now, text)
        && before == Notes(pass.alarms, text, Switches(gate))
        && lastTechEmit == pass.last
      modifies this`history, this`lastTechEmit
      ensures var pass := TechPass(last, top[..i + 1], now, sma);
        && history == h + Records(pass.alarms, now, text)
        && sent == Notes(pass.alarms, text, Switches(gate))
        && lastTechEmit == pass.last
    {
      ghost var done := TechPass(last, top[..i], now, sma).alarms;
      ghost var step := Listed(TechAlarm(lastTechEmit, top[i], now, sma));
      var n := EmitTechOf(top[i], now, sma, gate, text);
      TechNext(last, top, i, now, sma);
      Extend(h, done, step, now, text, Switches(gate));
      sent := before + n;
    }

    /** The technical loop of `_generate_signals` over the largest holdings. */
    method EmitTech(top: seq<Position>, now: real, sma: map<string, Reading>, gate: Gate, text: Alarm -> string)
      returns (sent: seq<Note>)
      modifies this`history, this`lastTechEmit
      ensures var pass := TechPass(old(lastTechEmit), top, now, sma);
        && history == old(history) + Records(pass.alarms, now, text)
        && sent == Notes(pass.alarms, text, Switches(gate))
        && lastTechEmit == pass.last
    {
      sent := [];
      for i := 0 to |top|
        invariant var pass := TechPass(old(lastTechEmit), top[..i], now, sma);
          && history == old(history) + Records(pass.alarms, now, text)
          && sent == Notes(pass.alarms, text, Switches(gate))
          && lastTechEmit == pass.last
      {
        sent := EmitTechTurn(top, i, old(lastTechEmit), old(history), sent, now, sma, gate, text);
      }
      assert top[..|top|] == top;
    }

    /**
     * `_generate_signals` at time `now`, with the SMA reading of each symbol
     * and the formatted message of each signal: records the signals of
     * `Generated`, forwards the allowed ones, and stamps the technical
     * alerts; the metrics are computed first when none are stored.
     */
    method GenerateSignals(now: real, sma: map<string, Reading>, gate: Gate, text: Alarm -> string)
      returns (sent: seq<Note>)
      modifies this`history, this`lastTechEmit, this`lastMetrics
      ensures var ps := old(lastPositions);
        var m := if old(lastMetrics).Some? then old(lastMetrics).value else ComputeMetrics(ps);
        var out := Generated(ps, pnlWarnPct, pnlAlertPct, m, old(lastTechEmit), now, sma);
        && history == old(history) + Records(out.alarms, now, text)
        && sent == Notes(out.alarms, text, Switches(gate))
        && lastTechEmit == out.last
        && lastMetrics == (if ps == [] then old(lastMetrics) else Some(m))
    {
      var ps := lastPositions;
      if ps == [] {
        assert history + Records([], now, text) == history;
        return [];
      }
      var m := CurrentMetrics();
      sent := EmitGenerated(ps, m, old(lastTechEmit), old(history), now, sma, gate, text);
    }

    /**
     * The passes of `_generate_signals` over the portfolio `ps` with metrics
     * `m`, from the stamps `last` and the records `h` the agent holds.
     */
    method EmitGenerated(ps: seq<Position>, m: Metrics, ghost last: map<string, real>, ghost h: seq<Signal>, now: real,
                         sma: map<string, Reading>, gate: Gate, text: Alarm -> string) returns (sent: seq<Note>)
      requires lastTechEmit == last && history == h
      modifies this`history, this`lastTechEmit
      ensures var out := Generated(ps, pnlWarnPct, pnlAlertPct, m, last, now, sma);
        && history == h + Records(out.alarms, now, text)
        && sent == Notes(out.alarms, text, Switches(gate))
        && lastTechEmit == out.last
    {
      if ps == [] {
        assert history + Records([], now, text) == history;
        return [];
      }
      ghost var g := Switches(gate);
      ghost var portfolio := PortfolioAlarms(ps, pnlWarnPct, pnlAlertPct, m);
      ghost var t := TechPass(lastTechEmit, TopNonCash(ps), now, sma).alarms;
      var s1 := EmitPortfolio(ps, m, now, gate, text);
      var s2 := EmitTech(TopNonCash(ps), now, sma, gate, text);
      sent := s1 + s2;
      Extend(h, portfolio, t, now, text, g);
    }

    /** The passes of `_generate_signals` about the portfolio `ps` with metrics `m`, before the technical alerts. */
    method EmitPortfolio(ps: seq<Position>, m: Metrics, now: real, gate: Gate, text: Alarm -> string)
      returns (sent: seq<Note>)
      modifies this`history
      ensures var alarms := PortfolioAlarms(ps, pnlWarnPct, pnlAlertPct, m);
        && history == old(history) + Records(alarms, now, text)
        && sent == Notes(alarms, text, Switches(gate))
    {
      ghost var h := history;
      ghost var g := Switches(gate);
      ghost var holdings := ConcentrationAlarms(ps, PortfolioTotal(ps)) + PnlAlarms(ps, pnlWarnPct, pnlAlertPct);
      var s1 := EmitHoldings(ps, now, gate, text);
      var s2 := EmitTotals(ps, m, now, gate, text);
      sent := s1 + s2;
      Extend(h, holdings, CashAlarms(ps) + DiversificationAlarms(m), now, text, g);
      Regroup(holdings, CashAlarms(ps), DiversificationAlarms(m));
    }

    /** The concentration and PnL passes of `_generate_signals`, one position at a time. */
    method EmitHoldings(ps: seq<Position>, now: real, gate: Gate, text: Alarm -> string) returns (sent: seq<Note>)
      modifies this`history
      ensures var alarms := ConcentrationAlarms(ps, PortfolioTotal(ps)) + PnlAlarms(ps, pnlWarnPct, pnlAlertPct);
        && history == old(history) + Records(alarms, now, text)
        && sent == Notes(alarms, text, Switches(gate))
    {
      ghost var h := history;
      ghost var g := Switches(gate);
      var total := PortfolioTotal(ps);
      var s1 := EmitConcentration(ps, total, now, gate, text);
      var s2 := EmitPnl(ps, now, gate, text);
      Extend(h, ConcentrationAlarms(ps, total), PnlAlarms(ps, pnlWarnPct, pnlAlertPct), now, text, g);
      sent := s1 + s2;
    }

    /** The cash and diversification checks of `_generate_signals`, on the totals. */
    method EmitTotals(ps: seq<Position>, m: Metrics, now: real, gate: Gate, text: Alarm -> string)
      returns (sent: seq<Note>)
      modifies this`history
      ensures var alarms := CashAlarms(ps) + DiversificationAlarms(m);
        && history == old(history) + Records(alarms, now, text)
        && sent == Notes(alarms, text, Switches(gate))
    {
      ghost var h := history;
      ghost var g := Switches(gate);
      var s1 := EmitCash(ps, now, gate, text);
      var s2 := EmitDiversification(m, now, gate, text);
      Extend(h, CashAlarms(ps), DiversificationAlarms(m), now, text, g);
      sent := s1 + s2;
    }

    /** The cash check of `_generate_signals`. */
    method EmitCash(ps: seq<Position>, now: real, gate: Gate, text: Alarm -> string) returns (sent: seq<Note>)
      modifies this`history
      ensures history == old(history) + Records(CashAlarms(ps), now, text)
      ensures sent == Notes(CashAlarms(ps), text, Switches(gate))
    {
      var ratio := CashSum(ps) / PortfolioTotal(ps);
      sent := [];
      if ratio < CashLowRatio {
        sent := EmitAlarm(Alarm(Warn, CashLow, ""), now, gate, text);
      } else if ratio > CashHighRatio {
        sent := EmitAlarm(Alarm(Info, CashHigh, ""), now, gate, text);
      }
    }

    /** The diversification check of `_generate_signals` on the metrics `m`. */
    method EmitDiversification(m: Metrics, now: real, gate: Gate, text: Alarm -> string) returns (sent: seq<Note>)
      modifies this`history
      ensures history == old(history) + Records(DiversificationAlarms(m), now, text)
      ensures sent == Notes(DiversificationAlarms(m), text, Switches(gate))
    {
      sent := [];
      if m.nPositions > 0 && m.hhiNormalized > DiversificationLimit {
        sent := EmitAlarm(Alarm(Warn, LowDiversification, ""), now, gate, text);
      }
    }

    /**
     * `on_positions`: keeps the dictionaries that have a symbol, computes the
     * metrics, then generates the signals.
     */
    method OnPositions(raws: seq<RawPosition>, now: real, sma: map<string, Reading>, gate: Gate, text: Alarm -> string)
      returns (sent: seq<Note>)
      modifies this`lastPositions, this`lastMetrics, this`history, this`lastTechEmit
      ensures lastPositions == ToPositions(raws)
      ensures lastMetrics == Some(ComputeMetrics(lastPositions))
      ensures var out := Generated(lastPositions, pnlWarnPct, pnlAlertPct, lastMetrics.value, old(lastTechEmit), now, sma);
        && history == old(history) + Records(out.alarms, now, text)
        && sent == Notes(out.alarms, text, Switches(gate))
        && lastTechEmit == out.last
    {
      var ps := ToPositions(raws);
      lastPositions := ps;
      var m := RefreshMetrics();
      // `self._generate_signals()`, which finds the metrics `m` just stored
      sent := EmitGenerated(ps, m, old(lastTechEmit), old(history), now, sma, gate, text);
    }
  }
}
