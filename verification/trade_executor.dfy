/**
 * `TradeExecutor` of wsapp_gui/trade_executor.py as a class whose methods
 * update its fields step by step. `State()` is the executor as a value of
 * module ExecutorSpec; every method is proved to move it exactly as the
 * corresponding specification function does, and to keep `Valid()`, which
 * includes the invariant `ExecutorSpec.Good` (cash never overdrawn, no short
 * positions). The clock, the trading day, the quote source and the live
 * executor's outcome are parameters.
 */
module TradeExecutor {
  import opened Wrappers
  import opened Numbers
  import opened Rounding
  import opened TradeModel
  import opened PaperPortfolio
  import opened ExecutorSpec
  import Text

  class Executor {
    /** `enabled`, `mode`, `account_id`, `base_size` and the risk limits, as one record. */
    var settings: ExecutorSpec.Settings
    var lastTradeDay: Option<int>
    var tradeCountToday: int
    const paper: Portfolio
    var log: seq<LogEntry>
    var ledger: set<LedgerKey>
    var lastTradeTs: real
    var lastSymbolTradeTs: map<string, real>
    /** Whether a live executor callable is registered. */
    var hasLiveExecutor: bool
    var openOrders: seq<Order>
    var liveCalls: seq<LiveCall>

    /** The executor as a value. */
    ghost function State(): ExecState
      reads this, paper
    {
      ExecState(settings, hasLiveExecutor, lastTradeDay, tradeCountToday, paper.Book(), log, ledger,
                lastTradeTs, lastSymbolTradeTs, openOrders, liveCalls)
    }

    ghost predicate Valid()
      reads this, paper, paper.positions.Values
    {
      paper.Valid() && Good(State())
    }

    /** A new executor, with the ledger entries persisted by an earlier run. */
    constructor (persisted: set<LedgerKey>)
      ensures Valid() && State() == Initial.(ledger := persisted)
      ensures fresh(paper)
    {
      settings := DefaultSettings;
      lastTradeDay := None;
      tradeCountToday := 0;
      paper := new Portfolio(100000.0);
      log := [];
      ledger := persisted;
      lastTradeTs := 0.0;
      lastSymbolTradeTs := map[];
      hasLiveExecutor := false;
      openOrders := [];
      liveCalls := [];
    }

    /** `configure(...)` */
    method Configure(a: ConfigureArgs)
      requires Valid()
      modifies this, paper
      ensures Valid() && State() == ExecutorSpec.Configure(old(State()), a)
      ensures paper.positions == old(paper.positions)
    {
      ConfigureKeepsGood(State(), a);
      // each setting that is given is set (numbers clamped to >= 0); the rest stay
      settings := ConfiguredSettings(settings, a);
      if a.paperStartingCash.Some? {
        paper.SetStartingCash(a.paperStartingCash.value);
      }
    }

    /** `configure_simple(enabled, mode, base_size)`: the three settings, nothing else. */
    method ConfigureSimple(enabled: bool, mode: string, baseSize: real)
      requires Valid()
      modifies this, paper
      ensures Valid()
      ensures State() == ExecutorSpec.Configure(old(State()),
        ConfigureArgs(Some(enabled), Some(mode), None, Some(baseSize), None, None, None, None, None, None))
    {
      Configure(ConfigureArgs(Some(enabled), Some(mode), None, Some(baseSize), None, None, None, None, None, None));
    }

    /** `set_live_executor(callable)`: `present` says whether a callable (rather than None) is given. */
    method SetLiveExecutor(present: bool)
      requires Valid()
      modifies this
      ensures Valid() && State() == old(State()).(hasLiveExecutor := present)
    {
      hasLiveExecutor := present;
    }

    /** `_rotate_trade_counter()` on day `today`. */
    method RotateTradeCounter(today: int)
      requires Valid()
      modifies this
      ensures Valid() && State() == Rotate(old(State()), today)
    {
      if lastTradeDay != Some(today) {
        lastTradeDay := Some(today);
        tradeCountToday := 0;
      }
    }

    /** `_exec_buy(symbol, price)`: returns whether a buy happened. */
    method ExecBuy(symbol: string, price: real) returns (ok: bool)
      requires Valid() && price > 0.0
      modifies this, paper, paper.positions.Values
      ensures Valid()
      ensures ok == ExecutorSpec.ExecBuy(old(State()), symbol, price).0
      ensures State() == ExecutorSpec.ExecBuy(old(State()), symbol, price).1
    {
      ExecBuyKeepsGood(State(), symbol, price);
      if settings.mode == Live {
        // the live stub: counted and logged, handed to the live executor when one is set
        assert liveCalls + [] == liveCalls;
        tradeCountToday := tradeCountToday + 1;
        log := log + [LiveBuyStub(symbol, settings.baseSize, price)];
        if hasLiveExecutor {
          liveCalls := liveCalls + [LiveCall(symbol, Buy, None, price)];
        }
        ok := true;
      } else {
        ok := ExecPaperBuy(symbol, price);
      }
    }

    /** `_exec_buy`'s paper branch. */
    method ExecPaperBuy(symbol: string, price: real) returns (ok: bool)
      requires paper.Valid() && WellFormed(paper.Book()) && price > 0.0 && settings.mode == Paper
      modifies this, paper, paper.positions.Values
      ensures paper.Valid()
      ensures ok == ExecutorSpec.ExecBuy(old(State()), symbol, price).0
      ensures State() == ExecutorSpec.ExecBuy(old(State()), symbol, price).1
    {
      ghost var s := State();
      var qty := BuyQtyForCash(settings.baseSize, price, paper.cash);
      if qty <= 0.0 {
        ExecBuyRefusedEarly(s, symbol, price);
        return false;
      }
      ExecBuyAfterLookup(s, symbol, price, CappedQty(Down, qty, price, HeldOrFlat(s.book, symbol),
                                                     settings.maxQtyPerSymbol, settings.maxNotionalPerSymbol));
      ok := BuyWithinCaps(symbol, price, qty);
    }

    /** `_exec_buy` from the position lookup on, for a quantity `qty` the
        cash affords: cut it to the caps, then buy what is left. */
    method BuyWithinCaps(symbol: string, price: real, qty: real) returns (ok: bool)
      requires paper.Valid() && WellFormed(paper.Book()) && price > 0.0
      modifies this, paper, paper.positions.Values
      ensures paper.Valid()
      ensures var q := CappedQty(Down, qty, price, HeldOrFlat(old(paper.Book()), symbol),
                                 settings.maxQtyPerSymbol, settings.maxNotionalPerSymbol);
        && ok == (q > 0.0)
        && State() == if q > 0.0 then PaperBought(old(State()), symbol, price, q)
                      else old(State()).(book := Touched(old(State()).book, symbol))
    {
      ghost var s := State();
      var pos := paper.PositionFor(symbol);
      assert pos.Value() == HeldOrFlat(s.book, symbol);
      var q := CapBuyQty(qty, price, pos.Value(), settings.maxQtyPerSymbol, settings.maxNotionalPerSymbol);
      if q <= 0.0 {
        return false;
      }
      PaperBoughtAfterLookup(s, symbol, price, q);
      RecordPaperBuy(symbol, price, q);
      ok := true;
    }

    /** The end of a paper buy of `qty` at `price` once the position exists:
        buy into it, pay for it, count and log the trade. */
    method RecordPaperBuy(symbol: string, price: real, qty: real)
      requires paper.Valid() && WellFormed(paper.Book()) && symbol in paper.positions
      modifies this, paper, paper.positions[symbol]
      ensures paper.Valid()
      ensures State() == PaperBought(old(State()), symbol, price, qty)
    {
      paper.BuyAt(symbol, price, qty);
      tradeCountToday := tradeCountToday + 1;
      log := log + [PaperBuy(symbol, qty, price)];
    }

    /** `_exec_sell(symbol, price)`: returns whether a sell happened. */
    method ExecSell(symbol: string, price: real) returns (ok: bool)
      requires Valid() && price > 0.0
      modifies this, paper, paper.positions.Values
      ensures Valid()
      ensures ok == ExecutorSpec.ExecSell(old(State()), symbol, price).0
      ensures State() == ExecutorSpec.ExecSell(old(State()), symbol, price).1
    {
      ExecSellKeepsGood(State(), symbol, price);
      if settings.mode == Live {
        // the live stub sells everything: counted and logged, handed to the live executor when one is set
        assert liveCalls + [] == liveCalls;
        tradeCountToday := tradeCountToday + 1;
        log := log + [LiveSellStub(symbol, price)];
        if hasLiveExecutor {
          liveCalls := liveCalls + [LiveCall(symbol, Sell, None, price)];
        }
        ok := true;
      } else {
        ok := ExecPaperSell(symbol, price);
      }
    }

    /** `_exec_sell`'s paper branch: sells up to base size worth of the held quantity. */
    method ExecPaperSell(symbol: string, price: real) returns (ok: bool)
      requires paper.Valid() && WellFormed(paper.Book()) && price > 0.0 && settings.mode == Paper
      modifies this, paper, paper.positions.Values
      ensures paper.Valid()
      ensures ok == ExecutorSpec.ExecSell(old(State()), symbol, price).0
      ensures State() == ExecutorSpec.ExecSell(old(State()), symbol, price).1
    {
      ghost var s := State();
      var pos := paper.PositionFor(symbol);
      ExecSellAfterLookup(s, symbol, price);
      ok := SellHeld(symbol, price);
    }

    /** The sell once the position exists: nothing when nothing is held,
        otherwise the held quantity up to base size worth at `price`. */
    method SellHeld(symbol: string, price: real) returns (ok: bool)
      requires paper.Valid() && WellFormed(paper.Book()) && price > 0.0 && settings.mode == Paper
      requires symbol in paper.positions
      modifies this, paper, paper.positions[symbol]
      ensures paper.Valid()
      ensures ok == ExecutorSpec.ExecSell(old(State()), symbol, price).0
      ensures State() == ExecutorSpec.ExecSell(old(State()), symbol, price).1
    {
      var pos := paper.positions[symbol];
      if pos.qty <= 0.0 {
        // nothing to sell
        return false;
      }
      var sellQty := Min(pos.qty, settings.baseSize / price);
      var proceeds := paper.SellAt(symbol, price, sellQty);
      assert paper.Book() == SoldBook(old(paper.Book()), symbol, price, sellQty);
      tradeCountToday := tradeCountToday + 1;
      log := log + [PaperSell(symbol, sellQty, price, proceeds)];
      ok := true;
    }

    /** `on_signal(symbol, signal)` for a signal of kind `kind` at bar `index`,
        with the clock at `now` on day `today` and `price` what the quote
        source gives (None when it has no price). */
    method OnSignal(symbol: string, kind: string, index: int, now: real, today: int, price: Option<real>)
      requires Valid()
      modifies this, paper, paper.positions.Values
      ensures Valid() && State() == ExecutorSpec.OnSignal(old(State()), symbol, kind, index, now, today, price)
    {
      if !settings.enabled {
        return;
      }
      RotateTradeCounter(today);
      if settings.maxTradesPerDay != 0 && tradeCountToday >= settings.maxTradesPerDay {
        return;
      }
      // cooldowns
      if settings.minTradeIntervalSec > 0.0 && now - lastTradeTs < settings.minTradeIntervalSec {
        return;
      }
      if settings.symbolCooldownSec > 0.0 {
        var lastSym := if symbol in lastSymbolTradeTs then lastSymbolTradeTs[symbol] else 0.0;
        if now - lastSym < settings.symbolCooldownSec {
          return;
        }
      }
      // idempotency: a signal already in the ledger is skipped
      var key := LedgerKey(symbol, Text.Lower(kind), index);
      if key in ledger {
        return;
      }
      if price.None? || price.value <= 0.0 {
        log := log + [SkipNoPrice(symbol)];
        return;
      }
      Trade(symbol, key, now, price.value);
    }

    /** `on_signal` past its guardrails: a buy or a sell at `price` that, when
        it trades, is recorded in the ledger and both cooldown clocks. */
    method Trade(symbol: string, key: LedgerKey, now: real, price: real)
      requires Valid() && price > 0.0
      modifies this, paper, paper.positions.Values
      ensures Valid() && State() == SignalTrade(old(State()), symbol, key, now, price)
    {
      SignalTradeCases(State(), symbol, key, now, price);
      var ok := false;
      if key.kind == "buy" {
        ok := ExecBuy(symbol, price);
      } else if key.kind == "sell" {
        ok := ExecSell(symbol, price);
      }
      if ok {
        RecordTrade(key, symbol, now);
      }
    }

    /** After a signal traded: the key goes into the ledger and both cooldown
        clocks are set to `now`. */
    method RecordTrade(key: LedgerKey, symbol: string, now: real)
      requires Valid()
      modifies this
      ensures Valid() && State() == Record(old(State()), key, symbol, now)
    {
      ledger := ledger + {key};
      lastTradeTs := now;
      lastSymbolTradeTs := lastSymbolTradeTs[symbol := now];
    }

    /** `place_order(...)` with `last` what the quote source gives for the
        symbol and `liveError` the exception the live executor raises, if
        any. The source's assertions on side and order type become `Err`. */
    method PlaceOrder(a: OrderArgs, last: Option<real>, liveError: Option<string>) returns (r: Result<OrderReply>)
      requires Valid()
      modifies this, paper, paper.positions.Values
      ensures Valid()
      ensures var spec := ExecutorSpec.PlaceOrder(old(State()), a, last, liveError);
        && (r.Err? <==> spec.Err?)
        && (r.Err? ==> State() == old(State()))
        && (r.Ok? ==> r.value == spec.value.0 && State() == spec.value.1)
    {
      var side := SideOf(a.side);
      if side.None? {
        return Err("side must be 'buy' or 'sell'");
      }
      var otype := OrderTypeOf(a.orderType);
      if otype.None? {
        return Err("unsupported order_type");
      }
      var price := if last.Some? then last.value else 0.0;
      if price <= 0.0 {
        return Ok(Refused(a.symbol, side.value, otype.value, "no_price"));
      }
      var q := RequestQty(a.qty, a.notional, settings.baseSize, price);
      if q.None? {
        return Ok(Refused(a.symbol, side.value, otype.value, "invalid_size"));
      }
      if q.value <= 0.0 {
        return Ok(Refused(a.symbol, side.value, otype.value, "invalid_qty"));
      }
      var order := Order(a.symbol, side.value, otype.value, q.value, a.limit, a.stop, a.tif, Open, 0.0, None, None);
      PlaceOrderKeepsGood(State(), a, last, liveError);
      var reply;
      if settings.mode == Live {
        reply := SubmitLive(order, price, liveError);
      } else {
        reply := FillPaper(order, price);
      }
      r := Ok(reply);
    }

    /** `place_order`'s live path: hand the order to the live executor when
        one is registered; report it submitted (open) unless the executor raised. */
    method SubmitLive(order: Order, price: real, liveError: Option<string>) returns (reply: OrderReply)
      modifies this
      ensures reply == ExecutorSpec.SubmitLive(old(State()), order, price, liveError).0
      ensures State() == ExecutorSpec.SubmitLive(old(State()), order, price, liveError).1
    {
      if hasLiveExecutor {
        liveCalls := liveCalls + [LiveCall(order.symbol, order.side, Some(order.qty), price)];
        if liveError.Some? {
          return Placed(order.(status := Rejected, reason := liveError));
        }
      }
      log := log + [LiveSubmit(order.side, order.otype, order.symbol, order.qty)];
      reply := Placed(order);
    }

    /** `place_order`'s paper path: apply the fill rules at the reference
        price, then fill, reject or keep the order open. */
    method FillPaper(order: Order, price: real) returns (reply: OrderReply)
      requires paper.Valid() && WellFormed(paper.Book())
      modifies this, paper, paper.positions.Values
      ensures paper.Valid()
      ensures reply == ExecutorSpec.FillPaper(old(State()), order, price).0
      ensures State() == ExecutorSpec.FillPaper(old(State()), order, price).1
    {
      var d := Decide(order.side, order.otype, price, order.limit, order.stop);
      match d
      case Invalid(reason) =>
        reply := Placed(order.(status := Rejected, reason := Some(reason)));
      case FillAt(fill) =>
        if fill > 0.0 {
          reply := FillAtPrice(order, fill);
        } else {
          reply := KeepOpen(order);
        }
      case NoFill =>
        reply := KeepOpen(order);
    }

    /** Not filled: the order joins the open orders. */
    method KeepOpen(order: Order) returns (reply: OrderReply)
      modifies this
      ensures reply == ExecutorSpec.KeepOpen(old(State()), order).0
      ensures State() == ExecutorSpec.KeepOpen(old(State()), order).1
    {
      openOrders := openOrders + [order];
      log := log + [OrderOpened(order.side, order.otype, order.symbol, order.qty, order.tif)];
      reply := Placed(order);
    }

    /** A paper fill at `fill`: look the position up, then buy within the caps
        and the cash, or sell within the holding. */
    method FillAtPrice(order: Order, fill: real) returns (reply: OrderReply)
      requires paper.Valid() && WellFormed(paper.Book()) && fill > 0.0
      modifies this, paper, paper.positions.Values
      ensures paper.Valid()
      ensures reply == ExecutorSpec.FillAtPrice(old(State()), order, fill).0
      ensures State() == ExecutorSpec.FillAtPrice(old(State()), order, fill).1
    {
      ghost var s := State();
      var pos := paper.PositionFor(order.symbol);
      FillAtPriceAfterLookup(s, order, fill);
      if order.side == Buy {
        reply := FillBuy(order, fill);
      } else {
        reply := FillSell(order, fill);
      }
    }

    /** A filled buy: cut to the caps, then to the cash; rejected when nothing is left. */
    method FillBuy(order: Order, fill: real) returns (reply: OrderReply)
      requires paper.Valid() && WellFormed(paper.Book()) && fill > 0.0
      requires order.side == Buy && order.symbol in paper.positions
      modifies this, paper, paper.positions[order.symbol]
      ensures paper.Valid()
      ensures reply == ExecutorSpec.FillAtPrice(old(State()), order, fill).0
      ensures State() == ExecutorSpec.FillAtPrice(old(State()), order, fill).1
    {
      var e := OrderBuyQty(order.qty, fill, paper.cash, paper.positions[order.symbol].Value(),
                           settings.maxQtyPerSymbol, settings.maxNotionalPerSymbol);
      FillBuyHeld(State(), order, fill, e);
      if e <= 0.0 {
        return Placed(order.(status := Rejected, reason := Some("insufficient_cash")));
      }
      reply := BuyFilled(order, fill, e);
    }

    /** Buy `e` of the order's symbol at `fill` and record the fill. */
    method BuyFilled(order: Order, fill: real, e: real) returns (reply: OrderReply)
      requires paper.Valid() && order.symbol in paper.positions
      modifies this, paper, paper.positions[order.symbol]
      ensures paper.Valid()
      ensures reply == RecordFill(old(State()), BoughtBook(old(paper.Book()), order.symbol, fill, e), order, e, fill).0
      ensures State() == RecordFill(old(State()), BoughtBook(old(paper.Book()), order.symbol, fill, e), order, e, fill).1
    {
      paper.BuyAt(order.symbol, fill, e);
      assert paper.Book() == BoughtBook(old(paper.Book()), order.symbol, fill, e);
      reply := RecordOrderFill(order, e, fill);
    }

    /** A filled sell: cut to the holding; rejected when nothing is held. */
    method FillSell(order: Order, fill: real) returns (reply: OrderReply)
      requires paper.Valid() && WellFormed(paper.Book()) && fill > 0.0
      requires order.side == Sell && order.symbol in paper.positions
      modifies this, paper, paper.positions[order.symbol]
      ensures paper.Valid()
      ensures reply == ExecutorSpec.FillAtPrice(old(State()), order, fill).0
      ensures State() == ExecutorSpec.FillAtPrice(old(State()), order, fill).1
    {
      var e := Min(order.qty, paper.positions[order.symbol].qty);
      FillSellHeld(State(), order, fill, e);
      if e <= 0.0 {
        return Placed(order.(status := Rejected, reason := Some("no_position")));
      }
      reply := SellFilled(order, fill, e);
    }

    /** Sell `e` of the order's symbol at `fill` and record the fill. */
    method SellFilled(order: Order, fill: real, e: real) returns (reply: OrderReply)
      requires paper.Valid() && order.symbol in paper.positions
      modifies this, paper, paper.positions[order.symbol]
      ensures paper.Valid()
      ensures reply == RecordFill(old(State()), SoldBook(old(paper.Book()), order.symbol, fill, e), order, e, fill).0
      ensures State() == RecordFill(old(State()), SoldBook(old(paper.Book()), order.symbol, fill, e), order, e, fill).1
    {
      var proceeds := paper.SellAt(order.symbol, fill, e);
      assert paper.Book() == SoldBook(old(paper.Book()), order.symbol, fill, e);
      reply := RecordOrderFill(order, e, fill);
    }

    /** The bookkeeping of a fill of `e` at `fill`, once the book has moved. */
    method RecordOrderFill(order: Order, e: real, fill: real) returns (reply: OrderReply)
      modifies this
      ensures reply == RecordFill(old(State()), paper.Book(), order, e, fill).0
      ensures State() == RecordFill(old(State()), paper.Book(), order, e, fill).1
    {
      tradeCountToday := tradeCountToday + 1;
      log := log + [OrderFilled(order.side, order.otype, order.symbol, e, fill)];
      reply := Placed(order.(status := Status.Filled, filledQty := e, avgFillPrice := Some(fill)));
    }

    /** `portfolio_snapshot(quotes, include_quotes)`, with `fetched` the prices
        the quote source gives (a symbol it has no price for is absent). */
    method PortfolioSnapshot(given: map<string, real>, includeQuotes: bool, fetched: map<string, real>) returns (snap: Snapshot)
      requires Valid()
      ensures snap == ExecutorSpec.PortfolioSnapshot(State(), given, includeQuotes, fetched)
    {
      if settings.mode != Paper {
        return LiveSnapshot;
      }
      var current := FetchQuotes(includeQuotes, fetched);
      current := current + given;
      assert current == SnapshotQuotes(State().book, given, includeQuotes, fetched);
      var rows := SnapshotRows(current);
      var eq := paper.Equity(current);
      snap := PaperSnapshot(paper.cash, eq, rows, current);
    }

    /** The quote source's prices for the symbols held with a positive quantity, when asked for. */
    method FetchQuotes(includeQuotes: bool, fetched: map<string, real>) returns (current: map<string, real>)
      requires paper.Valid()
      ensures current == OwnQuotes(paper.Book(), includeQuotes, fetched)
    {
      current := map[];
      if includeQuotes {
        var syms := paper.symbols;
        var i := 0;
        while i < |syms|
          invariant 0 <= i <= |syms|
          invariant forall k :: k in current <==> k in syms[..i] && k in paper.held && paper.held[k].qty > 0.0 && k in fetched
          invariant forall k :: k in current ==> current[k] == fetched[k]
        {
          var sym := syms[i];
          assert syms[..i + 1] == syms[..i] + [sym];
          if paper.positions[sym].qty > 0.0 && sym in fetched {
            current := current[sym := fetched[sym]];
          }
          i := i + 1;
        }
        assert syms[..|syms|] == syms;
      }
    }

    /** The snapshot rows, one per position with a positive quantity, in dict order. */
    method SnapshotRows(quotes: map<string, real>) returns (rows: seq<SnapRow>)
      requires paper.Valid()
      ensures rows == Rows(paper.symbols, paper.held, quotes)
    {
      rows := [];
      var syms := paper.symbols;
      var i := 0;
      while i < |syms|
        invariant 0 <= i <= |syms|
        invariant rows == Rows(syms[..i], paper.held, quotes)
      {
        var sym := syms[i];
        assert syms[..i + 1][..i] == syms[..i];
        var pos := paper.positions[sym];
        if pos.qty > 0.0 {
          rows := rows + [SnapRow(sym, pos.qty, pos.avgPrice, if sym in quotes then Some(quotes[sym]) else None)];
        }
        i := i + 1;
      }
      assert syms[..|syms|] == syms;
    }
  }

  /** `_exec_buy`'s quantity before the position lookup: base size over price
      rounded to four places, scaled down (rounded down) to what the cash
      affords. Not positive when the buy is refused there. */
  method BuyQtyForCash(baseSize: real, price: real, cash: real) returns (qty: real)
    requires price > 0.0
    ensures qty == CashQty(Down, baseSize, price, cash)
    ensures qty > 0.0 ==> qty * price <= cash
  {
    CashQtyWithinCash(baseSize, price, cash);
    var notional := Max(0.0, baseSize);
    if notional <= 0.0 {
      return 0.0;
    }
    qty := Round4Of(notional / price);
    if qty <= 0.0 {
      return 0.0;
    }
    if cash < qty * price {
      // scale down to what the cash affords
      qty := Floor4Of(cash / price);
    }
  }

  /** `_exec_buy`'s cut of `qty` to the per-symbol quantity and notional caps
      (0 meaning no cap), for the symbol's holding `held`. */
  method CapBuyQty(qty: real, price: real, held: Holding, qtyCap: real, notionalCap: real) returns (r: real)
    requires price > 0.0
    ensures r == CappedQty(Down, qty, price, held, qtyCap, notionalCap)
    ensures r <= qty
  {
    CapQtyDown(qty, held, qtyCap);
    CapNotionalDown(CapQty(Down, qty, held, qtyCap), price, held, notionalCap);
    r := qty;
    if qtyCap > 0.0 {
      r := Min(r, Floor4Of(Max(0.0, qtyCap - held.qty)));
    }
    assert r == CapQty(Down, qty, held, qtyCap);
    if notionalCap > 0.0 {
      var currentNotional := if held.qty > 0.0 then held.qty * held.avgPrice else 0.0;
      assert currentNotional == CurrentNotional(held);
      r := Min(r, Floor4Of(Max(0.0, notionalCap - currentNotional) / price));
    }
  }

  /** The quantity an order asks for: `qty` when given, otherwise the
      notional (or the base size) over the price, rounded to four places;
      None when that notional is not positive. */
  method RequestQty(qty: Option<real>, notional: Option<real>, baseSize: real, price: real) returns (q: Option<real>)
    requires price > 0.0
    ensures q == RequestedQty(qty, notional, baseSize, price)
  {
    if qty.Some? {
      return qty;
    }
    var base := if notional.Some? then notional.value else baseSize;
    if base <= 0.0 {
      return None;
    }
    q := Some(Round4Of(base / price));
  }

  /** `place_order`'s executed quantity for a buy of `qty` filled at `fill`:
      cut to the per-symbol caps, then (rounded down) to what the cash affords. */
  method OrderBuyQty(qty: real, fill: real, cash: real, held: Holding, qtyCap: real, notionalCap: real) returns (e: real)
    requires fill > 0.0
    ensures e == OrderBuySize(Down, qty, fill, cash, held, qtyCap, notionalCap)
  {
    var capped := CapBuyQty(qty, fill, held, qtyCap, notionalCap);
    assert OrderBuySize(Down, qty, fill, cash, held, qtyCap, notionalCap) == ScaleToCash(Down, capped, fill, cash);
    if cash < capped * fill {
      e := Floor4Of(cash / fill);
      assert e == Bound(Down, cash / fill);
    } else {
      e := capped;
    }
  }
}
