/**
 * The paper-trading engine of `wsapp_gui/trade_executor.py` as values and
 * functions: holdings and their weighted-average cost, the paper book,
 * trade sizing, the order fill rules, and one function per executor
 * operation giving the executor's new state. The classes in module
 * TradeExecutor are proved to follow these functions; the properties of
 * the engine are proved here, about the functions.
 */
module TradeModel {
  import opened Wrappers
  import opened Numbers
  import opened Rounding
  import Text

  // ---------------------------------------------------------------- holdings

  /** What a `Position` holds: its quantity and average entry price. */
  datatype Holding = Holding(qty: real, avgPrice: real)

  const Flat: Holding := Holding(0.0, 0.0)

  /** The cost basis of a holding: quantity times average price. */
  function Basis(h: Holding): real {
    h.qty * h.avgPrice
  }

  /** `Position.buy(price, qty)`: ignored unless both are positive; otherwise the
      quantity grows and the average becomes the quantity-weighted one. */
  function Bought(h: Holding, price: real, q: real): (r: Holding)
    ensures q <= 0.0 || price <= 0.0 ==> r == h
    ensures q > 0.0 && price > 0.0 ==> r.qty == h.qty + q
  {
    if q <= 0.0 || price <= 0.0 then h
    else
      var total := h.avgPrice * h.qty + price * q;
      var nq := h.qty + q;
      Holding(nq, if nq > 0.0 then total / nq else 0.0)
  }

  /** After a buy into a holding with non-negative quantity and price, the new
      average lies between the old average and the buy price. */
  lemma BoughtAverageBetween(h: Holding, price: real, q: real)
    requires h.qty >= 0.0 && h.avgPrice >= 0.0 && price > 0.0 && q > 0.0
    ensures Min(h.avgPrice, price) <= Bought(h, price, q).avgPrice <= Max(h.avgPrice, price)
    ensures h.qty == 0.0 ==> Bought(h, price, q).avgPrice == price
  {
    var nq := h.qty + q;
    var total := h.avgPrice * h.qty + price * q;
    assert Bought(h, price, q).avgPrice == total / nq;
    WeightedBetween(h.avgPrice, h.qty, price, q);
    QuotientBetween(total, Min(h.avgPrice, price), Max(h.avgPrice, price), nq);
  }

  /** A buy into a holding that is not short adds its cost to the cost basis counted against the notional cap. */
  lemma BoughtBasis(h: Holding, price: real, q: real)
    requires h.qty >= 0.0 && price > 0.0 && q > 0.0
    ensures Bought(h, price, q).qty == h.qty + q
    ensures Basis(Bought(h, price, q)) == CurrentNotional(h) + q * price
  {
    var nq := h.qty + q;
    var total := h.avgPrice * h.qty + price * q;
    assert Bought(h, price, q) == Holding(nq, total / nq);
    assert nq * (total / nq) == total;
    assert CurrentNotional(h) == h.qty * h.avgPrice;
  }

  /** A quantity-weighted sum of two prices lies between their minimum and maximum times the total quantity. */
  lemma WeightedBetween(a: real, x: real, p: real, q: real)
    requires x >= 0.0 && q > 0.0
    ensures Min(a, p) * (x + q) <= a * x + p * q <= Max(a, p) * (x + q)
  {
    var lo, hi := Min(a, p), Max(a, p);
    MulMono(lo, a, x);
    MulMono(lo, p, q);
    MulMono(a, hi, x);
    MulMono(p, hi, q);
    assert lo * (x + q) == lo * x + lo * q;
    assert hi * (x + q) == hi * x + hi * q;
  }

  /** Dividing by a positive `n` keeps a value bracketed by `lo * n` and `hi * n` between `lo` and `hi`. */
  lemma QuotientBetween(t: real, lo: real, hi: real, n: real)
    requires n > 0.0 && lo * n <= t <= hi * n
    ensures lo <= t / n <= hi
  {
    var x := t / n;
    assert x * n == t;
    if x < lo {
      MulStrict(x, lo, n);
      assert false;
    }
    if x > hi {
      MulStrict(hi, x, n);
      assert false;
    }
  }

  /** `Position.sell(price, qty)`: the new holding and the proceeds returned. */
  function SellOutcome(h: Holding, price: real, q: real): (r: (Holding, real))
    ensures q <= 0.0 || price <= 0.0 || h.qty <= 0.0 ==> r == (h, 0.0)
    ensures q > 0.0 && price > 0.0 && h.qty > 0.0 ==>
      && 0.0 <= r.0.qty < h.qty
      && r.1 == price * (h.qty - r.0.qty)
      && h.qty - r.0.qty == Min(q, h.qty)
      && (r.0.qty == 0.0 ==> r.0.avgPrice == 0.0)
      && (r.0.qty > 0.0 ==> r.0.avgPrice == h.avgPrice)
  {
    if q <= 0.0 || price <= 0.0 || h.qty <= 0.0 then (h, 0.0)
    else
      var sold := Min(q, h.qty);
      var nq := h.qty - sold;
      (Holding(nq, if nq == 0.0 then 0.0 else h.avgPrice), price * sold)
  }

  /** A sell that asks for at least the whole holding flattens it. */
  lemma SellAllFlattens(h: Holding, price: real, q: real)
    requires price > 0.0 && h.qty > 0.0 && q >= h.qty
    ensures SellOutcome(h, price, q) == (Flat, price * h.qty)
  {
  }

  // ------------------------------------------------------------- paper book

  /** `PaperPortfolio`: cash, and the positions dict with its insertion order. */
  datatype Book = Book(cash: real, symbols: seq<string>, positions: map<string, Holding>)

  predicate Distinct(s: seq<string>) {
    forall i, j :: 0 <= i < j < |s| ==> s[i] != s[j]
  }

  /** The order list and the dict hold the same symbols, each once. */
  ghost predicate WellFormed(b: Book) {
    Distinct(b.symbols) && forall sym :: sym in b.positions <==> sym in b.symbols
  }

  /** No holding is short and no average price is negative. */
  ghost predicate Sound(b: Book) {
    forall sym :: sym in b.positions ==> b.positions[sym].qty >= 0.0 && b.positions[sym].avgPrice >= 0.0
  }

  /** `PaperPortfolio.position(symbol)`: the book once the symbol has an entry
      (a flat position is created at the end of the order when missing). */
  function Touched(b: Book, sym: string): (r: Book)
    requires WellFormed(b)
    ensures WellFormed(r) && sym in r.positions && r.cash == b.cash
    ensures sym in b.positions ==> r == b
    ensures sym !in b.positions ==> r.positions == b.positions[sym := Flat] && r.symbols == b.symbols + [sym]
  {
    if sym in b.positions then b
    else Book(b.cash, b.symbols + [sym], b.positions[sym := Flat])
  }

  /** `configure`'s cash rule: a new starting cash replaces the cash only when it
      differs by more than 1e-6 and the portfolio has no positions at all. */
  function StartingCash(b: Book, requested: real): real {
    var v := Max(0.0, requested);
    if Abs(v - b.cash) > 0.000001 && b.positions == map[] then v else b.cash
  }

  /** The symbol's holding, flat when the book has no entry for it. */
  function HeldOrFlat(b: Book, sym: string): (h: Holding)
    ensures sym !in b.positions ==> h == Flat
    ensures sym in b.positions ==> h == b.positions[sym]
  {
    if sym in b.positions then b.positions[sym] else Flat
  }

  /** The value of the held positions priced by `quotes`: positions with a
      positive quantity and a non-zero quote, in dict order. */
  function HeldValue(syms: seq<string>, positions: map<string, Holding>, quotes: map<string, real>): real
  {
    if syms == [] then 0.0
    else
      var sym := syms[|syms| - 1];
      var rest := HeldValue(syms[..|syms| - 1], positions, quotes);
      if sym in positions && sym in quotes && quotes[sym] != 0.0 && positions[sym].qty > 0.0
      then rest + positions[sym].qty * quotes[sym]
      else rest
  }

  /** `PaperPortfolio.equity(quotes)`: cash, plus the held value when quotes are given. */
  function Equity(b: Book, quotes: map<string, real>): real {
    if quotes == map[] then b.cash else b.cash + HeldValue(b.symbols, b.positions, quotes)
  }

  /** With non-negative quotes the held value is never negative, so equity is at least cash. */
  lemma {:induction false} HeldValueNonNegative(syms: seq<string>, positions: map<string, Holding>, quotes: map<string, real>)
    requires forall sym :: sym in quotes ==> quotes[sym] >= 0.0
    ensures HeldValue(syms, positions, quotes) >= 0.0
  {
    if syms != [] {
      HeldValueNonNegative(syms[..|syms| - 1], positions, quotes);
    }
  }

  // ----------------------------------------------------------------- sizing

  /** How a bound-enforcing `round(x, 4)` behaves: as written (to nearest), or rounded down. */
  datatype BoundRounding = Nearest | Down

  ghost function Bound(m: BoundRounding, x: real): real {
    match m
    case Nearest => Round4(x)
    case Down => Floor4(x)
  }

  /** The outcome of `_exec_buy`'s sizing: refused before the position lookup,
      refused after it (the lookup has created the position), or a quantity. */
  datatype Sizing = RefusedEarly | RefusedAfterLookup | Sized(qty: real)

  /** The cost basis counted against the notional cap. */
  function CurrentNotional(h: Holding): real {
    if h.qty > 0.0 then h.qty * h.avgPrice else 0.0
  }

  /** When a quantity's cost exceeds the cash, the quantity the cash affords. */
  ghost function ScaleToCash(m: BoundRounding, q: real, price: real, cash: real): real
    requires price > 0.0
  {
    if cash < q * price then Bound(m, cash / price) else q
  }

  /** The quantity cut to what the per-symbol quantity cap still allows (a cap of 0 is no cap). */
  ghost function CapQty(m: BoundRounding, q: real, held: Holding, qtyCap: real): real {
    if qtyCap > 0.0 then Min(q, Bound(m, Max(0.0, qtyCap - held.qty))) else q
  }

  /** The quantity cut to what the per-symbol notional cap still allows at `price` (a cap of 0 is no cap). */
  ghost function CapNotional(m: BoundRounding, q: real, price: real, held: Holding, notionalCap: real): real
    requires price > 0.0
  {
    if notionalCap > 0.0 then Min(q, Bound(m, Max(0.0, notionalCap - CurrentNotional(held)) / price)) else q
  }

  /** Rounded down, the cash scale-down never costs more than the cash and never grows the quantity. */
  lemma ScaleToCashDown(q: real, price: real, cash: real)
    requires price > 0.0
    ensures ScaleToCash(Down, q, price, cash) <= q
    ensures ScaleToCash(Down, q, price, cash) * price <= cash
  {
    if cash < q * price {
      FloorTimes(cash, price);
      assert cash / price < q by { DivLess(cash, q, price); }
    } else {
      assert q <= cash / price by { DivLess2(q, cash, price); }
    }
  }

  lemma DivLess(c: real, q: real, p: real)
    requires p > 0.0 && c < q * p
    ensures c / p < q
  {
    assert (c / p) * p == c;
  }

  lemma DivLess2(q: real, c: real, p: real)
    requires p > 0.0 && q * p <= c
    ensures q <= c / p && q * p <= c
  {
    assert (c / p) * p == c;
  }

  /** Rounded down, a positive quantity left by the quantity cap fits under the cap. */
  lemma CapQtyDown(q: real, held: Holding, qtyCap: real)
    ensures CapQty(Down, q, held, qtyCap) <= q
    ensures qtyCap > 0.0 && CapQty(Down, q, held, qtyCap) > 0.0 ==> held.qty + CapQty(Down, q, held, qtyCap) <= qtyCap
  {
  }

  /** Rounded down, a positive quantity left by the notional cap keeps the cost basis under the cap. */
  lemma CapNotionalDown(q: real, price: real, held: Holding, notionalCap: real)
    requires price > 0.0
    ensures CapNotional(Down, q, price, held, notionalCap) <= q
    ensures notionalCap > 0.0 && CapNotional(Down, q, price, held, notionalCap) > 0.0 ==>
      CurrentNotional(held) + CapNotional(Down, q, price, held, notionalCap) * price <= notionalCap
  {
    if notionalCap > 0.0 {
      var allowed := Max(0.0, notionalCap - CurrentNotional(held));
      var r := CapNotional(Down, q, price, held, notionalCap);
      FloorTimes(allowed, price);
      MulMono(r, Floor4(allowed / price), price);
    }
  }

  /** `Floor4(x / p) * p` never exceeds `x`. */
  lemma FloorTimes(x: real, p: real)
    requires p > 0.0
    ensures Floor4(x / p) * p <= x
  {
    assert Floor4(x / p) <= x / p;
    assert (x / p) * p == x;
  }

  lemma MulStrict(a: real, b: real, p: real)
    requires a < b && p > 0.0
    ensures a * p < b * p
  {
  }

  lemma MulMono(a: real, b: real, p: real)
    requires a <= b && p >= 0.0
    ensures a * p <= b * p
  {
  }

  /** `_exec_buy`'s quantity before the position lookup: base size over price,
      scaled down to the cash. Not positive when the buy is refused there. */
  ghost function CashQty(m: BoundRounding, baseSize: real, price: real, cash: real): real
    requires price > 0.0
  {
    var notional := Max(0.0, baseSize);
    if notional <= 0.0 then 0.0
    else
      var q0 := Round4(notional / price);
      if q0 <= 0.0 then 0.0 else ScaleToCash(m, q0, price, cash)
  }

  /** A quantity cut to the per-symbol quantity cap and then the notional cap. */
  ghost function CappedQty(m: BoundRounding, q: real, price: real, held: Holding, qtyCap: real, notionalCap: real): real
    requires price > 0.0
  {
    CapNotional(m, CapQty(m, q, held, qtyCap), price, held, notionalCap)
  }

  /** `_exec_buy`'s quantity for a signal buy at `price` (paper mode): base size
      over price, scaled down to the cash, then cut to the per-symbol quantity
      and notional caps. `held` is the symbol's holding (flat when missing). */
  ghost function SignalBuySize(m: BoundRounding, baseSize: real, price: real, cash: real, held: Holding,
                         qtyCap: real, notionalCap: real): Sizing
    requires price > 0.0
  {
    var q1 := CashQty(m, baseSize, price, cash);
    if q1 <= 0.0 then RefusedEarly
    else
      var q3 := CappedQty(m, q1, price, held, qtyCap, notionalCap);
      if q3 <= 0.0 then RefusedAfterLookup else Sized(q3)
  }

  /** With bounds rounded down, a signal buy spends at most the cash and keeps
      the symbol within both per-symbol caps. */
  lemma SignalBuyWithinLimits(baseSize: real, price: real, cash: real, held: Holding, qtyCap: real, notionalCap: real)
    requires price > 0.0
    ensures SignalBuySize(Down, baseSize, price, cash, held, qtyCap, notionalCap).Sized? ==>
      WithinLimits(SignalBuySize(Down, baseSize, price, cash, held, qtyCap, notionalCap).qty, price, cash, held, qtyCap, notionalCap)
  {
    var q1 := CashQty(Down, baseSize, price, cash);
    if q1 > 0.0 {
      CashQtyWithinCash(baseSize, price, cash);
      CappedWithinLimits(q1, price, cash, held, qtyCap, notionalCap);
    }
  }

  /** A positive quantity `q` bought at `price` costs at most `cash` and keeps
      the holding within both per-symbol caps (0 meaning no cap). */
  ghost predicate WithinLimits(q: real, price: real, cash: real, held: Holding, qtyCap: real, notionalCap: real) {
    && q > 0.0
    && q * price <= cash
    && (qtyCap > 0.0 ==> held.qty + q <= qtyCap)
    && (notionalCap > 0.0 ==> CurrentNotional(held) + q * price <= notionalCap)
  }

  /** Rounded down, a positive quantity before the lookup is paid for by the cash. */
  lemma CashQtyWithinCash(baseSize: real, price: real, cash: real)
    requires price > 0.0
    ensures CashQty(Down, baseSize, price, cash) > 0.0 ==> CashQty(Down, baseSize, price, cash) * price <= cash
  {
    var notional := Max(0.0, baseSize);
    if notional > 0.0 {
      ScaleToCashDown(Round4(notional / price), price, cash);
    }
  }

  /** The same bounds, for a sizing known to give `q`. */
  lemma SizedWithinLimits(baseSize: real, price: real, cash: real, held: Holding, qtyCap: real, notionalCap: real, q: real)
    requires price > 0.0 && SignalBuySize(Down, baseSize, price, cash, held, qtyCap, notionalCap) == Sized(q)
    ensures q > 0.0 && q * price <= cash
    ensures qtyCap > 0.0 ==> held.qty + q <= qtyCap
    ensures notionalCap > 0.0 ==> CurrentNotional(held) + q * price <= notionalCap
  {
    SignalBuyWithinLimits(baseSize, price, cash, held, qtyCap, notionalCap);
  }

  /** Capping a quantity the cash pays for, rounded down, stays within the
      cash and both caps. */
  lemma CappedWithinLimits(q1: real, price: real, cash: real, held: Holding, qtyCap: real, notionalCap: real)
    requires price > 0.0 && q1 * price <= cash
    ensures CappedQty(Down, q1, price, held, qtyCap, notionalCap) > 0.0 ==>
      WithinLimits(CappedQty(Down, q1, price, held, qtyCap, notionalCap), price, cash, held, qtyCap, notionalCap)
  {
    var q2 := CapQty(Down, q1, held, qtyCap);
    var q3 := CapNotional(Down, q2, price, held, notionalCap);
    CapQtyDown(q1, held, qtyCap);
    CapNotionalDown(q2, price, held, notionalCap);
    CostChain(q1, q2, q3, price, cash, held.qty, qtyCap, CurrentNotional(held), notionalCap);
  }

  /** The bounds of the three sizing steps, chained. */
  lemma CostChain(q1: real, q2: real, q3: real, price: real, cash: real,
                  heldQty: real, qtyCap: real, notional: real, notionalCap: real)
    requires q3 <= q2 <= q1 && price > 0.0 && q1 * price <= cash
    requires qtyCap > 0.0 && q2 > 0.0 ==> heldQty + q2 <= qtyCap
    requires notionalCap > 0.0 && q3 > 0.0 ==> notional + q3 * price <= notionalCap
    ensures q3 > 0.0 ==>
      && q3 * price <= cash
      && (qtyCap > 0.0 ==> heldQty + q3 <= qtyCap)
      && (notionalCap > 0.0 ==> notional + q3 * price <= notionalCap)
  {
    MulMono(q3, q1, price);
  }

  /** As written, the cash scale-down rounds to nearest and can spend more than
      the cash: 2.0 of cash at price 3.0 buys 0.6667, costing 2.0001. */
  lemma SignalBuyOverspendsCash()
    ensures SignalBuySize(Nearest, 1000.0, 3.0, 2.0, Flat, 0.0, 0.0) == Sized(0.6667)
    ensures 0.6667 * 3.0 > 2.0
  {
    Round4Is(1000.0 / 3.0);
    assert (10000000.0 / 3.0).Floor == 3333333;
    Round4Is(2.0 / 3.0);
    assert (20000.0 / 3.0).Floor == 6666;
  }

  /** As written, the quantity cap rounds to nearest and can be exceeded: a cap
      of 0.00007 on a flat symbol allows a buy of 0.0001. */
  lemma SignalBuyExceedsQtyCap()
    ensures SignalBuySize(Nearest, 1000.0, 1.0, 100000.0, Flat, 0.00007, 0.0) == Sized(0.0001)
    ensures Flat.qty + 0.0001 > 0.00007
  {
    Round4Is(1000.0);
    Round4Is(0.00007);
  }

  /** As written, the notional cap rounds to nearest and can be exceeded: a cap
      of 2.0 at price 3.0 allows 0.6667, a cost basis of 2.0001. */
  lemma SignalBuyExceedsNotionalCap()
    ensures SignalBuySize(Nearest, 1000.0, 3.0, 100000.0, Flat, 0.0, 2.0) == Sized(0.6667)
    ensures CurrentNotional(Flat) + 0.6667 * 3.0 > 2.0
  {
    Round4Is(1000.0 / 3.0);
    assert (10000000.0 / 3.0).Floor == 3333333;
    Round4Is(2.0 / 3.0);
    assert (20000.0 / 3.0).Floor == 6666;
  }

  /** `place_order`'s executed quantity for a filled buy of `qty` at `fill`:
      cut to the per-symbol caps, then replaced by what the cash affords when it
      does not cover the cost. A result <= 0 is rejected as insufficient cash. */
  ghost function OrderBuySize(m: BoundRounding, qty: real, fill: real, cash: real, held: Holding,
                        qtyCap: real, notionalCap: real): real
    requires fill > 0.0
  {
    ScaleToCash(m, CapNotional(m, CapQty(m, qty, held, qtyCap), fill, held, notionalCap), fill, cash)
  }

  /** With bounds rounded down, a filled order buy never exceeds the requested
      quantity, the cash, or either per-symbol cap. */
  lemma OrderBuyWithinLimits(qty: real, fill: real, cash: real, held: Holding, qtyCap: real, notionalCap: real)
    requires fill > 0.0
    ensures var e := OrderBuySize(Down, qty, fill, cash, held, qtyCap, notionalCap);
      e > 0.0 ==>
        && e <= qty
        && e * fill <= cash
        && (qtyCap > 0.0 ==> held.qty + e <= qtyCap)
        && (notionalCap > 0.0 ==> CurrentNotional(held) + e * fill <= notionalCap)
  {
    var e1 := CapQty(Down, qty, held, qtyCap);
    var e2 := CapNotional(Down, e1, fill, held, notionalCap);
    var e := ScaleToCash(Down, e2, fill, cash);
    CapQtyDown(qty, held, qtyCap);
    CapNotionalDown(e1, fill, held, notionalCap);
    ScaleToCashDown(e2, fill, cash);
    if e > 0.0 {
      MulMono(e, e2, fill);
    }
  }

  /** As written, the cash scale-down of `place_order` rounds to nearest and can
      spend more than the cash: a market buy of 1.0 at 3.0 with 2.0 of cash
      executes 0.6667, costing 2.0001. */
  lemma OrderBuyOverspendsCash()
    ensures OrderBuySize(Nearest, 1.0, 3.0, 2.0, Flat, 0.0, 0.0) == 0.6667
    ensures 0.6667 * 3.0 > 2.0
  {
    Round4Is(2.0 / 3.0);
    assert (20000.0 / 3.0).Floor == 6666;
  }

  /** As written, `place_order`'s quantity cap rounds to nearest and can be
      exceeded: a cap of 0.00007 on a flat symbol lets a buy of 1.0 execute 0.0001. */
  lemma OrderBuyExceedsQtyCap()
    ensures OrderBuySize(Nearest, 1.0, 1.0, 100000.0, Flat, 0.00007, 0.0) == 0.0001
    ensures Flat.qty + 0.0001 > 0.00007
  {
    Round4Is(0.00007);
  }
}
