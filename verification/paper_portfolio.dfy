/**
 * `Position` and `PaperPortfolio` of wsapp_gui/trade_executor.py as classes
 * whose methods update their fields in place. `Position.Value` and
 * `PaperPortfolio.Book` give the values of module TradeModel that each
 * method is proved to follow.
 */
module PaperPortfolio {
  import opened TradeModel
  import opened Numbers

  /** A position in one symbol: quantity and average entry price. */
  class Position {
    const symbol: string
    var qty: real
    var avgPrice: real

    constructor (symbol: string)
      ensures this.symbol == symbol && Value() == Flat
    {
      this.symbol := symbol;
      qty := 0.0;
      avgPrice := 0.0;
    }

    /** The holding this position represents. */
    function Value(): Holding
      reads this
    {
      Holding(qty, avgPrice)
    }

    /** `Position.buy(price, qty)` */
    method Buy(price: real, q: real)
      modifies this
      ensures Value() == Bought(old(Value()), price, q)
    {
      if q <= 0.0 || price <= 0.0 {
        return;
      }
      var totalCost := avgPrice * qty + price * q;
      qty := qty + q;
      avgPrice := if qty > 0.0 then totalCost / qty else 0.0;
    }

    /** `Position.sell(price, qty)`: returns the proceeds. */
    method Sell(price: real, q: real) returns (proceeds: real)
      modifies this
      ensures (Value(), proceeds) == SellOutcome(old(Value()), price, q)
    {
      if q <= 0.0 || price <= 0.0 || qty <= 0.0 {
        assert SellOutcome(Value(), price, q) == (Value(), 0.0);
        return 0.0;
      }
      ghost var h := Value();
      var realQty := Min(q, qty);
      proceeds := price * realQty;
      qty := qty - realQty;
      if qty == 0.0 {
        avgPrice := 0.0;
      }
      assert SellOutcome(h, price, q).1 == proceeds;
      assert SellOutcome(h, price, q).0 == Value();
    }
  }

  /** The paper account: cash and the positions dict. `symbols` is the dict's
      insertion order, which is the order the source iterates it in; `held`
      is the holding each position object represents. */
  class Portfolio {
    var cash: real
    var symbols: seq<string>
    var positions: map<string, Position>
    ghost var held: map<string, Holding>

    /** The order list and the dict agree, each position sits under its own
        symbol, and `held` gives each position's value. */
    ghost predicate Valid()
      reads this, positions.Values
    {
      && Distinct(symbols)
      && (forall sym :: sym in positions <==> sym in symbols)
      && (forall sym :: sym in positions <==> sym in held)
      && (forall sym :: sym in positions ==> positions[sym].symbol == sym && positions[sym].Value() == held[sym])
    }

    /** The book this portfolio represents. */
    ghost function Book(): Book
      reads this
    {
      TradeModel.Book(cash, symbols, held)
    }

    constructor (cash: real)
      ensures Valid() && Book() == TradeModel.Book(cash, [], map[])
      ensures positions == map[]
    {
      this.cash := cash;
      symbols := [];
      positions := map[];
      held := map[];
    }

    /** `PaperPortfolio.position(symbol)`: the symbol's position, created flat
        (and appended to the dict) when missing. */
    method PositionFor(sym: string) returns (p: Position)
      requires Valid()
      modifies this
      ensures Valid() && sym in positions && p == positions[sym]
      ensures Book() == Touched(old(Book()), sym)
      ensures sym in old(positions) ==> positions == old(positions)
      ensures sym !in old(positions) ==> fresh(p) && positions == old(positions)[sym := p]
    {
      if sym in positions {
        p := positions[sym];
      } else {
        p := new Position(sym);
        positions := positions[sym := p];
        symbols := symbols + [sym];
        held := held[sym := Flat];
      }
    }

    /** `configure(paper_starting_cash=v)`'s rule: the cash is replaced only when
        it differs by more than 1e-6 and there are no positions at all. */
    method SetStartingCash(requested: real)
      requires Valid()
      modifies this
      ensures Valid() && Book() == old(Book()).(cash := StartingCash(old(Book()), requested))
      ensures positions == old(positions)
    {
      var v := Max(0.0, requested);
      if Abs(v - cash) > 0.000001 && positions == map[] {
        cash := v;
      }
      assert positions == map[] <==> held == map[] by {
        if positions != map[] {
          var k :| k in positions;
          assert k in held;
        }
      }
    }

    /** `position(sym).buy(price, q)` followed by paying `q * price` out of the
        cash, as the executor's buys do. */
    method BuyAt(sym: string, price: real, q: real)
      requires Valid() && sym in positions
      modifies this, positions[sym]
      ensures Valid() && positions == old(positions)
      ensures Book() == old(Book()).(cash := old(cash) - q * price,
                                     positions := old(held)[sym := Bought(old(held)[sym], price, q)])
    {
      var pos := positions[sym];
      pos.Buy(price, q);
      cash := cash - q * price;
      held := held[sym := pos.Value()];
      forall k | k in positions && k != sym
        ensures positions[k].Value() == held[k]
      {
        assert positions[k].symbol != sym;
      }
    }

    /** `position(sym).sell(price, q)` with the proceeds added to the cash, as
        the executor's sells do. */
    method SellAt(sym: string, price: real, q: real) returns (proceeds: real)
      requires Valid() && sym in positions
      modifies this, positions[sym]
      ensures Valid() && positions == old(positions)
      ensures var (h, p) := SellOutcome(old(held)[sym], price, q);
        proceeds == p && Book() == old(Book()).(cash := old(cash) + p, positions := old(held)[sym := h])
    {
      var pos := positions[sym];
      proceeds := pos.Sell(price, q);
      cash := cash + proceeds;
      held := held[sym := pos.Value()];
      forall k | k in positions && k != sym
        ensures positions[k].Value() == held[k]
      {
        assert positions[k].symbol != sym;
      }
    }

    /** `PaperPortfolio.equity(quotes)`: the cash, plus quantity times quote
        for each held position with a non-zero quote. */
    method Equity(quotes: map<string, real>) returns (value: real)
      requires Valid()
      ensures value == TradeModel.Equity(Book(), quotes)
    {
      value := cash;
      if quotes != map[] {
        var i := 0;
        while i < |symbols|
          invariant 0 <= i <= |symbols|
          invariant value == cash + HeldValue(symbols[..i], held, quotes)
        {
          var sym := symbols[i];
          assert symbols[..i + 1][..i] == symbols[..i];
          var pos := positions[sym];
          if sym in quotes && quotes[sym] != 0.0 && pos.qty > 0.0 {
            value := value + pos.qty * quotes[sym];
          }
          i := i + 1;
        }
        assert symbols[..|symbols|] == symbols;
      }
    }
  }
}
