/**
 * utils/telegram_commands.py: the parser of `/buy` and `/sell` commands sent
 * over Telegram. Text is ASCII (`lower`, `upper`, `isalnum` and `split` are
 * taken on ASCII letters, digits and whitespace).
 *
 * Python's `float(...)` is not modelled digit by digit: every member takes
 * `num`, the number a non-empty comma-free token denotes (or None where
 * `float` raises), and `ParseFloat` adds what `_parse_float` itself does.
 */
module TelegramCommands {
  import opened Wrappers
  import opened Text

  datatype Side = Buy | Sell
  datatype OrderType = Market | Limit | Stop | StopLimit
  datatype TimeInForce = Day | Gtc

  /** The optional order parameters the token loop fills in. */
  datatype Params = Params(
    qty: Option<real>,
    notional: Option<real>,
    orderType: OrderType,
    limitPrice: Option<real>,
    stopPrice: Option<real>,
    timeInForce: TimeInForce)

  /** The dict `parse_trade_command` returns. */
  datatype Command = Command(side: Side, symbol: string, params: Params)

  /** The defaults: a market order good for the day, nothing else given. */
  const Defaults := Params(None, None, Market, None, None, Day)

  /** `s.replace(c, '')` */
  function Remove(s: string, c: char): (r: string)
    ensures c !in r && |r| <= |s|
    ensures forall x :: x in r ==> x in s
  {
    if s == [] then [] else (if s[0] == c then [] else [s[0]]) + Remove(s[1..], c)
  }

  /** `s.lstrip(c)` */
  function LStripChar(s: string, c: char): (r: string)
    ensures r == [] || r[0] != c
    ensures |r| <= |s| && r == s[|s| - |r|..]
  {
    if s != [] && s[0] == c then LStripChar(s[1..], c) else s
  }

  predicate IsAlnumChar(c: char) {
    IsDigit(c) || 'a' <= c <= 'z' || 'A' <= c <= 'Z'
  }

  /** `s.isalnum()`: non-empty and letters and digits only. */
  predicate IsAlnum(s: string) {
    s != [] && forall i :: 0 <= i < |s| ==> IsAlnumChar(s[i])
  }

  /** `_parse_float(tok)`: commas are dropped first; `float('')` raises. */
  function ParseFloat(num: string -> Option<real>, tok: string): Option<real> {
    var t := Remove(tok, ',');
    if t == [] then None else num(t)
  }

  /** The new value when one was parsed, the old one otherwise. */
  function Override(old_: Option<real>, new_: Option<real>): (r: Option<real>)
    ensures r.Some? <==> old_.Some? || new_.Some?
  {
    if new_.Some? then new_ else old_
  }

  /** `tif` values outside `day` and `gtc` leave the setting as it was. */
  function TifFrom(word: string, current: TimeInForce): TimeInForce {
    if word == "day" then Day else if word == "gtc" then Gtc else current
  }

  /** What a lower-cased token is to the loop. */
  datatype Word = QtyWord | DollarWord | DollarPrefixed | MarketWord | LimitWord | StopWord
                | StopLimitWord | TifWord | OtherWord

  function WordOf(low: string): Word {
    if low == "qty" then QtyWord
    else if low == "$" then DollarWord
    else if StartsWith(low, "$") then DollarPrefixed
    else if low == "mkt" || low == "market" then MarketWord
    else if low == "limit" then LimitWord
    else if low == "stop" then StopWord
    else if low == "stoplimit" || low == "stop_limit" then StopLimitWord
    else if low == "tif" || low == "time_in_force" then TifWord
    else OtherWord
  }

  /** One turn of the token loop at index `i`: the next index and the parameters.
      The two-token form `$ N` is checked before `$N` here; see `StepAsWritten`. */
  function Step(num: string -> Option<real>, parts: seq<string>, i: nat, p: Params): (r: (nat, Params))
    requires i < |parts|
    ensures i < r.0 <= |parts|
  {
    var n := |parts|;
    var low := Lower(parts[i]);
    var word := WordOf(low);
    if word == QtyWord && i + 1 < n then
      (i + 2, p.(qty := Override(p.qty, ParseFloat(num, parts[i + 1]))))
    else if word == DollarWord && i + 1 < n then
      (i + 2, p.(notional := Override(p.notional, ParseFloat(num, parts[i + 1]))))
    else if word == DollarWord || word == DollarPrefixed then
      (i + 1, p.(notional := Override(p.notional, ParseFloat(num, low[1..]))))
    else if word == MarketWord then
      (i + 1, p.(orderType := Market))
    else if word == LimitWord && i + 1 < n then
      (i + 2, p.(orderType := Limit, limitPrice := Override(p.limitPrice, ParseFloat(num, parts[i + 1]))))
    else if word == StopWord && i + 1 < n then
      (i + 2, p.(orderType := Stop, stopPrice := Override(p.stopPrice, ParseFloat(num, parts[i + 1]))))
    else if word == StopLimitWord && i + 2 < n then
      (i + 3, p.(orderType := StopLimit,
                 stopPrice := Override(p.stopPrice, ParseFloat(num, parts[i + 1])),
                 limitPrice := Override(p.limitPrice, ParseFloat(num, parts[i + 2]))))
    else if word == TifWord && i + 1 < n then
      (i + 2, p.(timeInForce := TifFrom(Lower(parts[i + 1]), p.timeInForce)))
    else if ParseFloat(num, parts[i]).Some? && p.qty.None? then
      (i + 1, p.(qty := ParseFloat(num, parts[i])))
    else
      (i + 1, p)
  }

  /** The loop from index `i` to the end of the tokens. */
  function ParamsFrom(num: string -> Option<real>, parts: seq<string>, i: nat, p: Params): Params
    requires i <= |parts|
    decreases |parts| - i
  {
    if i == |parts| then p
    else
      var (j, q) := Step(num, parts, i, p);
      ParamsFrom(num, parts, j, q)
  }

  /** One turn of the loop in the source's order: a token starting with `$`
      is read as `$N` before the two-token `$ N` form is tried, so that form
      is never reached. */
  function StepAsWritten(num: string -> Option<real>, parts: seq<string>, i: nat, p: Params): (r: (nat, Params))
    requires i < |parts|
    ensures i < r.0 <= |parts|
  {
    var low := Lower(parts[i]);
    var word := WordOf(low);
    if word == QtyWord && i + 1 < |parts| then Step(num, parts, i, p)
    else if word == DollarWord || word == DollarPrefixed then
      (i + 1, p.(notional := Override(p.notional, ParseFloat(num, low[1..]))))
    else Step(num, parts, i, p)
  }

  /** The loop of the source as written. */
  function ParamsFromAsWritten(num: string -> Option<real>, parts: seq<string>, i: nat, p: Params): Params
    requires i <= |parts|
    decreases |parts| - i
  {
    if i == |parts| then p
    else
      var (j, q) := StepAsWritten(num, parts, i, p);
      ParamsFromAsWritten(num, parts, j, q)
  }

  /** The side named by the first token once its leading slashes are gone. */
  function SideOf(first: string): Option<Side> {
    var w := Lower(LStripChar(first, '/'));
    if w == "buy" then Some(Buy) else if w == "sell" then Some(Sell) else None
  }

  /** The symbol check: a symbol that is not alphanumeric is refused only
      when nothing is left after dropping dots and dashes. */
  predicate InvalidSymbol(symbol: string) {
    !IsAlnum(symbol) && Remove(Remove(symbol, '.'), '-') == []
  }

  /** `parse_trade_command(text)`: the command, or the `ValueError` message. */
  function Parse(num: string -> Option<real>, text: string): Result<Command> {
    var parts := Words(text);
    if parts == [] then Err("empty command")
    else match SideOf(parts[0])
      case None => Err("unsupported command; expected /buy or /sell")
      case Some(side) =>
        if |parts| < 2 then Err("symbol required")
        else
          var symbol := Upper(parts[1]);
          if InvalidSymbol(symbol) then Err("invalid symbol")
          else Ok(Command(side, symbol, ParamsFrom(num, parts, 2, Defaults)))
  }

  /** The parser itself, a loop over the tokens after the symbol. */
  method ParseTradeCommand(num: string -> Option<real>, text: string) returns (r: Result<Command>)
    ensures r == Parse(num, text)
  {
    var parts := Words(text);
    if parts == [] {
      return Err("empty command");
    }
    var first := Lower(LStripChar(parts[0], '/'));
    if first != "buy" && first != "sell" {
      return Err("unsupported command; expected /buy or /sell");
    }
    var side := if first == "buy" then Buy else Sell;
    if |parts| < 2 {
      return Err("symbol required");
    }
    var symbol := Upper(parts[1]);
    if !IsAlnum(symbol) {
      var sym := Remove(Remove(symbol, '.'), '-');
      if sym == [] {
        return Err("invalid symbol");
      }
    }
    var params := Defaults;
    var i := 2;
    while i < |parts|
      invariant 2 <= i <= |parts|
      invariant ParamsFrom(num, parts, i, params) == ParamsFrom(num, parts, 2, Defaults)
      decreases |parts| - i
    {
      i, params := Turn(num, parts, i, params);
    }
    r := Ok(Command(side, symbol, params));
  }

  /** One turn of the loop: the token at `i` and the arguments it consumes. */
  method Turn(num: string -> Option<real>, parts: seq<string>, i: nat, p: Params) returns (next: nat, q: Params)
    requires i < |parts|
    ensures next == Step(num, parts, i, p).0 && q == Step(num, parts, i, p).1
  {
    var n := |parts|;
    var tok := parts[i];
    var low := Lower(tok);
    var word := WordOf(low);
    q := p;
    if word == QtyWord && i + 1 < n {
      var v := ParseFloat(num, parts[i + 1]);
      if v.Some? {
        q := q.(qty := v);
      }
      return i + 2, q;
    }
    if word == DollarWord && i + 1 < n {
      var v := ParseFloat(num, parts[i + 1]);
      if v.Some? {
        q := q.(notional := v);
      }
      return i + 2, q;
    }
    if word == DollarWord || word == DollarPrefixed {
      var v := ParseFloat(num, low[1..]);
      if v.Some? {
        q := q.(notional := v);
      }
      return i + 1, q;
    }
    if word == MarketWord {
      return i + 1, q.(orderType := Market);
    }
    if word == LimitWord && i + 1 < n {
      q := q.(orderType := Limit);
      var lp := ParseFloat(num, parts[i + 1]);
      if lp.Some? {
        q := q.(limitPrice := lp);
      }
      return i + 2, q;
    }
    if word == StopWord && i + 1 < n {
      q := q.(orderType := Stop);
      var sp := ParseFloat(num, parts[i + 1]);
      if sp.Some? {
        q := q.(stopPrice := sp);
      }
      return i + 2, q;
    }
    if word == StopLimitWord && i + 2 < n {
      q := q.(orderType := StopLimit);
      var sp := ParseFloat(num, parts[i + 1]);
      var lp := ParseFloat(num, parts[i + 2]);
      if sp.Some? {
        q := q.(stopPrice := sp);
      }
      if lp.Some? {
        q := q.(limitPrice := lp);
      }
      return i + 3, q;
    }
    if word == TifWord && i + 1 < n {
      var tif := Lower(parts[i + 1]);
      if tif == "day" {
        q := q.(timeInForce := Day);
      } else if tif == "gtc" {
        q := q.(timeInForce := Gtc);
      }
      return i + 2, q;
    }
    var val := ParseFloat(num, tok);
    if val.Some? && q.qty.None? {
      return i + 1, q.(qty := val);
    }
    return i + 1, q;
  }

  // ----- Properties -----

  /** Empty or whitespace-only text is refused as an empty command. */
  lemma BlankIsEmptyCommand(num: string -> Option<real>, text: string)
    requires forall i :: 0 <= i < |text| ==> IsSpace(text[i])
    ensures Parse(num, text) == Err("empty command")
  {
    StripAllSpace(text);
  }

  /** A parsed command names the side its first word asks for, in any case and
      after any slashes, and carries the second word upper-cased. */
  lemma ParsedCommand(num: string -> Option<real>, text: string)
    requires Parse(num, text).Ok?
    ensures |Words(text)| >= 2
    ensures var c := Parse(num, text).value;
      && c.symbol == Upper(Words(text)[1]) && Upper(c.symbol) == c.symbol
      && (c.side == Buy <==> Lower(LStripChar(Words(text)[0], '/')) == "buy")
      && (c.side == Sell <==> Lower(LStripChar(Words(text)[0], '/')) == "sell")
      && (|Words(text)| == 2 ==> c.params == Defaults)
  {
    UpperIdempotent(Words(text)[1]);
  }

  /** Any first word other than buy/sell, and a missing symbol, are refused. */
  lemma RefusedCommands(num: string -> Option<real>, text: string)
    requires Words(text) != []
    ensures SideOf(Words(text)[0]).None? ==> Parse(num, text) == Err("unsupported command; expected /buy or /sell")
    ensures SideOf(Words(text)[0]).Some? && |Words(text)| < 2 ==> Parse(num, text) == Err("symbol required")
  {
  }

  /** The symbol check refuses exactly the symbols made of dots and dashes alone. */
  lemma InvalidSymbolIff(symbol: string)
    requires symbol != []
    ensures InvalidSymbol(symbol) <==> forall i :: 0 <= i < |symbol| ==> symbol[i] == '.' || symbol[i] == '-'
  {
    if forall i :: 0 <= i < |symbol| ==> symbol[i] == '.' || symbol[i] == '-' {
      assert !IsAlnumChar(symbol[0]);
      RemoveDotsDashes(symbol);
    } else {
      var k :| 0 <= k < |symbol| && symbol[k] != '.' && symbol[k] != '-';
      RemoveKeeps(symbol, '.', k);
      var j :| 0 <= j < |Remove(symbol, '.')| && Remove(symbol, '.')[j] == symbol[k];
      RemoveKeeps(Remove(symbol, '.'), '-', j);
    }
  }

  lemma {:induction false} RemoveDotsDashes(s: string)
    requires forall i :: 0 <= i < |s| ==> s[i] == '.' || s[i] == '-'
    ensures Remove(Remove(s, '.'), '-') == []
  {
    if s != [] {
      RemoveDotsDashes(s[1..]);
      if s[0] == '.' {
        assert Remove(s, '.') == Remove(s[1..], '.');
      } else {
        assert Remove(s, '.') == [s[0]] + Remove(s[1..], '.');
        assert Remove(s, '.')[1..] == Remove(s[1..], '.');
      }
    }
  }

  /** A character other than `c` survives `Remove(s, c)`. */
  lemma {:induction false} RemoveKeeps(s: string, c: char, k: nat)
    requires k < |s| && s[k] != c
    ensures exists j :: 0 <= j < |Remove(s, c)| && Remove(s, c)[j] == s[k]
  {
    if k == 0 {
      assert Remove(s, c)[0] == s[0];
    } else {
      RemoveKeeps(s[1..], c, k - 1);
      var j :| 0 <= j < |Remove(s[1..], c)| && Remove(s[1..], c)[j] == s[1..][k - 1];
      var pre := if s[0] == c then [] else [s[0]];
      assert Remove(s, c) == pre + Remove(s[1..], c);
      assert Remove(s, c)[|pre| + j] == s[k];
    }
  }

  /** No token from `i` on is any of `words` (compared lower-cased). */
  predicate NoneOf(parts: seq<string>, i: nat, words: set<string>) {
    forall j :: i <= j < |parts| ==> Lower(parts[j]) !in words
  }

  /** Once a quantity is set, only a `qty` keyword can change it: a bare number no longer does. */
  lemma {:induction false} QtyKept(num: string -> Option<real>, parts: seq<string>, i: nat, p: Params)
    requires i <= |parts| && p.qty.Some? && NoneOf(parts, i, {"qty"})
    ensures ParamsFrom(num, parts, i, p).qty == p.qty
    decreases |parts| - i
  {
    if i < |parts| {
      var (j, q) := Step(num, parts, i, p);
      assert q.qty == p.qty by { assert Lower(parts[i]) != "qty"; }
      QtyKept(num, parts, j, q);
    }
  }

  /** Without a token starting with `$`, the notional stays as it was. */
  lemma {:induction false} NotionalKept(num: string -> Option<real>, parts: seq<string>, i: nat, p: Params)
    requires i <= |parts|
    requires forall j :: i <= j < |parts| ==> !StartsWith(Lower(parts[j]), "$")
    ensures ParamsFrom(num, parts, i, p).notional == p.notional
    decreases |parts| - i
  {
    if i < |parts| {
      var (j, q) := Step(num, parts, i, p);
      assert q.notional == p.notional by {
        assert !StartsWith(Lower(parts[i]), "$");
        assert Lower(parts[i]) != "$" by {
          if Lower(parts[i]) == "$" { assert StartsWith(Lower(parts[i]), "$"); }
        }
      }
      NotionalKept(num, parts, j, q);
    }
  }

  /** The order type only changes on an order-type keyword. */
  lemma {:induction false} OrderTypeKept(num: string -> Option<real>, parts: seq<string>, i: nat, p: Params)
    requires i <= |parts|
    requires NoneOf(parts, i, {"mkt", "market", "limit", "stop", "stoplimit", "stop_limit"})
    ensures ParamsFrom(num, parts, i, p).orderType == p.orderType
    decreases |parts| - i
  {
    if i < |parts| {
      var (j, q) := Step(num, parts, i, p);
      assert q.orderType == p.orderType by {
        assert Lower(parts[i]) !in {"mkt", "market", "limit", "stop", "stoplimit", "stop_limit"};
      }
      OrderTypeKept(num, parts, j, q);
    }
  }

  /** The limit and stop prices only change on `limit`, `stop` or a stop-limit keyword. */
  lemma {:induction false} PricesKept(num: string -> Option<real>, parts: seq<string>, i: nat, p: Params)
    requires i <= |parts|
    requires NoneOf(parts, i, {"limit", "stop", "stoplimit", "stop_limit"})
    ensures ParamsFrom(num, parts, i, p).limitPrice == p.limitPrice
    ensures ParamsFrom(num, parts, i, p).stopPrice == p.stopPrice
    decreases |parts| - i
  {
    if i < |parts| {
      var (j, q) := Step(num, parts, i, p);
      assert q.limitPrice == p.limitPrice && q.stopPrice == p.stopPrice by {
        assert Lower(parts[i]) !in {"limit", "stop", "stoplimit", "stop_limit"};
      }
      PricesKept(num, parts, j, q);
    }
  }

  /** A `tif` keyword followed by `gtc` somewhere from index `i` on. */
  predicate GtcRequested(parts: seq<string>, i: nat) {
    exists j :: i <= j && j + 1 < |parts| && Lower(parts[j]) in {"tif", "time_in_force"} && Lower(parts[j + 1]) == "gtc"
  }

  /** Good-till-cancelled is only ever set by `tif gtc`; any other value leaves the setting alone. */
  lemma {:induction false} GtcOnlyWhenAsked(num: string -> Option<real>, parts: seq<string>, i: nat, p: Params)
    requires i <= |parts|
    requires ParamsFrom(num, parts, i, p).timeInForce == Gtc
    ensures p.timeInForce == Gtc || GtcRequested(parts, i)
    decreases |parts| - i
  {
    if i < |parts| {
      var r := Step(num, parts, i, p);
      GtcOnlyWhenAsked(num, parts, r.0, r.1);
      if r.1.timeInForce == Gtc && p.timeInForce != Gtc {
        GtcSetHere(num, parts, i, p);
      } else if p.timeInForce != Gtc {
        GtcRequestedEarlier(parts, i, r.0);
      }
    }
  }

  /** A turn that switches to good-till-cancelled reads `tif gtc`. */
  lemma GtcSetHere(num: string -> Option<real>, parts: seq<string>, i: nat, p: Params)
    requires i < |parts|
    requires Step(num, parts, i, p).1.timeInForce == Gtc && p.timeInForce != Gtc
    ensures GtcRequested(parts, i)
  {
    assert WordOf(Lower(parts[i])) == TifWord && i + 1 < |parts| && Lower(parts[i + 1]) == "gtc";
    assert Lower(parts[i]) in {"tif", "time_in_force"};
  }

  lemma GtcRequestedEarlier(parts: seq<string>, i: nat, j: nat)
    requires i <= j && GtcRequested(parts, j)
    ensures GtcRequested(parts, i)
  {
    var k :| j <= k && k + 1 < |parts| && Lower(parts[k]) in {"tif", "time_in_force"} && Lower(parts[k + 1]) == "gtc";
    assert i <= k;
  }

  /** No ASCII capital anywhere in `s`. */
  predicate NoCapitals(s: string) {
    s == [] || (!('A' <= s[0] <= 'Z') && NoCapitals(s[1..]))
  }

  /** Lower-casing text without capitals changes nothing. */
  lemma {:induction false} LowerNoCapitals(s: string)
    requires NoCapitals(s)
    ensures Lower(s) == s
  {
    if s != [] {
      LowerNoCapitals(s[1..]);
      assert Lower(s) == [s[0]] + Lower(s[1..]);
    }
  }

  /** `qty N` sets the quantity when N parses, and consumes both tokens. */
  lemma QtyKeyword(num: string -> Option<real>, parts: seq<string>, i: nat, p: Params)
    requires i + 1 < |parts| && WordOf(Lower(parts[i])) == QtyWord
    ensures ParamsFrom(num, parts, i, p) == ParamsFrom(num, parts, i + 2, p.(qty := Override(p.qty, ParseFloat(num, parts[i + 1]))))
  {
  }

  /** `limit P` makes a limit order, with limit price P when P parses. */
  lemma LimitKeyword(num: string -> Option<real>, parts: seq<string>, i: nat, p: Params)
    requires i + 1 < |parts| && WordOf(Lower(parts[i])) == LimitWord
    ensures ParamsFrom(num, parts, i, p)
         == ParamsFrom(num, parts, i + 2, p.(orderType := Limit, limitPrice := Override(p.limitPrice, ParseFloat(num, parts[i + 1]))))
  {
  }

  /** `stop P` makes a stop order, with stop price P when P parses. */
  lemma StopKeyword(num: string -> Option<real>, parts: seq<string>, i: nat, p: Params)
    requires i + 1 < |parts| && WordOf(Lower(parts[i])) == StopWord
    ensures ParamsFrom(num, parts, i, p)
         == ParamsFrom(num, parts, i + 2, p.(orderType := Stop, stopPrice := Override(p.stopPrice, ParseFloat(num, parts[i + 1]))))
  {
  }

  /** `stoplimit S L` makes a stop-limit order with stop S and limit L, each when it parses. */
  lemma StopLimitKeyword(num: string -> Option<real>, parts: seq<string>, i: nat, p: Params)
    requires i + 2 < |parts| && WordOf(Lower(parts[i])) == StopLimitWord
    ensures ParamsFrom(num, parts, i, p)
         == ParamsFrom(num, parts, i + 3, p.(orderType := StopLimit,
                                              stopPrice := Override(p.stopPrice, ParseFloat(num, parts[i + 1])),
                                              limitPrice := Override(p.limitPrice, ParseFloat(num, parts[i + 2]))))
  {
  }

  /** `tif V` sets the time in force to day or gtc, and keeps it for any other V. */
  lemma TifKeyword(num: string -> Option<real>, parts: seq<string>, i: nat, p: Params)
    requires i + 1 < |parts| && WordOf(Lower(parts[i])) == TifWord
    ensures ParamsFrom(num, parts, i, p) == ParamsFrom(num, parts, i + 2, p.(timeInForce := TifFrom(Lower(parts[i + 1]), p.timeInForce)))
  {
  }

  /** `$N` sets the notional to N when N parses. */
  lemma DollarPrefix(num: string -> Option<real>, parts: seq<string>, i: nat, p: Params)
    requires i < |parts| && WordOf(Lower(parts[i])) == DollarPrefixed
    ensures ParamsFrom(num, parts, i, p)
         == ParamsFrom(num, parts, i + 1, p.(notional := Override(p.notional, ParseFloat(num, Lower(parts[i])[1..]))))
  {
  }

  /** The keywords of the examples below, as the loop reads them. */
  lemma SpellingQty()
    ensures Lower("qty") == "qty" && WordOf("qty") == QtyWord
  {
    LowerNoCapitals("qty");
  }

  lemma SpellingLimit()
    ensures Lower("limit") == "limit" && WordOf("limit") == LimitWord
  {
    LowerNoCapitals("limit");
  }

  lemma SpellingTif()
    ensures Lower("tif") == "tif" && WordOf("tif") == TifWord
  {
    LowerNoCapitals("tif");
  }

  lemma SpellingDollar1000()
    ensures Lower("$1000") == "$1000" && WordOf("$1000") == DollarPrefixed
    ensures Remove(Lower("$1000")[1..], ',') == "1000"
  {
    LowerNoCapitals("$1000");
    NoComma("1000");
  }

  lemma SpellingStopLimit()
    ensures Lower("stoplimit") == "stoplimit" && WordOf("stoplimit") == StopLimitWord
  {
    LowerNoCapitals("stoplimit");
  }

  /** `/sell msft qty 10 limit 450.5 tif gtc` */
  lemma SellQtyLimitGtc(num: string -> Option<real>, parts: seq<string>)
    requires parts == ["/sell", "msft", "qty", "10", "limit", "450.5", "tif", "gtc"]
    requires num("10") == Some(10.0) && num("450.5") == Some(450.5)
    ensures ParamsFrom(num, parts, 2, Defaults) == Params(Some(10.0), None, Limit, Some(450.5), None, Gtc)
  {
    var p1 := Defaults.(qty := Some(10.0));
    var p2 := p1.(orderType := Limit, limitPrice := Some(450.5));
    SellQtyStep(num, parts);
    SellLimitStep(num, parts, p1);
    SellTifStep(num, parts, p2);
  }

  lemma SellQtyStep(num: string -> Option<real>, parts: seq<string>)
    requires parts == ["/sell", "msft", "qty", "10", "limit", "450.5", "tif", "gtc"]
    requires num("10") == Some(10.0)
    ensures ParamsFrom(num, parts, 2, Defaults) == ParamsFrom(num, parts, 4, Defaults.(qty := Some(10.0)))
  {
    SpellingQty();
    assert ParseFloat(num, parts[3]) == Some(10.0) by { NoComma("10"); }
    QtyKeyword(num, parts, 2, Defaults);
  }

  lemma SellLimitStep(num: string -> Option<real>, parts: seq<string>, p: Params)
    requires parts == ["/sell", "msft", "qty", "10", "limit", "450.5", "tif", "gtc"]
    requires num("450.5") == Some(450.5)
    ensures ParamsFrom(num, parts, 4, p) == ParamsFrom(num, parts, 6, p.(orderType := Limit, limitPrice := Some(450.5)))
  {
    SpellingLimit();
    assert ParseFloat(num, parts[5]) == Some(450.5) by { NoComma("450.5"); }
    LimitKeyword(num, parts, 4, p);
  }

  lemma SellTifStep(num: string -> Option<real>, parts: seq<string>, p: Params)
    requires parts == ["/sell", "msft", "qty", "10", "limit", "450.5", "tif", "gtc"]
    ensures ParamsFrom(num, parts, 6, p) == p.(timeInForce := Gtc)
  {
    SpellingTif();
    LowerNoCapitals("gtc");
    TifKeyword(num, parts, 6, p);
  }

  /** `/buy NVDA $1000 stoplimit 850 840` */
  lemma NotionalStopLimit(num: string -> Option<real>, parts: seq<string>)
    requires parts == ["/buy", "NVDA", "$1000", "stoplimit", "850", "840"]
    requires num("1000") == Some(1000.0) && num("850") == Some(850.0) && num("840") == Some(840.0)
    ensures ParamsFrom(num, parts, 2, Defaults) == Params(None, Some(1000.0), StopLimit, Some(840.0), Some(850.0), Day)
  {
    var p1 := Defaults.(notional := Some(1000.0));
    NotionalStep(num, parts);
    StopLimitStep(num, parts, p1);
  }

  lemma NotionalStep(num: string -> Option<real>, parts: seq<string>)
    requires parts == ["/buy", "NVDA", "$1000", "stoplimit", "850", "840"]
    requires num("1000") == Some(1000.0)
    ensures ParamsFrom(num, parts, 2, Defaults) == ParamsFrom(num, parts, 3, Defaults.(notional := Some(1000.0)))
  {
    var low := Lower(parts[2]);
    assert low == "$1000" && WordOf(low) == DollarPrefixed && Remove(low[1..], ',') == "1000" by {
      assert parts[2] == "$1000";
      SpellingDollar1000();
    }
    assert ParseFloat(num, low[1..]) == Some(1000.0);
    DollarPrefix(num, parts, 2, Defaults);
  }

  lemma StopLimitStep(num: string -> Option<real>, parts: seq<string>, p: Params)
    requires parts == ["/buy", "NVDA", "$1000", "stoplimit", "850", "840"]
    requires num("850") == Some(850.0) && num("840") == Some(840.0)
    ensures ParamsFrom(num, parts, 3, p) == p.(orderType := StopLimit, stopPrice := Some(850.0), limitPrice := Some(840.0))
  {
    SpellingStopLimit();
    assert ParseFloat(num, parts[4]) == Some(850.0) by { NoComma("850"); }
    assert ParseFloat(num, parts[5]) == Some(840.0) by { NoComma("840"); }
    StopLimitKeyword(num, parts, 3, p);
  }

  /** `/buy SHOP 12 mkt`: a bare number is the quantity. */
  lemma BareNumberIsQty(num: string -> Option<real>, parts: seq<string>)
    requires parts == ["/buy", "SHOP", "12", "mkt"]
    requires num("12") == Some(12.0)
    ensures ParamsFrom(num, parts, 2, Defaults) == Defaults.(qty := Some(12.0))
  {
    var p1 := Defaults.(qty := Some(12.0));
    var low2 := Lower(parts[2]);
    assert low2 == "12" && WordOf(low2) == OtherWord by {
      assert parts[2] == "12";
      LowerNoCapitals("12");
    }
    assert ParseFloat(num, parts[2]) == Some(12.0) by { NoComma("12"); }
    OtherToken(num, parts, 2, Defaults);
    var low3 := Lower(parts[3]);
    assert low3 == "mkt" && WordOf(low3) == MarketWord by {
      assert parts[3] == "mkt";
      LowerNoCapitals("mkt");
    }
    MarketKeyword(num, parts, 3, p1);
  }

  /** A token that is no keyword is a quantity when it parses and none is set yet, and is skipped otherwise. */
  lemma OtherToken(num: string -> Option<real>, parts: seq<string>, i: nat, p: Params)
    requires i < |parts| && WordOf(Lower(parts[i])) == OtherWord
    ensures ParamsFrom(num, parts, i, p)
         == ParamsFrom(num, parts, i + 1, if ParseFloat(num, parts[i]).Some? && p.qty.None? then p.(qty := ParseFloat(num, parts[i])) else p)
  {
  }

  /** `mkt` or `market` makes a market order. */
  lemma MarketKeyword(num: string -> Option<real>, parts: seq<string>, i: nat, p: Params)
    requires i < |parts| && WordOf(Lower(parts[i])) == MarketWord
    ensures ParamsFrom(num, parts, i, p) == ParamsFrom(num, parts, i + 1, p.(orderType := Market))
  {
  }

  /** As written, `$ 100` never sets the notional: the lone `$` is read as an
      empty `$N`, and the 100 that follows becomes the quantity. */
  lemma DollarWordAsWritten(num: string -> Option<real>, parts: seq<string>)
    requires parts == ["/buy", "AAPL", "$", "100"]
    requires num("100") == Some(100.0)
    ensures ParamsFromAsWritten(num, parts, 2, Defaults) == Defaults.(qty := Some(100.0))
  {
    var low2 := Lower(parts[2]);
    assert low2 == "$" && WordOf(low2) == DollarWord && low2[1..] == [] by {
      assert parts[2] == "$";
      LowerNoCapitals("$");
    }
    assert ParseFloat(num, low2[1..]) == None;
    DollarAsWritten(num, parts, 2, Defaults);
    var low3 := Lower(parts[3]);
    assert low3 == "100" && WordOf(low3) == OtherWord by {
      assert parts[3] == "100";
      LowerNoCapitals("100");
    }
    assert ParseFloat(num, parts[3]) == Some(100.0) by { NoComma("100"); }
    OtherTokenAsWritten(num, parts, 3, Defaults);
  }

  /** As written, any token starting with `$`, the lone `$` included, is read as `$N`. */
  lemma DollarAsWritten(num: string -> Option<real>, parts: seq<string>, i: nat, p: Params)
    requires i < |parts| && WordOf(Lower(parts[i])) in {DollarWord, DollarPrefixed}
    ensures ParamsFromAsWritten(num, parts, i, p)
         == ParamsFromAsWritten(num, parts, i + 1, p.(notional := Override(p.notional, ParseFloat(num, Lower(parts[i])[1..]))))
  {
  }

  /** As written, a token that is no keyword is read as in `OtherToken`. */
  lemma OtherTokenAsWritten(num: string -> Option<real>, parts: seq<string>, i: nat, p: Params)
    requires i < |parts| && WordOf(Lower(parts[i])) == OtherWord
    ensures ParamsFromAsWritten(num, parts, i, p)
         == ParamsFromAsWritten(num, parts, i + 1, if ParseFloat(num, parts[i]).Some? && p.qty.None? then p.(qty := ParseFloat(num, parts[i])) else p)
  {
  }

  /** No comma anywhere in `s`. */
  predicate NoCommaIn(s: string) {
    s == [] || (s[0] != ',' && NoCommaIn(s[1..]))
  }

  /** Text without commas loses nothing to the comma removal. */
  lemma {:induction false} NoComma(s: string)
    requires NoCommaIn(s)
    ensures Remove(s, ',') == s
  {
    if s != [] {
      NoComma(s[1..]);
      assert s == [s[0]] + s[1..];
    }
  }

  /** With the two-token form tried first, `$ N` sets the notional to N and consumes both tokens. */
  lemma DollarWordSetsNotional(num: string -> Option<real>, parts: seq<string>, i: nat, p: Params)
    requires i + 1 < |parts| && WordOf(Lower(parts[i])) == DollarWord
    ensures ParamsFrom(num, parts, i, p) == ParamsFrom(num, parts, i + 2, p.(notional := Override(p.notional, ParseFloat(num, parts[i + 1]))))
  {
  }

  /** `/buy AAPL $ 100` with the two-token form tried first. */
  lemma DollarWordFixed(num: string -> Option<real>, parts: seq<string>)
    requires parts == ["/buy", "AAPL", "$", "100"]
    requires num("100") == Some(100.0)
    ensures ParamsFrom(num, parts, 2, Defaults) == Defaults.(notional := Some(100.0))
  {
    var low2 := Lower(parts[2]);
    assert low2 == "$" && WordOf(low2) == DollarWord by {
      assert parts[2] == "$";
      LowerNoCapitals("$");
    }
    assert ParseFloat(num, parts[3]) == Some(100.0) by { NoComma("100"); }
    DollarWordSetsNotional(num, parts, 2, Defaults);
  }
}
