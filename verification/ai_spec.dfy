/**
 * The rules of `enhanced_ai_system.py` as values: the moderation word list,
 * the sliding minute of the rate limiter, the non-deterministic choice, the
 * rolling context memory and its summary, and the portfolio metrics of the
 * analytics engine.
 */
module EnhancedSpec {
  import opened Wrappers
  import opened Text

  // ---------------------------------------------------------------- Safety

  /** The words `moderate_text` blocks. */
  const BadWords := ["fuck", "shit", "bitch", "connard", "salope"]

  /** `moderate_text`: empty text is safe; otherwise it is safe unless its lowercase form contains a blocked word. */
  predicate Moderate(text: string) {
    text == [] || !exists i :: 0 <= i < |BadWords| && Contains(Lower(text), BadWords[i])
  }

  /** Lowercasing distributes over concatenation. */
  lemma LowerAppend(a: string, b: string)
    ensures Lower(a + b) == Lower(a) + Lower(b)
  {
    var l := Lower(a + b);
    var r := Lower(a) + Lower(b);
    forall i | 0 <= i < |l| ensures l[i] == r[i] {
      if i < |a| {
        assert (a + b)[i] == a[i];
      } else {
        assert (a + b)[i] == b[i - |a|];
      }
    }
  }

  /** A text containing a blocked word written in lowercase letters, wherever it stands, is refused. */
  lemma ModerateRefuses(before: string, i: nat, after: string)
    requires i < |BadWords|
    ensures !Moderate(before + BadWords[i] + after)
  {
    var w := BadWords[i];
    var t := before + w + after;
    assert Lower(w) == w by {
      forall j | 0 <= j < |w| ensures LowerChar(w[j]) == w[j] {
        assert 'a' <= w[j] <= 'z';
      }
    }
    LowerAppend(before + w, after);
    LowerAppend(before, w);
    var lt := Lower(t);
    assert lt == Lower(before) + w + Lower(after);
    assert lt[|before|..|before| + |w|] == w;
    assert OccursAt(lt, w, |before|);
  }

  /** The timestamps of a bucket still inside the last 60 seconds, in order. */
  function Recent(stamps: seq<real>, now: real): (r: seq<real>)
    ensures |r| <= |stamps|
    ensures forall t :: t in r <==> t in stamps && now - t < 60.0
  {
    if stamps == [] then []
    else
      var rest := Recent(stamps[1..], now);
      assert forall t :: t in stamps <==> t == stamps[0] || t in stamps[1..];
      if now - stamps[0] < 60.0 then [stamps[0]] + rest else rest
  }

  /** What `rate_limit` decides at `now`: allowed exactly when fewer than the quota remain in the last minute. */
  predicate Allowed(stamps: seq<real>, now: real, maxPerMinute: int) {
    |Recent(stamps, now)| < maxPerMinute
  }

  /** The bucket after `rate_limit`: old stamps dropped, `now` recorded when allowed. */
  function Bucket(stamps: seq<real>, now: real, maxPerMinute: int): (r: seq<real>)
    ensures |r| <= if Allowed(stamps, now, maxPerMinute) then |Recent(stamps, now)| + 1 else |Recent(stamps, now)|
  {
    Recent(stamps, now) + (if Allowed(stamps, now, maxPerMinute) then [now] else [])
  }

  /** A bucket within the quota stays within it, and every stamp it keeps is from the last minute. */
  lemma BucketBounded(stamps: seq<real>, now: real, maxPerMinute: int)
    requires |stamps| <= maxPerMinute
    ensures |Bucket(stamps, now, maxPerMinute)| <= maxPerMinute
    ensures forall t :: t in Bucket(stamps, now, maxPerMinute) ==> now - t < 60.0
  {
  }

  /** A refused call records nothing, and an allowed one records `now` last. */
  lemma BucketRecords(stamps: seq<real>, now: real, maxPerMinute: int)
    ensures var b := Bucket(stamps, now, maxPerMinute);
      && (Allowed(stamps, now, maxPerMinute) ==> b != [] && b[|b| - 1] == now && b[..|b| - 1] == Recent(stamps, now))
      && (!Allowed(stamps, now, maxPerMinute) ==> b == Recent(stamps, now))
  {
    var b := Bucket(stamps, now, maxPerMinute);
    if Allowed(stamps, now, maxPerMinute) {
      assert b == Recent(stamps, now) + [now];
    }
  }

  /** `[o for o in options if o]`. */
  function NonEmpty(options: seq<string>): (r: seq<string>)
    ensures forall o :: o in r <==> o in options && o != ""
    ensures |r| <= |options|
  {
    if options == [] then []
    else
      var rest := NonEmpty(options[1..]);
      assert forall o :: o in options <==> o == options[0] || o in options[1..];
      if options[0] != "" then [options[0]] + rest else rest
  }

  /**
   * `pick`: None when every option is empty; otherwise the first non-empty
   * option, or, in deterministic mode, the one a hash of the options selects
   * (the hash is a parameter here).
   */
  function Pick(options: seq<string>, deterministic: bool, hash: nat): (r: Option<string>)
    ensures r.None? <==> forall i :: 0 <= i < |options| ==> options[i] == ""
    ensures r.Some? ==> r.value != "" && r.value in options
  {
    var opts := NonEmpty(options);
    if opts == [] then
      assert forall i :: 0 <= i < |options| ==> options[i] == "" by {
        forall i | 0 <= i < |options| ensures options[i] == "" {
          assert options[i] in options;
        }
      }
      None
    else
      var choice := if !deterministic then opts[0] else opts[hash % |opts|];
      assert choice in opts;
      var i :| 0 <= i < |options| && options[i] == choice;
      Some(choice)
  }

  /** Outside deterministic mode the choice is the first non-empty option. */
  lemma {:induction false} PickFirst(options: seq<string>, hash: nat)
    requires Pick(options, false, hash).Some?
    ensures exists i ::
      (&& 0 <= i < |options| && options[i] == Pick(options, false, hash).value
       && forall j :: 0 <= j < i ==> options[j] == "")
  {
    if options[0] != "" {
      assert options[0] == Pick(options, false, hash).value;
    } else {
      var rest := options[1..];
      assert NonEmpty(options) == NonEmpty(rest);
      assert Pick(rest, false, hash) == Pick(options, false, hash);
      PickFirst(rest, hash);
      var i :| 0 <= i < |rest| && rest[i] == Pick(rest, false, hash).value && forall j :: 0 <= j < i ==> rest[j] == "";
      assert options[i + 1] == rest[i];
    }
  }

  // ---------------------------------------------------------- Context memory

  /** A remembered message: who spoke, what was said, and when. */
  datatype MemoryItem = MemoryItem(role: string, text: string, ts: real)

  /** `ContextMemory.add`: empty text is ignored; on overflow the older half is dropped. */
  function Added(items: seq<MemoryItem>, maxItems: int, item: MemoryItem): (r: seq<MemoryItem>)
  {
    if item.text == [] then items
    else
      var all := items + [item];
      if |all| > maxItems then all[|all| / 2..] else all
  }

  /**
   * With at least 4 slots and a memory within bounds, the memory stays within
   * bounds, keeps the newest item last, and is a suffix of the old items
   * followed by the new one.
   */
  lemma AddedBounded(items: seq<MemoryItem>, maxItems: int, item: MemoryItem)
    requires maxItems >= 4 && |items| <= maxItems
    ensures var r := Added(items, maxItems, item);
      && |r| <= maxItems
      && (item.text != [] ==> r != [] && r[|r| - 1] == item && r == (items + [item])[|items| + 1 - |r|..])
      && (item.text == [] ==> r == items)
  {
  }

  /** The marker of a role in the summary. */
  function Who(role: string): string {
    if role == "user" then "U"
    else if role == "assistant" then "A"
    else if role == "system" then "S"
    else if role == "event" then "E"
    else "?"
  }

  /** One line of the summary. */
  function Line(it: MemoryItem): string {
    "[" + Who(it.role) + "] " + Strip(it.text)
  }

  /** The note that counts the items not shown. */
  function OlderNote(older: nat): string {
    "…" + NatToString(older) + " msg plus anciens… "
  }

  /** The number of items the summary shows: the last six at most. */
  function Shown(n: nat): nat {
    if n > 6 then 6 else n
  }

  /** One line per item. */
  function Lines(items: seq<MemoryItem>): (r: seq<string>)
    ensures |r| == |items|
    ensures forall k :: 0 <= k < |items| ==> r[k] == Line(items[k])
  {
    seq(|items|, k requires 0 <= k < |items| => Line(items[k]))
  }

  /** The parts of `summarize`: a count of the older items when there are any, then a line per item of the last six. */
  function SummaryParts(items: seq<MemoryItem>): (r: seq<string>)
    ensures |r| == Shown(|items|) + (if |items| > 6 then 1 else 0)
    ensures |items| > 6 ==> r[0] == OlderNote(|items| - 6)
  {
    var older := |items| - Shown(|items|);
    (if older > 0 then [OlderNote(older)] else []) + Lines(items[older..])
  }

  /** After the note, if any, the summary shows the last (at most six) items in order, one line each. */
  lemma SummaryShows(items: seq<MemoryItem>, k: nat)
    requires k < Shown(|items|)
    ensures var r := SummaryParts(items);
      r[|r| - Shown(|items|) + k] == Line(items[|items| - Shown(|items|) + k])
  {
    var older := |items| - Shown(|items|);
    var tail := items[older..];
    var head: seq<string> := if older > 0 then [OlderNote(older)] else [];
    var r := SummaryParts(items);
    assert r == head + Lines(tail);
    assert r[|head| + k] == Lines(tail)[k];
    assert tail[k] == items[older + k];
  }

  /** `" | ".join(parts)`. */
  function JoinBars(parts: seq<string>): (r: string)
    requires parts != []
    ensures |r| >= |parts[0]|
    decreases |parts|
  {
    if |parts| == 1 then parts[0] else parts[0] + " | " + JoinBars(parts[1..])
  }

  /** `summarize`: empty for an empty memory, the joined parts otherwise. */
  function Summarize(items: seq<MemoryItem>): (r: string)
    ensures r == [] <==> items == []
  {
    if items == [] then []
    else
      var parts := SummaryParts(items);
      assert parts[0] != [] by {
        if |items| <= 6 {
          assert parts[0] == Line(items[0]);
        }
      }
      JoinBars(parts)
  }

  // --------------------------------------------------------------- Analytics

  /**
   * A position as `compute_metrics` reads it: the raw symbol (None when
   * missing or empty), and `value` and `pnlAbs` already through `_safe_float`
   * (0 when missing or not a number).
   */
  datatype Holding = Holding(symbol: Option<string>, value: real, pnlAbs: real)

  /** The cash symbols. */
  predicate IsCash(s: string) {
    s == "CAD" || s == "USD"
  }

  /** The raw symbol is a cash symbol, as the `n_positions` count tests it. */
  predicate RawCash(p: Holding) {
    p.symbol.Some? && IsCash(p.symbol.value)
  }

  /** The uppercased symbol is a cash symbol, as the weights and the cash value test it. */
  predicate UpperCash(p: Holding) {
    p.symbol.Some? && IsCash(Upper(p.symbol.value))
  }

  function TotalValue(ps: seq<Holding>): real {
    if ps == [] then 0.0 else ps[0].value + TotalValue(ps[1..])
  }

  function CashValue(ps: seq<Holding>): real {
    if ps == [] then 0.0 else (if UpperCash(ps[0]) then ps[0].value else 0.0) + CashValue(ps[1..])
  }

  function TotalPnl(ps: seq<Holding>): real {
    if ps == [] then 0.0 else ps[0].pnlAbs + TotalPnl(ps[1..])
  }

  /** `n_positions`: the positions whose raw symbol is not a cash symbol. */
  function CountPositions(ps: seq<Holding>): (n: nat)
    ensures n <= |ps|
  {
    if ps == [] then 0 else (if RawCash(ps[0]) then 0 else 1) + CountPositions(ps[1..])
  }

  /** Every position is counted exactly when none carries a raw cash symbol; each one that does is left out. */
  lemma {:induction false} CountExcludesCash(ps: seq<Holding>)
    ensures CountPositions(ps) == |ps| <==> forall i :: 0 <= i < |ps| ==> !RawCash(ps[i])
  {
    if ps != [] {
      CountExcludesCash(ps[1..]);
      assert forall i :: 1 <= i < |ps| ==> ps[i] == ps[1..][i - 1];
    }
  }

  /** The weight of each non-cash position, when the total is positive. */
  function Weights(ps: seq<Holding>, total: real): (w: seq<real>)
    ensures total <= 0.0 ==> w == []
    ensures |w| <= |ps|
  {
    if ps == [] || total <= 0.0 then []
    else (if UpperCash(ps[0]) then [] else [ps[0].value / total]) + Weights(ps[1..], total)
  }

  function Sq(x: real): real {
    x * x
  }

  function SumSquares(w: seq<real>): real {
    if w == [] then 0.0 else Sq(w[0]) + SumSquares(w[1..])
  }

  function Sum(w: seq<real>): real {
    if w == [] then 0.0 else w[0] + Sum(w[1..])
  }

  function MaxOf(w: seq<real>): (m: real)
    requires w != []
    ensures forall i :: 0 <= i < |w| ==> w[i] <= m
    ensures m in w
  {
    if |w| == 1 then w[0]
    else
      var rest := MaxOf(w[1..]);
      if w[0] >= rest then w[0] else rest
  }

  /** The dictionary `compute_metrics` returns. */
  datatype Metrics = Metrics(totalValue: real, nPositions: nat, hhi: real, hhiNormalized: real,
                             cashRatio: real, topShare: real, totalPnlAbs: real)

  /** `compute_metrics`. */
  function ComputeMetrics(ps: seq<Holding>): (m: Metrics)
    ensures m.totalValue <= 0.0 ==> m.cashRatio == 0.0 && m.hhi == 0.0 && m.topShare == 0.0
    ensures m.hhiNormalized == m.hhi
    ensures m.nPositions <= |ps|
  {
    var total := TotalValue(ps);
    var w := Weights(ps, total);
    var hhi := if w == [] then 0.0 else SumSquares(w);
    Metrics(total, CountPositions(ps), hhi, hhi,
            if total > 0.0 then CashValue(ps) / total * 100.0 else 0.0,
            if w == [] then 0.0 else MaxOf(w) * 100.0,
            TotalPnl(ps))
  }

  /** No position is worth a negative amount. */
  predicate NonNegative(ps: seq<Holding>) {
    forall i :: 0 <= i < |ps| ==> ps[i].value >= 0.0
  }

  /** The value of the positions that are not cash. */
  function NonCashValue(ps: seq<Holding>): real {
    if ps == [] then 0.0 else (if UpperCash(ps[0]) then 0.0 else ps[0].value) + NonCashValue(ps[1..])
  }

  /** Cash and the rest split the total. */
  lemma {:induction false} ValueSplit(ps: seq<Holding>)
    ensures CashValue(ps) + NonCashValue(ps) == TotalValue(ps)
    ensures NonNegative(ps) ==> 0.0 <= CashValue(ps) && 0.0 <= NonCashValue(ps)
  {
    if ps != [] {
      ValueSplit(ps[1..]);
      assert NonNegative(ps) ==> NonNegative(ps[1..]) by {
        if NonNegative(ps) {
          forall i | 0 <= i < |ps[1..]| ensures ps[1..][i].value >= 0.0 {
            assert ps[1..][i] == ps[i + 1];
          }
        }
      }
    }
  }

  /** `a / d + b / d == (a + b) / d`. */
  lemma AddQuotients(a: real, b: real, d: real)
    requires d > 0.0
    ensures a / d + b / d == (a + b) / d
  {
  }

  /** `0 <= a <= d` gives a quotient in [0, 1]. */
  lemma UnitQuotient(a: real, d: real)
    requires d > 0.0 && 0.0 <= a <= d
    ensures 0.0 <= a / d <= 1.0
  {
    assert a / d * d == a;
  }

  /** `0 <= w <= 1` gives `w * w <= w`. */
  lemma SquareBelow(w: real)
    requires 0.0 <= w <= 1.0
    ensures 0.0 <= Sq(w) <= w
  {
    assert w * w <= w * 1.0;
  }

  /** The weights add up to the non-cash share of the total, and each lies in [0, 1]. */
  lemma {:induction false} WeightsShare(ps: seq<Holding>, total: real)
    requires total > 0.0 && NonNegative(ps) && NonCashValue(ps) <= total
    ensures Sum(Weights(ps, total)) == NonCashValue(ps) / total
    ensures forall i :: 0 <= i < |Weights(ps, total)| ==> 0.0 <= Weights(ps, total)[i] <= 1.0
  {
    if ps != [] {
      var rest := ps[1..];
      ValueSplit(ps);
      ValueSplit(rest);
      assert NonNegative(rest) by {
        forall i | 0 <= i < |rest| ensures rest[i].value >= 0.0 {
          assert rest[i] == ps[i + 1];
        }
      }
      WeightsShare(rest, total);
      var head: seq<real> := if UpperCash(ps[0]) then [] else [ps[0].value / total];
      assert Weights(ps, total) == head + Weights(rest, total);
      SumAppend(head, Weights(rest, total));
      if !UpperCash(ps[0]) {
        AddQuotients(ps[0].value, NonCashValue(rest), total);
        UnitQuotient(ps[0].value, total);
      }
    }
  }

  lemma {:induction false} SumAppend(a: seq<real>, b: seq<real>)
    ensures Sum(a + b) == Sum(a) + Sum(b)
  {
    if a == [] {
      assert a + b == b;
    } else {
      assert (a + b)[1..] == a[1..] + b;
      SumAppend(a[1..], b);
    }
  }

  /** Squares of weights in [0, 1] add up to no more than the weights. */
  lemma {:induction false} SquaresBelowSum(w: seq<real>)
    requires forall i :: 0 <= i < |w| ==> 0.0 <= w[i] <= 1.0
    ensures 0.0 <= SumSquares(w) <= Sum(w)
  {
    if w == [] {
      assert SumSquares(w) == 0.0 && Sum(w) == 0.0;
    } else {
      var x := w[0];
      SquareBelow(x);
      assert forall i :: 0 <= i < |w[1..]| ==> w[1..][i] == w[i + 1];
      SquaresBelowSum(w[1..]);
      assert SumSquares(w) == Sq(x) + SumSquares(w[1..]);
      assert Sum(w) == x + Sum(w[1..]);
    }
  }

  /**
   * With no negative value, the cash ratio lies in [0, 100], the
   * concentration index in [0, 1] and the top share in [0, 100].
   */
  lemma MetricsBounds(ps: seq<Holding>)
    requires NonNegative(ps)
    ensures var m := ComputeMetrics(ps);
      && 0.0 <= m.cashRatio <= 100.0
      && 0.0 <= m.hhiNormalized <= 1.0
      && 0.0 <= m.topShare <= 100.0
  {
    var total := TotalValue(ps);
    ValueSplit(ps);
    if total > 0.0 {
      WeightsShare(ps, total);
      var w := Weights(ps, total);
      UnitQuotient(NonCashValue(ps), total);
      UnitQuotient(CashValue(ps), total);
      if w != [] {
        SquaresBelowSum(w);
      }
    }
  }

  /** `diversification_label`. */
  function DiversificationLabel(hhi: real): string {
    if hhi <= 0.05 then "excellente"
    else if hhi <= 0.10 then "bonne"
    else if hhi <= 0.20 then "modérée"
    else "faible"
  }

  /** The rank of a label, from most to least diversified. */
  function LabelRank(name: string): nat {
    if name == "excellente" then 0
    else if name == "bonne" then 1
    else if name == "modérée" then 2
    else 3
  }

  /** A more concentrated portfolio never gets a better label. */
  lemma LabelMonotone(h1: real, h2: real)
    requires h1 <= h2
    ensures LabelRank(DiversificationLabel(h1)) <= LabelRank(DiversificationLabel(h2))
  {
  }
}
