/**
 * The alert table filter of `AlertsMixin` (`wsapp_gui/app_mixins/
 * alerts_playbooks_risk.py`) as values: selection by kind and minimum score,
 * the best row per symbol, the stable sort by descending score, the top-N
 * cut, and the code sent for the top row.
 */
module AlertsSpec {
  import opened Wrappers
  import opened Text

  /** One alert row: symbol, kind, score and message. */
  datatype Row = Row(sym: string, kind: string, score: real, message: string)

  /** The kind selector value that lets every kind through. */
  const AllKinds := "Tous"

  /** The row passes the kind and score selection. */
  predicate Selected(r: Row, kind: string, minScore: real) {
    (kind == AllKinds || r.kind == kind) && r.score >= minScore
  }

  /** The list comprehension of `_alerts_apply_filters`: the selected rows, in order. */
  function Select(rows: seq<Row>, kind: string, minScore: real): (r: seq<Row>)
    ensures |r| <= |rows|
    ensures forall x :: x in r <==> x in rows && Selected(x, kind, minScore)
  {
    if rows == [] then []
    else
      var rest := Select(rows[1..], kind, minScore);
      assert forall x :: x in rows <==> x == rows[0] || x in rows[1..];
      (if Selected(rows[0], kind, minScore) then [rows[0]] else []) + rest
  }

  // ----------------------------------------------------------------- grouping

  /**
   * The `best` dict after some rows: its symbols in insertion order, and for
   * each the position of the row it holds.
   */
  datatype Best = Best(order: seq<string>, at: map<string, nat>)

  /** One pass of the grouping loop over `rows[i]`. */
  function GroupStep(st: Best, rows: seq<Row>, i: nat): Best
    requires i < |rows|
    requires forall k :: k in st.at ==> st.at[k] < |rows|
  {
    var sym := rows[i].sym;
    if sym !in st.at then Best(st.order + [sym], st.at[sym := i])
    else if rows[i].score > rows[st.at[sym]].score then Best(st.order, st.at[sym := i])
    else st
  }

  /** The order names each symbol of the dict exactly once. */
  ghost predicate KeysInOrder(st: Best) {
    && (forall i, j :: 0 <= i < j < |st.order| ==> st.order[i] != st.order[j])
    && (forall k :: k in st.at <==> k in st.order)
  }

  /** Each symbol holds one of the first `n` rows, of that symbol, and every one of those rows has its symbol in the dict. */
  ghost predicate Holds(st: Best, rows: seq<Row>, n: nat) {
    && n <= |rows|
    && (forall k :: k in st.at ==> st.at[k] < n && rows[st.at[k]].sym == k)
    && (forall j :: 0 <= j < n ==> rows[j].sym in st.at)
  }

  /** The row held for each symbol has the highest score of its rows so far, and no earlier row of it ties. */
  ghost predicate HoldsBest(st: Best, rows: seq<Row>, n: nat)
    requires Holds(st, rows, n)
  {
    forall j :: 0 <= j < n ==>
      var p := st.at[rows[j].sym];
      rows[j].score <= rows[p].score && (j < p ==> rows[j].score < rows[p].score)
  }

  /**
   * What the grouping loop has built after the first `n` rows: each symbol
   * seen once in the order, holding the first of its rows with the highest
   * score so far.
   */
  ghost predicate GroupedUpTo(st: Best, rows: seq<Row>, n: nat) {
    KeysInOrder(st) && Holds(st, rows, n) && HoldsBest(st, rows, n)
  }

  /** The `best` dict after the first `n` rows. */
  function GroupPrefix(rows: seq<Row>, n: nat): (st: Best)
    requires n <= |rows|
    ensures forall k :: k in st.at ==> st.at[k] < n
  {
    if n == 0 then Best([], map[])
    else GroupStep(GroupPrefix(rows, n - 1), rows, n - 1)
  }

  lemma KeysStep(st: Best, rows: seq<Row>, n: nat)
    requires n < |rows| && KeysInOrder(st) && Holds(st, rows, n)
    ensures KeysInOrder(GroupStep(st, rows, n))
  {
    var sym := rows[n].sym;
    if sym !in st.at {
      var r := GroupStep(st, rows, n);
      assert forall k :: k in r.order <==> k in st.order || k == sym;
    }
  }

  lemma HoldsStep(st: Best, rows: seq<Row>, n: nat)
    requires n < |rows| && Holds(st, rows, n)
    ensures Holds(GroupStep(st, rows, n), rows, n + 1)
  {
  }

  lemma BestStep(st: Best, rows: seq<Row>, n: nat)
    requires n < |rows| && Holds(st, rows, n) && HoldsBest(st, rows, n)
    ensures Holds(GroupStep(st, rows, n), rows, n + 1)
    ensures HoldsBest(GroupStep(st, rows, n), rows, n + 1)
  {
    HoldsStep(st, rows, n);
    var r := GroupStep(st, rows, n);
    var sym := rows[n].sym;
    forall j | 0 <= j < n + 1
      ensures var p := r.at[rows[j].sym];
        rows[j].score <= rows[p].score && (j < p ==> rows[j].score < rows[p].score)
    {
      if j < n && rows[j].sym != sym {
        assert r.at[rows[j].sym] == st.at[rows[j].sym];
      }
    }
  }

  /** Each pass keeps what the grouping loop promises, one row further. */
  lemma GroupStepKeeps(rows: seq<Row>, n: nat)
    requires n < |rows| && GroupedUpTo(GroupPrefix(rows, n), rows, n)
    ensures GroupedUpTo(GroupPrefix(rows, n + 1), rows, n + 1)
  {
    var st := GroupPrefix(rows, n);
    KeysStep(st, rows, n);
    BestStep(st, rows, n);
  }

  /** The dict after all `n` first rows is what the loop promises. */
  lemma {:induction false} GroupPrefixGrouped(rows: seq<Row>, n: nat)
    requires n <= |rows|
    ensures GroupedUpTo(GroupPrefix(rows, n), rows, n)
  {
    if n > 0 {
      GroupPrefixGrouped(rows, n - 1);
      GroupStepKeeps(rows, n - 1);
    }
  }

  /** `list(best.values())`: the row of each symbol, in insertion order. */
  function Values(st: Best, rows: seq<Row>): (r: seq<Row>)
    requires forall k :: k in st.order ==> k in st.at && st.at[k] < |rows|
    ensures |r| == |st.order|
  {
    seq(|st.order|, i requires 0 <= i < |st.order| => rows[st.at[st.order[i]]])
  }

  /** Grouping by symbol: the best row of each symbol, symbols in order of first appearance. */
  function Group(rows: seq<Row>): seq<Row> {
    GroupPrefixGrouped(rows, |rows|);
    Values(GroupPrefix(rows, |rows|), rows)
  }

  /** Grouping keeps at most one row per symbol. */
  lemma GroupDistinct(rows: seq<Row>)
    ensures var g := Group(rows);
      forall i, j :: 0 <= i < j < |g| ==> g[i].sym != g[j].sym
  {
    GroupPrefixGrouped(rows, |rows|);
  }

  /** Every symbol of the input has its row in the grouping. */
  lemma GroupCovers(rows: seq<Row>)
    ensures var g := Group(rows);
      forall j :: 0 <= j < |rows| ==> exists i :: 0 <= i < |g| && g[i].sym == rows[j].sym
  {
    var st := GroupPrefix(rows, |rows|);
    GroupPrefixGrouped(rows, |rows|);
    var g := Group(rows);
    forall j | 0 <= j < |rows| ensures exists i :: 0 <= i < |g| && g[i].sym == rows[j].sym {
      var k := rows[j].sym;
      var i :| 0 <= i < |st.order| && st.order[i] == k;
      assert g[i] == rows[st.at[k]];
    }
  }

  /** The row kept for a symbol is the first of its rows with the highest score. */
  lemma GroupBest(rows: seq<Row>)
    ensures var g := Group(rows);
      forall i :: 0 <= i < |g| ==> exists p: nat :: BestOf(rows, p) && rows[p] == g[i]
  {
    var st := GroupPrefix(rows, |rows|);
    GroupPrefixGrouped(rows, |rows|);
    var g := Group(rows);
    forall i | 0 <= i < |g| ensures exists p: nat :: BestOf(rows, p) && rows[p] == g[i] {
      var k := st.order[i];
      var p := st.at[k];
      assert p < |rows| && rows[p].sym == k;
      forall j | 0 <= j < |rows| && rows[j].sym == k
        ensures rows[j].score <= rows[p].score && (j < p ==> rows[j].score < rows[p].score)
      {
        assert st.at[rows[j].sym] == p;
      }
      assert BestOf(rows, p);
      assert g[i] == rows[p];
    }
  }

  /** `rows[p]` is the first row of its symbol with the highest score for it. */
  ghost predicate BestOf(rows: seq<Row>, p: nat) {
    p < |rows|
    && (forall j :: 0 <= j < |rows| && rows[j].sym == rows[p].sym ==> rows[j].score <= rows[p].score)
    && (forall j :: 0 <= j < p && rows[j].sym == rows[p].sym ==> rows[j].score < rows[p].score)
  }

  /** Every grouped row is one of the input rows. */
  lemma GroupFromInput(rows: seq<Row>)
    ensures forall x :: x in Group(rows) ==> x in rows
  {
    var st := GroupPrefix(rows, |rows|);
    GroupPrefixGrouped(rows, |rows|);
  }

  // ----------------------------------------------------------------- sorting

  predicate SortedDesc(s: seq<Row>) {
    forall i, j :: 0 <= i < j < |s| ==> s[i].score >= s[j].score
  }

  /** Places `x` after every row whose score is not smaller. */
  function Insert(t: seq<Row>, x: Row): (r: seq<Row>)
    ensures |r| == |t| + 1
    ensures r[0] == x || (|t| > 0 && r[0] == t[0])
    ensures SortedDesc(t) ==> SortedDesc(r)
  {
    if t == [] then [x]
    else if t[0].score >= x.score then
      assert t == [t[0]] + t[1..];
      [t[0]] + Insert(t[1..], x)
    else [x] + t
  }

  /** `sort(key=score, reverse=True)`, which is stable. */
  function SortByScore(s: seq<Row>): (r: seq<Row>)
    ensures |r| == |s|
    ensures SortedDesc(r)
  {
    if s == [] then []
    else
      assert s == s[..|s| - 1] + [s[|s| - 1]];
      Insert(SortByScore(s[..|s| - 1]), s[|s| - 1])
  }

  lemma {:induction false} InsertPermutes(t: seq<Row>, x: Row)
    ensures multiset(Insert(t, x)) == multiset(t) + multiset{x}
  {
    if t != [] && t[0].score >= x.score {
      InsertPermutes(t[1..], x);
      assert t == [t[0]] + t[1..];
    }
  }

  /** The sort is a permutation of its input. */
  lemma {:induction false} SortPermutes(s: seq<Row>)
    ensures multiset(SortByScore(s)) == multiset(s)
  {
    if s != [] {
      var init, x := s[..|s| - 1], s[|s| - 1];
      SortPermutes(init);
      InsertPermutes(SortByScore(init), x);
      assert SortByScore(s) == Insert(SortByScore(init), x);
      MultisetSnoc(s);
    }
  }

  /** The rows of `s` with score `v`, in their order in `s`. */
  function AtScore(s: seq<Row>, v: real): seq<Row> {
    if s == [] then []
    else (if s[0].score == v then [s[0]] else []) + AtScore(s[1..], v)
  }

  lemma {:induction false} AtScoreAppend(a: seq<Row>, b: seq<Row>, v: real)
    ensures AtScore(a + b, v) == AtScore(a, v) + AtScore(b, v)
  {
    if a == [] {
      assert a + b == b;
    } else {
      var head := if a[0].score == v then [a[0]] else [];
      assert (a + b)[0] == a[0] && (a + b)[1..] == a[1..] + b;
      assert AtScore(a + b, v) == head + AtScore(a[1..] + b, v);
      AtScoreAppend(a[1..], b, v);
      assert head + (AtScore(a[1..], v) + AtScore(b, v)) == (head + AtScore(a[1..], v)) + AtScore(b, v);
    }
  }

  lemma {:induction false} AtScoreBelow(t: seq<Row>, v: real)
    requires forall m :: 0 <= m < |t| ==> t[m].score < v
    ensures AtScore(t, v) == []
  {
    if t != [] {
      AtScoreBelow(t[1..], v);
    }
  }

  lemma {:induction false} InsertAtScore(t: seq<Row>, x: Row, v: real)
    requires SortedDesc(t)
    ensures AtScore(Insert(t, x), v) == AtScore(t, v) + (if x.score == v then [x] else [])
  {
    var tail := if x.score == v then [x] else [];
    if t == [] {
      assert AtScore([x], v) == tail + AtScore([], v);
    } else if t[0].score >= x.score {
      var head := if t[0].score == v then [t[0]] else [];
      InsertAtScore(t[1..], x, v);
      assert AtScore(Insert(t, x), v) == head + AtScore(Insert(t[1..], x), v);
      assert AtScore(t, v) == head + AtScore(t[1..], v);
    } else {
      assert AtScore(Insert(t, x), v) == tail + AtScore(t, v);
      if x.score == v {
        AtScoreBelow(t, v);
      }
    }
  }

  /** The sort is stable: rows of equal score keep their order, which decides the ties kept by the top-N cut. */
  lemma {:induction false} SortStable(s: seq<Row>, v: real)
    ensures AtScore(SortByScore(s), v) == AtScore(s, v)
  {
    if s != [] {
      var init, x := s[..|s| - 1], s[|s| - 1];
      SortStable(init, v);
      InsertAtScore(SortByScore(init), x, v);
      assert s == init + [x];
      AtScoreAppend(init, [x], v);
    }
  }

  // ------------------------------------------------------------ the filter

  /** `_alerts_apply_filters` with the values of the four selectors. */
  function ApplyFilters(rows: seq<Row>, kind: string, minScore: real, group: bool, topN: int): seq<Row> {
    var selected := Select(rows, kind, minScore);
    var kept := if group then Group(selected) else selected;
    var sorted := SortByScore(kept);
    if topN > 0 && topN < |sorted| then sorted[..topN] else sorted
  }

  /**
   * Every row shown is an input row that passes the selection; the rows are
   * sorted by descending score; there are at most `top_n` of them when it is
   * positive, and otherwise all the kept rows are shown.
   */
  lemma FiltersSound(rows: seq<Row>, kind: string, minScore: real, group: bool, topN: int)
    ensures var out := ApplyFilters(rows, kind, minScore, group, topN);
      var selected := Select(rows, kind, minScore);
      var kept := if group then Group(selected) else selected;
      && (forall x :: x in out ==> x in rows && Selected(x, kind, minScore))
      && SortedDesc(out)
      && (topN > 0 ==> |out| <= topN)
      && (topN <= 0 ==> multiset(out) == multiset(kept))
  {
    var selected := Select(rows, kind, minScore);
    var kept := if group then Group(selected) else selected;
    var sorted := SortByScore(kept);
    SortPermutes(kept);
    GroupFromInput(selected);
    forall x | x in sorted ensures x in kept {
      assert x in multiset(sorted);
    }
  }

  // -------------------------------------------------------------- top alert

  /** The code sent for an alert: its kind uppercased, '_', and its symbol. */
  function AlertCode(kind: string, sym: string): string {
    Upper(kind) + "_" + sym
  }

  /** `_alerts_send_top`: the code and message of the first row shown, if any. */
  function TopAlert(shown: seq<Row>): (r: Option<(string, string)>)
    ensures r.None? <==> shown == []
    ensures r.Some? ==> r.value == (AlertCode(shown[0].kind, shown[0].sym), shown[0].message)
  {
    if shown == [] then None else Some((AlertCode(shown[0].kind, shown[0].sym), shown[0].message))
  }

  /** A kind without '_' can be read back from the code: the code splits at its first '_' into the uppercased kind and the symbol. */
  lemma AlertCodeSplits(kind: string, sym: string)
    requires '_' !in kind
    ensures SplitOnce(AlertCode(kind, sym), '_') == Some((Upper(kind), sym))
  {
    assert '_' !in Upper(kind) by {
      forall i | 0 <= i < |kind| ensures Upper(kind)[i] != '_' {
        assert kind[i] != '_';
      }
    }
    assert AlertCode(kind, sym) == Upper(kind) + ['_'] + sym;
    SplitOnceAt(Upper(kind), '_', sym);
  }
}
