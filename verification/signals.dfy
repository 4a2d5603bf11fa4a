/**
 * Trading signals (`Signal` in `analytics/strategies.py`) and the ordering the
 * backtest puts them in: Python's `sorted(signals, key=lambda s: s.index)`,
 * which is stable, modelled as an insertion sort.
 */
module Signals {
  import opened Wrappers
  import opened Rounding

  /** A buy or sell suggestion at one close index; `confidence` is None or in 0..1. */
  datatype Signal = Signal(index: int, kind: string, reason: string, confidence: Option<real>)

  /** The dictionary `to_dict` builds: `conf` is the only optional key. */
  datatype SignalDict = SignalDict(i: int, kind: string, reason: string, conf: Option<real>)

  /** `Signal.to_dict`: "conf" is present exactly when a confidence is, rounded to 4 places. */
  function ToDict(s: Signal): (d: SignalDict)
    ensures d.i == s.index && d.kind == s.kind && d.reason == s.reason
    ensures d.conf.Some? <==> s.confidence.Some?
    ensures s.confidence.Some? ==> -0.00005 <= d.conf.value - s.confidence.value <= 0.00005
  {
    SignalDict(s.index, s.kind, s.reason,
               if s.confidence.Some? then Some(Round4Of(s.confidence.value)) else None)
  }

  predicate SortedByIndex(s: seq<Signal>) {
    forall i, j :: 0 <= i < j < |s| ==> s[i].index <= s[j].index
  }

  /** The signals of `s` at one index, in their order in `s`. */
  function AtIndex(s: seq<Signal>, k: int): seq<Signal> {
    if s == [] then []
    else (if s[0].index == k then [s[0]] else []) + AtIndex(s[1..], k)
  }

  /** Places `x` after every signal whose index is not larger. */
  function Insert(t: seq<Signal>, x: Signal): (r: seq<Signal>)
    ensures |r| == |t| + 1
    ensures r[0] == x || (|t| > 0 && r[0] == t[0])
    ensures SortedByIndex(t) ==> SortedByIndex(r)
  {
    if t == [] then [x]
    else if t[0].index <= x.index then
      assert t == [t[0]] + t[1..];
      [t[0]] + Insert(t[1..], x)
    else [x] + t
  }

  /** `sorted(signals, key=lambda s: s.index)`. */
  function SortByIndex(s: seq<Signal>): (r: seq<Signal>)
    ensures |r| == |s|
    ensures SortedByIndex(r)
  {
    if s == [] then []
    else
      assert s == s[..|s| - 1] + [s[|s| - 1]];
      Insert(SortByIndex(s[..|s| - 1]), s[|s| - 1])
  }

  lemma {:induction false} InsertPermutes(t: seq<Signal>, x: Signal)
    ensures multiset(Insert(t, x)) == multiset(t) + multiset{x}
  {
    if t != [] && t[0].index <= x.index {
      InsertPermutes(t[1..], x);
      assert t == [t[0]] + t[1..];
    }
  }

  /** The sort is a permutation of its input. */
  lemma {:induction false} SortPermutes(s: seq<Signal>)
    ensures multiset(SortByIndex(s)) == multiset(s)
  {
    if s != [] {
      var init, x := s[..|s| - 1], s[|s| - 1];
      SortPermutes(init);
      InsertPermutes(SortByIndex(init), x);
      assert SortByIndex(s) == Insert(SortByIndex(init), x);
      MultisetSnoc(s);
    }
  }

  lemma {:induction false} AtIndexAppend(a: seq<Signal>, b: seq<Signal>, k: int)
    ensures AtIndex(a + b, k) == AtIndex(a, k) + AtIndex(b, k)
  {
    if a == [] {
      assert a + b == b;
    } else {
      var head := if a[0].index == k then [a[0]] else [];
      assert (a + b)[0] == a[0] && (a + b)[1..] == a[1..] + b;
      assert AtIndex(a + b, k) == head + AtIndex(a[1..] + b, k);
      AtIndexAppend(a[1..], b, k);
      assert head + (AtIndex(a[1..], k) + AtIndex(b, k)) == (head + AtIndex(a[1..], k)) + AtIndex(b, k);
    }
  }

  lemma {:induction false} AtIndexAbove(t: seq<Signal>, k: int)
    requires forall m :: 0 <= m < |t| ==> t[m].index > k
    ensures AtIndex(t, k) == []
  {
    if t != [] {
      AtIndexAbove(t[1..], k);
    }
  }

  lemma {:induction false} InsertAtIndex(t: seq<Signal>, x: Signal, k: int)
    requires SortedByIndex(t)
    ensures AtIndex(Insert(t, x), k) == AtIndex(t, k) + (if x.index == k then [x] else [])
  {
    var tail := if x.index == k then [x] else [];
    if t == [] {
      assert AtIndex([x], k) == tail + AtIndex([], k);
    } else if t[0].index <= x.index {
      var head := if t[0].index == k then [t[0]] else [];
      InsertAtIndex(t[1..], x, k);
      assert AtIndex(Insert(t, x), k) == head + AtIndex(Insert(t[1..], x), k);
      assert AtIndex(t, k) == head + AtIndex(t[1..], k);
    } else {
      assert AtIndex(Insert(t, x), k) == tail + AtIndex(t, k);
      if x.index == k {
        AtIndexAbove(t, k);
      }
    }
  }

  /** The sort is stable: the signals at any one index keep their input order. */
  lemma {:induction false} SortStable(s: seq<Signal>, k: int)
    ensures AtIndex(SortByIndex(s), k) == AtIndex(s, k)
  {
    if s != [] {
      var init, x := s[..|s| - 1], s[|s| - 1];
      SortStable(init, k);
      InsertAtIndex(SortByIndex(init), x, k);
      assert s == init + [x];
      AtIndexAppend(init, [x], k);
    }
  }
}
