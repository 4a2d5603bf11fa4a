/**
 * `AlertsMixin` (`wsapp_gui/app_mixins/alerts_playbooks_risk.py`): the
 * alert rows generated for a symbol, the rows shown after the filters, and
 * the code sent for the top row. Proved against `AlertsSpec`.
 */
module Alerts {
  import opened Wrappers
  import opened Text
  import opened AlertsSpec

  /** An alert as the engine returns it: kind, score (None when missing or zero) and message. */
  datatype EngineAlert = EngineAlert(kind: string, score: Option<real>, message: string)

  /** The rows of the alerts of one symbol; a missing score counts as 0. */
  function RowsOf(sym: string, alerts: seq<EngineAlert>): (r: seq<Row>)
    ensures |r| == |alerts|
    ensures forall i :: 0 <= i < |alerts| ==>
      r[i] == Row(sym, alerts[i].kind, alerts[i].score.GetOr(0.0), alerts[i].message)
  {
    seq(|alerts|, i requires 0 <= i < |alerts| =>
      Row(sym, alerts[i].kind, alerts[i].score.GetOr(0.0), alerts[i].message))
  }

  /**
   * The grouping loop of `_alerts_apply_filters`: a dict from symbol to row,
   * whose values in insertion order are returned.
   */
  method GroupBySymbol(rows: seq<Row>) returns (values: seq<Row>)
    ensures values == Group(rows)
  {
    var order: seq<string> := [];
    var best: map<string, Row> := map[];
    ghost var st := GroupPrefix(rows, 0);
    for i := 0 to |rows|
      invariant st == GroupPrefix(rows, i)
      invariant order == st.order
      invariant best.Keys == st.at.Keys
      invariant forall k :: k in best ==> best[k] == rows[st.at[k]]
    {
      var r := rows[i];
      if r.sym !in best || r.score > best[r.sym].score {
        if r.sym !in best {
          order := order + [r.sym];
        }
        best := best[r.sym := r];
      }
      st := GroupStep(st, rows, i);
    }
    GroupPrefixGrouped(rows, |rows|);
    values := seq(|order|, i requires 0 <= i < |order| && order[i] in best => best[order[i]]);
    assert values == Values(st, rows);
  }

  /**
   * `_alerts_apply_filters` with the text of the kind selector, the minimum
   * score, the grouping switch and the top-N count.
   */
  method FilterRows(rows: seq<Row>, kindText: string, minScore: real, group: bool, topN: int)
    returns (shown: seq<Row>)
    ensures shown == ApplyFilters(rows, Strip(kindText), minScore, group, topN)
  {
    var kind := Strip(kindText);
    var filtered := Select(rows, kind, minScore);
    if group {
      filtered := GroupBySymbol(filtered);
    }
    filtered := SortByScore(filtered);
    if topN > 0 && topN < |filtered| {
      filtered := filtered[..topN];
    }
    shown := filtered;
  }

  /** The alert panel: the raw rows of the last generation and the rows of the table. */
  class AlertsPanel {
    /** `_alerts_raw`. */
    var raw: seq<Row>
    /** The rows of `tree_alerts`, top first. */
    var shown: seq<Row>

    constructor()
      ensures raw == [] && shown == []
    {
      raw := [];
      shown := [];
    }

    /** `_alerts_refresh_view`: the table is replaced by the filtered raw rows. */
    method RefreshView(kindText: string, minScore: real, group: bool, topN: int)
      modifies this
      ensures raw == old(raw)
      ensures shown == ApplyFilters(raw, Strip(kindText), minScore, group, topN)
    {
      shown := FilterRows(raw, kindText, minScore, group, topN);
    }

    /**
     * `_alerts_generate`: the symbol text is stripped and uppercased; an empty
     * symbol changes nothing, otherwise the engine's alerts become the raw rows
     * and the table is refreshed.
     */
    method Generate(symText: string, alerts: seq<EngineAlert>, kindText: string, minScore: real, group: bool, topN: int)
      returns (generated: bool)
      modifies this
      ensures generated <==> Upper(Strip(symText)) != []
      ensures !generated ==> raw == old(raw) && shown == old(shown)
      ensures generated ==> raw == RowsOf(Upper(Strip(symText)), alerts)
      ensures generated ==> shown == ApplyFilters(raw, Strip(kindText), minScore, group, topN)
    {
      var sym := Upper(Strip(symText));
      if sym == [] {
        return false;
      }
      raw := RowsOf(sym, alerts);
      RefreshView(kindText, minScore, group, topN);
      generated := true;
    }

    /** `_alerts_send_top`: the code and message sent for the top row, or None when the table is empty. */
    method SendTop() returns (sent: Option<(string, string)>)
      ensures sent == TopAlert(shown)
    {
      if shown == [] {
        return None;
      }
      var top := shown[0];
      sent := Some((AlertCode(top.kind, top.sym), top.message));
    }
  }
}
