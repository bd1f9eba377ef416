/**
 * Quartile table, grades, score and marketing action for each customer
 * (app_RFV_2.py lines 134-141 and 159-166), and the per-action tally
 * (line 181).
 */
module Segmentation {
  import opened Wrappers
  import opened Grading
  import opened Quantiles
  import opened Aggregation

  /** `quartis`: the quartiles of each RFV column, looked up by column name. */
  datatype QuartileTable = QuartileTable(recency: Quartiles, frequency: Quartiles, value: Quartiles)

  function RecencyColumn(rows: seq<CustomerMetrics>): seq<real>
  {
    seq(|rows|, i requires 0 <= i < |rows| => rows[i].recency as real)
  }

  function FrequencyColumn(rows: seq<CustomerMetrics>): seq<real>
  {
    seq(|rows|, i requires 0 <= i < |rows| => rows[i].frequency as real)
  }

  function ValueColumn(rows: seq<CustomerMetrics>): seq<real>
  {
    seq(|rows|, i requires 0 <= i < |rows| => rows[i].value)
  }

  /**
   * The 0.25, 0.50 and 0.75 quantiles of one column: ordered, and within the
   * column's range.
   */
  function QuartilesOf(col: seq<real>): (q: Quartiles)
    requires |col| > 0
    ensures Ordered(q)
    ensures Min(col) <= q.q25 && q.q75 <= Max(col)
  {
    QuantileMonotone(col, 0.25, 0.5);
    QuantileMonotone(col, 0.5, 0.75);
    QuantileWithinRange(col, 0.25);
    QuantileWithinRange(col, 0.75);
    Quartiles(Quantile(col, 0.25), Quantile(col, 0.5), Quantile(col, 0.75))
  }

  /** `df_RFV.quantile(q=[0.25, 0.5, 0.75])`, once over the whole population. */
  function ComputeQuartiles(rows: seq<CustomerMetrics>): (q: QuartileTable)
    requires |rows| > 0
    ensures Ordered(q.recency) && Ordered(q.frequency) && Ordered(q.value)
    ensures Min(RecencyColumn(rows)) <= q.recency.q25 && q.recency.q75 <= Max(RecencyColumn(rows))
    ensures Min(FrequencyColumn(rows)) <= q.frequency.q25 && q.frequency.q75 <= Max(FrequencyColumn(rows))
    ensures Min(ValueColumn(rows)) <= q.value.q25 && q.value.q75 <= Max(ValueColumn(rows))
  {
    QuartileTable(
      QuartilesOf(RecencyColumn(rows)),
      QuartilesOf(FrequencyColumn(rows)),
      QuartilesOf(ValueColumn(rows)))
  }

  const AaaAction: string := "Enviar cupons de desconto, Pedir para indicar nosso produto pra algum amigo, Ao lançar um novo produto enviar amostras grátis pra esses."
  const DddAction: string := "Churn! clientes que gastaram bem pouco e fizeram poucas compras, fazer nada"
  const WinBackAction: string := "Churn! clientes que gastaram bastante e fizeram muitas compras, enviar cupons de desconto para tentar recuperar"

  /** `dict_acoes`: the curated scores and their marketing actions. */
  const ActionMap: map<string, string> := map[
    "AAA" := AaaAction,
    "DDD" := DddAction,
    "DAA" := WinBackAction,
    "CAA" := WinBackAction]

  /** `Series.map(dict_acoes)`: a score outside the map gets no action. */
  function Action(score: string): Option<string>
  {
    if score in ActionMap then Some(ActionMap[score]) else None
  }

  /**
   * A score has an action exactly when it is one of the four curated ones;
   * any other score, among the 64 possible, yields a missing value, not an
   * error.
   */
  lemma ActionDefinedExactly(score: string)
    ensures Action(score).Some? <==> score in {"AAA", "DDD", "DAA", "CAA"}
    ensures Action(score).Some? ==> Action(score).value in {AaaAction, DddAction, WinBackAction}
  {
  }

  /** The two churn scores with high Frequency and Value share one action; the others differ. */
  lemma ActionsOfScores()
    ensures Action("DAA") == Action("CAA") == Some(WinBackAction)
    ensures Action("AAA") == Some(AaaAction) && Action("DDD") == Some(DddAction)
    ensures AaaAction != DddAction && AaaAction != WinBackAction && DddAction != WinBackAction
  {
  }

  /** A customer row extended with R_quartil, F_quartil, V_quartil, RFV_Score and the action. */
  datatype GradedRow = GradedRow(
    metrics: CustomerMetrics,
    rGrade: char, fGrade: char, vGrade: char,
    score: string,
    action: Option<string>)

  /**
   * The new columns of one row: three grades against the population's
   * quartiles, the 3-letter score in R, F, V order, and its action.
   */
  function GradeRow(m: CustomerMetrics, q: QuartileTable): (g: GradedRow)
    ensures g.metrics == m
    ensures IsGrade(g.rGrade) && IsGrade(g.fGrade) && IsGrade(g.vGrade)
    ensures g.rGrade == RecencyClass(m.recency as real, q.recency)
    ensures g.fGrade == FreqValClass(m.frequency as real, q.frequency)
    ensures g.vGrade == FreqValClass(m.value, q.value)
    ensures Ordered(q.recency) ==> g.rGrade == "ABCD"[CutsBelow(m.recency as real, q.recency)]
    ensures Ordered(q.frequency) ==> g.fGrade == "DCBA"[CutsBelow(m.frequency as real, q.frequency)]
    ensures Ordered(q.value) ==> g.vGrade == "DCBA"[CutsBelow(m.value, q.value)]
    ensures |g.score| == 3 && g.score[0] == g.rGrade && g.score[1] == g.fGrade && g.score[2] == g.vGrade
    ensures g.action == Action(g.score)
  {
    var r := RecencyClass(m.recency as real, q.recency);
    var f := FreqValClass(m.frequency as real, q.frequency);
    var v := FreqValClass(m.value, q.value);
    assert Ordered(q.recency) ==> r == "ABCD"[CutsBelow(m.recency as real, q.recency)] by {
      if Ordered(q.recency) { RecencyClassIsQuarter(m.recency as real, q.recency); }
    }
    assert Ordered(q.frequency) ==> f == "DCBA"[CutsBelow(m.frequency as real, q.frequency)] by {
      if Ordered(q.frequency) { FreqValClassIsQuarter(m.frequency as real, q.frequency); }
    }
    assert Ordered(q.value) ==> v == "DCBA"[CutsBelow(m.value, q.value)] by {
      if Ordered(q.value) { FreqValClassIsQuarter(m.value, q.value); }
    }
    var score := [r, f, v];
    GradedRow(m, r, f, v, score, Action(score))
  }

  /** All rows of a table graded against one quartile table. */
  function GradeAll(rows: seq<CustomerMetrics>, q: QuartileTable): seq<GradedRow>
  {
    seq(|rows|, i requires 0 <= i < |rows| => GradeRow(rows[i], q))
  }

  /**
   * Fills the new columns row by row, as the `apply` and `map` calls do, with
   * one quartile table for every row.
   */
  method Segment(rows: seq<CustomerMetrics>, q: QuartileTable) returns (graded: array<GradedRow>)
    ensures fresh(graded)
    ensures graded.Length == |rows|
    ensures forall i :: 0 <= i < |rows| ==> graded[i] == GradeRow(rows[i], q)
    ensures graded[..] == GradeAll(rows, q)
  {
    graded := new GradedRow[|rows|];
    var i := 0;
    while i < |rows|
      invariant 0 <= i <= |rows|
      invariant forall k :: 0 <= k < i ==> graded[k] == GradeRow(rows[k], q)
    {
      graded[i] := GradeRow(rows[i], q);
      i := i + 1;
    }
  }

  /**
   * The customer with the best Recency, Frequency and Value relative to the
   * quartiles (at most Q0.25 for Recency, above Q0.75 for the other two)
   * scores "AAA" and gets its curated action.
   */
  lemma BestCustomerScoresAAA(m: CustomerMetrics, q: QuartileTable)
    requires Ordered(q.frequency) && Ordered(q.value)
    requires m.recency as real <= q.recency.q25
    requires q.frequency.q75 < m.frequency as real && q.value.q75 < m.value
    ensures GradeRow(m, q).score == "AAA"
    ensures GradeRow(m, q).action == Some(AaaAction)
  {
  }

  /** A valid score outside the curated four, such as "ABC", gets no action. */
  lemma UncuratedScoreHasNoAction(m: CustomerMetrics, q: QuartileTable)
    requires GradeRow(m, q).score == "ABC"
    ensures GradeRow(m, q).action == None
  {
  }

  /**
   * A customer whose Recency is the smallest of the population gets 'A': the
   * minimum of a column never exceeds its Q0.25.
   */
  lemma {:induction false} LeastRecencyGradedA(rows: seq<CustomerMetrics>, i: nat)
    requires i < |rows|
    requires forall j :: 0 <= j < |rows| ==> rows[i].recency <= rows[j].recency
    ensures GradeRow(rows[i], ComputeQuartiles(rows)).rGrade == 'A'
  {
    var col := RecencyColumn(rows);
    var k :| 0 <= k < |col| && col[k] == Min(col);
    assert col[i] == rows[i].recency as real;
  }

  /**
   * A customer whose Frequency, or Value, is the smallest of the population
   * gets 'D' for it.
   */
  lemma {:induction false} LeastFrequencyValueGradedD(rows: seq<CustomerMetrics>, i: nat)
    requires i < |rows|
    ensures (forall j :: 0 <= j < |rows| ==> rows[i].frequency <= rows[j].frequency)
            ==> GradeRow(rows[i], ComputeQuartiles(rows)).fGrade == 'D'
    ensures (forall j :: 0 <= j < |rows| ==> rows[i].value <= rows[j].value)
            ==> GradeRow(rows[i], ComputeQuartiles(rows)).vGrade == 'D'
  {
    var fcol, vcol := FrequencyColumn(rows), ValueColumn(rows);
    var kf :| 0 <= kf < |fcol| && fcol[kf] == Min(fcol);
    var kv :| 0 <= kv < |vcol| && vcol[kv] == Min(vcol);
    assert fcol[i] == rows[i].frequency as real && vcol[i] == rows[i].value;
  }

  /**
   * In a one-customer population every quartile is that customer's own value,
   * so the grades are 'A', 'D', 'D': score "ADD", with no curated action.
   */
  lemma {:induction false} SingleRowScoresADD(rows: seq<CustomerMetrics>)
    requires |rows| == 1
    ensures GradeRow(rows[0], ComputeQuartiles(rows)).score == "ADD"
    ensures GradeRow(rows[0], ComputeQuartiles(rows)).action == None
  {
    QuantileOfOne(RecencyColumn(rows), 0.25);
    QuantileOfOne(FrequencyColumn(rows), 0.25);
    QuantileOfOne(ValueColumn(rows), 0.25);
  }

  /** `value_counts(dropna=False)` of the action column: rows with action a. */
  function Tally(rows: seq<GradedRow>, a: Option<string>): (n: nat)
    ensures n <= |rows|
  {
    if rows == [] then 0 else (if rows[0].action == a then 1 else 0) + Tally(rows[1..], a)
  }

  /**
   * The tally partitions the customers: every graded row is counted under
   * exactly one of "no action" and the three action texts.
   */
  lemma {:induction false} TallyCoversAll(rows: seq<GradedRow>)
    requires forall i :: 0 <= i < |rows| ==> rows[i].action == Action(rows[i].score)
    ensures Tally(rows, None) + Tally(rows, Some(AaaAction)) + Tally(rows, Some(DddAction))
            + Tally(rows, Some(WinBackAction)) == |rows|
  {
    if rows != [] {
      TallyCoversAll(rows[1..]);
      ActionsOfScores();
      ActionDefinedExactly(rows[0].score);
    }
  }
}
