/**
 * One run of the RFV page on an uploaded purchase log: aggregate, compute the
 * quartiles once, grade every customer and attach the actions.
 */
module Pipeline {
  import opened Wrappers
  import opened Aggregation
  import opened Segmentation

  /**
   * The final `df_RFV` and the quartile table it was graded against; an empty
   * log gives an empty table and no quartiles (pandas yields NaN there).
   */
  datatype Report = Report(quartiles: Option<QuartileTable>, rows: seq<GradedRow>)

  /** The graded table and its quartiles, for any RFV table. */
  function ReportOf(table: seq<CustomerMetrics>): (r: Report)
    ensures r.quartiles.Some? <==> table != []
    ensures |r.rows| == |table|
    ensures forall i :: 0 <= i < |table| ==> r.rows[i].metrics == table[i]
    ensures forall i :: 0 <= i < |table| ==> r.rows[i].action == Action(r.rows[i].score)
  {
    if table == [] then Report(None, [])
    else
      var q := ComputeQuartiles(table);
      Report(Some(q), GradeAll(table, q))
  }

  /** What a run produces for a log. */
  function RfvReport(txs: seq<Transaction>): Report
  {
    ReportOf(RfvTable(txs))
  }

  /** The customer ids of a report, in row order. */
  function ReportIds(r: Report): seq<CustomerId>
  {
    seq(|r.rows|, i requires 0 <= i < |r.rows| => r.rows[i].metrics.id)
  }

  /** The body of the page once a file is uploaded, without the display calls. */
  method RunRfv(txs: seq<Transaction>) returns (report: Report)
    ensures report == RfvReport(txs)
  {
    var table := RfvTable(txs);
    if |table| == 0 {
      return Report(None, []);
    }
    assert RfvReport(txs) == ReportOf(table);
    var q := ComputeQuartiles(table);
    var graded := Segment(table, q);
    report := Report(Some(q), graded[..]);
  }

  /** The report's rows are the table's rows, graded against the table's own quartiles. */
  lemma ReportOfTable(table: seq<CustomerMetrics>)
    ensures |ReportOf(table).rows| == |table|
    ensures table == [] ==> ReportOf(table).quartiles == None
    ensures table != [] ==>
              ReportOf(table).quartiles == Some(ComputeQuartiles(table)) &&
              forall i :: 0 <= i < |table| ==> ReportOf(table).rows[i] == GradeRow(table[i], ComputeQuartiles(table))
  {
  }

  /** A report keeps the table's index column. */
  lemma {:induction false} ReportKeepsIds(table: seq<CustomerMetrics>)
    ensures ReportIds(ReportOf(table)) == Ids(table)
  {
    var r := ReportOf(table);
    assert |ReportIds(r)| == |Ids(table)|;
    forall i | 0 <= i < |table| ensures ReportIds(r)[i] == Ids(table)[i] {
      assert r.rows[i].metrics == table[i];
    }
  }

  /**
   * The report has one row per customer of the log, ascending by id: no
   * customer is dropped and none appears twice.
   */
  lemma {:induction false} ReportCustomers(txs: seq<Transaction>)
    ensures EachCustomerOnce(txs, ReportIds(RfvReport(txs)))
  {
    EveryCustomerOnce(txs);
    ReportKeepsIds(RfvTable(txs));
  }

  /**
   * The quartile table exists exactly when the log is not empty, and each
   * row's action is the one its score is mapped to.
   */
  lemma {:induction false} ReportQuartilesAndActions(txs: seq<Transaction>)
    ensures |txs| > 0 <==> RfvReport(txs).quartiles.Some?
    ensures forall i :: 0 <= i < |RfvReport(txs).rows| ==>
              RfvReport(txs).rows[i].action == Action(RfvReport(txs).rows[i].score)
  {
    RfvTableRows(txs);
    if |txs| > 0 {
      assert txs[0].customer in Customers(txs);
    }
  }

  /**
   * Customers who bought on the latest day of the log have Recency 0, the
   * smallest Recency there is, so they always get Recency grade 'A'.
   */
  lemma {:induction false} LatestBuyersGradedA(txs: seq<Transaction>, i: nat, k: nat)
    requires i < |Customers(txs)| && k < |txs|
    requires txs[k].customer == Customers(txs)[i] && txs[k].day == MaxDay(txs)
    ensures i < |RfvReport(txs).rows| && RfvReport(txs).rows[i].metrics.id == txs[k].customer
    ensures RfvReport(txs).rows[i].metrics.recency == 0
    ensures RfvReport(txs).rows[i].rGrade == 'A'
  {
    RfvTableRows(txs);
    ReportOfTable(RfvTable(txs));
    RecencyRange(txs);
    LeastRecencyGradedA(RfvTable(txs), i);
  }

  /**
   * A customer with the smallest Frequency of all, or the smallest Value of
   * all, gets grade 'D' for it.
   */
  lemma {:induction false} LowestGradedD(txs: seq<Transaction>, i: nat)
    requires i < |Customers(txs)|
    ensures i < |RfvReport(txs).rows|
    ensures (forall j :: 0 <= j < |RfvTable(txs)| ==> RfvTable(txs)[i].frequency <= RfvTable(txs)[j].frequency)
            ==> RfvReport(txs).rows[i].fGrade == 'D'
    ensures (forall j :: 0 <= j < |RfvTable(txs)| ==> RfvTable(txs)[i].value <= RfvTable(txs)[j].value)
            ==> RfvReport(txs).rows[i].vGrade == 'D'
  {
    RfvTableRows(txs);
    ReportOfTable(RfvTable(txs));
    LeastFrequencyValueGradedD(RfvTable(txs), i);
  }

  /**
   * A log with a single customer yields a single row scored "ADD", which has
   * no curated action.
   */
  lemma {:induction false} SingleCustomerScoresADD(txs: seq<Transaction>)
    requires |Customers(txs)| == 1
    ensures |RfvReport(txs).rows| == 1
    ensures RfvReport(txs).rows[0].score == "ADD"
    ensures RfvReport(txs).rows[0].action == None
  {
    RfvTableRows(txs);
    ReportOfTable(RfvTable(txs));
    SingleRowScoresADD(RfvTable(txs));
  }
}
