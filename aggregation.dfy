/**
 * From the purchase log to one row per customer (app_RFV_2.py lines 95-126):
 * Recency from the latest purchase day, Frequency from the number of purchases,
 * Value from the sum of purchase totals, joined on the customer id.
 */
module Aggregation {
  import opened Frames

  type CustomerId = int

  /**
   * One parsed row of the purchase log: customer (ID_cliente), purchase day as
   * a day number (DiaCompra), purchase code (CodigoCompra), total (ValorTotal).
   */
  datatype Transaction = Transaction(customer: CustomerId, day: int, code: string, total: real)

  /** One row of the RFV table, indexed by customer id. */
  datatype CustomerMetrics = CustomerMetrics(id: CustomerId, recency: int, frequency: nat, value: real)

  /** Customer c has at least one row in the log. */
  predicate Buys(txs: seq<Transaction>, c: CustomerId)
  {
    exists i :: 0 <= i < |txs| && txs[i].customer == c
  }

  predicate StrictlyIncreasing(ids: seq<CustomerId>)
  {
    forall i, j :: 0 <= i < j < |ids| ==> ids[i] < ids[j]
  }

  /** The latest day in a non-empty log (`df_compras['DiaCompra'].max()`). */
  function MaxDay(txs: seq<Transaction>): (d: int)
    requires |txs| > 0
    ensures exists i :: 0 <= i < |txs| && txs[i].day == d
    ensures forall i :: 0 <= i < |txs| ==> txs[i].day <= d
  {
    if |txs| == 1 then txs[0].day
    else
      var rest := MaxDay(txs[1..]);
      assert forall i :: 1 <= i < |txs| ==> txs[i] == txs[1..][i - 1];
      if rest <= txs[0].day then txs[0].day else rest
  }

  /** The sum of the totals of some log rows. */
  function Total(txs: seq<Transaction>): real
  {
    if txs == [] then 0.0 else txs[0].total + Total(txs[1..])
  }

  /** The group of customer c under `groupby('ID_cliente')`: its rows, in log order. */
  function Purchases(txs: seq<Transaction>, c: CustomerId): (g: seq<Transaction>)
    ensures |g| <= |txs|
    ensures forall i :: 0 <= i < |g| ==> g[i].customer == c && g[i] in txs
    ensures |g| > 0 <==> Buys(txs, c)
  {
    if txs == [] then []
    else
      var rest := Purchases(txs[1..], c);
      assert Buys(txs[1..], c) ==> Buys(txs, c) by {
        if Buys(txs[1..], c) {
          var i :| 0 <= i < |txs| - 1 && txs[1..][i].customer == c;
          assert txs[i + 1].customer == c;
        }
      }
      assert Buys(txs, c) && txs[0].customer != c ==> Buys(txs[1..], c) by {
        if Buys(txs, c) && txs[0].customer != c {
          var i :| 0 <= i < |txs| && txs[i].customer == c;
          assert txs[1..][i - 1].customer == c;
        }
      }
      (if txs[0].customer == c then [txs[0]] else []) + rest
  }

  /** Puts customer c into a strictly increasing id list unless it is there. */
  function InsertId(c: CustomerId, ids: seq<CustomerId>): (r: seq<CustomerId>)
    requires StrictlyIncreasing(ids)
    ensures StrictlyIncreasing(r)
    ensures forall d :: d in r <==> d == c || d in ids
  {
    if ids == [] then [c]
    else if c < ids[0] then [c] + ids
    else if c == ids[0] then ids
    else
      var tail := InsertId(c, ids[1..]);
      assert forall d :: d in ids <==> d == ids[0] || d in ids[1..];
      assert forall k :: 0 <= k < |tail| ==> ids[0] < tail[k] by {
        forall k | 0 <= k < |tail| ensures ids[0] < tail[k] {
          assert tail[k] in tail;
        }
      }
      [ids[0]] + tail
  }

  /**
   * The group keys of `groupby('ID_cliente')`: every customer of the log once,
   * in ascending order.
   */
  function Customers(txs: seq<Transaction>): (ids: seq<CustomerId>)
    ensures StrictlyIncreasing(ids)
    ensures forall c :: c in ids <==> Buys(txs, c)
  {
    if txs == [] then []
    else
      var rest := Customers(txs[1..]);
      forall c ensures Buys(txs, c) <==> c == txs[0].customer || Buys(txs[1..], c) {
        if Buys(txs[1..], c) {
          var i :| 0 <= i < |txs| - 1 && txs[1..][i].customer == c;
          assert txs[i + 1].customer == c;
        }
        if Buys(txs, c) && c != txs[0].customer {
          var i :| 0 <= i < |txs| && txs[i].customer == c;
          assert txs[1..][i - 1].customer == c;
        }
      }
      InsertId(txs[0].customer, rest)
  }

  /** The customer's latest purchase day (`groupby(...)['DiaCompra'].max()`). */
  function LastPurchase(txs: seq<Transaction>, c: CustomerId): (d: int)
    requires Buys(txs, c)
    ensures exists k :: 0 <= k < |txs| && txs[k].customer == c && txs[k].day == d
    ensures forall k :: 0 <= k < |txs| && txs[k].customer == c ==> txs[k].day <= d
  {
    var g := Purchases(txs, c);
    forall k | 0 <= k < |txs| && txs[k].customer == c ensures txs[k] in g {
      PurchasesComplete(txs, c, k);
    }
    MaxDay(g)
  }

  /** Days from the customer's latest purchase to the latest day of the whole log. */
  function Recency(txs: seq<Transaction>, c: CustomerId): (r: int)
    requires Buys(txs, c)
    ensures r >= 0
  {
    MaxDay(txs) - LastPurchase(txs, c)
  }

  /** The number of the customer's rows (`groupby('ID_cliente').count()`). */
  function Frequency(txs: seq<Transaction>, c: CustomerId): (n: nat)
    ensures n <= |txs|
    ensures n > 0 <==> Buys(txs, c)
  {
    |Purchases(txs, c)|
  }

  /** The sum of the customer's totals (`groupby('ID_cliente').sum()`). */
  function Value(txs: seq<Transaction>, c: CustomerId): real
  {
    Total(Purchases(txs, c))
  }

  /** `df_recencia`: customer id and Recencia, one row per group. */
  function RecencyFrame(txs: seq<Transaction>): seq<(CustomerId, int)>
  {
    var ids := Customers(txs);
    seq(|ids|, i requires 0 <= i < |ids| => (ids[i], Recency(txs, ids[i])))
  }

  /** `df_frequencia`: customer id and Frequencia, one row per group. */
  function FrequencyFrame(txs: seq<Transaction>): seq<(CustomerId, nat)>
  {
    var ids := Customers(txs);
    seq(|ids|, i requires 0 <= i < |ids| => (ids[i], Frequency(txs, ids[i])))
  }

  /** `df_valor`: customer id and Valor, one row per group. */
  function ValueFrame(txs: seq<Transaction>): seq<(CustomerId, real)>
  {
    var ids := Customers(txs);
    seq(|ids|, i requires 0 <= i < |ids| => (ids[i], Value(txs, ids[i])))
  }

  /**
   * `df_RFV`: the three frames merged on the customer id, then indexed by it.
   */
  function RfvTable(txs: seq<Transaction>): seq<CustomerMetrics>
  {
    var rfv := InnerJoin(InnerJoin(RecencyFrame(txs), FrequencyFrame(txs)), ValueFrame(txs));
    seq(|rfv|, i requires 0 <= i < |rfv| =>
      CustomerMetrics(rfv[i].0, rfv[i].1.0.0, rfv[i].1.0.1, rfv[i].1.1))
  }

  /** The RFV row the source computes for customer c. */
  function Metrics(txs: seq<Transaction>, c: CustomerId): CustomerMetrics
    requires Buys(txs, c)
  {
    CustomerMetrics(c, Recency(txs, c), Frequency(txs, c), Value(txs, c))
  }

  /**
   * The joins keep the group order and pair the three aggregates of the same
   * customer: row i of the RFV table is the i-th customer's Recency, Frequency
   * and Value.
   */
  lemma {:induction false} RfvTableRows(txs: seq<Transaction>)
    ensures |RfvTable(txs)| == |Customers(txs)|
    ensures forall i :: 0 <= i < |Customers(txs)| ==> RfvTable(txs)[i] == Metrics(txs, Customers(txs)[i])
  {
    var ids := Customers(txs);
    var r, f, v := RecencyFrame(txs), FrequencyFrame(txs), ValueFrame(txs);
    assert Keys(r) == ids && Keys(f) == ids && Keys(v) == ids;
    JoinAligned(r, f);
    var rf := InnerJoin(r, f);
    JoinAligned(rf, v);
  }

  /** The index column of a table of customer rows. */
  function Ids(rows: seq<CustomerMetrics>): seq<CustomerId>
  {
    seq(|rows|, i requires 0 <= i < |rows| => rows[i].id)
  }

  /** ids holds every customer of the log exactly once, nothing else, in ascending order. */
  ghost predicate EachCustomerOnce(txs: seq<Transaction>, ids: seq<CustomerId>)
  {
    && (forall c :: c in ids <==> Buys(txs, c))
    && StrictlyIncreasing(ids)
  }

  /**
   * Every customer of the log has exactly one row in the RFV table and no
   * other id has one: the index is the customers, strictly increasing.
   */
  lemma {:induction false} EveryCustomerOnce(txs: seq<Transaction>)
    ensures EachCustomerOnce(txs, Ids(RfvTable(txs)))
  {
    RfvTableRows(txs);
    assert Ids(RfvTable(txs)) == Customers(txs);
  }

  /**
   * A customer's Recency is never negative, and it is 0 exactly when the
   * customer bought on the latest day of the log. Every customer bought at
   * least once.
   */
  lemma {:induction false} CustomerRecency(txs: seq<Transaction>, c: CustomerId)
    requires Buys(txs, c)
    ensures Recency(txs, c) >= 0 && Frequency(txs, c) >= 1
    ensures Recency(txs, c) == 0 <==> exists k :: 0 <= k < |txs| && txs[k].customer == c && txs[k].day == MaxDay(txs)
  {
    var g := Purchases(txs, c);
    var j :| 0 <= j < |g| && g[j].day == LastPurchase(txs, c);
    assert g[j] in txs;
    var k0 :| 0 <= k0 < |txs| && txs[k0] == g[j];
    if exists k :: 0 <= k < |txs| && txs[k].customer == c && txs[k].day == MaxDay(txs) {
      var k :| 0 <= k < |txs| && txs[k].customer == c && txs[k].day == MaxDay(txs);
      PurchasesComplete(txs, c, k);
      var m :| 0 <= m < |g| && g[m] == txs[k];
    }
  }

  /** Recency and Frequency over the whole RFV table. */
  lemma {:induction false} RecencyRange(txs: seq<Transaction>)
    ensures forall i :: 0 <= i < |RfvTable(txs)| ==> RfvTable(txs)[i].recency >= 0
    ensures forall i :: 0 <= i < |RfvTable(txs)| ==> RfvTable(txs)[i].frequency >= 1
    ensures forall i :: 0 <= i < |RfvTable(txs)| ==>
              (RfvTable(txs)[i].recency == 0 <==>
               exists k :: 0 <= k < |txs| && txs[k].customer == RfvTable(txs)[i].id && txs[k].day == MaxDay(txs))
  {
    RfvTableRows(txs);
    var ids, t := Customers(txs), RfvTable(txs);
    forall i | 0 <= i < |t|
      ensures t[i].recency >= 0 && t[i].frequency >= 1
      ensures t[i].recency == 0 <==> exists k :: 0 <= k < |txs| && txs[k].customer == t[i].id && txs[k].day == MaxDay(txs)
    {
      CustomerRecency(txs, ids[i]);
    }
  }

  /**
   * A customer's group holds each of the customer's rows exactly as often as
   * the log does, and no other row: the group's size is the customer's row
   * count, duplicates included.
   */
  lemma {:induction false} PurchasesMultiset(txs: seq<Transaction>, c: CustomerId)
    ensures forall t :: multiset(Purchases(txs, c))[t] == if t.customer == c then multiset(txs)[t] else 0
  {
    if txs != [] {
      PurchasesMultiset(txs[1..], c);
      assert txs == [txs[0]] + txs[1..];
    }
  }

  /** A customer's group holds every one of the customer's rows. */
  lemma {:induction false} PurchasesComplete(txs: seq<Transaction>, c: CustomerId, k: nat)
    requires k < |txs| && txs[k].customer == c
    ensures txs[k] in Purchases(txs, c)
  {
    if k > 0 {
      assert txs[1..][k - 1] == txs[k];
      PurchasesComplete(txs[1..], c, k - 1);
    }
  }

  /** Some customer of a non-empty log has Recency 0. */
  lemma {:induction false} SomeCustomerIsRecent(txs: seq<Transaction>)
    requires |txs| > 0
    ensures exists i :: 0 <= i < |RfvTable(txs)| && RfvTable(txs)[i].recency == 0
  {
    RecencyRange(txs);
    EveryCustomerOnce(txs);
    var t := RfvTable(txs);
    var k :| 0 <= k < |txs| && txs[k].day == MaxDay(txs);
    assert Buys(txs, txs[k].customer);
    var i :| 0 <= i < |t| && Ids(t)[i] == txs[k].customer;
    assert t[i].recency == 0;
  }

  /** Sum of the Frequency column. */
  function FrequencyTotal(rows: seq<CustomerMetrics>): int
  {
    if rows == [] then 0 else rows[0].frequency + FrequencyTotal(rows[1..])
  }

  /** Sum of the Value column. */
  function ValueTotal(rows: seq<CustomerMetrics>): real
  {
    if rows == [] then 0.0 else rows[0].value + ValueTotal(rows[1..])
  }

  /** Sum of the group sizes of some customers. */
  function CountOver(ids: seq<CustomerId>, txs: seq<Transaction>): int
  {
    if ids == [] then 0 else Frequency(txs, ids[0]) + CountOver(ids[1..], txs)
  }

  /** Sum of the group totals of some customers. */
  function ValueOver(ids: seq<CustomerId>, txs: seq<Transaction>): real
  {
    if ids == [] then 0.0 else Value(txs, ids[0]) + ValueOver(ids[1..], txs)
  }

  lemma {:induction false} OverEmptyLog(ids: seq<CustomerId>)
    ensures CountOver(ids, []) == 0 && ValueOver(ids, []) == 0.0
  {
    if ids != [] {
      OverEmptyLog(ids[1..]);
    }
  }

  /** The group of a customer in a log with one more row in front. */
  lemma GroupOfCons(t: Transaction, rest: seq<Transaction>, c: CustomerId)
    ensures Frequency([t] + rest, c) == (if t.customer == c then 1 else 0) + Frequency(rest, c)
    ensures Value([t] + rest, c) == (if t.customer == c then t.total else 0.0) + Value(rest, c)
  {
    assert ([t] + rest)[1..] == rest;
    var g := Purchases(rest, c);
    if t.customer == c {
      assert Purchases([t] + rest, c) == [t] + g;
      assert ([t] + g)[1..] == g;
      assert Total([t] + g) == t.total + Total(g);
    } else {
      assert Purchases([t] + rest, c) == g;
    }
  }

  /** One more log row adds to the sums over distinct ids once if its customer is among them. */
  lemma {:induction false} OverOneMore(ids: seq<CustomerId>, t: Transaction, rest: seq<Transaction>)
    requires StrictlyIncreasing(ids)
    ensures CountOver(ids, [t] + rest) == (if t.customer in ids then 1 else 0) + CountOver(ids, rest)
    ensures ValueOver(ids, [t] + rest) == (if t.customer in ids then t.total else 0.0) + ValueOver(ids, rest)
  {
    if ids != [] {
      GroupOfCons(t, rest, ids[0]);
      OverOneMore(ids[1..], t, rest);
      assert t.customer in ids <==> t.customer == ids[0] || t.customer in ids[1..];
      if t.customer == ids[0] {
        assert t.customer !in ids[1..];
      }
    }
  }

  /** Over distinct ids covering the log, group sizes add up to the log size and group totals to the log total. */
  lemma {:induction false} OverPartition(ids: seq<CustomerId>, txs: seq<Transaction>)
    requires StrictlyIncreasing(ids)
    requires forall i :: 0 <= i < |txs| ==> txs[i].customer in ids
    ensures CountOver(ids, txs) == |txs|
    ensures ValueOver(ids, txs) == Total(txs)
  {
    if txs == [] {
      OverEmptyLog(ids);
    } else {
      assert txs == [txs[0]] + txs[1..];
      OverOneMore(ids, txs[0], txs[1..]);
      OverPartition(ids, txs[1..]);
    }
  }

  /** Column sums of rows that carry the aggregates of the given ids, in order. */
  lemma {:induction false} TotalsAlign(rows: seq<CustomerMetrics>, ids: seq<CustomerId>, txs: seq<Transaction>)
    requires |rows| == |ids|
    requires forall i :: 0 <= i < |rows| ==> rows[i].frequency == Frequency(txs, ids[i]) && rows[i].value == Value(txs, ids[i])
    ensures FrequencyTotal(rows) == CountOver(ids, txs)
    ensures ValueTotal(rows) == ValueOver(ids, txs)
  {
    if rows != [] {
      TotalsAlign(rows[1..], ids[1..], txs);
    }
  }

  /**
   * No purchase is lost or counted twice: the Frequency column sums to the
   * number of log rows and the Value column to the sum of all totals.
   */
  lemma {:induction false} ColumnSums(txs: seq<Transaction>)
    ensures FrequencyTotal(RfvTable(txs)) == |txs|
    ensures ValueTotal(RfvTable(txs)) == Total(txs)
  {
    RfvTableRows(txs);
    var ids := Customers(txs);
    forall i | 0 <= i < |txs| ensures txs[i].customer in ids {
      assert Buys(txs, txs[i].customer);
    }
    TotalsAlign(RfvTable(txs), ids, txs);
    OverPartition(ids, txs);
  }
}
