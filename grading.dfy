/**
 * Letter grades of one RFV metric against the quartiles of its column
 * (`recencia_class` and `freq_val_class` in app_RFV_2.py).
 */
module Grading {

  /** The 0.25, 0.50 and 0.75 quantiles of one metric column. */
  datatype Quartiles = Quartiles(q25: real, q50: real, q75: real)

  /** Cut points in non-decreasing order, as every computed quartile triple is. */
  predicate Ordered(q: Quartiles)
  {
    q.q25 <= q.q50 <= q.q75
  }

  predicate IsGrade(g: char)
  {
    g == 'A' || g == 'B' || g == 'C' || g == 'D'
  }

  /** Recency is better when smaller: the lowest quarter gets 'A'. */
  function RecencyClass(x: real, q: Quartiles): (g: char)
    ensures IsGrade(g)
    ensures g == 'A' <==> x <= q.q25
    ensures g == 'B' <==> q.q25 < x <= q.q50
    ensures g == 'C' <==> q.q25 < x && q.q50 < x <= q.q75
    ensures g == 'D' <==> q.q25 < x && q.q50 < x && q.q75 < x
  {
    if x <= q.q25 then 'A'
    else if x <= q.q50 then 'B'
    else if x <= q.q75 then 'C'
    else 'D'
  }

  /** The letter swap A<->D, B<->C that turns one grading direction into the other. */
  function Mirror(g: char): (m: char)
    requires IsGrade(g)
    ensures IsGrade(m) && m != g
  {
    match g
    case 'A' => 'D'
    case 'B' => 'C'
    case 'C' => 'B'
    case _ => 'A'
  }

  /** Frequency and Value are better when larger: the highest quarter gets 'A'. */
  function FreqValClass(x: real, q: Quartiles): (g: char)
    ensures IsGrade(g)
    ensures g == Mirror(RecencyClass(x, q))
    ensures g == 'D' <==> x <= q.q25
    ensures g == 'C' <==> q.q25 < x <= q.q50
    ensures g == 'B' <==> q.q25 < x && q.q50 < x <= q.q75
    ensures g == 'A' <==> q.q25 < x && q.q50 < x && q.q75 < x
  {
    if x <= q.q25 then 'D'
    else if x <= q.q50 then 'C'
    else if x <= q.q75 then 'B'
    else 'A'
  }

  /** How many of the three cut points lie strictly below x. */
  function CutsBelow(x: real, q: Quartiles): (n: nat)
    ensures n <= 3
  {
    (if q.q25 < x then 1 else 0) + (if q.q50 < x then 1 else 0) + (if q.q75 < x then 1 else 0)
  }

  /**
   * With ordered cut points, the Recency grade is the quarter x falls in,
   * counted from the bottom: no cut point below gives 'A', all three give 'D'.
   */
  lemma RecencyClassIsQuarter(x: real, q: Quartiles)
    requires Ordered(q)
    ensures RecencyClass(x, q) == "ABCD"[CutsBelow(x, q)]
  {
  }

  /** The Frequency/Value grade counts the same quarter from the top. */
  lemma FreqValClassIsQuarter(x: real, q: Quartiles)
    requires Ordered(q)
    ensures FreqValClass(x, q) == "DCBA"[CutsBelow(x, q)]
  {
  }

  /**
   * A larger Recency never gets a better letter. The if-chain tests the cut
   * points in order and stops at the first one x does not exceed, so this
   * holds even when the cut points are not ordered.
   */
  lemma RecencyClassMonotone(x: real, y: real, q: Quartiles)
    requires x <= y
    ensures RecencyClass(x, q) <= RecencyClass(y, q)
  {
  }

  /** A larger Frequency or Value never gets a worse letter. */
  lemma FreqValClassMonotone(x: real, y: real, q: Quartiles)
    requires x <= y
    ensures FreqValClass(x, q) >= FreqValClass(y, q)
  {
  }
}
