/**
 * Keyed tables and the inner join `DataFrame.merge(..., on=key)` used to build
 * the RFV table (app_RFV_2.py lines 124-125). A table is a sequence of rows,
 * each a key and a payload; pandas keeps the left table's row order and, for
 * each left row, emits one row per matching right row.
 */
module Frames {

  function Keys<K, A>(f: seq<(K, A)>): seq<K>
  {
    seq(|f|, i requires 0 <= i < |f| => f[i].0)
  }

  predicate Distinct<K(==)>(ks: seq<K>)
  {
    forall i, j :: 0 <= i < j < |ks| ==> ks[i] != ks[j]
  }

  /** The rows of `right` with key k, each joined to the left payload a. */
  function Matches<K(==), A, B>(k: K, a: A, right: seq<(K, B)>): (r: seq<(K, (A, B))>)
    ensures |r| <= |right|
    ensures forall i :: 0 <= i < |r| ==> r[i].0 == k && r[i].1.0 == a
  {
    if right == [] then []
    else (if right[0].0 == k then [(k, (a, right[0].1))] else []) + Matches(k, a, right[1..])
  }

  /** The inner join of two keyed tables, in the order of the left table. */
  function InnerJoin<K(==), A, B>(left: seq<(K, A)>, right: seq<(K, B)>): seq<(K, (A, B))>
  {
    if left == [] then []
    else Matches(left[0].0, left[0].1, right) + InnerJoin(left[1..], right)
  }

  /** A key that occurs exactly once on the right matches exactly that row. */
  lemma {:induction false} MatchesUnique<K, A, B>(k: K, a: A, right: seq<(K, B)>, j: nat)
    requires Distinct(Keys(right)) && j < |right| && right[j].0 == k
    ensures Matches(k, a, right) == [(k, (a, right[j].1))]
  {
    if j == 0 {
      forall i | 0 <= i < |right| - 1 ensures right[1..][i].0 != k {
        assert Keys(right)[0] != Keys(right)[i + 1];
      }
      NoMatches(k, a, right[1..]);
    } else {
      assert right[0].0 == Keys(right)[0] != Keys(right)[j] == k;
      assert Keys(right[1..]) == Keys(right)[1..];
      MatchesUnique(k, a, right[1..], j - 1);
    }
  }

  /** A key absent from the right has no match. */
  lemma {:induction false} NoMatches<K, A, B>(k: K, a: A, right: seq<(K, B)>)
    requires forall i :: 0 <= i < |right| ==> right[i].0 != k
    ensures Matches(k, a, right) == []
  {
    if right != [] {
      NoMatches(k, a, right[1..]);
    }
  }

  /**
   * When each left row's key sits at a known position of a right table with
   * distinct keys, the join keeps every left row once, in order, and pairs it
   * with the right row at that position.
   */
  lemma {:induction false} JoinAt<K, A, B>(left: seq<(K, A)>, right: seq<(K, B)>, pos: seq<nat>)
    requires Distinct(Keys(right)) && |pos| == |left|
    requires forall i :: 0 <= i < |left| ==> pos[i] < |right| && right[pos[i]].0 == left[i].0
    ensures |InnerJoin(left, right)| == |left|
    ensures forall i :: 0 <= i < |left| ==>
              InnerJoin(left, right)[i] == (left[i].0, (left[i].1, right[pos[i]].1))
  {
    if left != [] {
      MatchesUnique(left[0].0, left[0].1, right, pos[0]);
      JoinAt(left[1..], right, pos[1..]);
    }
  }

  /**
   * Joining two tables over the same distinct keys in the same order neither
   * drops nor repeats a row: row i pairs the i-th payloads of both tables.
   */
  lemma {:induction false} JoinAligned<K, A, B>(left: seq<(K, A)>, right: seq<(K, B)>)
    requires Keys(left) == Keys(right) && Distinct(Keys(right))
    ensures |InnerJoin(left, right)| == |left|
    ensures Keys(InnerJoin(left, right)) == Keys(left)
    ensures forall i :: 0 <= i < |left| ==> InnerJoin(left, right)[i].1 == (left[i].1, right[i].1)
  {
    assert |left| == |Keys(left)| == |right|;
    var pos := seq(|left|, i requires 0 <= i < |left| => i as nat);
    forall i | 0 <= i < |left| ensures right[pos[i]].0 == left[i].0 {
      assert Keys(left)[i] == Keys(right)[i];
    }
    JoinAt(left, right, pos);
  }
}
