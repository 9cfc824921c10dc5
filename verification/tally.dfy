/** Counters keyed by string, the `defaultdict(int)` the aggregation fills. */
module Tally {

  /** The count stored for `k`; an absent key reads as 0, as a `defaultdict(int)` does. */
  function Get(m: map<string, nat>, k: string): nat {
    if k in m then m[k] else 0
  }

  /** Every key present has been counted at least once. */
  predicate Positive(m: map<string, nat>) {
    forall k | k in m :: m[k] > 0
  }

  /** `m[k] += 1` on a `defaultdict(int)`: `k` becomes a key and only its count moves. */
  function Increment(m: map<string, nat>, k: string): (r: map<string, nat>)
    ensures r.Keys == m.Keys + {k}
    ensures Get(r, k) == Get(m, k) + 1
    ensures forall j :: j != k ==> Get(r, j) == Get(m, j)
    ensures Positive(m) ==> Positive(r)
  {
    m[k := Get(m, k) + 1]
  }

  /** The sum of all counts held in `m`. */
  ghost function Sum(m: map<string, nat>): nat
    decreases |m.Keys|
  {
    if m == map[] then 0
    else
      var k :| k in m;
      assert (m - {k}).Keys == m.Keys - {k};
      m[k] + Sum(m - {k})
  }

  /** Sum does not depend on which key it takes out first. */
  lemma {:induction false} SumRemove(m: map<string, nat>, k: string)
    requires k in m
    ensures Sum(m) == m[k] + Sum(m - {k})
    decreases |m.Keys|
  {
    var j :| j in m && Sum(m) == m[j] + Sum(m - {j});
    if j != k {
      assert (m - {j}).Keys == m.Keys - {j};
      assert (m - {k}).Keys == m.Keys - {k};
      SumRemove(m - {j}, k);
      SumRemove(m - {k}, j);
      assert m - {j} - {k} == m - {k} - {j};
    }
  }

  /** One increment adds exactly one to the total of all counts. */
  lemma SumIncrement(m: map<string, nat>, k: string)
    ensures Sum(Increment(m, k)) == Sum(m) + 1
  {
    var r := Increment(m, k);
    SumRemove(r, k);
    if k in m {
      SumRemove(m, k);
      assert r - {k} == m - {k};
    } else {
      assert r - {k} == m;
    }
  }
}
