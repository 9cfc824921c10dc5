/** The two orderings the report uses: map keys ascending, and map keys by a score, largest first. */
module Sorting {
  import opened StringOrder

  /** How many entries each "top" section keeps: the `[:5]` slices. */
  const TOP_N: nat := 5

  function Min(a: nat, b: nat): nat {
    if a <= b then a else b
  }

  predicate Distinct(s: seq<string>) {
    forall i, j :: 0 <= i < j < |s| ==> s[i] != s[j]
  }

  /** Strictly ascending, so every element occurs once. */
  predicate Ascending(s: seq<string>) {
    forall i, j :: 0 <= i < j < |s| ==> Less(s[i], s[j])
  }

  /** Every element of `s` has a score. */
  predicate Scored(s: seq<string>, score: map<string, int>) {
    forall k | k in s :: k in score
  }

  /** Scores never increase along `s` (`sorted(..., reverse=True)`). */
  predicate ByScore(s: seq<string>, score: map<string, int>)
    requires Scored(s, score)
  {
    forall i, j :: 0 <= i < j < |s| ==> score[s[i]] >= score[s[j]]
  }

  lemma PrependAscending(x: string, s: seq<string>)
    requires Ascending(s) && |s| > 0 && Less(x, s[0])
    ensures Ascending([x] + s)
  {
    forall j | 0 < j < |s| {
      LessTransitive(x, s[0], s[j]);
    }
  }

  /** Inserts `x` at its place in an ascending sequence not holding it yet. */
  function InsertAscending(x: string, s: seq<string>): (r: seq<string>)
    requires Ascending(s) && x !in s
    ensures Ascending(r)
    ensures |r| == |s| + 1
    ensures forall y :: y in r <==> y == x || y in s
  {
    if |s| == 0 then [x]
    else if Less(x, s[0]) then
      PrependAscending(x, s);
      [x] + s
    else
      LessTotal(x, s[0]);
      var rest := InsertAscending(x, s[1..]);
      assert forall y | y in rest :: Less(s[0], y);
      [s[0]] + rest
  }

  /** Insertion sort into ascending order; the result is a permutation of the distinct input. */
  function SortAscending(s: seq<string>): (r: seq<string>)
    requires Distinct(s)
    ensures Ascending(r)
    ensures |r| == |s|
    ensures forall y :: y in r <==> y in s
  {
    if |s| == 0 then []
    else
      assert s[0] !in s[1..];
      InsertAscending(s[0], SortAscending(s[1..]))
  }

  /** A key that outscores every element of a ranked sequence may go in front of it. */
  lemma PrependByScore(x: string, s: seq<string>, score: map<string, int>)
    requires x in score && Scored(s, score) && ByScore(s, score) && Distinct(s) && x !in s
    requires forall y | y in s :: score[x] >= score[y]
    ensures Scored([x] + s, score) && ByScore([x] + s, score) && Distinct([x] + s)
  {
    var r := [x] + s;
    forall i, j | 0 <= i < j < |r| ensures score[r[i]] >= score[r[j]] && r[i] != r[j] {
      assert r[j] == s[j - 1];
      if i > 0 {
        assert r[i] == s[i - 1];
      }
    }
  }

  /** Inserts `x` among the keys ranked by score, after every key that outscores it. */
  function InsertByScore(x: string, s: seq<string>, score: map<string, int>): (r: seq<string>)
    requires x in score && Scored(s, score) && ByScore(s, score)
    requires Distinct(s) && x !in s
    ensures Scored(r, score) && ByScore(r, score) && Distinct(r)
    ensures |r| == |s| + 1
    ensures forall y :: y in r <==> y == x || y in s
  {
    if |s| == 0 then [x]
    else if score[x] >= score[s[0]] then [x] + s
    else
      var rest := InsertByScore(x, s[1..], score);
      assert forall y | y in rest :: score[s[0]] >= score[y];
      assert s[0] !in s[1..];
      assert s[0] !in rest;
      [s[0]] + rest
  }

  /** Insertion sort by descending score; the result is a permutation of the distinct input. */
  function SortByScore(s: seq<string>, score: map<string, int>): (r: seq<string>)
    requires Scored(s, score) && Distinct(s)
    ensures Scored(r, score) && ByScore(r, score) && Distinct(r)
    ensures |r| == |s|
    ensures forall y :: y in r <==> y in s
  {
    if |s| == 0 then []
    else
      assert s[0] !in s[1..];
      InsertByScore(s[0], SortByScore(s[1..], score), score)
  }

  predicate AllPositive(s: seq<string>, score: map<string, int>)
    requires Scored(s, score)
  {
    forall i | 0 <= i < |s| :: score[s[i]] > 0
  }

  /** `r` is `s` with some elements deleted: what is kept stays in the order of `s`. */
  predicate Subsequence(r: seq<string>, s: seq<string>)
    decreases |s|
  {
    || |r| == 0
    || (&& |s| > 0
        && ((r[0] == s[0] && Subsequence(r[1..], s[1..])) || Subsequence(r, s[1..])))
  }

  /** Whatever a subsequence holds, the sequence holds. */
  lemma {:induction false} SubsequenceMembers(r: seq<string>, s: seq<string>)
    requires Subsequence(r, s)
    ensures forall i | 0 <= i < |r| :: exists a :: 0 <= a < |s| && s[a] == r[i]
    decreases |s|
  {
    if |r| > 0 {
      if r[0] == s[0] && Subsequence(r[1..], s[1..]) {
        SubsequenceMembers(r[1..], s[1..]);
        forall i | 0 < i < |r| ensures exists a :: 0 <= a < |s| && s[a] == r[i] {
          var a :| 0 <= a < |s| - 1 && s[1..][a] == r[1..][i - 1];
          assert s[a + 1] == r[i];
        }
        assert s[0] == r[0];
      } else {
        SubsequenceMembers(r, s[1..]);
        forall i | 0 <= i < |r| ensures exists a :: 0 <= a < |s| && s[a] == r[i] {
          var a :| 0 <= a < |s| - 1 && s[1..][a] == r[i];
          assert s[a + 1] == r[i];
        }
      }
    }
  }

  /** Any two elements of a subsequence occur in the same order in the sequence. */
  lemma {:induction false} SubsequenceKeepsOrder(r: seq<string>, s: seq<string>, i: nat, j: nat)
    requires Subsequence(r, s) && i < j < |r|
    ensures exists a, b :: 0 <= a < b < |s| && s[a] == r[i] && s[b] == r[j]
    decreases |s|
  {
    var s' := s[1..];
    if r[0] == s[0] && Subsequence(r[1..], s') {
      if i == 0 {
        SubsequenceMembers(r[1..], s');
        assert r[1..][j - 1] == r[j];
        var b :| 0 <= b < |s'| && s'[b] == r[1..][j - 1];
        assert s[0] == r[i] && s[b + 1] == r[j];
      } else {
        SubsequenceKeepsOrder(r[1..], s', i - 1, j - 1);
        var a, b :| 0 <= a < b < |s'| && s'[a] == r[1..][i - 1] && s'[b] == r[1..][j - 1];
        assert s[a + 1] == r[i] && s[b + 1] == r[j];
      }
    } else {
      SubsequenceKeepsOrder(r, s', i, j);
      var a, b :| 0 <= a < b < |s'| && s'[a] == r[i] && s'[b] == r[j];
      assert s[a + 1] == r[i] && s[b + 1] == r[j];
    }
  }

  /** The elements of `s` with a positive score, in the order of `s`. */
  function PositiveScored(s: seq<string>, score: map<string, int>): (r: seq<string>)
    requires Scored(s, score)
    ensures |r| <= |s|
    ensures Subsequence(r, s)
    ensures forall y :: y in r <==> y in s && score[y] > 0
    ensures AllPositive(s, score) ==> r == s
  {
    if |s| == 0 then []
    else
      var rest := PositiveScored(s[1..], score);
      if score[s[0]] > 0 then
        assert AllPositive(s, score) ==> AllPositive(s[1..], score) && s == [s[0]] + s[1..];
        assert ([s[0]] + rest)[1..] == rest;
        [s[0]] + rest
      else
        rest
  }

  /** Dropping the non-positive keys keeps a ranking ranked and its keys distinct. */
  lemma {:induction false} PositiveScoredRanked(s: seq<string>, score: map<string, int>)
    requires Scored(s, score) && ByScore(s, score) && Distinct(s)
    ensures Scored(PositiveScored(s, score), score)
    ensures ByScore(PositiveScored(s, score), score) && Distinct(PositiveScored(s, score))
  {
    if |s| > 0 {
      PositiveScoredRanked(s[1..], score);
      if score[s[0]] > 0 {
        assert s[0] !in s[1..];
        PrependByScore(s[0], PositiveScored(s[1..], score), score);
      }
    }
  }

  /** The keys of `m` as a sequence, each once, in no particular order (`dict.items()`). */
  method KeysOf<V>(m: map<string, V>) returns (ks: seq<string>)
    ensures Distinct(ks)
    ensures |ks| == |m|
    ensures forall k :: k in ks <==> k in m
  {
    ks := [];
    var rest := m.Keys;
    while rest != {}
      invariant Distinct(ks)
      invariant |ks| + |rest| == |m|
      invariant forall k :: k in ks ==> k in m && k !in rest
      invariant forall k :: k in m ==> k in ks || k in rest
      invariant rest <= m.Keys
      decreases |rest|
    {
      var k :| k in rest;
      ks := ks + [k];
      rest := rest - {k};
    }
  }

  /** Cutting a ranking to its first TOP_N keys keeps it ranked, and nothing cut outscores what is kept. */
  lemma TopOfRanking(ranked: seq<string>, score: map<string, int>)
    requires Scored(ranked, score) && ByScore(ranked, score) && Distinct(ranked)
    ensures var top := if |ranked| <= TOP_N then ranked else ranked[..TOP_N];
      && Scored(top, score) && ByScore(top, score) && Distinct(top)
      && (forall k | k in ranked && k !in top :: |top| == TOP_N)
      && (forall k, x | k in ranked && k !in top && x in top :: score[k] <= score[x])
  {
    var top := if |ranked| <= TOP_N then ranked else ranked[..TOP_N];
    forall k, x | k in ranked && k !in top && x in top
      ensures |top| == TOP_N && score[k] <= score[x]
    {
      var j :| 0 <= j < |ranked| && ranked[j] == k;
      var i :| 0 <= i < |top| && top[i] == x;
      assert j >= TOP_N;
    }
    forall k | k in ranked && k !in top ensures |top| == TOP_N {
      var j :| 0 <= j < |ranked| && ranked[j] == k;
    }
  }

  /**
   * The at most TOP_N highest-scoring keys of `score`, best first. Ties are
   * broken arbitrarily, but no key left out outscores one that is kept.
   */
  method TopByScore(score: map<string, int>) returns (top: seq<string>)
    ensures |top| == Min(TOP_N, |score|)
    ensures Scored(top, score) && ByScore(top, score) && Distinct(top)
    ensures forall k | k in score && k !in top :: |top| == TOP_N
    ensures forall k, x | k in score && k !in top && x in top :: score[k] <= score[x]
  {
    var keys := KeysOf(score);
    var ranked := SortByScore(keys, score);
    TopOfRanking(ranked, score);
    top := if |ranked| <= TOP_N then ranked else ranked[..TOP_N];
  }
}
