/** Ranking of candidates by a score, best first, with a fixed tie order.

    Two parts of the service rank things: the trend aggregation sorts the
    distinct values of a column by descending frequency, and the vector search
    sorts rows by ascending distance to the query vector. Both are modelled by
    `Rank`, a selection ranking that repeatedly takes the best remaining
    candidate and, among equally good ones, the earliest. Given candidates in a
    strictly increasing `order`, the result is the unique arrangement that is
    `Ranked`. */
module Ranking {

  /** No element occurs twice. */
  predicate Distinct<T(==)>(s: seq<T>) {
    forall i, j :: 0 <= i < j < |s| ==> s[i] != s[j]
  }

  /** The elements of `s` appear in strictly increasing `order`. */
  predicate StrictlyIncreasing<T>(s: seq<T>, order: T -> int) {
    forall i, j :: 0 <= i < j < |s| ==> order(s[i]) < order(s[j])
  }

  /** Better score first; equal scores in increasing `order`. */
  predicate Ranked<T>(s: seq<T>, score: T -> int, order: T -> int) {
    forall i, j :: 0 <= i < j < |s| ==>
      score(s[i]) > score(s[j]) || (score(s[i]) == score(s[j]) && order(s[i]) < order(s[j]))
  }

  /** Position of the first candidate with the highest score. */
  function BestIndex<T>(c: seq<T>, score: T -> int): (p: nat)
    requires |c| > 0
    ensures p < |c|
    ensures forall i :: 0 <= i < |c| ==> score(c[i]) <= score(c[p])
    ensures forall i :: 0 <= i < p ==> score(c[i]) < score(c[p])
  {
    if |c| == 1 then 0
    else
      var q := BestIndex(c[1..], score);
      if score(c[0]) >= score(c[1..][q]) then 0 else q + 1
  }

  /** `c` with the element at position `p` taken out. */
  function Without<T>(c: seq<T>, p: nat): (r: seq<T>)
    requires p < |c|
    ensures |r| == |c| - 1
    ensures forall i :: 0 <= i < p ==> r[i] == c[i]
    ensures forall i :: p <= i < |r| ==> r[i] == c[i + 1]
    ensures multiset(r) + multiset{c[p]} == multiset(c)
  {
    assert c == c[..p] + [c[p]] + c[p + 1..];
    c[..p] + c[p + 1..]
  }

  /** Selection ranking: the best candidate, then the ranking of the rest. */
  function Rank<T>(c: seq<T>, score: T -> int): (r: seq<T>)
    ensures |r| == |c|
    ensures multiset(r) == multiset(c)
    decreases |c|
  {
    if c == [] then []
    else
      var p := BestIndex(c, score);
      [c[p]] + Rank(Without(c, p), score)
  }

  /** The first `k` candidates of the ranking (all of them when there are fewer). */
  function Top<T>(c: seq<T>, score: T -> int, k: nat): (r: seq<T>)
    ensures |r| == if k < |c| then k else |c|
  {
    var ranked := Rank(c, score);
    if k < |ranked| then ranked[..k] else ranked
  }

  /** Taking one element out keeps the tie order increasing. */
  lemma WithoutIncreasing<T>(c: seq<T>, p: nat, order: T -> int)
    requires p < |c| && StrictlyIncreasing(c, order)
    ensures StrictlyIncreasing(Without(c, p), order)
  {
    var rest := Without(c, p);
    forall i, j | 0 <= i < j < |rest| ensures order(rest[i]) < order(rest[j]) {
      var i' := if i < p then i else i + 1;
      var j' := if j < p then j else j + 1;
      assert rest[i] == c[i'] && rest[j] == c[j'] && i' < j';
    }
  }

  /** The selected candidate precedes every remaining one in the ranking order. */
  lemma BestPrecedesRest<T>(c: seq<T>, score: T -> int, order: T -> int, x: T)
    requires StrictlyIncreasing(c, order) && |c| > 0
    requires x in multiset(Without(c, BestIndex(c, score)))
    ensures var b := c[BestIndex(c, score)];
      score(b) > score(x) || (score(b) == score(x) && order(b) < order(x))
  {
    var p := BestIndex(c, score);
    var rest := Without(c, p);
    var k :| 0 <= k < |rest| && rest[k] == x;
    if k < p {
      assert x == c[k];
    } else {
      assert x == c[k + 1];
    }
  }

  /** Ranking keeps the candidates in tie order when it cannot separate them by
      score, and a ranked sequence never repeats an element. */
  lemma {:induction false} RankIsRanked<T>(c: seq<T>, score: T -> int, order: T -> int)
    requires StrictlyIncreasing(c, order)
    ensures Ranked(Rank(c, score), score, order)
    ensures Distinct(Rank(c, score))
    decreases |c|
  {
    var r := Rank(c, score);
    if c != [] {
      var p := BestIndex(c, score);
      var rest := Without(c, p);
      WithoutIncreasing(c, p, order);
      RankIsRanked(rest, score, order);
      var tail := Rank(rest, score);
      forall x | x in tail
        ensures score(c[p]) > score(x) || (score(c[p]) == score(x) && order(c[p]) < order(x))
      {
        assert x in multiset(tail);
        BestPrecedesRest(c, score, order, x);
      }
      RankedCons(c[p], tail, score, order);
    }
    RankedIsDistinct(r, score, order);
  }

  /** A ranked sequence stays ranked behind an element that precedes all of it. */
  lemma RankedCons<T>(b: T, tail: seq<T>, score: T -> int, order: T -> int)
    requires Ranked(tail, score, order)
    requires forall x :: x in tail ==> score(b) > score(x) || (score(b) == score(x) && order(b) < order(x))
    ensures Ranked([b] + tail, score, order)
  {
    var r := [b] + tail;
    forall i, j | 0 <= i < j < |r|
      ensures score(r[i]) > score(r[j]) || (score(r[i]) == score(r[j]) && order(r[i]) < order(r[j]))
    {
      assert r[j] == tail[j - 1];
      if i > 0 {
        assert r[i] == tail[i - 1];
      }
    }
  }

  lemma RankedIsDistinct<T>(s: seq<T>, score: T -> int, order: T -> int)
    requires Ranked(s, score, order)
    ensures Distinct(s)
  {
  }

  /** The ranking holds exactly the candidates. */
  lemma RankMembers<T>(c: seq<T>, score: T -> int, x: T)
    ensures x in Rank(c, score) <==> x in c
  {
    assert x in multiset(Rank(c, score)) <==> x in multiset(c);
  }

  /** In a ranked sequence, an element past the first `n` scores no better than
      any element among them. */
  lemma LaterScoresNoBetter<T>(s: seq<T>, score: T -> int, order: T -> int, n: nat, x: T, y: T)
    requires Ranked(s, score, order) && n <= |s|
    requires x in s && x !in s[..n] && y in s[..n]
    ensures score(x) <= score(y)
  {
    var i :| 0 <= i < |s| && s[i] == x;
    var j :| 0 <= j < n && s[..n][j] == y;
    assert forall t :: 0 <= t < n ==> s[t] == s[..n][t];
  }

  /** Top-k selection: the first `k` are ranked and distinct, each comes from the
      candidates, and no candidate left out has a better score than any kept one. */
  lemma TopIsBest<T>(c: seq<T>, score: T -> int, order: T -> int, k: nat)
    requires StrictlyIncreasing(c, order)
    ensures Ranked(Top(c, score, k), score, order)
    ensures Distinct(Top(c, score, k))
    ensures forall x :: x in Top(c, score, k) ==> x in c
    ensures forall x, y :: x in c && x !in Top(c, score, k) && y in Top(c, score, k) ==> score(x) <= score(y)
  {
    var ranked := Rank(c, score);
    var top := Top(c, score, k);
    var n := |top|;
    RankIsRanked(c, score, order);
    assert top == ranked[..n];
    assert Ranked(top, score, order);
    forall x | x in top ensures x in c {
      RankMembers(c, score, x);
    }
    forall x, y | x in c && x !in top && y in top ensures score(x) <= score(y) {
      RankMembers(c, score, x);
      LaterScoresNoBetter(ranked, score, order, n, x, y);
    }
  }
}
