/** Ordering positions by score, highest first. The router sorts its
    scores with Python's stable `sorted(..., reverse=True)`, which keeps
    equal scores in their original order; `_top_k_indices` (api/engine.py)
    selects the positions of the `k` highest scores. Items are named by
    their position in the score sequence. */
module Ranking {
  import opened Text

  /** Position `p` goes before position `q`: a higher score, or the same
      score and an earlier position. */
  predicate Before(scores: seq<int>, p: nat, q: nat)
    requires p < |scores| && q < |scores|
  {
    scores[p] > scores[q] || (scores[p] == scores[q] && p < q)
  }

  predicate InRange(scores: seq<int>, idx: seq<nat>) {
    forall i :: 0 <= i < |idx| ==> idx[i] < |scores|
  }

  /** `idx` lists positions in strict `Before` order: scores never increase,
      equal scores keep their original order, and no position repeats. */
  predicate Ranked(scores: seq<int>, idx: seq<nat>) {
    && InRange(scores, idx)
    && forall i, j :: 0 <= i < j < |idx| ==> Before(scores, idx[i], idx[j])
  }

  /** Inserts position `p` into a ranked list, after every position that
      goes before it. */
  function Insert(scores: seq<int>, p: nat, idx: seq<nat>): (r: seq<nat>)
    requires p < |scores| && InRange(scores, idx)
    ensures |r| == |idx| + 1
    ensures forall x :: x in r <==> x in idx || x == p
    ensures InRange(scores, r)
  {
    if idx == [] then [p]
    else if Before(scores, p, idx[0]) then [p] + idx
    else [idx[0]] + Insert(scores, p, idx[1..])
  }

  /** Inserting a new position keeps a list ranked. */
  lemma {:induction false} InsertRanked(scores: seq<int>, p: nat, idx: seq<nat>)
    requires p < |scores| && Ranked(scores, idx) && p !in idx
    ensures Ranked(scores, Insert(scores, p, idx))
  {
    if idx == [] {
    } else if Before(scores, p, idx[0]) {
      forall j | 0 <= j < |idx|
        ensures Before(scores, p, idx[j])
      {
        if j > 0 {
          assert Before(scores, idx[0], idx[j]);
        }
      }
      RankedCons(scores, p, idx);
    } else {
      var tail := idx[1..];
      InsertRanked(scores, p, tail);
      var rest := Insert(scores, p, tail);
      forall j | 0 <= j < |rest|
        ensures Before(scores, idx[0], rest[j])
      {
        if rest[j] != p {
          assert rest[j] in tail;
          var m :| 0 <= m < |tail| && tail[m] == rest[j];
          assert idx[m + 1] == rest[j];
        }
      }
      RankedCons(scores, idx[0], rest);
    }
  }

  /** A position that goes before every position of a ranked list can lead it. */
  lemma RankedCons(scores: seq<int>, h: nat, rest: seq<nat>)
    requires h < |scores| && Ranked(scores, rest)
    requires forall j :: 0 <= j < |rest| ==> Before(scores, h, rest[j])
    ensures Ranked(scores, [h] + rest)
  {
    var r := [h] + rest;
    forall i, j | 0 <= i < j < |r|
      ensures Before(scores, r[i], r[j])
    {
      assert r[j] == rest[j - 1];
      if i > 0 {
        assert r[i] == rest[i - 1];
      }
    }
  }

  /** The positions `0 .. n-1` ranked: what a stable descending sort of
      the first `n` scores yields. */
  function RankUpTo(scores: seq<int>, n: nat): (r: seq<nat>)
    requires n <= |scores|
    ensures |r| == n
    ensures forall p: nat :: p in r <==> p < n
    ensures Ranked(scores, r)
  {
    if n == 0 then []
    else
      var prev := RankUpTo(scores, n - 1);
      InsertRanked(scores, n - 1, prev);
      var r := Insert(scores, n - 1, prev);
      assert forall p: nat :: p in r <==> p < n by {
        forall p: nat
          ensures p in r <==> p < n
        {
          assert p in r <==> p in prev || p == n - 1;
        }
      }
      r
  }

  /** Every position, in stable descending score order. */
  function Rank(scores: seq<int>): (r: seq<nat>)
    ensures |r| == |scores|
    ensures forall p: nat :: p in r <==> p < |scores|
    ensures Ranked(scores, r)
  {
    RankUpTo(scores, |scores|)
  }

  /** `_top_k_indices(scores, k)`: nothing when `k <= 0` or there are no
      scores, every position when `k` covers them all, and otherwise the
      first `k` positions by score. */
  function TopKIndices(scores: seq<int>, k: int): seq<nat> {
    if k <= 0 || |scores| == 0 then []
    else if k >= |scores| then Rank(scores)
    else Rank(scores)[..k]
  }

  // ---------------------------------------------------------------------

  /** A ranked list's order is determined by which positions it holds:
      two ranked lists of the same length and the same positions are equal. */
  lemma {:induction false} RankedUnique(scores: seq<int>, a: seq<nat>, b: seq<nat>)
    requires Ranked(scores, a) && Ranked(scores, b) && |a| == |b|
    requires forall x :: x in a <==> x in b
    ensures a == b
    decreases |a|
  {
    if a != [] {
      assert a[0] in b && b[0] in a;
      HeadFirst(scores, b, a[0]);
      HeadFirst(scores, a, b[0]);
      assert a[0] == b[0];
      forall x
        ensures x in a[1..] <==> x in b[1..]
      {
        if x in a[1..] {
          TailOmitsHead(scores, a, x);
          assert x in b;
          var j :| 0 <= j < |b| && b[j] == x;
          assert b[1..][j - 1] == x;
        }
        if x in b[1..] {
          TailOmitsHead(scores, b, x);
          assert x in a;
          var j :| 0 <= j < |a| && a[j] == x;
          assert a[1..][j - 1] == x;
        }
      }
      RankedUnique(scores, a[1..], b[1..]);
    }
  }

  /** The head of a ranked list goes before every other position in it. */
  lemma HeadFirst(scores: seq<int>, a: seq<nat>, x: nat)
    requires Ranked(scores, a) && x in a
    ensures x == a[0] || Before(scores, a[0], x)
  {
    var i :| 0 <= i < |a| && a[i] == x;
    if i > 0 {
      assert Before(scores, a[0], a[i]);
    }
  }

  /** A position in the tail of a ranked list is not its head. */
  lemma TailOmitsHead(scores: seq<int>, a: seq<nat>, x: nat)
    requires Ranked(scores, a) && a != [] && x in a[1..]
    ensures x != a[0]
  {
    var i :| 0 <= i < |a| - 1 && a[1..][i] == x;
    assert Before(scores, a[0], a[i + 1]);
  }

  /** A prefix of a ranked list is ranked, and the positions it leaves out
      score no more than any it keeps. */
  lemma RankedPrefix(scores: seq<int>, idx: seq<nat>, k: nat)
    requires Ranked(scores, idx) && k <= |idx|
    ensures Ranked(scores, idx[..k])
    ensures forall i, j :: 0 <= i < k <= j < |idx| ==> scores[idx[i]] >= scores[idx[j]]
  {
  }

  /** `_top_k_indices` returns `min(k, n)` distinct positions (none when
      `k <= 0`), in non-increasing score order with ties in position order,
      and every position it leaves out scores at most as much as every
      position it returns. */
  lemma TopKIndicesSpec(scores: seq<int>, k: int)
    ensures var r := TopKIndices(scores, k);
      && |r| == (if k <= 0 then 0 else Min(k, |scores|))
      && Ranked(scores, r)
      && (forall p :: p in r ==> p < |scores|)
      && (forall p, i :: 0 <= p < |scores| && p !in r && 0 <= i < |r| ==> scores[p] <= scores[r[i]])
  {
    var r := TopKIndices(scores, k);
    if 0 < k < |scores| {
      var all := Rank(scores);
      RankedPrefix(scores, all, k);
      forall p, i | 0 <= p < |scores| && p !in r && 0 <= i < |r|
        ensures scores[p] <= scores[r[i]]
      {
        assert p in all;
        var j :| 0 <= j < |all| && all[j] == p;
        assert all[..k][i] == all[i];
        assert forall m :: 0 <= m < k ==> all[..k][m] == all[m];
        assert k <= j;
      }
    }
  }

  /** The stable descending order is the only ranked order of all positions. */
  lemma RankIsTheSortedOrder(scores: seq<int>, idx: seq<nat>)
    requires Ranked(scores, idx) && |idx| == |scores|
    requires forall p: nat :: p in idx <==> p < |scores|
    ensures idx == Rank(scores)
  {
    RankedUnique(scores, idx, Rank(scores));
  }
}
