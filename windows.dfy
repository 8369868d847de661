/** Counting over the windows of a category sequence: how often a pattern
    occurs, what follows it, fuzzy matches and similarity-weighted sums. The
    predictors are stated with the recursive counts; the methods are the
    loops of the engine, proved to compute the same numbers. */
module Windows {
  import opened Outcomes

  /** Number of windows of length k that have a successor: the engine's
      loops run i from 0 to len - k - 1. */
  function Positions(len: nat, k: nat): (n: nat)
    ensures n + k <= len || n == 0
  {
    if len > k then len - k else 0
  }

  /** Number of i < n whose window s[i..i+|pat|] equals pat. */
  function Occurrences(s: seq<Cat>, pat: seq<Cat>, n: nat): (k: nat)
    requires n == 0 || n + |pat| <= |s|
    ensures k <= n
  {
    if n == 0 then 0
    else Occurrences(s, pat, n - 1) + (if s[n - 1..n - 1 + |pat|] == pat then 1 else 0)
  }

  /** Number of i < n whose window equals pat and is followed by c. */
  function Follow(s: seq<Cat>, pat: seq<Cat>, c: Cat, n: nat): (k: nat)
    requires n == 0 || n + |pat| <= |s|
    ensures k <= Occurrences(s, pat, n)
  {
    if n == 0 then 0
    else
      Follow(s, pat, c, n - 1)
      + (if s[n - 1..n - 1 + |pat|] == pat && s[n - 1 + |pat|] == c then 1 else 0)
  }

  /** Where no triple occurs, every occurrence is followed by T, X or N. */
  lemma {:induction false} OccurrencesSplit(s: seq<Cat>, pat: seq<Cat>, n: nat)
    requires n == 0 || n + |pat| <= |s|
    requires forall i :: 0 <= i < |s| ==> s[i] != B
    ensures Occurrences(s, pat, n) == Follow(s, pat, T, n) + Follow(s, pat, X, n) + Follow(s, pat, N, n)
  {
    if n > 0 {
      OccurrencesSplit(s, pat, n - 1);
    }
  }

  /** The successor counts of one key of a transition table. */
  datatype Tally = Tally(t: nat, x: nat)

  /** The counters of a key after one more successor: only a T or an X
      successor is counted. */
  function Bumped(counts: Tally, next: Cat): (r: Tally)
    ensures r.t == counts.t + (if next == T then 1 else 0)
    ensures r.x == counts.x + (if next == X then 1 else 0)
  {
    if next == T then counts.(t := counts.t + 1)
    else if next == X then counts.(x := counts.x + 1)
    else counts
  }

  /** The table holds exactly the keys of length order seen among the first
      i windows, each with the successor counts of those windows. */
  ghost predicate TableInv(tx: seq<Cat>, order: nat, table: map<seq<Cat>, Tally>, i: nat)
    requires i + order <= |tx|
  {
    && (forall key :: key in table ==> |key| == order)
    && (forall key :: |key| == order ==> (key in table <==> Occurrences(tx, key, i) > 0))
    && (forall key :: key in table ==> table[key] == Tally(Follow(tx, key, T, i), Follow(tx, key, X, i)))
  }

  /** One step of the table loop keeps the table invariant. */
  lemma TableStep(tx: seq<Cat>, order: nat, table: map<seq<Cat>, Tally>, i: nat, key: seq<Cat>, counts: Tally)
    requires 0 < i && i + order <= |tx| && TableInv(tx, order, table, i - 1) && key == tx[i - 1..i - 1 + order]
    requires counts == Bumped(if key in table then table[key] else Tally(0, 0), tx[i - 1 + order])
    ensures TableInv(tx, order, table[key := counts], i)
  {
    var after := table[key := counts];
    forall k | |k| == order
      ensures k in after <==> Occurrences(tx, k, i) > 0
      ensures k in after ==> after[k] == Tally(Follow(tx, k, T, i), Follow(tx, k, X, i))
    {
      TableStepKey(tx, order, table, i, key, counts, k);
    }
  }

  /** TableStep for one key k of length order. */
  lemma TableStepKey(tx: seq<Cat>, order: nat, table: map<seq<Cat>, Tally>, i: nat, key: seq<Cat>, counts: Tally, k: seq<Cat>)
    requires 0 < i && i + order <= |tx| && key == tx[i - 1..i - 1 + order] && |k| == order
    requires counts == Bumped(if key in table then table[key] else Tally(0, 0), tx[i - 1 + order])
    requires k in table <==> Occurrences(tx, k, i - 1) > 0
    requires k in table ==> table[k] == Tally(Follow(tx, k, T, i - 1), Follow(tx, k, X, i - 1))
    ensures k in table[key := counts] <==> Occurrences(tx, k, i) > 0
    ensures k in table[key := counts] ==> table[key := counts][k] == Tally(Follow(tx, k, T, i), Follow(tx, k, X, i))
  {
    OneMoreWindow(tx, k, i - 1);
  }

  /** The transition-table loop of the Markov predictors: for every window
      of length order with a successor, the entry of that window is created
      if missing and the counter of its successor is increased (a successor
      other than T or X touches no counter). */
  method BuildTransitions(tx: seq<Cat>, order: nat) returns (table: map<seq<Cat>, Tally>)
    ensures forall key :: key in table ==> |key| == order
    ensures forall key :: |key| == order ==>
      (key in table <==> Occurrences(tx, key, Positions(|tx|, order)) > 0)
    ensures forall key :: key in table ==>
      table[key] == Tally(Follow(tx, key, T, Positions(|tx|, order)), Follow(tx, key, X, Positions(|tx|, order)))
  {
    table := map[];
    var n := Positions(|tx|, order);
    if n == 0 {
      return;
    }
    for i := 0 to n
      invariant table == TableAt(tx, order, i)
    {
      var key := tx[i..i + order];
      var next := tx[i + order];
      var counts := if key in table then table[key] else Tally(0, 0);
      if next == T {
        counts := counts.(t := counts.t + 1);
      } else if next == X {
        counts := counts.(x := counts.x + 1);
      }
      table := table[key := counts];
    }
    TableAtInv(tx, order, n);
  }

  /** The table after the first i windows have been counted. */
  function TableAt(tx: seq<Cat>, order: nat, i: nat): map<seq<Cat>, Tally>
    requires i + order <= |tx|
  {
    if i == 0 then map[]
    else
      var table := TableAt(tx, order, i - 1);
      var key := tx[i - 1..i - 1 + order];
      table[key := Bumped(if key in table then table[key] else Tally(0, 0), tx[i - 1 + order])]
  }

  /** The table after i windows satisfies the table invariant. */
  lemma {:induction false} TableAtInv(tx: seq<Cat>, order: nat, i: nat)
    requires i + order <= |tx|
    ensures TableInv(tx, order, TableAt(tx, order, i), i)
  {
    if i > 0 {
      TableAtInv(tx, order, i - 1);
      var table := TableAt(tx, order, i - 1);
      var key := tx[i - 1..i - 1 + order];
      TableStep(tx, order, table, i, key, Bumped(if key in table then table[key] else Tally(0, 0), tx[i - 1 + order]));
    }
  }

  /** Counting one more window changes the counts of that window only. */
  lemma OneMoreWindow(s: seq<Cat>, pat: seq<Cat>, i: nat)
    requires i + 1 + |pat| <= |s|
    ensures Occurrences(s, pat, i + 1) == Occurrences(s, pat, i) + (if s[i..i + |pat|] == pat then 1 else 0)
    ensures forall c :: Follow(s, pat, c, i + 1) == Follow(s, pat, c, i) + (if s[i..i + |pat|] == pat && s[i + |pat|] == c then 1 else 0)
  {
  }

  /** The match loop of the n-gram and quantum predictors: successors of
      every earlier occurrence of pat, and the number of occurrences. */
  method CountFollowers(tx: seq<Cat>, pat: seq<Cat>) returns (t: nat, x: nat, matches: nat)
    ensures var n := Positions(|tx|, |pat|);
      t == Follow(tx, pat, T, n) && x == Follow(tx, pat, X, n) && matches == Occurrences(tx, pat, n)
  {
    t, x, matches := 0, 0, 0;
    var n := Positions(|tx|, |pat|);
    for i := 0 to n
      invariant t == Follow(tx, pat, T, i) && x == Follow(tx, pat, X, i)
      invariant matches == Occurrences(tx, pat, i)
    {
      if tx[i..i + |pat|] == pat {
        if tx[i + |pat|] == T {
          t := t + 1;
        } else if tx[i + |pat|] == X {
          x := x + 1;
        }
        matches := matches + 1;
      }
    }
  }

  /** A window is similar to the target when at least 80% of its positions
      agree with it. */
  predicate Similar80(w: seq<Cat>, target: seq<Cat>)
    requires |w| == |target| > 0
  {
    Matches(w, target) as real / |target| as real >= 0.8
  }

  /** At least 80% agreement is at least four agreeing positions out of
      five. */
  lemma Similar80Exact(w: seq<Cat>, target: seq<Cat>)
    requires |w| == |target| > 0
    ensures Similar80(w, target) <==> 5 * Matches(w, target) >= 4 * |target|
  {
    RatioAtLeast(Matches(w, target) as real, |target| as real, 0.8);
  }

  lemma RatioAtLeast(m: real, k: real, r: real)
    requires k > 0.0
    ensures m / k >= r <==> m >= r * k
  {
    var q := m / k;
    assert q * k == m;
    if q >= r {
      assert (q - r) * k >= 0.0;
    } else {
      assert (r - q) * k > 0.0;
    }
  }

  /** Number of i < n whose window is similar to target and is followed by c. */
  function FuzzyFollow(s: seq<Cat>, target: seq<Cat>, c: Cat, n: nat): (k: nat)
    requires |target| > 0 && (n == 0 || n + |target| <= |s|)
    ensures k <= n
  {
    if n == 0 then 0
    else
      var i := n - 1;
      FuzzyFollow(s, target, c, i)
      + (if Similar80(s[i..i + |target|], target) && s[i + |target|] == c then 1 else 0)
  }

  /** The window loop of the neo-pattern predictor; the inner loop counts
      the agreeing positions of one window. */
  method CountSimilarFollowers(tx: seq<Cat>, target: seq<Cat>) returns (t: nat, x: nat)
    requires |target| > 0
    ensures var n := Positions(|tx|, |target|);
      t == FuzzyFollow(tx, target, T, n) && x == FuzzyFollow(tx, target, X, n)
  {
    t, x := 0, 0;
    var k := |target|;
    var n := Positions(|tx|, k);
    for i := 0 to n
      invariant t == FuzzyFollow(tx, target, T, i) && x == FuzzyFollow(tx, target, X, i)
    {
      var window := tx[i..i + k];
      var matchCount := 0;
      for j := 0 to k
        invariant matchCount == Matches(window[..j], target[..j])
      {
        assert window[..j + 1][..j] == window[..j] && target[..j + 1][..j] == target[..j];
        if window[j] == target[j] {
          matchCount := matchCount + 1;
        }
      }
      assert window[..k] == window && target[..k] == target;
      if matchCount as real / k as real >= 0.8 {
        if tx[i + k] == T {
          t := t + 1;
        } else if tx[i + k] == X {
          x := x + 1;
        }
      }
    }
  }

  /** The weight of one similar window: its similarity times the inverse
      of its distance term. */
  function Recency(sim: real, dist: nat): (w: real)
    requires dist > 0
    ensures sim >= 0.0 ==> w >= 0.0
    ensures sim > 0.0 ==> w > 0.0
  {
    sim * (1.0 / dist as real)
  }

  /** The accumulators of the transformer predictor. */
  datatype Weights = Weights(t: real, x: real, sim: real)

  /** Similarity- and recency-weighted successor sums over the windows of
      length |target| that are more than 70% similar to target: a successor
      T adds to t, any other successor to x. */
  function WeightedSums(s: seq<Cat>, target: seq<Cat>, n: nat): (w: Weights)
    requires |target| > 0 && (n == 0 || n + |target| <= |s|)
    ensures w.t >= 0.0 && w.x >= 0.0 && w.sim >= 0.0
  {
    if n == 0 then Weights(0.0, 0.0, 0.0)
    else
      var i := n - 1;
      var w := WeightedSums(s, target, i);
      var sim := Similarity(s[i..i + |target|], target);
      if sim > 0.7 then
        var weight := Recency(sim, |s| - i + 10);
        if s[i + |target|] == T then Weights(w.t + weight, w.x, w.sim + sim)
        else Weights(w.t, w.x + weight, w.sim + sim)
      else w
  }

  /** Whenever some window was similar enough to count, the weights it
      contributed are positive. */
  lemma {:induction false} WeightedSumsPositive(s: seq<Cat>, target: seq<Cat>, n: nat)
    requires |target| > 0 && (n == 0 || n + |target| <= |s|)
    ensures WeightedSums(s, target, n).sim > 0.0 ==> WeightedSums(s, target, n).t + WeightedSums(s, target, n).x > 0.0
  {
    if n > 0 {
      WeightedSumsPositive(s, target, n - 1);
    }
  }

  /** The window loop of the transformer predictor. */
  method TransformerScan(tx: seq<Cat>, target: seq<Cat>) returns (w: Weights)
    requires |target| > 0
    ensures w == WeightedSums(tx, target, Positions(|tx|, |target|))
  {
    var tWeight, xWeight, totalSimilarity := 0.0, 0.0, 0.0;
    var k := |target|;
    var n := Positions(|tx|, k);
    for i := 0 to n
      invariant Weights(tWeight, xWeight, totalSimilarity) == WeightedSums(tx, target, i)
    {
      var score := Similarity(tx[i..i + k], target);
      if score > 0.7 {
        var weight := Recency(score, |tx| - i + 10);
        if tx[i + k] == T {
          tWeight := tWeight + weight;
        } else {
          xWeight := xWeight + weight;
        }
        totalSimilarity := totalSimilarity + score;
      }
    }
    w := Weights(tWeight, xWeight, totalSimilarity);
  }
}
