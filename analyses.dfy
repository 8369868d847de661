/** The five analyses of the score ("3 vị") predictor. Given the raw
    history and the predicted category, each maps every candidate total of
    that category to a positive weight; combine_analyses mixes them with
    fixed weights. */
module Analyses {
  import opened Outcomes

  /** The candidate totals: 11..17 for T, 4..10 for anything else. */
  function Available(c: Cat): (a: seq<int>)
    ensures |a| == 7
    ensures forall i :: 0 <= i < 7 ==> a[i] == Low(c) + i
  {
    seq(7, i => Low(c) + i)
  }

  function Low(c: Cat): int {
    if c == T then 11 else 4
  }

  /** Every candidate total of T is a tài total and every other candidate a
      xỉu total. */
  lemma AvailableBanded(c: Cat)
    ensures forall s :: s in Available(c) ==> Category(s) == (if c == T then T else X)
  {
    forall s | s in Available(c)
      ensures Category(s) == (if c == T then T else X)
    {
      var i :| 0 <= i < 7 && Available(c)[i] == s;
    }
  }

  /** A table that holds a positive weight for exactly the candidates. */
  ghost predicate Positive(m: map<int, real>, keys: seq<int>) {
    && (forall k :: k in m <==> k in keys)
    && (forall i :: 0 <= i < |keys| ==> keys[i] in m && m[keys[i]] > 0.0)
  }

  /** A positive table whose weights sum to 1. */
  ghost predicate Distribution(m: map<int, real>, keys: seq<int>) {
    Positive(m, keys) && SumVals(m, keys) == 1.0
  }

  /** Division by the sum of the weights. */
  function Normalize(m: map<int, real>, keys: seq<int>): (r: map<int, real>)
    requires Positive(m, keys) && |keys| > 0
    ensures SumVals(m, keys) > 0.0
    ensures Distribution(r, keys)
    ensures forall k :: k in r ==> r[k] == m[k] / SumVals(m, keys)
  {
    SumValsPositive(m, keys);
    var total := SumVals(m, keys);
    var r := Divided(m, total);
    DividedDistribution(m, keys, total);
    r
  }

  /** Every value divided by d. */
  function Divided(m: map<int, real>, d: real): (r: map<int, real>)
    requires d > 0.0
    ensures forall k :: k in r <==> k in m
    ensures forall k :: k in r ==> r[k] == m[k] / d
  {
    map k | k in m :: m[k] / d
  }

  /** Dividing a positive table by its sum gives a distribution. */
  lemma DividedDistribution(m: map<int, real>, keys: seq<int>, total: real)
    requires Positive(m, keys) && total > 0.0 && SumVals(m, keys) == total
    ensures Distribution(Divided(m, total), keys)
  {
    var r := Divided(m, total);
    forall i | 0 <= i < |keys|
      ensures keys[i] in r && r[keys[i]] > 0.0
    {
      var k := keys[i];
      assert k in m && m[k] > 0.0;
      DivPositive(m[k], total);
    }
    assert SumVals(r, keys) == total / total by {
      SumValsScale(m, r, keys, total);
    }
    DivSelf(total);
  }

  lemma DivSelf(d: real)
    requires d > 0.0
    ensures d / d == 1.0
  {
  }

  lemma DivPositive(a: real, b: real)
    requires a > 0.0 && b > 0.0
    ensures a / b > 0.0
  {
    assert a / b * b == a;
  }

  /** Division by a positive number keeps the order. */
  lemma DivMonotone(a: real, b: real, d: real)
    requires d > 0.0 && a <= b
    ensures a / d <= b / d
  {
    assert b / d - a / d == (b - a) / d;
    if b > a {
      DivPositive(b - a, d);
    }
  }

  lemma DivStrict(a: real, b: real, d: real)
    requires d > 0.0 && a < b
    ensures a / d < b / d
  {
    assert b / d - a / d == (b - a) / d;
    DivPositive(b - a, d);
  }

  /** The value of position k of a sum of 1.0 over keys. */
  lemma {:induction false} SumValsConst(m: map<int, real>, keys: seq<int>, v: real)
    requires forall i :: 0 <= i < |keys| ==> keys[i] in m && m[keys[i]] == v
    ensures SumVals(m, keys) == |keys| as real * v
  {
    if |keys| > 0 {
      SumValsConst(m, keys[..|keys| - 1], v);
    }
  }

  /** The uniform table 1/7 used as a fallback. */
  function Uniform(c: Cat): (m: map<int, real>)
    ensures Distribution(m, Available(c))
    ensures forall k :: k in m ==> m[k] == 1.0 / 7.0
  {
    var m := map s | s in Available(c) :: 1.0 / 7.0;
    SumValsConst(m, Available(c), 1.0 / 7.0);
    m
  }

  // ---------------------------------------------------------------- frequency

  /** 0.96^age. */
  function Decay(age: nat): (w: real)
    ensures 0.0 < w <= 1.0
  {
    if age == 0 then 1.0 else 0.96 * Decay(age - 1)
  }

  /** An older observation weighs strictly less. */
  lemma DecayDecreasing(age: nat)
    ensures Decay(age + 1) < Decay(age)
  {
  }

  /** The decayed weight of total s right after a record of category c, for
      the positions i in [lo, n): a record at position i weighs
      0.96^(|h| - 1 - i). */
  function DecayedHits(h: seq<Record>, c: Cat, s: int, lo: nat, n: nat): (w: real)
    requires n == 0 || n < |h|
    ensures w >= 0.0
  {
    if n <= lo then 0.0
    else
      var i := n - 1;
      DecayedHits(h, c, s, lo, i) + (if h[i].tx == c && h[i + 1].total == s then Decay(|h| - 1 - i) else 0.0)
  }

  /** The start of the lookback window of 80 records. */
  function LookbackStart(len: nat): (lo: nat)
    ensures lo + 80 >= len && lo <= len && (lo == 0 || lo < len)
  {
    if len > 80 then len - 80 else 0
  }

  /** The last position that has a successor. */
  function LastStart(len: nat): (n: nat)
    ensures n == 0 || n < len
  {
    if len > 0 then len - 1 else 0
  }

  /** The decayed weights of the candidates. */
  function FrequencyWeights(h: seq<Record>, c: Cat): (w: map<int, real>)
    ensures forall k :: k in w <==> k in Available(c)
    ensures forall k :: k in w ==> w[k] >= 0.0
  {
    map s | s in Available(c) :: DecayedHits(h, c, s, LookbackStart(|h|), LastStart(|h|))
  }

  /** The frequency analysis: decayed weights divided by their sum; a
      candidate without weight gets 0.1. */
  function FrequencyAnalysis(h: seq<Record>, c: Cat): (m: map<int, real>)
    ensures Positive(m, Available(c))
    ensures forall k :: k in m ==> m[k] <= 1.0
  {
    var avail := Available(c);
    var w := FrequencyWeights(h, c);
    assert forall i :: 0 <= i < |avail| ==> avail[i] in w && w[avail[i]] >= 0.0 by {
      forall i | 0 <= i < |avail|
        ensures avail[i] in w && w[avail[i]] >= 0.0
      {
        assert avail[i] in avail;
      }
    }
    var total := SumVals(w, avail);
    FrequencyShares(w, avail);
    map s | s in avail :: if w[s] > 0.0 then w[s] / total else 0.1
  }

  /** A weight that is positive is a share of the sum in (0, 1]. */
  lemma FrequencyShares(w: map<int, real>, keys: seq<int>)
    requires forall i :: 0 <= i < |keys| ==> keys[i] in w && w[keys[i]] >= 0.0
    requires forall k :: k in w ==> k in keys
    ensures forall k :: k in w && w[k] > 0.0 ==> SumVals(w, keys) > 0.0 && 0.0 < w[k] / SumVals(w, keys) <= 1.0
  {
    forall k | k in w && w[k] > 0.0
      ensures SumVals(w, keys) > 0.0 && 0.0 < w[k] / SumVals(w, keys) <= 1.0
    {
      assert k in keys;
      var j :| 0 <= j < |keys| && keys[j] == k;
      SumValsBoundsEach(w, keys, j);
      DivPositive(w[k], SumVals(w, keys));
      DivBounds(w[k], 0.0, 1.0, SumVals(w, keys));
    }
  }

  /** The loop of the frequency analysis: one pass over the window that
      adds each decayed weight to the entry of the total that followed. */
  method FrequencyScan(h: seq<Record>, c: Cat) returns (weights: map<int, real>)
    ensures forall k :: k in weights ==> k in Available(c) && weights[k] > 0.0
    ensures forall k :: k in Available(c) ==>
      (if k in weights then weights[k] else 0.0) == FrequencyWeights(h, c)[k]
  {
    weights := map[];
    var avail := Available(c);
    var lo := LookbackStart(|h|);
    var n := LastStart(|h|);
    var i := lo;
    while i < n
      invariant lo <= i && (i <= n || n <= lo) && (i == 0 || i < |h|)
      invariant forall k :: k in weights ==> k in avail && weights[k] > 0.0
      invariant forall k :: k in avail ==>
        (if k in weights then weights[k] else 0.0) == DecayedHits(h, c, k, lo, i)
    {
      ghost var before := weights;
      if h[i].tx == c {
        var next := h[i + 1].total;
        if next in avail {
          var age := |h| - 1 - i;
          var old_ := if next in weights then weights[next] else 0.0;
          weights := weights[next := old_ + Decay(age)];
        }
      }
      FrequencyStep(h, c, avail, lo, i, before, weights);
      i := i + 1;
    }
    if n <= lo {
      forall k | k in avail
        ensures DecayedHits(h, c, k, lo, i) == DecayedHits(h, c, k, lo, n)
      {
      }
    }
  }

  /** One step of the frequency loop keeps its invariant. */
  lemma FrequencyStep(h: seq<Record>, c: Cat, avail: seq<int>, lo: nat, i: nat, before: map<int, real>, after: map<int, real>)
    requires lo <= i && i + 1 < |h|
    requires forall k :: k in before ==> k in avail && before[k] > 0.0
    requires forall k :: k in avail ==>
      (if k in before then before[k] else 0.0) == DecayedHits(h, c, k, lo, i)
    requires var next := h[i + 1].total;
      after == if h[i].tx == c && next in avail
        then before[next := (if next in before then before[next] else 0.0) + Decay(|h| - 1 - i)]
        else before
    ensures forall k :: k in after ==> k in avail && after[k] > 0.0
    ensures forall k :: k in avail ==>
      (if k in after then after[k] else 0.0) == DecayedHits(h, c, k, lo, i + 1)
  {
  }

  // ---------------------------------------------------------------- sequence

  /** Positions i-2, i-1 and i all hold category c. */
  predicate Triple(h: seq<Record>, c: Cat, i: nat)
    requires 2 <= i < |h|
  {
    h[i - 2].tx == c && h[i - 1].tx == c && h[i].tx == c
  }

  /** The number of i in [2, n) where a triple of c starts from the state
      (a, b) of totals. */
  function StateCount(h: seq<Record>, c: Cat, a: int, b: int, n: nat): (k: nat)
    requires n <= |h|
  {
    if n <= 2 then 0
    else
      var i := n - 1;
      StateCount(h, c, a, b, i)
      + (if Triple(h, c, i) && h[i - 2].total == a && h[i - 1].total == b then 1 else 0)
  }

  /** The number of those where the third total is s. */
  function StateNext(h: seq<Record>, c: Cat, a: int, b: int, s: int, n: nat): (k: nat)
    requires n <= |h|
    ensures k <= StateCount(h, c, a, b, n)
  {
    if n <= 2 then 0
    else
      var i := n - 1;
      StateNext(h, c, a, b, s, i)
      + (if Triple(h, c, i) && h[i - 2].total == a && h[i - 1].total == b && h[i].total == s then 1 else 0)
  }

  /** The sequence analysis: a second-order chain over totals inside runs of
      c, read at the state of the last two totals; a candidate never seen
      after that state gets 1/7. The last record is never used as a
      successor. */
  function SequenceAnalysis(h: seq<Record>, c: Cat): (m: map<int, real>)
    ensures Positive(m, Available(c))
    ensures forall k :: k in m ==> m[k] <= 1.0
  {
    var avail := Available(c);
    if |h| >= 2 then
      var a, b := h[|h| - 2].total, h[|h| - 1].total;
      var n := |h| - 1;
      var total := StateCount(h, c, a, b, n);
      SequenceShares(h, c, a, b, n);
      map s | s in avail ::
        if StateNext(h, c, a, b, s, n) > 0 then StateNext(h, c, a, b, s, n) as real / total as real
        else 1.0 / 7.0
    else
      Uniform(c)
  }

  lemma SequenceShares(h: seq<Record>, c: Cat, a: int, b: int, n: nat)
    requires n <= |h|
    ensures forall s :: StateNext(h, c, a, b, s, n) > 0 ==>
      0.0 < StateNext(h, c, a, b, s, n) as real / StateCount(h, c, a, b, n) as real <= 1.0
  {
    forall s | StateNext(h, c, a, b, s, n) > 0
      ensures 0.0 < StateNext(h, c, a, b, s, n) as real / StateCount(h, c, a, b, n) as real <= 1.0
    {
      var k, t := StateNext(h, c, a, b, s, n) as real, StateCount(h, c, a, b, n) as real;
      DivPositive(k, t);
      DivBounds(k, 0.0, 1.0, t);
    }
  }

  // ---------------------------------------------------------------- distribution

  /** The totals of the records of category c, in order. */
  function TotalsOf(h: seq<Record>, c: Cat): (s: seq<int>)
    ensures |s| <= |h|
  {
    if |h| == 0 then []
    else TotalsOf(h[..|h| - 1], c) + (if h[|h| - 1].tx == c then [h[|h| - 1].total] else [])
  }

  /** The distribution analysis: with fewer than 5 totals of c the uniform
      table, otherwise Laplace-smoothed frequencies (count + 1) / (n + 7). */
  function DistributionAnalysis(h: seq<Record>, c: Cat): (m: map<int, real>)
    ensures Positive(m, Available(c))
  {
    var all := TotalsOf(h, c);
    if |all| < 5 then Uniform(c) else Smoothed(all, c)
  }

  /** (count + 1) / (n + 7) for every candidate. */
  function Smoothed(all: seq<int>, c: Cat): (m: map<int, real>)
    ensures Positive(m, Available(c))
    ensures forall k :: k in m ==> m[k] == (Count(all, k) + 1) as real / (|all| + 7) as real
  {
    var d := (|all| + 7) as real;
    var m := map s | s in Available(c) :: (Count(all, s) + 1) as real / d;
    assert forall k :: k in m ==> m[k] > 0.0 by {
      forall k | k in m ensures m[k] > 0.0 {
        DivPositive((Count(all, k) + 1) as real, d);
      }
    }
    m
  }

  /** Sum over keys of the number of occurrences of each key in all. */
  function SumCounts(all: seq<int>, keys: seq<int>): nat {
    if |keys| == 0 then 0 else SumCounts(all, keys[..|keys| - 1]) + Count(all, keys[|keys| - 1])
  }

  lemma {:induction false} SumCountsSnoc(all: seq<int>, e: int, keys: seq<int>)
    ensures SumCounts(all + [e], keys) == SumCounts(all, keys) + Count(keys, e)
  {
    if |keys| > 0 {
      SumCountsSnoc(all, e, keys[..|keys| - 1]);
      assert (all + [e])[..|all|] == all;
    } else {
      assert SumCounts(all + [e], keys) == 0;
    }
  }

  /** Seven consecutive candidates hold each of their values once. */
  lemma {:induction false} RangeOnce(lo: int, k: nat, e: int)
    ensures Count(seq(k, i => lo + i), e) == if lo <= e < lo + k then 1 else 0
  {
    if k > 0 {
      assert seq(k, i => lo + i)[..k - 1] == seq(k - 1, i => lo + i);
      RangeOnce(lo, k - 1, e);
    }
  }

  /** When every element of all is a candidate, counting each candidate
      counts every element once. */
  lemma {:induction false} SumCountsAll(all: seq<int>, c: Cat)
    requires forall i :: 0 <= i < |all| ==> all[i] in Available(c)
    ensures SumCounts(all, Available(c)) == |all|
  {
    if |all| == 0 {
      SumCountsZero(Available(c));
    } else {
      var init := all[..|all| - 1];
      var e := all[|all| - 1];
      assert all == init + [e];
      SumCountsAll(init, c);
      SumCountsSnoc(init, e, Available(c));
      assert Available(c) == seq(7, i => Low(c) + i);
      RangeOnce(Low(c), 7, e);
    }
  }

  lemma {:induction false} SumCountsZero(keys: seq<int>)
    ensures SumCounts([], keys) == 0
  {
    if |keys| > 0 {
      SumCountsZero(keys[..|keys| - 1]);
    }
  }

  /** The totals of a category, for well-formed records, are candidates of
      that category. */
  lemma {:induction false} TotalsOfBanded(h: seq<Record>, c: Cat)
    requires c == T || c == X
    requires forall i :: 0 <= i < |h| ==> WellFormed(h[i])
    ensures forall i :: 0 <= i < |TotalsOf(h, c)| ==> TotalsOf(h, c)[i] in Available(c)
  {
    if |h| > 0 {
      TotalsOfBanded(h[..|h| - 1], c);
      var r := h[|h| - 1];
      if r.tx == c {
        assert Available(c)[r.total - Low(c)] == r.total;
      }
    }
  }

  /** Over well-formed records, the smoothed frequencies of T or X form a
      distribution: the seven counts add up to the number of totals. */
  lemma DistributionSumsToOne(h: seq<Record>, c: Cat)
    requires c == T || c == X
    requires forall i :: 0 <= i < |h| ==> WellFormed(h[i])
    ensures Distribution(DistributionAnalysis(h, c), Available(c))
  {
    var all := TotalsOf(h, c);
    if |all| >= 5 {
      var avail := Available(c);
      var d := (|all| + 7) as real;
      var m := Smoothed(all, c);
      assert DistributionAnalysis(h, c) == m;
      var raw := map s | s in avail :: (Count(all, s) + 1) as real;
      assert SumVals(raw, avail) == d by {
        TotalsOfBanded(h, c);
        SumCountsAll(all, c);
        RawSum(all, raw, avail);
      }
      assert SumVals(m, avail) == d / d by {
        SumValsScale(raw, m, avail, d);
      }
      DivSelf(d);
    }
  }

  lemma {:induction false} RawSum(all: seq<int>, raw: map<int, real>, keys: seq<int>)
    requires forall i :: 0 <= i < |keys| ==> keys[i] in raw && raw[keys[i]] == (Count(all, keys[i]) + 1) as real
    ensures SumVals(raw, keys) == (SumCounts(all, keys) + |keys|) as real
  {
    if |keys| > 0 {
      RawSum(all, raw, keys[..|keys| - 1]);
    }
  }

  // ---------------------------------------------------------------- cluster

  /** The ascending sort of the engine (a stable insertion sort here). */
  function SortAsc(s: seq<int>): (r: seq<int>)
    ensures |r| == |s|
    ensures multiset(r) == multiset(s)
    ensures Sorted(r)
  {
    if |s| == 0 then []
    else
      assert s == s[..|s| - 1] + [s[|s| - 1]];
      Insert(SortAsc(s[..|s| - 1]), s[|s| - 1])
  }

  ghost predicate Sorted(s: seq<int>) {
    forall i, j :: 0 <= i < j < |s| ==> s[i] <= s[j]
  }

  /** x inserted into the sorted s before the first element it does not
      exceed. */
  function Insert(s: seq<int>, x: int): (r: seq<int>)
    requires Sorted(s)
    ensures |r| == |s| + 1
    ensures multiset(r) == multiset(s) + multiset{x}
    ensures r[0] == if |s| == 0 || x <= s[0] then x else s[0]
    ensures Sorted(r)
  {
    if |s| == 0 then [x]
    else if x <= s[0] then ConsSorted(x, s); [x] + s
    else
      var rest := Insert(s[1..], x);
      assert s == [s[0]] + s[1..];
      ConsSorted(s[0], rest);
      [s[0]] + rest
  }

  /** An element no larger than the head of a sorted sequence extends it. */
  lemma ConsSorted(a: int, r: seq<int>)
    requires Sorted(r) && (|r| == 0 || a <= r[0])
    ensures Sorted([a] + r)
  {
    forall i, j | 0 <= i < j < |r| + 1
      ensures ([a] + r)[i] <= ([a] + r)[j]
    {
      if i > 0 {
        assert ([a] + r)[i] == r[i - 1];
      }
    }
  }

  /** The grouping step for one more element x: it joins the last group
      when it is at most 2 above that group's last element, otherwise it
      opens a new group. */
  function GroupStep(gs: seq<seq<int>>, x: int): (r: seq<seq<int>>)
    requires forall i :: 0 <= i < |gs| ==> |gs[i]| > 0
    ensures 0 < |r| && forall i :: 0 <= i < |r| ==> |r[i]| > 0
  {
    if |gs| > 0 && x - gs[|gs| - 1][|gs[|gs| - 1]| - 1] <= 2 then
      gs[..|gs| - 1] + [gs[|gs| - 1] + [x]]
    else
      gs + [[x]]
  }

  /** The grouping loop of the cluster analysis, one GroupStep per
      element. */
  function Groups(s: seq<int>): (gs: seq<seq<int>>)
    ensures |s| == 0 <==> |gs| == 0
    ensures forall i :: 0 <= i < |gs| ==> |gs[i]| > 0
  {
    if |s| == 0 then [] else GroupStep(Groups(s[..|s| - 1]), s[|s| - 1])
  }

  function Flatten(gs: seq<seq<int>>): seq<int> {
    if |gs| == 0 then [] else Flatten(gs[..|gs| - 1]) + gs[|gs| - 1]
  }

  /** A grouping step appends x to the concatenation of the groups. */
  lemma FlattenGroupStep(gs: seq<seq<int>>, x: int)
    requires forall i :: 0 <= i < |gs| ==> |gs[i]| > 0
    ensures Flatten(GroupStep(gs, x)) == Flatten(gs) + [x]
  {
    var r := GroupStep(gs, x);
    if |gs| > 0 && x - gs[|gs| - 1][|gs[|gs| - 1]| - 1] <= 2 {
      assert r[..|r| - 1] == gs[..|gs| - 1];
      assert Flatten(gs) == Flatten(gs[..|gs| - 1]) + gs[|gs| - 1];
    } else {
      assert r[..|r| - 1] == gs;
    }
  }

  /** The groups partition the sequence: concatenated in order they give it
      back. */
  lemma {:induction false} GroupsFlatten(s: seq<int>)
    ensures Flatten(Groups(s)) == s
  {
    if |s| > 0 {
      var init := s[..|s| - 1];
      GroupsFlatten(init);
      FlattenGroupStep(Groups(init), s[|s| - 1]);
      assert s == init + [s[|s| - 1]];
    }
  }

  /** Inside a group each element is at most 2 above the one before it. */
  lemma {:induction false} GroupsClose(s: seq<int>)
    ensures forall g, i :: g in Groups(s) && 0 < i < |g| ==> g[i] - g[i - 1] <= 2
  {
    if |s| > 0 {
      var init := s[..|s| - 1];
      GroupsClose(init);
      var gs := Groups(init);
      var x := s[|s| - 1];
      if |gs| > 0 && x - gs[|gs| - 1][|gs[|gs| - 1]| - 1] <= 2 {
        var last := gs[|gs| - 1] + [x];
        assert Groups(s) == gs[..|gs| - 1] + [last];
        forall g, i | g in Groups(s) && 0 < i < |g|
          ensures g[i] - g[i - 1] <= 2
        {
          if g != last {
            assert g in gs;
          } else if i < |g| - 1 {
            assert gs[|gs| - 1] in gs;
          }
        }
      }
    }
  }

  /** The sum of 0.1 times the size of every group of two or more that
      contains s. */
  function Bonus(gs: seq<seq<int>>, s: int): (b: real)
    ensures b >= 0.0
  {
    if |gs| == 0 then 0.0
    else
      var g := gs[|gs| - 1];
      Bonus(gs[..|gs| - 1], s) + (if |g| >= 2 && s in g then 0.1 * |g| as real else 0.0)
  }

  /** A total in a group of two or more earns at least 0.2. */
  lemma {:induction false} BonusInCluster(gs: seq<seq<int>>, s: int, j: nat)
    requires j < |gs| && |gs[j]| >= 2 && s in gs[j]
    ensures Bonus(gs, s) >= 0.2
  {
    if j < |gs| - 1 {
      BonusInCluster(gs[..|gs| - 1], s, j);
    }
  }

  /** A total outside every group of two or more earns nothing. */
  lemma {:induction false} BonusOutside(gs: seq<seq<int>>, s: int)
    requires forall j :: 0 <= j < |gs| && |gs[j]| >= 2 ==> s !in gs[j]
    ensures Bonus(gs, s) == 0.0
  {
    if |gs| > 0 {
      BonusOutside(gs[..|gs| - 1], s);
    }
  }

  /** The groups of the recent totals of c: the totals of c in the last 30
      records, sorted. */
  function RecentGroups(h: seq<Record>, c: Cat): seq<seq<int>> {
    Groups(SortAsc(TotalsOf(LastN(h, 30), c)))
  }

  /** 1 plus the cluster bonus of every candidate. */
  function BonusTable(gs: seq<seq<int>>, avail: seq<int>): (m: map<int, real>)
    ensures Positive(m, avail)
    ensures forall k :: k in m ==> m[k] == 1.0 + Bonus(gs, k)
  {
    map s | s in avail :: 1.0 + Bonus(gs, s)
  }

  function ClusterRaw(h: seq<Record>, c: Cat): (m: map<int, real>)
    ensures Positive(m, Available(c))
    ensures forall k :: k in m ==> m[k] == 1.0 + Bonus(RecentGroups(h, c), k)
  {
    BonusTable(RecentGroups(h, c), Available(c))
  }

  /** The cluster analysis: with fewer than 3 recent totals of c the uniform
      table, otherwise 1 plus the cluster bonus, normalised. */
  function ClusterAnalysis(h: seq<Record>, c: Cat): (m: map<int, real>)
    ensures Distribution(m, Available(c))
  {
    if |TotalsOf(LastN(h, 30), c)| < 3 then Uniform(c)
    else Normalize(ClusterRaw(h, c), Available(c))
  }

  /** A candidate inside a recent cluster outweighs one outside every
      cluster. */
  lemma ClusterFavoursClustered(h: seq<Record>, c: Cat, a: int, b: int, j: nat)
    requires |TotalsOf(LastN(h, 30), c)| >= 3
    requires a in Available(c) && b in Available(c)
    requires var gs := RecentGroups(h, c); j < |gs| && |gs[j]| >= 2 && a in gs[j]
    requires var gs := RecentGroups(h, c); forall i :: 0 <= i < |gs| && |gs[i]| >= 2 ==> b !in gs[i]
    ensures ClusterAnalysis(h, c)[a] > ClusterAnalysis(h, c)[b]
  {
    var gs := RecentGroups(h, c);
    var raw := ClusterRaw(h, c);
    BonusInCluster(gs, a, j);
    BonusOutside(gs, b);
    SumValsPositive(raw, Available(c));
    DivStrict(raw[b], raw[a], SumVals(raw, Available(c)));
  }

  // ---------------------------------------------------------------- gap

  /** The last position i < n where a record of category c had total s. */
  function LastSeen(h: seq<Record>, c: Cat, s: int, n: nat): (r: Option<nat>)
    requires n <= |h|
    ensures r.Some? ==> r.value < n && h[r.value].tx == c && h[r.value].total == s
    ensures r.Some? ==> forall j :: r.value < j < n ==> !(h[j].tx == c && h[j].total == s)
    ensures r.None? ==> forall j :: 0 <= j < n ==> !(h[j].tx == c && h[j].total == s)
  {
    if n == 0 then None
    else if h[n - 1].tx == c && h[n - 1].total == s then Some(n - 1)
    else LastSeen(h, c, s, n - 1)
  }

  /** The backward scan with an early exit that finds last_seen (-1 when
      never seen). */
  method LastSeenScan(h: seq<Record>, c: Cat, s: int) returns (lastSeen: int)
    ensures lastSeen == match LastSeen(h, c, s, |h|) case None => -1 case Some(i) => i
  {
    lastSeen := -1;
    var i := |h| - 1;
    while i >= 0
      invariant -1 <= i < |h|
      invariant LastSeen(h, c, s, |h|) == LastSeen(h, c, s, i + 1)
    {
      if h[i].tx == c && h[i].total == s {
        lastSeen := i;
        return;
      }
      i := i - 1;
    }
  }

  /** The raw gap weight: 0.7 for a total never seen, otherwise the gap to
      the end of the history over 15, capped at 1. */
  function GapValue(h: seq<Record>, c: Cat, s: int): (v: real)
    ensures 0.0 < v <= 1.0
  {
    match LastSeen(h, c, s, |h|)
    case None => 0.7
    case Some(i) => MinReal(1.0, (|h| - i) as real / 15.0)
  }

  function GapRaw(h: seq<Record>, c: Cat): (m: map<int, real>)
    ensures Positive(m, Available(c))
    ensures forall k :: k in m ==> m[k] == GapValue(h, c, k)
  {
    map s | s in Available(c) :: GapValue(h, c, s)
  }

  /** The gap analysis: the gap weights normalised. */
  function GapAnalysis(h: seq<Record>, c: Cat): (m: map<int, real>)
    ensures Distribution(m, Available(c))
  {
    Normalize(GapRaw(h, c), Available(c))
  }

  /** The longer a total has not been seen, the more it weighs. */
  lemma GapMonotone(h: seq<Record>, c: Cat, a: int, b: int, i: nat, j: nat)
    requires a in Available(c) && b in Available(c)
    requires LastSeen(h, c, a, |h|) == Some(i) && LastSeen(h, c, b, |h|) == Some(j) && i <= j
    ensures GapAnalysis(h, c)[a] >= GapAnalysis(h, c)[b]
  {
    var raw := GapRaw(h, c);
    SumValsPositive(raw, Available(c));
    DivMonotone((|h| - j) as real, (|h| - i) as real, 15.0);
    DivMonotone(raw[b], raw[a], SumVals(raw, Available(c)));
  }

  // ---------------------------------------------------------------- combine

  /** The five analyses of one prediction. */
  datatype Tables = Tables(
    frequency: map<int, real>,
    sequence: map<int, real>,
    distribution: map<int, real>,
    cluster: map<int, real>,
    gap: map<int, real>)

  function AllTables(h: seq<Record>, c: Cat): (t: Tables)
    ensures Positive(t.frequency, Available(c)) && Positive(t.sequence, Available(c))
    ensures Positive(t.distribution, Available(c)) && Positive(t.cluster, Available(c))
    ensures Positive(t.gap, Available(c))
  {
    Tables(FrequencyAnalysis(h, c), SequenceAnalysis(h, c), DistributionAnalysis(h, c),
      ClusterAnalysis(h, c), GapAnalysis(h, c))
  }

  /** One weighted term; an analysis without a (non-zero) value for s
      contributes nothing. */
  function Part(m: map<int, real>, s: int, w: real): real {
    if s in m && m[s] != 0.0 then m[s] * w else 0.0
  }

  function Mix(t: Tables, s: int): real {
    Part(t.frequency, s, 0.25) + Part(t.sequence, s, 0.20) + Part(t.distribution, s, 0.20)
      + Part(t.cluster, s, 0.20) + Part(t.gap, s, 0.15)
  }

  /** combine_analyses: weights 0.25, 0.20, 0.20, 0.20, 0.15. */
  function Combine(t: Tables, keys: seq<int>): (m: map<int, real>)
    ensures forall k :: k in m <==> k in keys
    ensures forall k :: k in m ==> m[k] == Mix(t, k)
  {
    map s | s in keys :: Mix(t, s)
  }

  /** The mixing weights sum to 1, so every combined weight lies between
      the least and the greatest of its five inputs; with inputs in (0, 1]
      it lies in (0, 1]. */
  lemma CombineBounds(t: Tables, keys: seq<int>, k: int)
    requires k in keys
    requires Positive(t.frequency, keys) && Positive(t.sequence, keys) && Positive(t.distribution, keys)
    requires Positive(t.cluster, keys) && Positive(t.gap, keys)
    requires t.frequency[k] <= 1.0 && t.sequence[k] <= 1.0 && t.distribution[k] <= 1.0
    requires t.cluster[k] <= 1.0 && t.gap[k] <= 1.0
    ensures 0.0 < Combine(t, keys)[k] <= 1.0
  {
  }

  /** Every key has a non-zero value in the table. */
  ghost predicate Covers(m: map<int, real>, keys: seq<int>) {
    forall i :: 0 <= i < |keys| ==> keys[i] in m && m[keys[i]] != 0.0
  }

  /** The sum of the mix is the mix of the sums. */
  lemma {:induction false} SumMix(t: Tables, keys: seq<int>, m: map<int, real>)
    requires Covers(t.frequency, keys) && Covers(t.sequence, keys) && Covers(t.distribution, keys)
    requires Covers(t.cluster, keys) && Covers(t.gap, keys)
    requires forall i :: 0 <= i < |keys| ==> keys[i] in m && m[keys[i]] == Mix(t, keys[i])
    ensures SumVals(m, keys) == 0.25 * SumVals(t.frequency, keys) + 0.20 * SumVals(t.sequence, keys)
        + 0.20 * SumVals(t.distribution, keys) + 0.20 * SumVals(t.cluster, keys) + 0.15 * SumVals(t.gap, keys)
  {
    if |keys| > 0 {
      SumMix(t, keys[..|keys| - 1], m);
    }
  }

  lemma {:induction false} SumValsSameOn(m: map<int, real>, m': map<int, real>, keys: seq<int>)
    requires forall i :: 0 <= i < |keys| ==> keys[i] in m && keys[i] in m' && m[keys[i]] == m'[keys[i]]
    ensures SumVals(m, keys) == SumVals(m', keys)
  {
    if |keys| > 0 {
      SumValsSameOn(m, m', keys[..|keys| - 1]);
    }
  }

  /** A mix of five distributions is a distribution. */
  lemma CombineDistribution(t: Tables, keys: seq<int>)
    requires |keys| > 0
    requires Distribution(t.frequency, keys) && Distribution(t.sequence, keys) && Distribution(t.distribution, keys)
    requires Distribution(t.cluster, keys) && Distribution(t.gap, keys)
    ensures SumVals(Combine(t, keys), keys) == 1.0
  {
    SumMix(t, keys, Combine(t, keys));
  }
}
