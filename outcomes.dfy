/** Outcome records, the banding rule that classifies a total, and the small
    sequence helpers (last_n, sum, avg, similarity, majority) that every
    predictor of the engine shares. */
module Outcomes {

  datatype Option<+V> = None | Some(value: V)

  /** The category of a round: T (tài, big), X (xỉu, small), B (bão, a
      triple) and N for a total outside every band. */
  datatype Cat = T | X | B | N

  /** The text label a record carries next to its category. */
  datatype Label = Tai | Xiu | Bao | Unknown

  /** A normalised record: session number, total of the three dice,
      category and label. The dice faces themselves are not used by the
      engine. */
  datatype Record = Record(session: int, total: int, tx: Cat, result: Label)

  /** The band of a total: 4-10 small, 11-17 big, 3 or 18 a triple,
      anything else unknown. */
  function Category(total: int): (c: Cat)
    ensures c == X <==> 4 <= total <= 10
    ensures c == T <==> 11 <= total <= 17
    ensures c == B <==> total == 3 || total == 18
    ensures c == N <==> total < 3 || 18 < total
  {
    if 4 <= total <= 10 then X
    else if 11 <= total <= 17 then T
    else if total == 3 || total == 18 then B
    else N
  }

  /** The label the same banding assigns. */
  function LabelOf(total: int): (l: Label)
    ensures l == Xiu <==> Category(total) == X
    ensures l == Tai <==> Category(total) == T
    ensures l == Bao <==> Category(total) == B
    ensures l == Unknown <==> Category(total) == N
  {
    if 4 <= total <= 10 then Xiu
    else if 11 <= total <= 17 then Tai
    else if total == 3 || total == 18 then Bao
    else Unknown
  }

  /** The record the parser builds for a session and a total. */
  function MakeRecord(session: int, total: int): (r: Record)
    ensures WellFormed(r) && r.session == session && r.total == total
  {
    Record(session, total, Category(total), LabelOf(total))
  }

  /** A record whose category and label are the banding of its total. */
  ghost predicate WellFormed(r: Record) {
    r.tx == Category(r.total) && r.result == LabelOf(r.total)
  }

  /** Every total in 3-18 falls in one of the three live bands. */
  lemma DiceTotalsAreBanded(total: int)
    requires 3 <= total <= 18
    ensures Category(total) != N
  {
  }

  /** The records that are not triples, in their original order. */
  function Filtered(h: seq<Record>): (f: seq<Record>)
    ensures |f| <= |h|
    ensures forall i :: 0 <= i < |f| ==> f[i].tx != B
  {
    if |h| == 0 then []
    else Filtered(h[..|h| - 1]) + (if h[|h| - 1].tx == B then [] else [h[|h| - 1]])
  }

  /** Appending one record extends the filtered history by that record
      exactly when it is not a triple. */
  lemma FilteredAppend(h: seq<Record>, r: Record)
    ensures Filtered(h + [r]) == Filtered(h) + (if r.tx == B then [] else [r])
  {
    assert (h + [r])[..|h|] == h;
  }

  /** Filtering removes exactly the triples: a history without triples is
      its own filtered history. */
  lemma {:induction false} FilteredIdentity(h: seq<Record>)
    requires forall i :: 0 <= i < |h| ==> h[i].tx != B
    ensures Filtered(h) == h
  {
    if |h| > 0 {
      FilteredIdentity(h[..|h| - 1]);
      assert h[..|h| - 1] + [h[|h| - 1]] == h;
    }
  }

  /** Filtering twice is filtering once. */
  lemma FilteredIdempotent(h: seq<Record>)
    ensures Filtered(Filtered(h)) == Filtered(h)
  {
    FilteredIdentity(Filtered(h));
  }

  /** The category sequence of a history. */
  function Txs(h: seq<Record>): (s: seq<Cat>)
    ensures |s| == |h| && forall i :: 0 <= i < |h| ==> s[i] == h[i].tx
  {
    seq(|h|, i requires 0 <= i < |h| => h[i].tx)
  }

  /** The totals of a history. */
  function Totals(h: seq<Record>): (s: seq<int>)
    ensures |s| == |h| && forall i :: 0 <= i < |h| ==> s[i] == h[i].total
  {
    seq(|h|, i requires 0 <= i < |h| => h[i].total)
  }

  /** The filtered category sequence every predictor works on. */
  function Tx(h: seq<Record>): (s: seq<Cat>)
    ensures |s| == |Filtered(h)| && forall i :: 0 <= i < |s| ==> s[i] != B
  {
    Txs(Filtered(h))
  }

  /** Number of occurrences of c in s: categories, or candidate totals. */
  function Count<E(==)>(s: seq<E>, c: E): (k: nat)
    ensures k <= |s|
  {
    if |s| == 0 then 0
    else Count(s[..|s| - 1], c) + (if s[|s| - 1] == c then 1 else 0)
  }

  lemma CountAppend<E>(s: seq<E>, t: seq<E>, c: E)
    ensures Count(s + t, c) == Count(s, c) + Count(t, c)
  {
    if |t| == 0 {
      assert s + t == s;
    } else {
      assert (s + t)[..|s + t| - 1] == s + t[..|t| - 1];
      CountAppend(s, t[..|t| - 1], c);
    }
  }

  /** One more element adds one to its own count and nothing to others. */
  lemma CountSnoc<E>(s: seq<E>, e: E, c: E)
    ensures Count(s + [e], c) == Count(s, c) + (if e == c then 1 else 0)
  {
    assert (s + [e])[..|s|] == s;
  }

  /** In a sequence without triples every element is T, X or N. */
  lemma {:induction false} CountPartition(s: seq<Cat>)
    requires forall i :: 0 <= i < |s| ==> s[i] != B
    ensures Count(s, T) + Count(s, X) + Count(s, N) == |s|
  {
    if |s| > 0 {
      CountPartition(s[..|s| - 1]);
    }
  }

  /** c occurs in s exactly when its count is positive. */
  lemma {:induction false} CountPositive<E>(s: seq<E>, c: E)
    ensures Count(s, c) > 0 <==> c in s
  {
    if |s| > 0 {
      CountPositive(s[..|s| - 1], c);
      assert s == s[..|s| - 1] + [s[|s| - 1]];
    }
  }

  function Abs(n: int): nat {
    if n < 0 then -n else n
  }

  function MinReal(a: real, b: real): real {
    if a <= b then a else b
  }

  function MaxReal(a: real, b: real): real {
    if a >= b then a else b
  }

  function AbsReal(a: real): real {
    if a < 0.0 then -a else a
  }

  /** The last n elements of s (all of s when it is shorter): JavaScript's
      `slice(-n)` for positive n and the engine's `last_n`. */
  function LastN<A>(s: seq<A>, n: nat): (r: seq<A>)
    ensures |r| == if n <= |s| then n else |s|
    ensures forall i :: 0 <= i < |r| ==> r[i] == s[|s| - |r| + i]
    ensures r == s[|s| - |r|..]
  {
    if n <= |s| then s[|s| - n..] else s
  }

  function Sum(nums: seq<int>): int {
    if |nums| == 0 then 0 else Sum(nums[..|nums| - 1]) + nums[|nums| - 1]
  }

  /** The mean of a sequence of integers, 0 for the empty sequence. */
  function Avg(nums: seq<int>): real {
    if |nums| == 0 then 0.0 else Sum(nums) as real / |nums| as real
  }

  lemma {:induction false} SumBounds(nums: seq<int>, lo: int, hi: int)
    requires forall i :: 0 <= i < |nums| ==> lo <= nums[i] <= hi
    ensures lo * |nums| <= Sum(nums) <= hi * |nums|
  {
    if |nums| > 0 {
      var n := |nums| - 1;
      SumBounds(nums[..n], lo, hi);
      assert lo * |nums| == lo * n + lo && hi * |nums| == hi * n + hi;
    }
  }

  /** The mean of values that all lie in [lo, hi] lies in [lo, hi]. */
  lemma AvgBounds(nums: seq<int>, lo: int, hi: int)
    requires |nums| > 0
    requires forall i :: 0 <= i < |nums| ==> lo <= nums[i] <= hi
    ensures lo as real <= Avg(nums) <= hi as real
  {
    SumBounds(nums, lo, hi);
    var n := |nums| as real;
    var s := Sum(nums) as real;
    assert lo as real * n <= s <= hi as real * n;
    DivBounds(s, lo as real, hi as real, n);
  }

  lemma DivBounds(s: real, lo: real, hi: real, n: real)
    requires n > 0.0 && lo * n <= s <= hi * n
    ensures lo <= s / n <= hi
  {
    assert s / n - lo == (s - lo * n) / n;
    assert hi - s / n == (hi * n - s) / n;
  }

  /** Number of positions where a and b agree. */
  function Matches(a: seq<Cat>, b: seq<Cat>): (m: nat)
    requires |a| == |b|
    ensures m <= |a|
  {
    if |a| == 0 then 0
    else Matches(a[..|a| - 1], b[..|b| - 1]) + (if a[|a| - 1] == b[|b| - 1] then 1 else 0)
  }

  lemma {:induction false} MatchesFull(a: seq<Cat>, b: seq<Cat>)
    requires |a| == |b|
    ensures Matches(a, b) == |a| <==> a == b
  {
    if |a| > 0 {
      MatchesFull(a[..|a| - 1], b[..|b| - 1]);
      if a == b {
        assert a[..|a| - 1] == b[..|b| - 1];
      } else if a[..|a| - 1] == b[..|b| - 1] {
        assert a[|a| - 1] != b[|b| - 1] by {
          assert a == a[..|a| - 1] + [a[|a| - 1]];
          assert b == b[..|b| - 1] + [b[|b| - 1]];
        }
      }
    }
  }

  lemma {:induction false} MatchesSymmetric(a: seq<Cat>, b: seq<Cat>)
    requires |a| == |b|
    ensures Matches(a, b) == Matches(b, a)
  {
    if |a| > 0 {
      MatchesSymmetric(a[..|a| - 1], b[..|b| - 1]);
    }
  }

  /** Position-wise agreement ratio of two sequences of equal length, 0 when
      the lengths differ. The engine applies it only to non-empty windows. */
  function Similarity(a: seq<Cat>, b: seq<Cat>): (r: real)
    requires |a| == |b| ==> |a| > 0
    ensures 0.0 <= r <= 1.0
  {
    if |a| != |b| then 0.0 else Matches(a, b) as real / |a| as real
  }

  /** Similarity is 1 exactly for identical windows and does not depend on
      the order of its arguments. */
  lemma SimilarityProperties(a: seq<Cat>, b: seq<Cat>)
    requires |a| == |b| > 0
    ensures Similarity(a, b) == 1.0 <==> a == b
    ensures Similarity(a, b) == Similarity(b, a)
  {
    MatchesFull(a, b);
    MatchesSymmetric(a, b);
    var n := |a| as real;
    if Similarity(a, b) == 1.0 {
      assert Matches(a, b) as real == n;
    }
  }

  /** The index the engine's `majority` settles on: it scans the entries in
      insertion order and moves only on a strictly larger value, so it finds
      the first entry of maximal value. */
  function MajorityAt<K>(entries: seq<(K, real)>): (i: nat)
    requires |entries| > 0
    ensures i < |entries|
    ensures forall j :: 0 <= j < |entries| ==> entries[j].1 <= entries[i].1
    ensures forall j :: 0 <= j < i ==> entries[j].1 < entries[i].1
  {
    if |entries| == 1 then 0
    else
      var i := MajorityAt(entries[..|entries| - 1]);
      if entries[|entries| - 1].1 > entries[i].1 then |entries| - 1 else i
  }

  /** The scan of majority: entries are visited in order and one replaces
      the running maximum only when it is strictly greater. The running
      maximum starts below every value, so the first entry is always taken
      and stands in for that start here. */
  method Majority<K>(entries: seq<(K, real)>) returns (key: K, val: real)
    requires |entries| > 0
    ensures (key, val) == entries[MajorityAt(entries)]
  {
    key, val := entries[0].0, entries[0].1;
    ghost var at := 0;
    for j := 1 to |entries|
      invariant at == MajorityAt(entries[..j]) && (key, val) == entries[at]
    {
      assert entries[..j + 1][..j] == entries[..j];
      if entries[j].1 > val {
        key, val := entries[j].0, entries[j].1;
        at := j;
      }
    }
    assert entries[..|entries|] == entries;
  }

  /** Sum of the values m holds for keys, taken in the order of keys. */
  function SumVals<K>(m: map<K, real>, keys: seq<K>): real
    requires forall i :: 0 <= i < |keys| ==> keys[i] in m
  {
    if |keys| == 0 then 0.0
    else SumVals(m, keys[..|keys| - 1]) + m[keys[|keys| - 1]]
  }

  /** Dividing every value by d divides their sum by d. */
  lemma {:induction false} SumValsScale<K>(m: map<K, real>, m': map<K, real>, keys: seq<K>, d: real)
    requires d != 0.0
    requires forall i :: 0 <= i < |keys| ==> keys[i] in m && keys[i] in m'
    requires forall k :: k in m && k in m' ==> m'[k] == m[k] / d
    ensures SumVals(m', keys) == SumVals(m, keys) / d
  {
    if |keys| > 0 {
      SumValsScale(m, m', keys[..|keys| - 1], d);
    }
  }

  /** A sum of positive values is positive, and a sum of non-negative values
      bounds each of them. */
  lemma {:induction false} SumValsPositive<K>(m: map<K, real>, keys: seq<K>)
    requires |keys| > 0
    requires forall i :: 0 <= i < |keys| ==> keys[i] in m && m[keys[i]] > 0.0
    ensures SumVals(m, keys) > 0.0
  {
    if |keys| > 1 {
      SumValsPositive(m, keys[..|keys| - 1]);
    }
  }

  lemma {:induction false} SumValsBoundsEach<K>(m: map<K, real>, keys: seq<K>, j: nat)
    requires j < |keys|
    requires forall i :: 0 <= i < |keys| ==> keys[i] in m && m[keys[i]] >= 0.0
    ensures m[keys[j]] <= SumVals(m, keys)
  {
    SumValsNonNegative(m, keys[..|keys| - 1]);
    if j < |keys| - 1 {
      SumValsBoundsEach(m, keys[..|keys| - 1], j);
    }
  }

  lemma {:induction false} SumValsNonNegative<K>(m: map<K, real>, keys: seq<K>)
    requires forall i :: 0 <= i < |keys| ==> keys[i] in m && m[keys[i]] >= 0.0
    ensures SumVals(m, keys) >= 0.0
  {
    if |keys| > 0 {
      SumValsNonNegative(m, keys[..|keys| - 1]);
    }
  }
}
