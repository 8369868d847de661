/** The last two steps of the score predictor: the diversity selector that
    picks three candidate totals from the combined weights, and the
    per-category memory of recent selections with its coverage swap. */
module Selection {
  import opened Outcomes
  import opened Analyses

  // ---------------------------------------------------------------- ranking

  /** a ranks before b: a strictly higher weight, or the same weight and a
      smaller total. The entries of the combined table come in ascending
      order of their integer keys and the sort by descending weight is
      stable, so this is the order the selector sees. */
  predicate Before(m: map<int, real>, a: int, b: int) {
    a in m && b in m && (m[a] > m[b] || (m[a] == m[b] && a < b))
  }

  lemma BeforeTransitive(m: map<int, real>, a: int, b: int, c: int)
    requires Before(m, a, b) && Before(m, b, c)
    ensures Before(m, a, c)
  {
  }

  lemma BeforeTotal(m: map<int, real>, a: int, b: int)
    requires a in m && b in m && a != b
    ensures Before(m, a, b) || Before(m, b, a)
  {
  }

  /** No element ranks strictly before one that precedes it. */
  ghost predicate RankedBy(m: map<int, real>, r: seq<int>) {
    forall i, j :: 0 <= i < j < |r| ==> !Before(m, r[j], r[i])
  }

  /** Every element of r has a weight. */
  ghost predicate Weighted(m: map<int, real>, r: seq<int>) {
    forall i :: 0 <= i < |r| ==> r[i] in m
  }

  function RankInsert(m: map<int, real>, r: seq<int>, x: int): (q: seq<int>)
    ensures |q| == |r| + 1
    ensures multiset(q) == multiset(r) + multiset{x}
  {
    if |r| == 0 then [x]
    else if Before(m, x, r[0]) then [x] + r
    else
      assert r == [r[0]] + r[1..];
      [r[0]] + RankInsert(m, r[1..], x)
  }

  /** Inserting into a ranked list keeps it ranked. */
  lemma {:induction false} RankInsertRanked(m: map<int, real>, r: seq<int>, x: int)
    requires x in m && Weighted(m, r) && RankedBy(m, r)
    ensures Weighted(m, RankInsert(m, r, x)) && RankedBy(m, RankInsert(m, r, x))
  {
    var q := RankInsert(m, r, x);
    if |r| == 0 {
    } else if Before(m, x, r[0]) {
      forall i, j | 0 <= i < j < |q|
        ensures !Before(m, q[j], q[i])
      {
        if i == 0 && Before(m, q[j], x) {
          BeforeTransitive(m, q[j], x, r[0]);
        }
      }
    } else {
      var rest := RankInsert(m, r[1..], x);
      RankInsertRanked(m, r[1..], x);
      assert q == [r[0]] + rest;
      forall j | 0 <= j < |rest|
        ensures !Before(m, rest[j], r[0])
      {
        assert rest[j] in multiset(rest);
        if rest[j] != x {
          assert rest[j] in multiset(r[1..]);
          var k :| 0 <= k < |r[1..]| && r[1..][k] == rest[j];
          assert r[k + 1] == rest[j];
        }
      }
    }
  }

  /** The candidate totals in the order the selector scans them. */
  function Ranked(m: map<int, real>, keys: seq<int>): (r: seq<int>)
    ensures |r| == |keys| && multiset(r) == multiset(keys)
  {
    if |keys| == 0 then []
    else
      var init := keys[..|keys| - 1];
      assert keys == init + [keys[|keys| - 1]];
      RankInsert(m, Ranked(m, init), keys[|keys| - 1])
  }

  /** The ranking is ordered by Before. */
  lemma {:induction false} RankedSorted(m: map<int, real>, keys: seq<int>)
    requires Weighted(m, keys)
    ensures Weighted(m, Ranked(m, keys)) && RankedBy(m, Ranked(m, keys))
  {
    if |keys| > 0 {
      var init := keys[..|keys| - 1];
      assert Weighted(m, init);
      RankedSorted(m, init);
      RankInsertRanked(m, Ranked(m, init), keys[|keys| - 1]);
    }
  }

  /** The ranking holds exactly the keys. */
  lemma RankedMembers(m: map<int, real>, keys: seq<int>)
    ensures forall x :: x in Ranked(m, keys) <==> x in keys
  {
    var r := Ranked(m, keys);
    forall x
      ensures x in r <==> x in keys
    {
      assert x in r <==> x in multiset(r);
      assert x in keys <==> x in multiset(keys);
    }
  }

  /** The head of the ranking ranks before every other candidate. */
  lemma RankedFirst(m: map<int, real>, keys: seq<int>, s: int)
    requires Weighted(m, keys) && |keys| > 0 && s in keys
    ensures s == Ranked(m, keys)[0] || Before(m, Ranked(m, keys)[0], s)
  {
    var r := Ranked(m, keys);
    RankedMembers(m, keys);
    RankedSorted(m, keys);
    var j :| 0 <= j < |r| && r[j] == s;
    if j > 0 && s != r[0] {
      BeforeTotal(m, r[0], s);
    }
  }

  /** The first element of r in [lo, hi] other than excl: what each of the
      selector's "best so far" scans settles on, since it moves only on a
      strictly larger weight and the ranking is by descending weight. */
  function FirstIn(r: seq<int>, lo: int, hi: int, excl: int): Option<int> {
    if |r| == 0 then None
    else
      var f := FirstIn(r[..|r| - 1], lo, hi, excl);
      if f.Some? then f
      else if lo <= r[|r| - 1] <= hi && r[|r| - 1] != excl then Some(r[|r| - 1])
      else None
  }

  /** The element found qualifies, and none is found only when none
      qualifies. */
  lemma {:induction false} FirstInSound(r: seq<int>, lo: int, hi: int, excl: int)
    ensures var f := FirstIn(r, lo, hi, excl);
      && (f.Some? ==> f.value in r && lo <= f.value <= hi && f.value != excl)
      && (f.None? ==> forall i :: 0 <= i < |r| ==> !(lo <= r[i] <= hi && r[i] != excl))
  {
    if |r| > 0 {
      var init := r[..|r| - 1];
      FirstInSound(init, lo, hi, excl);
      assert r == init + [r[|r| - 1]];
    }
  }

  /** Over a ranked list, the first qualifying element ranks before every
      other qualifying element. */
  lemma {:induction false} FirstInBest(m: map<int, real>, r: seq<int>, lo: int, hi: int, excl: int, s: int)
    requires Weighted(m, r) && RankedBy(m, r) && FirstIn(r, lo, hi, excl).Some?
    requires s in r && lo <= s <= hi && s != excl
    ensures s == FirstIn(r, lo, hi, excl).value || Before(m, FirstIn(r, lo, hi, excl).value, s)
  {
    var init := r[..|r| - 1];
    var last := r[|r| - 1];
    var f := FirstIn(init, lo, hi, excl);
    FirstInSound(init, lo, hi, excl);
    assert r == init + [last];
    assert RankedBy(m, init) && Weighted(m, init);
    if f.Some? {
      if s in init {
        FirstInBest(m, init, lo, hi, excl, s);
      } else {
        assert s == last;
        var p :| 0 <= p < |init| && init[p] == f.value;
        assert !Before(m, r[|r| - 1], r[p]);
        if s != f.value {
          BeforeTotal(m, f.value, s);
        }
      }
    } else {
      assert forall i :: 0 <= i < |init| ==> init[i] != s;
    }
  }

  // ---------------------------------------------------------------- selector

  /** The least and the greatest element. */
  function MinOf(s: seq<int>): (v: int)
    requires |s| > 0
    ensures v in s && forall i :: 0 <= i < |s| ==> v <= s[i]
  {
    if |s| == 1 then s[0]
    else
      var v := MinOf(s[..|s| - 1]);
      assert s == s[..|s| - 1] + [s[|s| - 1]];
      if s[|s| - 1] < v then s[|s| - 1] else v
  }

  function MaxOf(s: seq<int>): (v: int)
    requires |s| > 0
    ensures v in s && forall i :: 0 <= i < |s| ==> s[i] <= v
  {
    if |s| == 1 then s[0]
    else
      var v := MaxOf(s[..|s| - 1]);
      assert s == s[..|s| - 1] + [s[|s| - 1]];
      if s[|s| - 1] > v then s[|s| - 1] else v
  }

  /** Every candidate has a non-negative weight. */
  ghost predicate NonNegative(m: map<int, real>, avail: seq<int>) {
    forall i :: 0 <= i < |avail| ==> avail[i] in m && m[avail[i]] >= 0.0
  }

  /** Seven consecutive candidate totals, as both ranges are. */
  ghost predicate Consecutive7(avail: seq<int>) {
    |avail| == 7 && forall i :: 0 <= i < 7 ==> avail[i] == avail[0] + i
  }

  lemma AvailableConsecutive(c: Cat)
    ensures Consecutive7(Available(c))
  {
  }

  /** The bounds the selector derives from a range of seven totals: the
      middle is the floor of (min + max) / 2 = min + 3. */
  lemma RangeOf(avail: seq<int>)
    requires Consecutive7(avail)
    ensures MinOf(avail) == avail[0] && MaxOf(avail) == avail[0] + 6
    ensures (MinOf(avail) + MaxOf(avail)) / 2 == avail[0] + 3
  {
    var lo, hi := MinOf(avail), MaxOf(avail);
    var i :| 0 <= i < 7 && avail[i] == lo;
    var j :| 0 <= j < 7 && avail[j] == hi;
    assert avail[6] == avail[0] + 6;
  }

  /** What select_optimal_scores picks from seven consecutive candidates:
      the top of the ranking, then the first unused total of the ranking at
      most mid - 1 and the first at least mid + 1. Each part has three
      totals and the top is at most one of them, so both picks exist and
      the middle pick is never needed. */
  function Choice(m: map<int, real>, avail: seq<int>): seq<int>
    requires Consecutive7(avail) && Weighted(m, avail)
  {
    var r := Ranked(m, avail);
    PartsNonEmpty(m, avail);
    [r[0], FirstIn(r, avail[0], avail[0] + 2, r[0]).value, FirstIn(r, avail[0] + 4, avail[0] + 6, r[0]).value]
  }

  /** The choice is three distinct candidates, one below the middle and one
      above it. */
  lemma ChoiceTriple(m: map<int, real>, avail: seq<int>)
    requires Consecutive7(avail) && Weighted(m, avail)
    ensures var s := Choice(m, avail);
      && |s| == 3 && Distinct(s)
      && (forall i :: 0 <= i < 3 ==> s[i] in avail)
      && s[1] < avail[0] + 3 < s[2]
  {
    var r := Ranked(m, avail);
    PartsNonEmpty(m, avail);
    RankedMembers(m, avail);
    FirstInSound(r, avail[0], avail[0] + 2, r[0]);
    FirstInSound(r, avail[0] + 4, avail[0] + 6, r[0]);
  }

  /** Below and above the middle there is an unused total. */
  lemma PartsNonEmpty(m: map<int, real>, avail: seq<int>)
    requires Consecutive7(avail) && Weighted(m, avail)
    ensures var r := Ranked(m, avail);
      FirstIn(r, avail[0], avail[0] + 2, r[0]).Some? && FirstIn(r, avail[0] + 4, avail[0] + 6, r[0]).Some?
  {
    var r := Ranked(m, avail);
    var lo := avail[0];
    assert avail[1] == lo + 1 && avail[5] == lo + 5 && avail[6] == lo + 6;
    RankedMembers(m, avail);
    assert avail[0] in avail && avail[1] in avail && avail[5] in avail && avail[6] in avail;
    assert lo in r && lo + 1 in r && lo + 5 in r && lo + 6 in r;
    var a :| 0 <= a < 7 && r[a] == lo;
    var b :| 0 <= b < 7 && r[b] == lo + 1;
    var e :| 0 <= e < 7 && r[e] == lo + 5;
    var f :| 0 <= f < 7 && r[f] == lo + 6;
    FirstInSound(r, lo, lo + 2, r[0]);
    FirstInSound(r, lo + 4, lo + 6, r[0]);
  }

  /** The first pick ranks before every other candidate. */
  lemma ChoiceTop(m: map<int, real>, avail: seq<int>, t: int)
    requires Consecutive7(avail) && Weighted(m, avail) && t in avail
    ensures t == Choice(m, avail)[0] || Before(m, Choice(m, avail)[0], t)
  {
    RankedFirst(m, avail, t);
  }

  /** The second pick ranks before every other unused total below the
      middle. */
  lemma ChoiceLow(m: map<int, real>, avail: seq<int>, t: int)
    requires Consecutive7(avail) && Weighted(m, avail)
    requires t in avail && t < avail[0] + 3 && t != Choice(m, avail)[0]
    ensures t == Choice(m, avail)[1] || Before(m, Choice(m, avail)[1], t)
  {
    var r := Ranked(m, avail);
    PartsNonEmpty(m, avail);
    RankedMembers(m, avail);
    RankedSorted(m, avail);
    var k :| 0 <= k < 7 && avail[k] == t;
    FirstInBest(m, r, avail[0], avail[0] + 2, r[0], t);
  }

  /** The third pick ranks before every other unused total above the
      middle. */
  lemma ChoiceHigh(m: map<int, real>, avail: seq<int>, t: int)
    requires Consecutive7(avail) && Weighted(m, avail)
    requires t in avail && t > avail[0] + 3 && t != Choice(m, avail)[0]
    ensures t == Choice(m, avail)[2] || Before(m, Choice(m, avail)[2], t)
  {
    var r := Ranked(m, avail);
    PartsNonEmpty(m, avail);
    RankedMembers(m, avail);
    RankedSorted(m, avail);
    var k :| 0 <= k < 7 && avail[k] == t;
    FirstInBest(m, r, avail[0] + 4, avail[0] + 6, r[0], t);
  }

  /** The scan of select_optimal_scores over the ranked candidates. The top
      total is taken first; the best unused totals at most mid - 1, at
      least mid + 1 and within 1 of mid are tracked with a strict
      comparison against -1 at the start; the low and the high pick are
      taken while fewer than three are selected, then the middle one. */
  method SelectOptimalScores(m: map<int, real>, avail: seq<int>) returns (selected: seq<int>)
    requires Consecutive7(avail) && NonNegative(m, avail)
    ensures selected == Choice(m, avail)
  {
    var ranked := Ranked(m, avail);
    var rangeMin, rangeMax := MinOf(avail), MaxOf(avail);
    var rangeMid := (rangeMin + rangeMax) / 2;
    RangeOf(avail);
    var top := ranked[0];
    selected := [top];
    var bestLow: Option<int> := None;
    var bestLowProb := -1.0;
    var bestHigh: Option<int> := None;
    var bestHighProb := -1.0;
    var bestMid: Option<int> := None;
    var bestMidProb := -1.0;
    for i := 0 to |ranked|
      invariant selected == [top]
      invariant Tracked(m, avail, i, rangeMin, rangeMid - 1, top, bestLow, bestLowProb)
      invariant Tracked(m, avail, i, rangeMid + 1, rangeMax, top, bestHigh, bestHighProb)
      invariant Tracked(m, avail, i, rangeMid - 1, rangeMid + 1, top, bestMid, bestMidProb)
    {
      ScanStep(m, avail, i, rangeMin, rangeMid - 1, top, bestLow, bestLowProb);
      ScanStep(m, avail, i, rangeMid + 1, rangeMax, top, bestHigh, bestHighProb);
      ScanStep(m, avail, i, rangeMid - 1, rangeMid + 1, top, bestMid, bestMidProb);
      var score := ranked[i];
      var prob := m[score];
      if score <= rangeMid - 1 && prob > bestLowProb && score !in selected {
        bestLow := Some(score);
        bestLowProb := prob;
      }
      if score >= rangeMid + 1 && prob > bestHighProb && score !in selected {
        bestHigh := Some(score);
        bestHighProb := prob;
      }
      if Abs(score - rangeMid) <= 1 && prob > bestMidProb && score !in selected {
        bestMid := Some(score);
        bestMidProb := prob;
      }
    }
    assert ranked[..|ranked|] == ranked;
    PartsNonEmpty(m, avail);
    if bestLow.Some? && |selected| < 3 {
      selected := selected + [bestLow.value];
    }
    if bestHigh.Some? && |selected| < 3 {
      selected := selected + [bestHigh.value];
    }
    match bestMid
    case Some(v) =>
      if |selected| < 3 {
        selected := selected + [v];
      }
    case None =>
  }

  /** A "best so far" tracker after the first i ranked candidates: it holds
      the first of them in [lo, hi] other than excl, with its weight, or
      nothing with the weight -1. */
  ghost predicate Tracked(m: map<int, real>, avail: seq<int>, i: nat, lo: int, hi: int, excl: int, best: Option<int>, prob: real)
    requires i <= |avail|
  {
    && best == FirstIn(Ranked(m, avail)[..i], lo, hi, excl)
    && (best.Some? ==> best.value in m && prob == m[best.value])
    && (best.None? ==> prob == -1.0)
  }

  /** One step of a "best so far" scan: a qualifying candidate beats the
      current best only when there is none yet, because the ranking never
      puts a heavier candidate after a lighter one. */
  lemma ScanStep(m: map<int, real>, avail: seq<int>, i: nat, lo: int, hi: int, excl: int, best: Option<int>, prob: real)
    requires i < |avail| && Consecutive7(avail) && NonNegative(m, avail)
    requires Tracked(m, avail, i, lo, hi, excl, best, prob)
    ensures var r := Ranked(m, avail);
      && r[i] in m && avail[0] <= r[i] <= avail[0] + 6
      && var q := r[i] <= hi && r[i] >= lo && r[i] != excl && m[r[i]] > prob;
      Tracked(m, avail, i + 1, lo, hi, excl, if q then Some(r[i]) else best, if q then m[r[i]] else prob)
  {
    var r := Ranked(m, avail);
    RankedMembers(m, avail);
    RankedSorted(m, avail);
    assert r[i] in avail;
    var k :| 0 <= k < |avail| && avail[k] == r[i];
    assert r[..i + 1][..i] == r[..i];
    FirstInSound(r[..i], lo, hi, excl);
    if best.Some? {
      var p :| 0 <= p < i && r[..i][p] == best.value;
      assert r[p] == best.value;
      assert !Before(m, r[i], r[p]);
    }
  }

  // ---------------------------------------------------------------- coverage

  /** The three random draws of the coverage step, each in [0, 1). */
  datatype Draws = Draws(swap: real, slot: real, pick: real)

  predicate ValidDraws(d: Draws) {
    0.0 <= d.swap < 1.0 && 0.0 <= d.slot < 1.0 && 0.0 <= d.pick < 1.0
  }

  /** floor(r * n): an index below n for every draw in [0, 1). */
  function Scaled(r: real, n: nat): (i: nat)
    requires 0.0 <= r < 1.0 && n > 0
    ensures i < n
  {
    var x := r * n as real;
    assert 0.0 <= x < n as real;
    x.Floor
  }

  /** The stored selections of category c, none when there are none yet. */
  function Recent(memory: map<Cat, seq<seq<int>>>, c: Cat): seq<seq<int>> {
    if c in memory then memory[c] else []
  }

  /** The stored selections after one more: the oldest is dropped once
      there are more than ten. */
  function Pushed(recent: seq<seq<int>>, selected: seq<int>): (r: seq<seq<int>>)
    ensures |r| > 0 && r[|r| - 1] == selected
    ensures |recent| <= 10 ==> |r| <= 10
    ensures |r| == if |recent| >= 10 then |recent| else |recent| + 1
    ensures r[..|r| - 1] == if |recent| >= 10 then recent[1..] else recent
  {
    var p := recent + [selected];
    if |p| > 10 then p[1..] else p
  }

  /** Replacing the newest entry of a push is the push of the replacement. */
  lemma PushedReplaced(recent: seq<seq<int>>, a: seq<int>, b: seq<int>)
    ensures var r := Pushed(recent, a); r[..|r| - 1] + [b] == Pushed(recent, b)
  {
    var r, q := Pushed(recent, a), Pushed(recent, b);
    assert q == q[..|q| - 1] + [q[|q| - 1]];
  }

  /** The memory after the selection s of category c is remembered. */
  function Remembered(memory: map<Cat, seq<seq<int>>>, c: Cat, s: seq<int>): map<Cat, seq<seq<int>>> {
    memory[c := Pushed(Recent(memory, c), s)]
  }

  /** Remembering keeps at most ten selections per category, puts s last
      in the memory of c and leaves the other category alone. */
  lemma RememberedBounded(memory: map<Cat, seq<seq<int>>>, c: Cat, s: seq<int>)
    requires forall k :: k in memory ==> |memory[k]| <= 10
    ensures var r := Remembered(memory, c, s);
      && (forall k :: k in r ==> |r[k]| <= 10)
      && c in r && |r[c]| > 0 && r[c][|r[c]| - 1] == s
      && forall k :: k != c ==> (k in r <==> k in memory) && (k in r ==> r[k] == memory[k])
  {
  }

  /** The least number of times a candidate was selected. */
  function MinCoverage(all: seq<int>, avail: seq<int>): (k: nat)
    requires |avail| > 0
    ensures forall i :: 0 <= i < |avail| ==> k <= Count(all, avail[i])
    ensures exists i :: 0 <= i < |avail| && k == Count(all, avail[i])
  {
    if |avail| == 1 then Count(all, avail[0])
    else
      var k := MinCoverage(all, avail[..|avail| - 1]);
      var e := Count(all, avail[|avail| - 1]);
      assert forall i :: 0 <= i < |avail| - 1 ==> avail[..|avail| - 1][i] == avail[i];
      if e < k then e else k
  }

  /** The candidates selected exactly k times, in candidate order. */
  function WithCoverage(all: seq<int>, avail: seq<int>, k: nat): (u: seq<int>)
    ensures forall s :: s in u <==> s in avail && Count(all, s) == k
  {
    if |avail| == 0 then []
    else
      var init := avail[..|avail| - 1];
      var e := avail[|avail| - 1];
      assert avail == init + [e];
      WithCoverage(all, init, k) + (if Count(all, e) == k then [e] else [])
  }

  /** The least selected candidates. */
  function Underrepresented(all: seq<int>, avail: seq<int>): (u: seq<int>)
    ensures |avail| > 0 ==> |u| > 0
    ensures forall s :: s in u ==> s in avail
    ensures forall s, t :: s in u && t in avail ==> Count(all, s) <= Count(all, t)
    ensures forall s, t :: s in u && t in avail && Count(all, t) <= Count(all, s) ==> t in u
  {
    if |avail| == 0 then []
    else
      var k := MinCoverage(all, avail);
      var i :| 0 <= i < |avail| && k == Count(all, avail[i]);
      var u := WithCoverage(all, avail, k);
      assert avail[i] in u;
      u
  }

  /** No element occurs twice. */
  predicate Distinct(s: seq<int>) {
    forall i, j :: 0 <= i < j < |s| ==> s[i] != s[j]
  }

  /** The swap of the coverage step: with probability 0.3 the slot drawn is
      given the drawn least-selected candidate, unless that candidate is
      already selected. */
  function Swapped(selected: seq<int>, under: seq<int>, d: Draws): (s: seq<int>)
    requires |selected| > 0 && ValidDraws(d)
    ensures |s| == |selected|
    ensures forall x :: x in s ==> x in selected || x in under
    ensures Distinct(selected) ==> Distinct(s)
    ensures s == selected || exists i :: 0 <= i < |selected| && s == selected[i := s[i]] && s[i] in under && s[i] !in selected
    ensures !(|under| > 0 && d.swap < 0.3) ==> s == selected
  {
    if |under| > 0 && d.swap < 0.3 then
      var idx := Scaled(d.slot, |selected|);
      var v := under[Scaled(d.pick, |under|)];
      if v !in selected then
        var s := selected[idx := v];
        assert forall x :: x in s ==> x in selected || x == v by {
          forall x | x in s ensures x in selected || x == v {
            var j :| 0 <= j < |s| && s[j] == x;
            if j != idx {
              assert selected[j] == x;
            }
          }
        }
        s
      else selected
    else selected
  }

  /** The swap statements of the coverage step. */
  method SwapStep(selected: seq<int>, under: seq<int>, d: Draws) returns (result: seq<int>)
    requires |selected| > 0 && ValidDraws(d)
    ensures result == Swapped(selected, under, d)
  {
    result := selected;
    if |under| > 0 && d.swap < 0.3 {
      var replaceIdx := Scaled(d.slot, |result|);
      var newScore := under[Scaled(d.pick, |under|)];
      if newScore !in result {
        result := result[replaceIdx := newScore];
      }
    }
  }

  /** A selection with no duplicate keeps none through some reordering. */
  lemma {:induction false} DistinctCount(s: seq<int>, x: int)
    requires Distinct(s)
    ensures multiset(s)[x] <= 1
  {
    if |s| > 0 {
      var init := s[..|s| - 1];
      assert s == init + [s[|s| - 1]];
      assert Distinct(init);
      DistinctCount(init, x);
      if s[|s| - 1] == x {
        assert x !in init;
      }
    }
  }

  lemma DistinctPermutation(a: seq<int>, b: seq<int>)
    requires Distinct(a) && multiset(a) == multiset(b)
    ensures Distinct(b)
  {
    forall i, j | 0 <= i < j < |b|
      ensures b[i] != b[j]
    {
      if b[i] == b[j] {
        var x := b[i];
        assert b == b[..j] + [b[j]] + b[j + 1..];
        assert x in multiset(b[..j]) by {
          assert b[..j][i] == x;
        }
        assert multiset(b)[x] >= 2;
        DistinctCount(a, x);
      }
    }
  }

  /** What the coverage step returns, given the stored selections after the
      push: the swapped selection in ascending order. */
  function Covered(recent: seq<seq<int>>, selected: seq<int>, avail: seq<int>, d: Draws): (r: seq<int>)
    requires |selected| > 0 && ValidDraws(d)
    ensures |r| == |selected| && Sorted(r)
    ensures forall x :: x in r ==> x in selected || x in Underrepresented(Flatten(recent), avail)
    ensures Distinct(selected) ==> Distinct(r)
  {
    var s := Swapped(selected, Underrepresented(Flatten(recent), avail), d);
    var r := SortAsc(s);
    assert forall x :: x in r ==> x in s by {
      forall x | x in r ensures x in s {
        assert x in multiset(r);
      }
    }
    assert Distinct(selected) ==> Distinct(r) by {
      if Distinct(selected) {
        DistinctPermutation(s, r);
      }
    }
    r
  }

  /** A selection of three distinct candidates stays one through the
      coverage step. */
  lemma CoveredTriple(recent: seq<seq<int>>, selected: seq<int>, avail: seq<int>, d: Draws)
    requires |selected| == 3 && Distinct(selected) && ValidDraws(d)
    requires forall x :: x in selected ==> x in avail
    ensures var r := Covered(recent, selected, avail, d);
      |r| == 3 && r[0] < r[1] < r[2] && forall x :: x in r ==> x in avail
  {
  }

  /** The global per-category memory of recent selections. */
  class PredictionMemory {
    var memory: map<Cat, seq<seq<int>>>

    /** At most ten selections are kept per category. */
    ghost predicate Valid()
      reads this
    {
      forall c :: c in memory ==> |memory[c]| <= 10
    }

    constructor()
      ensures Valid() && memory == map[T := [], X := []]
    {
      memory := map[T := [], X := []];
    }

    /** ensure_full_coverage: the selection is appended to the memory of its
        category (the oldest dropped past ten), coverage is counted over the
        stored selections including this one, the swap step may replace one
        total by a least-selected candidate, and the result is sorted in
        place. The memory holds the selection itself, so its last entry ends
        up equal to the result. */
    method EnsureFullCoverage(selected: seq<int>, avail: seq<int>, c: Cat, d: Draws) returns (result: seq<int>)
      requires Valid() && |selected| > 0 && ValidDraws(d)
      modifies this
      ensures Valid()
      ensures result == SortAsc(Swapped(selected, Underrepresented(Flatten(Pushed(Recent(old(memory), c), selected)), avail), d))
      ensures memory == Remembered(old(memory), c, result)
    {
      var recent := Remember(selected, c);
      var all := Flatten(recent);
      var under := Underrepresented(all, avail);
      result := SwapStep(selected, under, d);
      result := SortAsc(result);
      var stored := recent[..|recent| - 1] + [result];
      PushedReplaced(Recent(old(memory), c), selected, result);
      assert memory[c := stored] == old(memory)[c := stored];
      memory := memory[c := stored];
    }

    /** The push of ensure_full_coverage: the selection joins the memory of
        its category and the oldest entry goes once there are more than
        ten. */
    method Remember(selected: seq<int>, c: Cat) returns (recent: seq<seq<int>>)
      requires Valid()
      modifies this
      ensures Valid() && recent == Pushed(Recent(old(memory), c), selected)
      ensures memory == old(memory)[c := recent]
    {
      recent := Recent(memory, c);
      recent := recent + [selected];
      if |recent| > 10 {
        recent := recent[1..];
      }
      memory := memory[c := recent];
    }

    /** algod_score_predictor for the category c the vote settled on: the
        five analyses over the raw history, combined, then the selector and
        the coverage step. */
    method ScorePredictor(h: seq<Record>, c: Cat, d: Draws) returns (scores: seq<int>)
      requires Valid() && ValidDraws(d)
      modifies this
      ensures Valid()
      ensures scores == Scored(old(memory), h, c, d)
      ensures memory == Remembered(old(memory), c, scores)
    {
      var avail := Available(c);
      var combined := CombinedWeights(h, c);
      CombinedWeightsValid(h, c);
      var selected := SelectOptimalScores(combined, avail);
      ChoiceTriple(combined, avail);
      scores := EnsureFullCoverage(selected, avail, c, d);
    }
  }

  /** The combined weights of the five analyses over the range of c. */
  function CombinedWeights(h: seq<Record>, c: Cat): map<int, real> {
    Combine(AllTables(h, c), Available(c))
  }

  lemma CombinedWeightsValid(h: seq<Record>, c: Cat)
    ensures Consecutive7(Available(c))
    ensures NonNegative(CombinedWeights(h, c), Available(c)) && Weighted(CombinedWeights(h, c), Available(c))
  {
    CombinePositive(AllTables(h, c), Available(c));
  }

  /** The totals suggested for category c: the choice on the combined
      weights, completed by the coverage step against the stored
      selections. */
  function Scored(memory: map<Cat, seq<seq<int>>>, h: seq<Record>, c: Cat, d: Draws): seq<int>
    requires ValidDraws(d)
  {
    var avail := Available(c);
    var m := CombinedWeights(h, c);
    CombinedWeightsValid(h, c);
    var selected := Choice(m, avail);
    ChoiceTriple(m, avail);
    Covered(Pushed(Recent(memory, c), selected), selected, avail, d)
  }

  /** The suggestion is three increasing totals of the category's range. */
  lemma ScoredTriple(memory: map<Cat, seq<seq<int>>>, h: seq<Record>, c: Cat, d: Draws)
    requires ValidDraws(d)
    ensures var s := Scored(memory, h, c, d);
      |s| == 3 && s[0] < s[1] < s[2] && forall x :: x in s ==> x in Available(c)
  {
    var avail := Available(c);
    var m := CombinedWeights(h, c);
    CombinedWeightsValid(h, c);
    var selected := Choice(m, avail);
    ChoiceTriple(m, avail);
    CoveredTriple(Pushed(Recent(memory, c), selected), selected, avail, d);
  }

  /** Every combined weight of five positive tables is positive. */
  lemma CombinePositive(t: Tables, keys: seq<int>)
    requires Positive(t.frequency, keys) && Positive(t.sequence, keys) && Positive(t.distribution, keys)
    requires Positive(t.cluster, keys) && Positive(t.gap, keys)
    ensures forall i :: 0 <= i < |keys| ==> keys[i] in Combine(t, keys) && Combine(t, keys)[keys[i]] > 0.0
  {
    var m := Combine(t, keys);
    forall i | 0 <= i < |keys|
      ensures keys[i] in m && m[keys[i]] > 0.0
    {
      var k := keys[i];
      assert k in keys;
      assert k in t.frequency && t.frequency[k] > 0.0;
      assert k in t.sequence && t.sequence[k] > 0.0;
      assert k in t.distribution && t.distribution[k] > 0.0;
      assert k in t.cluster && t.cluster[k] > 0.0;
      assert k in t.gap && t.gap[k] > 0.0;
    }
  }
}
