/** The ten tài/xỉu predictors. Each maps a history of records to a vote:
    Some(T), Some(X), or None when it abstains. Ratios are exact rationals,
    so a comparison with a threshold is decided without rounding. */
module Predictors {
  import opened Outcomes
  import opened Features
  import opened Windows

  /** A predictor's answer: 'T', 'X' or null. */
  predicate IsVote(v: Option<Cat>) {
    v == None || v == Some(T) || v == Some(X)
  }

  /** The reversal used by every rule that bets against a streak: 'X' after
      'T', 'T' after anything else. */
  function Opposite(c: Cat): (o: Cat)
    ensures o == T || o == X
    ensures o != c
    ensures c == T <==> o == X
  {
    if c == T then X else T
  }

  /** |t - x| / (t + x): how one-sided a pair of counts is. */
  function Margin(t: nat, x: nat): (r: real)
    requires t + x > 0
    ensures 0.0 <= r <= 1.0
    ensures r == 0.0 <==> t == x
  {
    var d := Abs(t as int - x as int) as real;
    var n := (t + x) as real;
    DivBounds(d, 0.0, 1.0, n);
    assert d / n * n == d;
    d / n
  }

  /** a / m, the share of m that a makes up. */
  function Share(a: nat, m: nat): (r: real)
    requires m > 0
    ensures r >= 0.0
    ensures r == 0.0 <==> a == 0
  {
    var q := a as real / m as real;
    assert q * m as real == a as real;
    q
  }

  /** The counts of T and X in a sequence never exceed its length. */
  lemma {:induction false} CountTX(s: seq<Cat>)
    ensures Count(s, T) + Count(s, X) <= |s|
  {
    if |s| > 0 {
      CountTX(s[..|s| - 1]);
    }
  }

  // ---------------------------------------------------------------- 1

  /** Frequency rebalance: bets against a strong recent streak, then against
      a long-run imbalance confirmed by the last 30, then against a milder
      imbalance of the last 10. Abstains on a raw history under 15 records. */
  function FreqRebalance(h: seq<Record>): (v: Option<Cat>)
    ensures IsVote(v)
    ensures |h| < 15 ==> v == None
    ensures |Tx(h)| == 0 ==> v == None
  {
    if |h| < 15 then None
    else
      var tx := Tx(h);
      var totalT, totalX := Count(tx, T), Count(tx, X);
      if |tx| == 0 then None
      else
        var r30 := LastN(tx, 30);
        var r10 := LastN(tx, 10);
        RebalanceRules(totalT, totalX, Count(r30, T), Count(r30, X), Count(r10, T), Count(r10, X))
  }

  /** The three rules of the rebalance predictor on the counts of the whole
      sequence, the last 30 and the last 10. */
  function RebalanceRules(totalT: nat, totalX: nat, t30: nat, x30: nat, t10: nat, x10: nat): (v: Option<Cat>)
    ensures IsVote(v)
  {
    if t10 >= 7 then Some(X)
    else if x10 >= 7 then Some(T)
    else if totalT > totalX + 8 && t30 > x30 + 2 then Some(X)
    else if totalX > totalT + 8 && x30 > t30 + 2 then Some(T)
    else if t10 > x10 + 3 then Some(X)
    else if x10 > t10 + 3 then Some(T)
    else None
  }

  /** The rebalance predictor never follows the recent majority: it votes X
      only when T leads the last 10 or the last 30, and symmetrically. */
  lemma FreqRebalanceContrarian(h: seq<Record>)
    ensures var tx := Tx(h);
      var r10, r30 := LastN(tx, 10), LastN(tx, 30);
      && (FreqRebalance(h) == Some(X) ==> Count(r10, T) > Count(r10, X) || Count(r30, T) > Count(r30, X))
      && (FreqRebalance(h) == Some(T) ==> Count(r10, X) > Count(r10, T) || Count(r30, X) > Count(r30, T))
  {
    var tx := Tx(h);
    var r10, r30 := LastN(tx, 10), LastN(tx, 30);
    CountTX(r10);
    RulesContrarian(Count(tx, T), Count(tx, X), Count(r30, T), Count(r30, X), Count(r10, T), Count(r10, X));
  }

  lemma RulesContrarian(totalT: nat, totalX: nat, t30: nat, x30: nat, t10: nat, x10: nat)
    requires t10 + x10 <= 10
    ensures var v := RebalanceRules(totalT, totalX, t30, x30, t10, x10);
      && (v == Some(X) ==> t10 > x10 || t30 > x30)
      && (v == Some(T) ==> x10 > t10 || x30 > t30)
  {
  }

  // ---------------------------------------------------------------- best-of scans

  /** A candidate prediction of one order or pattern length. */
  datatype Cand = Cand(pred: Cat, conf: real)

  /** The running best of a scan: prediction and its confidence. */
  datatype Pick = Pick(pred: Option<Cat>, conf: real)

  /** The scan shared by the Markov, neo-pattern and adaptive predictors:
      candidates are visited in order and one replaces the running best
      when its confidence is strictly above both the best so far (initially
      0) and the gate. */
  function BestOf(cands: seq<Option<Cand>>, gate: real): (p: Pick)
    requires gate >= 0.0
    ensures p.pred == None <==> p.conf == 0.0
    ensures p.pred.Some? ==> p.conf > gate && exists j :: 0 <= j < |cands| && cands[j] == Some(Cand(p.pred.value, p.conf))
    ensures forall j :: 0 <= j < |cands| && cands[j].Some? && cands[j].value.conf > gate ==> cands[j].value.conf <= p.conf
  {
    if |cands| == 0 then Pick(None, 0.0)
    else
      var p := BestOf(cands[..|cands| - 1], gate);
      var last := cands[|cands| - 1];
      if last.Some? && last.value.conf > p.conf && last.value.conf > gate then
        Pick(Some(last.value.pred), last.value.conf)
      else
        p
  }

  /** Candidates that only ever predict T or X give a pick of T or X. */
  lemma BestOfVotes(cands: seq<Option<Cand>>, gate: real)
    requires gate >= 0.0
    requires forall j :: 0 <= j < |cands| && cands[j].Some? ==> cands[j].value.pred == T || cands[j].value.pred == X
    ensures IsVote(BestOf(cands, gate).pred)
  {
    var p := BestOf(cands, gate);
    if p.pred.Some? {
      var j :| 0 <= j < |cands| && cands[j] == Some(Cand(p.pred.value, p.conf));
    }
  }

  /** The earliest candidate with the highest confidence wins: every
      candidate before it is strictly weaker. */
  lemma {:induction false} BestOfFirst(cands: seq<Option<Cand>>, gate: real)
    requires gate >= 0.0
    ensures var p := BestOf(cands, gate);
      p.pred.Some? ==> exists j :: (0 <= j < |cands| && cands[j] == Some(Cand(p.pred.value, p.conf))
        && forall i :: 0 <= i < j && cands[i].Some? ==> cands[i].value.conf < p.conf)
  {
    if |cands| > 0 {
      var init := cands[..|cands| - 1];
      BestOfFirst(init, gate);
      var p := BestOf(init, gate);
      var last := cands[|cands| - 1];
      if last.Some? && last.value.conf > p.conf && last.value.conf > gate {
        var j := |cands| - 1;
        forall i | 0 <= i < j && cands[i].Some?
          ensures cands[i].value.conf < last.value.conf
        {
          assert cands[i] == init[i];
          if cands[i].value.conf > gate {
            assert cands[i].value.conf <= p.conf;
          }
        }
      } else if p.pred.Some? {
        var j :| 0 <= j < |init| && init[j] == Some(Cand(p.pred.value, p.conf))
          && forall i :: 0 <= i < j && init[i].Some? ==> init[i].value.conf < p.conf;
        assert cands[j] == init[j];
        assert forall i :: 0 <= i < j ==> cands[i] == init[i];
      }
    }
  }

  // ---------------------------------------------------------------- 2

  /** The transition counts of the last order categories: how often the
      current key was followed by T and by X. */
  function LastKeyCounts(tx: seq<Cat>, order: nat): (c: Tally)
    requires order <= |tx|
  {
    var key := tx[|tx| - order..];
    var n := Positions(|tx|, order);
    Tally(Follow(tx, key, T, n), Follow(tx, key, X, n))
  }

  /** The candidate of one Markov order: skipped without order + 5
      categories or when the current key was never followed by T or X. */
  function MarkovCandidate(tx: seq<Cat>, order: nat): (c: Option<Cand>)
    ensures c.Some? ==> order + 5 <= |tx| && 0.0 <= c.value.conf <= 1.0
    ensures c.Some? ==> (c.value.pred == T || c.value.pred == X)
    ensures c.Some? ==> var k := LastKeyCounts(tx, order);
      k.t + k.x > 0 && (c.value.pred == T <==> k.t > k.x) && c.value.conf == Margin(k.t, k.x)
  {
    if |tx| < order + 5 then None
    else
      var k := LastKeyCounts(tx, order);
      if k.t > 0 || k.x > 0 then Some(Cand(if k.t > k.x then T else X, Margin(k.t, k.x)))
      else None
  }

  /** The loop form of one Markov order: builds the transition table and
      reads the entry of the current key. */
  method MarkovOrder(tx: seq<Cat>, order: nat) returns (c: Option<Cand>)
    ensures c == MarkovCandidate(tx, order)
  {
    if |tx| < order + 5 {
      return None;
    }
    var table := BuildTransitions(tx, order);
    var key := tx[|tx| - order..];
    if key in table && (table[key].t > 0 || table[key].x > 0) {
      var counts := table[key];
      c := Some(Cand(if counts.t > counts.x then T else X, Margin(counts.t, counts.x)));
    } else {
      c := None;
    }
  }

  function MarkovCands(tx: seq<Cat>): seq<Option<Cand>> {
    seq(4, i requires 0 <= i < 4 => MarkovCandidate(tx, i + 2))
  }

  /** Markov chains of orders 2 to 5; the most one-sided order above 0.6 wins.
      Abstains with fewer than 20 filtered categories. */
  function Markov(h: seq<Record>): (v: Option<Cat>)
    ensures IsVote(v)
    ensures |Tx(h)| < 20 ==> v == None
  {
    var tx := Tx(h);
    if |tx| < 20 then None
    else
      BestOfVotes(MarkovCands(tx), 0.6);
      BestOf(MarkovCands(tx), 0.6).pred
  }

  /** A Markov vote is backed by an order whose current key was followed by
      the voted category more often than by the other, with margin above 0.6. */
  lemma MarkovJustified(h: seq<Record>)
    ensures var tx := Tx(h);
      Markov(h).Some? ==> exists order :: (2 <= order <= 5 && order + 5 <= |tx|
        && var k := LastKeyCounts(tx, order);
        && (Markov(h) == Some(T) ==> k.t > k.x)
        && (Markov(h) == Some(X) ==> k.x > k.t)
        && Margin(k.t, k.x) > 0.6)
  {
    var tx := Tx(h);
    if |tx| >= 20 {
      MarkovPickJustified(tx);
    }
  }

  /** MarkovJustified for the pick over the four orders. */
  lemma MarkovPickJustified(tx: seq<Cat>)
    ensures var v := BestOf(MarkovCands(tx), 0.6).pred;
      v.Some? ==> exists order :: (2 <= order <= 5 && order + 5 <= |tx|
        && var k := LastKeyCounts(tx, order);
        && (v == Some(T) ==> k.t > k.x)
        && (v == Some(X) ==> k.x > k.t)
        && Margin(k.t, k.x) > 0.6)
  {
    var cands := MarkovCands(tx);
    var p := BestOf(cands, 0.6);
    if p.pred.Some? {
      var j :| 0 <= j < |cands| && cands[j] == Some(Cand(p.pred.value, p.conf));
      CandidateAtJustified(tx, j, p.pred.value, p.conf);
    }
  }

  /** CandidateJustified for the j-th of the four candidates. */
  lemma CandidateAtJustified(tx: seq<Cat>, j: int, c: Cat, conf: real)
    requires 0 <= j < 4 && MarkovCands(tx)[j] == Some(Cand(c, conf)) && conf > 0.6
    ensures j + 7 <= |tx|
    ensures var k := LastKeyCounts(tx, j + 2);
      && (c == T ==> k.t > k.x)
      && (c == X ==> k.x > k.t)
      && Margin(k.t, k.x) > 0.6
  {
    CandidateJustified(tx, j + 2, c, conf);
  }

  /** A Markov candidate above the gate names the stricter successor. */
  lemma CandidateJustified(tx: seq<Cat>, order: nat, c: Cat, conf: real)
    requires MarkovCandidate(tx, order) == Some(Cand(c, conf)) && conf > 0.6
    ensures order + 5 <= |tx|
    ensures var k := LastKeyCounts(tx, order);
      && (c == T ==> k.t > k.x)
      && (c == X ==> k.x > k.t)
      && Margin(k.t, k.x) > 0.6
  {
  }

  // ---------------------------------------------------------------- 3

  /** The n-gram test of one length k: at least 3 earlier occurrences of the
      last k categories, and a margin of at least 0.6 over all of them
      (successors that are neither T nor X still count as occurrences). */
  function NGramCandidate(tx: seq<Cat>, k: nat): (v: Option<Cat>)
    ensures IsVote(v)
    ensures v.Some? ==> k + 10 <= |tx|
  {
    if |tx| < k + 10 then None
    else
      var pat := tx[|tx| - k..];
      var n := Positions(|tx|, k);
      var t, x, m := Follow(tx, pat, T, n), Follow(tx, pat, X, n), Occurrences(tx, pat, n);
      if m >= 3 && Share(Abs(t as int - x as int), m) >= 0.6 then Some(if t > x then T else X)
      else None
  }

  /** The loop form of one n-gram length. */
  method NGramOrder(tx: seq<Cat>, k: nat) returns (v: Option<Cat>)
    ensures v == NGramCandidate(tx, k)
  {
    if |tx| < k + 10 {
      return None;
    }
    var t, x, matches := CountFollowers(tx, tx[|tx| - k..]);
    v := None;
    if matches >= 3 {
      var ratio := Share(Abs(t as int - x as int), matches);
      if ratio >= 0.6 {
        v := Some(if t > x then T else X);
      }
    }
  }

  /** Lengths k to 6 in order; the first length that passes decides. */
  function NGramFrom(tx: seq<Cat>, k: nat): (v: Option<Cat>)
    ensures IsVote(v)
    ensures v.Some? ==> exists j :: (k <= j <= 6 && NGramCandidate(tx, j) == v
      && forall i :: k <= i < j ==> NGramCandidate(tx, i) == None)
    decreases 7 - k
  {
    if k > 6 then None
    else
      var c := NGramCandidate(tx, k);
      if c.Some? then c else NGramFrom(tx, k + 1)
  }

  /** The n-gram predictor over lengths 3 to 6. */
  function NGram(h: seq<Record>): (v: Option<Cat>)
    ensures IsVote(v)
    ensures |Tx(h)| < 13 ==> v == None
  {
    NGramNeedsThirteen(Tx(h), 3);
    NGramFrom(Tx(h), 3)
  }

  lemma {:induction false} NGramNeedsThirteen(tx: seq<Cat>, k: nat)
    requires k >= 3
    ensures |tx| < 13 ==> NGramFrom(tx, k) == None
    decreases 7 - k
  {
    if k <= 6 {
      NGramNeedsThirteen(tx, k + 1);
    }
  }

  /** A passing n-gram length has a strict majority among its successors:
      the vote is the category that followed more often. */
  lemma NGramCandidateMajority(tx: seq<Cat>, k: nat)
    ensures var v := NGramCandidate(tx, k);
      v.Some? ==> var pat := tx[|tx| - k..];
        var n := Positions(|tx|, k);
        && Occurrences(tx, pat, n) >= 3
        && (v == Some(T) ==> Follow(tx, pat, T, n) > Follow(tx, pat, X, n))
        && (v == Some(X) ==> Follow(tx, pat, X, n) > Follow(tx, pat, T, n))
  {
    var v := NGramCandidate(tx, k);
    if v.Some? {
      var pat := tx[|tx| - k..];
      var n := Positions(|tx|, k);
      var t, x, m := Follow(tx, pat, T, n), Follow(tx, pat, X, n), Occurrences(tx, pat, n);
      assert Share(Abs(t as int - x as int), m) >= 0.6;
    }
  }

  // ---------------------------------------------------------------- 4

  /** The fuzzy candidate of one pattern length: windows agreeing with the
      last pat categories in at least 80% of positions, at least 5 of them
      followed by T or X. */
  function NeoCandidate(tx: seq<Cat>, pat: nat): (c: Option<Cand>)
    requires pat > 0
    ensures c.Some? ==> (c.value.pred == T || c.value.pred == X) && 0.0 <= c.value.conf
  {
    if |tx| < pat * 2 then None
    else
      var target := tx[|tx| - pat..];
      var n := Positions(|tx|, pat);
      var t, x := FuzzyFollow(tx, target, T, n), FuzzyFollow(tx, target, X, n);
      var total := t + x;
      if total >= 5 then
        var conf := AbsReal(t as real / total as real - x as real / total as real);
        Some(Cand(if t > x then T else X, conf))
      else None
  }

  /** The loop form of one pattern length. */
  method NeoOrder(tx: seq<Cat>, pat: nat) returns (c: Option<Cand>)
    requires pat > 0
    ensures c == NeoCandidate(tx, pat)
  {
    if |tx| < pat * 2 {
      return None;
    }
    var t, x := CountSimilarFollowers(tx, tx[|tx| - pat..]);
    var total := t + x;
    c := None;
    if total >= 5 {
      var tRatio := t as real / total as real;
      var xRatio := x as real / total as real;
      c := Some(Cand(if t > x then T else X, AbsReal(tRatio - xRatio)));
    }
  }

  function NeoCands(tx: seq<Cat>): seq<Option<Cand>> {
    [NeoCandidate(tx, 4), NeoCandidate(tx, 5), NeoCandidate(tx, 6)]
  }

  /** The neo-pattern predictor over pattern lengths 4, 5 and 6. Abstains
      with fewer than 40 filtered categories. */
  function NeoPattern(h: seq<Record>): (v: Option<Cat>)
    ensures IsVote(v)
    ensures |Tx(h)| < 40 ==> v == None
  {
    var tx := Tx(h);
    if |tx| < 40 then None
    else
      BestOfVotes(NeoCands(tx), 0.6);
      BestOf(NeoCands(tx), 0.6).pred
  }

  /** The neo-pattern confidence is the margin of the fuzzy counts. */
  lemma NeoConfidenceIsMargin(t: nat, x: nat)
    requires t + x > 0
    ensures AbsReal(t as real / (t + x) as real - x as real / (t + x) as real) == Margin(t, x)
  {
    var n := (t + x) as real;
    assert t as real / n - x as real / n == (t - x) as real / n;
  }

  // ---------------------------------------------------------------- 5

  /** The pattern layer of the deep predictor. */
  const DeepPatterns: map<seq<Cat>, Cat> := map[
    [T, T, X, T, T] := X,
    [T, X, T, X, T] := X,
    [X, X, T, X, X] := T,
    [X, T, X, T, X] := T,
    [T, T, T, T, X] := X,
    [X, X, X, X, T] := T]

  /** Every entry of the deep pattern table predicts the category that is in
      the minority within its pattern. */
  lemma DeepPatternsMinority()
    ensures forall p :: p in DeepPatterns ==> Count(p, DeepPatterns[p]) < Count(p, Opposite(DeepPatterns[p]))
  {
    forall p | p in DeepPatterns
      ensures Count(p, DeepPatterns[p]) < Count(p, Opposite(DeepPatterns[p]))
    {
      Count5(p, T);
      Count5(p, X);
    }
  }

  /** Counting in a five-element sequence. */
  lemma Count5(p: seq<Cat>, k: Cat)
    requires |p| == 5
    ensures Count(p, k)
      == (if p[0] == k then 1 else 0) + (if p[1] == k then 1 else 0) + (if p[2] == k then 1 else 0)
        + (if p[3] == k then 1 else 0) + (if p[4] == k then 1 else 0)
  {
    assert p[..1] == p[..0] + [p[0]];
    CountSnoc(p[..0], p[0], k);
    assert p[..2] == p[..1] + [p[1]];
    CountSnoc(p[..1], p[1], k);
    assert p[..3] == p[..2] + [p[2]];
    CountSnoc(p[..2], p[2], k);
    assert p[..4] == p[..3] + [p[3]];
    CountSnoc(p[..3], p[3], k);
    assert p[..5] == p[..4] + [p[4]];
    CountSnoc(p[..4], p[4], k);
    assert p[..5] == p;
  }

  /** The run layer: at least two runs, and a last run of 4 or more, or the
      last three runs all of length 1, bets on the reversal. */
  function RunVote(runs: seq<Run>): (v: seq<Cat>)
    ensures |v| <= 1 && AllVotes(v)
    ensures |v| == 1 ==> |runs| >= 2 && v[0] == Opposite(runs[|runs| - 1].val)
  {
    if |runs| < 2 then []
    else
      var last := runs[|runs| - 1];
      if last.len >= 4 then [Opposite(last.val)]
      else if last.len == 1 then
        var last3 := LastN(runs, 3);
        if |last3| == 3 && forall i :: 0 <= i < 3 ==> last3[i].len == 1 then [Opposite(last.val)]
        else []
      else []
  }

  /** The layers of the deep predictor, in the order they vote: trend of
      the last 50, average of the last 30 totals, pattern of the last 5,
      runs. */
  function DeepVotes(f: FeatureSet): (votes: seq<Cat>)
    ensures |votes| <= 4
    ensures forall i :: 0 <= i < |votes| ==> votes[i] == T || votes[i] == X
  {
    var a, b, c, d := TrendVote(f.tx), LevelVote(f.totals), PatternVote(f.tx), RunVote(f.runs);
    VotesConcat(a, b);
    VotesConcat(a + b, c);
    VotesConcat(a + b + c, d);
    a + b + c + d
  }

  predicate AllVotes(v: seq<Cat>) {
    forall i :: 0 <= i < |v| ==> v[i] == T || v[i] == X
  }

  lemma VotesConcat(a: seq<Cat>, b: seq<Cat>)
    requires AllVotes(a) && AllVotes(b)
    ensures AllVotes(a + b)
  {
    assert forall i :: 0 <= i < |b| ==> (a + b)[|a| + i] == b[i];
  }

  /** Trend layer: more than 10 between T and X in the last 50. */
  function TrendVote(tx: seq<Cat>): (v: seq<Cat>)
    ensures |v| <= 1 && AllVotes(v)
  {
    var r50 := LastN(tx, 50);
    var t50, x50 := Count(r50, T), Count(r50, X);
    if Abs(t50 - x50) > 10 then [if t50 > x50 then T else X] else []
  }

  /** Level layer: the mean of the last 30 totals above 13 or below 8.5. */
  function LevelVote(totals: seq<int>): (v: seq<Cat>)
    ensures |v| <= 1 && AllVotes(v)
  {
    var avgRecent := Avg(LastN(totals, 30));
    if avgRecent > 13.0 then [X] else if avgRecent < 8.5 then [T] else []
  }

  /** Pattern layer: the last 5 of the last 10 looked up in the table. */
  function PatternVote(tx: seq<Cat>): (v: seq<Cat>)
    ensures |v| <= 1 && AllVotes(v)
  {
    var last5 := LastN(LastN(tx, 10), 5);
    if last5 in DeepPatterns then [DeepPatterns[last5]] else []
  }

  /** Abstains on a raw history under 80 records; otherwise a category
      needs at least two layers and more layers than the other. */
  function DeepAnalysis(h: seq<Record>): (v: Option<Cat>)
    ensures IsVote(v)
    ensures |h| < 80 ==> v == None
    ensures v.Some? ==> var votes := DeepVotes(FeaturesOf(h));
      Count(votes, v.value) >= 2 && Count(votes, v.value) > Count(votes, Opposite(v.value))
  {
    if |h| < 80 then None
    else
      var votes := DeepVotes(FeaturesOf(h));
      var tv, xv := Count(votes, T), Count(votes, X);
      if tv > xv && tv >= 2 then Some(T)
      else if xv > tv && xv >= 2 then Some(X)
      else None
  }

  /** Two layers that agree and no layer against them decide the deep vote. */
  lemma DeepTwoAgreeing(h: seq<Record>, c: Cat)
    requires |h| >= 80 && (c == T || c == X)
    requires var votes := DeepVotes(FeaturesOf(h));
      Count(votes, c) >= 2 && Count(votes, Opposite(c)) == 0
    ensures DeepAnalysis(h) == Some(c)
  {
  }

  // ---------------------------------------------------------------- 6

  /** The transformer predictor: windows of the last 10 categories weighted
      by similarity and recency. Abstains with fewer than 60 categories or
      a total similarity of at most 2. */
  function Transformer(h: seq<Record>): (v: Option<Cat>)
    ensures IsVote(v)
    ensures |Tx(h)| < 60 ==> v == None
    ensures v.Some? ==> var tx := Tx(h);
      WeightedSums(tx, tx[|tx| - 10..], Positions(|tx|, 10)).sim > 2.0
  {
    var tx := Tx(h);
    if |tx| < 60 then None
    else
      var w := WeightedSums(tx, tx[|tx| - 10..], Positions(|tx|, 10));
      if w.sim > 2.0 then
        var total := w.t + w.x;
        if total > 0.0 then
          var ratio := AbsReal(w.t - w.x) / total;
          if ratio > 0.6 then Some(if w.t > w.x then T else X) else None
        else None
      else None
  }

  /** The loop form of the transformer predictor. */
  method TransformerOf(h: seq<Record>) returns (v: Option<Cat>)
    ensures v == Transformer(h)
  {
    var tx := Tx(h);
    if |tx| < 60 {
      return None;
    }
    var w := TransformerScan(tx, tx[|tx| - 10..]);
    v := None;
    if w.sim > 2.0 {
      var total := w.t + w.x;
      if total > 0.0 {
        var ratio := AbsReal(w.t - w.x) / total;
        if ratio > 0.6 {
          v := Some(if w.t > w.x then T else X);
        }
      }
    }
  }

  /** Once the total similarity exceeds 2 the total weight is positive, so
      the engine's second guard never rejects. */
  lemma TransformerWeightGuard(tx: seq<Cat>)
    requires |tx| >= 60
    ensures var w := WeightedSums(tx, tx[|tx| - 10..], Positions(|tx|, 10));
      w.sim > 2.0 ==> w.t + w.x > 0.0
  {
    WeightedSumsPositive(tx, tx[|tx| - 10..], Positions(|tx|, 10));
  }

  // ---------------------------------------------------------------- 7

  /** Number of runs of length 1. */
  function Singles(rs: seq<Run>): (k: nat)
    ensures k <= |rs|
  {
    if |rs| == 0 then 0 else Singles(rs[..|rs| - 1]) + (if rs[|rs| - 1].len == 1 then 1 else 0)
  }

  /** The bridge predictor over the runs. Its first guard asks for 4 runs,
      but the slice of the last 5 must hold 5, so 5 runs are needed. */
  function Bridge(h: seq<Record>): (v: Option<Cat>)
    ensures IsVote(v)
  {
    var tx := Tx(h);
    BridgeOf(Runs(tx), tx)
  }

  /** The rules of the bridge predictor over the runs and the category
      sequence. */
  function BridgeOf(runs: seq<Run>, tx: seq<Cat>): (v: Option<Cat>)
    ensures IsVote(v)
    ensures |runs| < 5 ==> v == None
    ensures |runs| >= 5 && runs[|runs| - 1].len >= 4 ==> v == Some(Opposite(runs[|runs| - 1].val))
    ensures |runs| >= 5 && runs[|runs| - 1].len == 1 && runs[|runs| - 2].len == 1 && Singles(LastN(runs, 6)) >= 4
      ==> v == Some(Opposite(runs[|runs| - 1].val))
  {
    if |runs| < 4 then None
    else
      var last5 := LastN(runs, 5);
      var recent := LastN(tx, 15);
      if |last5| < 5 then None
      else
        var last := last5[4];
        var second := last5[3];
        if last.len >= 4 then Some(Opposite(last.val))
        else if last.len == 1 && second.len == 1 && Singles(LastN(runs, 6)) >= 4 then Some(Opposite(last.val))
        else
          var t, x := Count(recent, T), Count(recent, X);
          if t > x + 4 then Some(X)
          else if x > t + 4 then Some(T)
          else None
  }

  /** A streak of four or more ends in a bet on the other category: the vote
      is the opposite of the latest filtered category. */
  lemma BridgeLongRunReversal(h: seq<Record>)
    requires var runs := Runs(Tx(h)); |runs| >= 5 && runs[|runs| - 1].len >= 4
    ensures Bridge(h) == Some(Opposite(Tx(h)[|Tx(h)| - 1]))
  {
  }

  /** With exactly four runs the bridge predictor abstains, whatever the
      runs are. */
  lemma BridgeFourRunsAbstains(h: seq<Record>)
    requires |Runs(Tx(h))| == 4
    ensures Bridge(h) == None
  {
  }

  /** Five alternating single categories at the end, each a run of its own:
      the alternation rule bets against the last one. */
  lemma BridgeAlternation(h: seq<Record>)
    requires var runs := Runs(Tx(h));
      |runs| >= 5 && forall i :: |runs| - 5 <= i < |runs| ==> runs[i].len == 1
    ensures Bridge(h) == Some(Opposite(Tx(h)[|Tx(h)| - 1]))
  {
    var runs := Runs(Tx(h));
    var last6 := LastN(runs, 6);
    assert Singles(last6) >= 4 by {
      SinglesSuffix(last6, 5);
    }
  }

  /** A sequence whose last k runs are single counts at least k singles. */
  lemma {:induction false} SinglesSuffix(rs: seq<Run>, k: nat)
    requires k <= |rs| && forall i :: |rs| - k <= i < |rs| ==> rs[i].len == 1
    ensures Singles(rs) >= k
  {
    if k > 0 {
      SinglesSuffix(rs[..|rs| - 1], k - 1);
    }
  }

  // ---------------------------------------------------------------- 8

  /** The candidate of one adaptive order: at least two T/X successors of
      the current key, no gate while scanning. */
  function AdaptiveCandidate(tx: seq<Cat>, order: nat): (c: Option<Cand>)
    ensures c.Some? ==> (c.value.pred == T || c.value.pred == X)
    ensures c.Some? ==> order + 5 <= |tx| && var k := LastKeyCounts(tx, order);
      k.t + k.x >= 2 && c.value.conf == Margin(k.t, k.x)
  {
    if |tx| < order + 5 then None
    else
      var k := LastKeyCounts(tx, order);
      if k.t + k.x >= 2 then Some(Cand(if k.t > k.x then T else X, Margin(k.t, k.x)))
      else None
  }

  /** The highest adaptive order: min(4, floor(|tx| / 10)). */
  function MaxOrder(len: nat): (m: nat)
    ensures m <= 4 && m * 10 <= len
    ensures len >= 25 ==> m >= 2
  {
    if len / 10 < 4 then len / 10 else 4
  }

  function AdaptiveCands(tx: seq<Cat>): (cs: seq<Option<Cand>>)
    ensures |cs| <= 3
    ensures forall j :: 0 <= j < |cs| ==> cs[j] == AdaptiveCandidate(tx, j + 2)
  {
    var m := MaxOrder(|tx|);
    if m < 2 then [] else seq(m - 1, j requires 0 <= j < m - 1 => AdaptiveCandidate(tx, j + 2))
  }

  /** Adaptive Markov over orders 2 to min(4, floor(|tx| / 10)); the best
      must exceed 0.7. Abstains with fewer than 25 categories. */
  function AdaptiveMarkov(h: seq<Record>): (v: Option<Cat>)
    ensures IsVote(v)
    ensures |Tx(h)| < 25 ==> v == None
  {
    var tx := Tx(h);
    if |tx| < 25 then None
    else
      var best := BestOf(AdaptiveCands(tx), 0.0);
      BestOfVotes(AdaptiveCands(tx), 0.0);
      if best.conf > 0.7 then best.pred else None
  }

  /** An adaptive vote rests on an order whose current key had at least
      two T/X successors and a margin above 0.7. */
  lemma AdaptiveJustified(h: seq<Record>)
    ensures var tx := Tx(h);
      AdaptiveMarkov(h).Some? ==> exists order :: (2 <= order <= 4 && order * 10 <= |tx|
        && var k := LastKeyCounts(tx, order);
        k.t + k.x >= 2 && Margin(k.t, k.x) > 0.7)
  {
    var tx := Tx(h);
    if AdaptiveMarkov(h).Some? {
      var cands := AdaptiveCands(tx);
      var p := BestOf(cands, 0.0);
      var j :| 0 <= j < |cands| && cands[j] == Some(Cand(p.pred.value, p.conf));
      assert cands[j] == AdaptiveCandidate(tx, j + 2);
    }
  }

  // ---------------------------------------------------------------- 9

  /** The pattern weights (t, x) of the neural predictor. */
  const NeuralPatterns: map<seq<Cat>, (real, real)> := map[
    [T, T, X, T, T] := (0.2, 0.8),
    [T, X, T, X, T] := (0.3, 0.7),
    [X, X, T, X, X] := (0.8, 0.2),
    [X, T, X, T, X] := (0.7, 0.3),
    [T, T, T, T, X] := (0.1, 0.9),
    [X, X, X, X, T] := (0.9, 0.1)]

  /** The two pattern tables have the same keys; the neural weights of each
      key sum to 1 and favour the category the deep table predicts. */
  lemma PatternTablesAgree()
    ensures forall p :: p in NeuralPatterns <==> p in DeepPatterns
    ensures forall p :: p in NeuralPatterns ==> NeuralPatterns[p].0 + NeuralPatterns[p].1 == 1.0
    ensures forall p :: p in NeuralPatterns ==>
      (DeepPatterns[p] == T <==> NeuralPatterns[p].0 > NeuralPatterns[p].1)
  {
  }

  /** Scores of the neural predictor, t and x. */
  datatype Scores = Scores(t: real, x: real)

  /** The pattern rule of the neural predictor: 0.2 times the weights of a
      known last-5 pattern. */
  function PatternScore(last5: seq<Cat>): (s: Scores)
    ensures 0.0 <= s.t <= 0.18 && 0.0 <= s.x <= 0.18
  {
    NeuralPatternsBounded();
    if last5 in NeuralPatterns then Scores(NeuralPatterns[last5].0 * 0.2, NeuralPatterns[last5].1 * 0.2)
    else Scores(0.0, 0.0)
  }

  lemma NeuralPatternsBounded()
    ensures forall p :: p in NeuralPatterns ==>
      0.0 <= NeuralPatterns[p].0 <= 0.9 && 0.0 <= NeuralPatterns[p].1 <= 0.9
  {
  }

  function NeuralScores(tx: seq<Cat>, totals: seq<int>): (s: Scores)
    requires |totals| >= 20
    ensures 0.0 <= s.t <= 0.93 && 0.0 <= s.x <= 0.93
  {
    var ratio := Count(LastN(tx, 20), T) as real / 20.0;
    var avg20 := Avg(LastN(totals, 20));
    var last5 := LastN(tx, 5);
    var firstAvg := Avg(totals[|totals| - 20..|totals| - 10]);
    var lastAvg := Avg(LastN(totals, 10));
    var trend := lastAvg - firstAvg;
    var s1 := if ratio > 0.7 then Scores(0.0, 0.35) else if ratio < 0.3 then Scores(0.35, 0.0) else Scores(0.0, 0.0);
    var s2 := if avg20 > 12.5 then Scores(0.0, 0.25) else if avg20 < 8.5 then Scores(0.25, 0.0) else Scores(0.0, 0.0);
    var s3 := PatternScore(last5);
    var s4 := if trend > 2.5 then Scores(0.0, 0.15) else if trend < -2.5 then Scores(0.15, 0.0) else Scores(0.0, 0.0);
    Scores(s1.t + s2.t + s3.t + s4.t, s1.x + s2.x + s3.x + s4.x)
  }

  /** The neural predictor: four weighted rules, a vote when the scores
      differ by more than 0.25. Abstains with fewer than 50 categories. */
  function Neural(h: seq<Record>): (v: Option<Cat>)
    ensures IsVote(v)
    ensures |Tx(h)| < 50 ==> v == None
    ensures v.Some? ==> var s := NeuralScores(Tx(h), Totals(Filtered(h)));
      AbsReal(s.t - s.x) > 0.25 && (v == Some(T) <==> s.t > s.x)
  {
    var tx := Tx(h);
    var totals := Totals(Filtered(h));
    if |tx| < 50 then None
    else
      var s := NeuralScores(tx, totals);
      if AbsReal(s.t - s.x) > 0.25 then Some(if s.t > s.x then T else X) else None
  }

  // ---------------------------------------------------------------- 10

  /** Integer power, with 0^0 = 1. */
  function Pow(b: nat, e: nat): (p: nat)
    ensures b > 0 ==> p > 0
  {
    if e == 0 then 1 else b * Pow(b, e - 1)
  }

  /** The entropy test of the quantum predictor on a window of 20: with c
      the count of each category, H = log2 20 - (1/20) sum c log2 c, so
      H > 0.9 exactly when 2^18 * prod c^c < 20^20. The two sides are never
      equal, so the strict test decides the same as the real one. */
  predicate HighEntropy(w: seq<Cat>)
    requires |w| == 20
  {
    TwoPow18 * SelfPowers(w) < TwentyPow20
  }

  /** 2^18 and 20^20 (PowConstants). */
  const TwoPow18: nat := 262144
  const TwentyPow20: nat := 104857600000000000000000000

  /** The product of c^c over the counts c of T, X and N. */
  function SelfPowers(w: seq<Cat>): nat {
    Pow(Count(w, T), Count(w, T)) * Pow(Count(w, X), Count(w, X)) * Pow(Count(w, N), Count(w, N))
  }

  lemma {:induction false} PowAdd(a: nat, e: nat, f: nat)
    ensures Pow(a, e + f) == Pow(a, e) * Pow(a, f)
  {
    if e > 0 {
      PowAdd(a, e - 1, f);
      var p, q := Pow(a, e - 1), Pow(a, f);
      assert Pow(a, e + f) == a * (p * q);
      MulAssoc(a, p, q);
    }
  }

  lemma MulAssoc(a: int, b: int, c: int)
    ensures a * (b * c) == (a * b) * c
  {
  }

  /** The powers the entropy test compares. */
  lemma PowConstants()
    ensures Pow(2, 18) == TwoPow18 && Pow(20, 20) == TwentyPow20 && Pow(10, 10) == 10000000000
    ensures Pow(0, 0) == 1
  {
    assert Pow(2, 9) == 512;
    PowAdd(2, 9, 9);
    assert Pow(20, 10) == 10240000000000;
    PowAdd(20, 10, 10);
  }

  /** SelfPowers for given counts of T, X and N. */
  lemma SelfPowersOf(w: seq<Cat>, t: nat, x: nat, n: nat)
    requires Count(w, T) == t && Count(w, X) == x && Count(w, N) == n
    ensures SelfPowers(w) == Pow(t, t) * Pow(x, x) * Pow(n, n)
  {
  }

  /** A window of one category only has entropy 0. */
  lemma UniformWindowLowEntropy(w: seq<Cat>, c: Cat)
    requires |w| == 20 && c != B && Count(w, c) == 20
    ensures !HighEntropy(w)
  {
    CountPartition3(w);
    PowConstants();
    if c == T {
      SelfPowersOf(w, 20, 0, 0);
    } else if c == X {
      SelfPowersOf(w, 0, 20, 0);
    } else {
      SelfPowersOf(w, 0, 0, 20);
    }
  }

  /** A window of ten T and ten X has entropy 1. */
  lemma BalancedWindowHighEntropy(w: seq<Cat>)
    requires |w| == 20 && Count(w, T) == 10 && Count(w, X) == 10
    ensures HighEntropy(w)
  {
    CountPartition3(w);
    PowConstants();
    SelfPowersOf(w, 10, 10, 0);
  }

  /** T, X, N and B counts add up to the length. */
  lemma {:induction false} CountPartition3(s: seq<Cat>)
    ensures Count(s, T) + Count(s, X) + Count(s, N) + Count(s, B) == |s|
  {
    if |s| > 0 {
      CountPartition3(s[..|s| - 1]);
      var e := s[|s| - 1];
      assert e == T || e == X || e == N || e == B;
    }
  }

  /** The three states of the quantum predictor. */
  function QuantumFrequency(tx: seq<Cat>): (s: Scores)
    ensures s == Scores(0.0, 0.0) || s == Scores(0.0, 0.3) || s == Scores(0.3, 0.0)
  {
    var r30 := LastN(tx, 30);
    var t30, x30 := Count(r30, T), Count(r30, X);
    if t30 > x30 + 5 then Scores(0.0, 0.3)
    else if x30 > t30 + 5 then Scores(0.3, 0.0)
    else Scores(0.0, 0.0)
  }

  function QuantumPattern(tx: seq<Cat>): (s: Scores)
    requires |tx| >= 8
    ensures s == Scores(0.0, 0.0) || s == Scores(0.25, 0.0) || s == Scores(0.0, 0.25)
  {
    var pat := tx[|tx| - 8..];
    var n := Positions(|tx|, 8);
    var t, x := Follow(tx, pat, T, n), Follow(tx, pat, X, n);
    if t + x >= 3 && Margin(t, x) > 0.6 then
      if t > x then Scores(0.25, 0.0) else Scores(0.0, 0.25)
    else Scores(0.0, 0.0)
  }

  function QuantumEntropy(tx: seq<Cat>): (s: Scores)
    requires |tx| >= 20
    ensures s == Scores(0.0, 0.0) || s == Scores(0.0, 0.2) || s == Scores(0.2, 0.0)
  {
    if HighEntropy(LastN(tx, 20)) then
      if tx[|tx| - 1] == T then Scores(0.0, 0.2) else Scores(0.2, 0.0)
    else Scores(0.0, 0.0)
  }

  /** Sum of the three states. */
  function QuantumScores(tx: seq<Cat>): (s: Scores)
    requires |tx| >= 20
  {
    var a, b, c := QuantumFrequency(tx), QuantumPattern(tx), QuantumEntropy(tx);
    Scores(a.t + b.t + c.t, a.x + b.x + c.x)
  }

  /** The quantum predictor: three states add to the two scores, a vote
      when the total exceeds 0.5 and the margin 0.6. Abstains with fewer
      than 40 categories. */
  function Quantum(h: seq<Record>): (v: Option<Cat>)
    ensures IsVote(v)
    ensures |Tx(h)| < 40 ==> v == None
  {
    var tx := Tx(h);
    if |tx| < 40 then None else QuantumVote(QuantumScores(tx))
  }

  /** The decision on the summed scores: a vote when the total exceeds 0.5
      and the margin 0.6. */
  function QuantumVote(s: Scores): (v: Option<Cat>)
    ensures IsVote(v)
  {
    var total := s.t + s.x;
    if total > 0.5 then
      var conf := AbsReal(s.t - s.x) / total;
      if conf > 0.6 then Some(if s.t > s.x then T else X) else None
    else None
  }

  /** The loop form of the pattern state. */
  method QuantumPatternOf(tx: seq<Cat>) returns (s: Scores)
    requires |tx| >= 8
    ensures s == QuantumPattern(tx)
  {
    var t, x, _ := CountFollowers(tx, tx[|tx| - 8..]);
    s := Scores(0.0, 0.0);
    if t + x >= 3 {
      var ratio := Margin(t, x);
      if ratio > 0.6 {
        s := if t > x then Scores(0.25, 0.0) else Scores(0.0, 0.25);
      }
    }
  }

  function Fired(s: Scores): nat {
    if s.t > 0.0 || s.x > 0.0 then 1 else 0
  }

  /** A quantum vote needs at least two states, all on the voted side: no
      single state reaches the 0.5 total, and any disagreement keeps the
      margin at or below 0.6. */
  lemma QuantumUnanimous(h: seq<Record>)
    ensures var tx := Tx(h);
      Quantum(h).Some? ==>
        var a, b, c := QuantumFrequency(tx), QuantumPattern(tx), QuantumEntropy(tx);
        && Fired(a) + Fired(b) + Fired(c) >= 2
        && (Quantum(h) == Some(T) ==> a.x == 0.0 && b.x == 0.0 && c.x == 0.0)
        && (Quantum(h) == Some(X) ==> a.t == 0.0 && b.t == 0.0 && c.t == 0.0)
  {
    var tx := Tx(h);
    if |tx| >= 40 {
      QuantumStatesAgree(tx);
    }
  }

  /** QuantumUnanimous for a category sequence long enough to vote. */
  lemma QuantumStatesAgree(tx: seq<Cat>)
    requires |tx| >= 20
    ensures var v := QuantumVote(QuantumScores(tx));
      v.Some? ==>
        var a, b, c := QuantumFrequency(tx), QuantumPattern(tx), QuantumEntropy(tx);
        && Fired(a) + Fired(b) + Fired(c) >= 2
        && (v == Some(T) ==> a.x == 0.0 && b.x == 0.0 && c.x == 0.0)
        && (v == Some(X) ==> a.t == 0.0 && b.t == 0.0 && c.t == 0.0)
  {
    QuantumVoteUnanimous(QuantumFrequency(tx), QuantumPattern(tx), QuantumEntropy(tx), QuantumScores(tx));
  }

  /** QuantumUnanimous on the three states, whatever they are. */
  lemma QuantumVoteUnanimous(a: Scores, b: Scores, c: Scores, s: Scores)
    requires a == Scores(0.0, 0.0) || a == Scores(0.0, 0.3) || a == Scores(0.3, 0.0)
    requires b == Scores(0.0, 0.0) || b == Scores(0.25, 0.0) || b == Scores(0.0, 0.25)
    requires c == Scores(0.0, 0.0) || c == Scores(0.0, 0.2) || c == Scores(0.2, 0.0)
    requires s == Scores(a.t + b.t + c.t, a.x + b.x + c.x)
    ensures var v := QuantumVote(s);
      v.Some? ==>
        && Fired(a) + Fired(b) + Fired(c) >= 2
        && (v == Some(T) ==> a.x == 0.0 && b.x == 0.0 && c.x == 0.0)
        && (v == Some(X) ==> a.t == 0.0 && b.t == 0.0 && c.t == 0.0)
  {
    var total := s.t + s.x;
    if total > 0.5 {
      RatioAbove(AbsReal(s.t - s.x), total, 0.6);
    }
  }

  lemma RatioAbove(m: real, k: real, r: real)
    requires k > 0.0
    ensures m / k > r <==> m > r * k
  {
    var q := m / k;
    assert q * k == m;
    if q > r {
      assert (q - r) * k > 0.0;
    } else {
      assert (r - q) * k >= 0.0;
    }
  }
}
