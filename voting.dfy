/** The weighted ensemble over the ten predictors: per-algorithm accuracy
    records, the initial fit on a replayed history, the online weight update
    after each outcome, and the weighted vote that yields a prediction with
    its confidence and suggested totals. */
module Voting {
  import opened Outcomes
  import opened Predictors
  import opened Analyses
  import opened Selection

  /** The ten voting algorithms, named after their identifiers. */
  datatype Algo = FreqRebalanceId | MarkovId | NGramId | NeoPatternId | DeepAnalysisId
    | TransformerId | BridgeId | AdaptiveMarkovId | NeuralId | QuantumId

  /** The algorithm list in the engine's order; every loop over the
      algorithms and every sum over the weights follows it. */
  const AllAlgs: seq<Algo> := [FreqRebalanceId, MarkovId, NGramId, NeoPatternId, DeepAnalysisId,
    TransformerId, BridgeId, AdaptiveMarkovId, NeuralId, QuantumId]

  /** The position of an algorithm in the list. */
  function IndexOf(a: Algo): (i: nat)
    ensures i < |AllAlgs| && AllAlgs[i] == a
  {
    match a
    case FreqRebalanceId => 0
    case MarkovId => 1
    case NGramId => 2
    case NeoPatternId => 3
    case DeepAnalysisId => 4
    case TransformerId => 5
    case BridgeId => 6
    case AdaptiveMarkovId => 7
    case NeuralId => 8
    case QuantumId => 9
  }

  /** The list holds every algorithm exactly once, so the algorithms
      before position k + 1 are those before k and the one at k. */
  lemma IndexOfAt(k: nat)
    requires k < |AllAlgs|
    ensures IndexOf(AllAlgs[k]) == k
    ensures forall a :: IndexOf(a) < k + 1 <==> IndexOf(a) < k || a == AllAlgs[k]
  {
  }

  /** The algorithms an ensemble is built over: the vote of each on a
      history. */
  type Voters = (Algo, seq<Record>) -> Option<Cat>

  /** Every vote is T, X or an abstention. */
  ghost predicate CastsVotes(run: Voters) {
    forall a, h :: IsVote(run(a, h))
  }

  /** The engine's algorithm list. */
  lemma RunsVote()
    ensures CastsVotes(Run)
  {
  }

  /** Every algorithm is in the list. */
  lemma AllListed()
    ensures forall a :: a in AllAlgs
  {
    forall a
      ensures a in AllAlgs
    {
      var i := IndexOf(a);
    }
  }

  /** The vote of one algorithm on a history: T, X or an abstention. */
  function Run(a: Algo, h: seq<Record>): (v: Option<Cat>)
    ensures IsVote(v)
  {
    match a
    case FreqRebalanceId => FreqRebalance(h)
    case MarkovId => Markov(h)
    case NGramId => NGram(h)
    case NeoPatternId => NeoPattern(h)
    case DeepAnalysisId => DeepAnalysis(h)
    case TransformerId => Transformer(h)
    case BridgeId => Bridge(h)
    case AdaptiveMarkovId => AdaptiveMarkov(h)
    case NeuralId => Neural(h)
    case QuantumId => Quantum(h)
  }

  // ---------------------------------------------------------------- records

  /** Votes cast and votes that named the actual category. */
  datatype Perf = Perf(correct: nat, total: nat)

  /** A record after one graded round: an abstention changes nothing; a
      vote is counted, and counted as correct when it names the actual
      category. */
  function Graded(p: Perf, v: Option<Cat>, actual: Cat): (q: Perf)
    ensures q.total == p.total + (if v.Some? then 1 else 0)
    ensures q.correct == p.correct + (if v == Some(actual) then 1 else 0)
    ensures p.correct <= p.total ==> q.correct <= q.total
  {
    match v
    case None => p
    case Some(c) => Perf(if c == actual then p.correct + 1 else p.correct, p.total + 1)
  }

  /** Every record graded against the outcome that followed prefix. */
  function Regraded(run: Voters, perf: map<Algo, Perf>, prefix: seq<Record>, actual: Cat): (r: map<Algo, Perf>)
    ensures forall a :: a in r <==> a in perf
  {
    map a | a in perf :: Graded(perf[a], run(a, prefix), actual)
  }

  /** The records after replaying the rounds 20 .. n - 1 of window: each
      round's prefix is shown to every algorithm and graded against that
      round's category. */
  function Replayed(run: Voters, perf: map<Algo, Perf>, window: seq<Record>, n: nat): (r: map<Algo, Perf>)
    requires n <= |window|
    ensures forall a :: a in r <==> a in perf
  {
    if n <= 20 then perf
    else Regraded(run, Replayed(run, perf, window, n - 1), window[..n - 1], window[n - 1].tx)
  }

  lemma ReplayedStep(run: Voters, perf: map<Algo, Perf>, window: seq<Record>, i: nat)
    requires 20 <= i < |window|
    ensures Replayed(run, perf, window, i + 1) == Regraded(run, Replayed(run, perf, window, i), window[..i], window[i].tx)
  {
  }

  ghost predicate Consistent(perf: map<Algo, Perf>) {
    forall a :: a in perf && perf[a].correct <= perf[a].total
  }

  /** Replaying keeps every record consistent and counts at most one vote
      per replayed round. */
  lemma {:induction false} ReplayedBounds(run: Voters, perf: map<Algo, Perf>, window: seq<Record>, n: nat)
    requires n <= |window| && Consistent(perf)
    ensures Consistent(Replayed(run, perf, window, n))
    ensures forall a :: Replayed(run, perf, window, n)[a].total <= perf[a].total + (if n <= 20 then 0 else n - 20)
    ensures forall a :: Replayed(run, perf, window, n)[a].correct >= perf[a].correct
  {
    if n > 20 {
      ReplayedBounds(run, perf, window, n - 1);
    }
  }

  /** The accuracy of a record, 0.5 before its first vote. */
  function Accuracy(p: Perf): (r: real)
    ensures p.correct <= p.total ==> 0.0 <= r <= 1.0
    ensures p.total == 0 ==> r == 0.5
  {
    if p.total > 0 then
      var q := p.correct as real / p.total as real;
      assert p.correct <= p.total ==> 0.0 <= q <= 1.0 by {
        if p.correct <= p.total {
          DivBounds(p.correct as real, 0.0, 1.0, p.total as real);
        }
      }
      q
    else 0.5
  }

  // ---------------------------------------------------------------- weights

  /** Weights with every value divided by their total over the list; a zero
      total divides by 1. */
  function Normalized(w: map<Algo, real>): (r: map<Algo, real>)
    requires forall a :: a in w
    ensures forall a :: a in r
  {
    var total := SumVals(w, AllAlgs);
    var d := if total != 0.0 then total else 1.0;
    map a | a in w :: w[a] / d
  }

  /** Normalising positive weights gives a distribution over the
      algorithms. */
  lemma NormalizedDistribution(w: map<Algo, real>)
    requires forall a :: a in w && w[a] > 0.0
    ensures forall a :: 0.0 < Normalized(w)[a] <= 1.0
    ensures SumVals(Normalized(w), AllAlgs) == 1.0
  {
    var total := SumVals(w, AllAlgs);
    var r := Normalized(w);
    SumValsPositive(w, AllAlgs);
    forall a
      ensures 0.0 < r[a] <= 1.0
    {
      var i := IndexOf(a);
      SumValsBoundsEach(w, AllAlgs, i);
      DivBounds(w[a], 0.0, 1.0, total);
      DivPositive(w[a], total);
    }
    assert SumVals(r, AllAlgs) == total / total by {
      SumValsScale(w, r, AllAlgs, total);
    }
    DivSelf(total);
  }

  /** The weight fit_initial derives from a record: its accuracy raised to
      the power 1.5, at least the minimum weight 0.001. */
  function FitWeight(p: Perf, pow15: real -> real): (w: real)
    ensures w >= 0.001
  {
    MaxReal(0.001, pow15(Accuracy(p)))
  }

  function Fitted(perf: map<Algo, Perf>, pow15: real -> real): (w: map<Algo, real>)
    ensures forall a :: a in w <==> a in perf
    ensures forall a :: a in w ==> w[a] == FitWeight(perf[a], pow15)
  {
    map a | a in perf :: FitWeight(perf[a], pow15)
  }

  /** Fitted weights have a positive total. */
  lemma FittedTotal(perf: map<Algo, Perf>, pow15: real -> real)
    requires forall a :: a in perf
    ensures SumVals(Fitted(perf, pow15), AllAlgs) > 0.0
  {
    SumValsPositive(Fitted(perf, pow15), AllAlgs);
  }

  /** The accuracy a voter's weight is pulled towards, clamped to
      [0.01, 1]. */
  function Target(p: Perf): (t: real)
    requires p.total > 0
    ensures 0.01 <= t <= 1.0
  {
    MinReal(1.0, MaxReal(0.01, p.correct as real / p.total as real))
  }

  /** The learning rule: a step of 0.2 from the current weight (0.001 when
      it is zero) towards the target, at least 0.001. */
  function Learned(current: real, p: Perf): real
    requires p.total > 0
  {
    var cur := if current != 0.0 then current else 0.001;
    MaxReal(0.001, 0.2 * Target(p) + 0.8 * cur)
  }

  /** From a weight of at least 0.001 the rule closes 20% of the distance
      to the target and so stays between the two; it never yields less
      than 0.001. */
  lemma LearnedContracts(current: real, p: Perf)
    requires p.total > 0
    ensures Learned(current, p) >= 0.001
    ensures current >= 0.001 ==> Learned(current, p) - Target(p) == 0.8 * (current - Target(p))
    ensures current >= 0.001 ==>
      MinReal(current, Target(p)) <= Learned(current, p) <= MaxReal(current, Target(p))
  {
  }

  /** The weights after the learning rule, for the algorithms that voted on
      prefix; graded holds the records already counting this round (a
      voter's record always has a vote in it). */
  function Relearned(run: Voters, w: map<Algo, real>, graded: map<Algo, Perf>, prefix: seq<Record>): (r: map<Algo, real>)
    ensures forall a :: a in r <==> a in w
  {
    map a | a in w :: if run(a, prefix).Some? && a in graded && graded[a].total > 0 then Learned(w[a], graded[a]) else w[a]
  }

  // ---------------------------------------------------------------- state

  /** The weights and records of the ensemble. */
  datatype State = State(weights: map<Algo, real>, perf: map<Algo, Perf>)

  /** Every algorithm has a positive weight and a consistent record. */
  ghost predicate ValidState(s: State) {
    && (forall a :: a in s.weights && s.weights[a] > 0.0)
    && Consistent(s.perf)
  }

  lemma ValidKeys(s: State)
    requires ValidState(s)
    ensures forall a :: a in s.perf && a in s.weights
  {
  }

  /** The fresh ensemble: weight 1 and an empty record for each algorithm
      (the weights are not normalised). */
  function Initial(): (s: State)
    ensures ValidState(s)
    ensures forall a :: s.weights[a] == 1.0 && s.perf[a] == Perf(0, 0)
  {
    AllListed();
    State(map a | a in AllAlgs :: 1.0, map a | a in AllAlgs :: Perf(0, 0))
  }

  /** fit_initial: up to the last 500 non-triple records; with fewer than 30
      nothing changes, otherwise the records are replayed from round 20 and
      every weight is refitted from its accuracy and normalised. */
  function Fit(run: Voters, s: State, h: seq<Record>, pow15: real -> real): (r: State)
    requires forall a :: a in s.perf && a in s.weights
    ensures forall a :: a in r.perf && a in r.weights
  {
    var window := LastN(Filtered(h), 500);
    if |window| < 30 then s
    else
      var perf := Replayed(run, s.perf, window, |window|);
      State(Normalized(Fitted(perf, pow15)), perf)
  }

  /** update_with_outcome: a triple changes nothing; otherwise every voter's
      record is graded, its weight follows the learning rule and the
      weights are normalised. */
  function Updated(run: Voters, s: State, prefix: seq<Record>, actual: Cat): (r: State)
    requires forall a :: a in s.perf && a in s.weights
    ensures forall a :: a in r.perf && a in r.weights
  {
    if actual == B then s
    else
      var graded := Regraded(run, s.perf, prefix, actual);
      State(Normalized(Relearned(run, s.weights, graded, prefix)), graded)
  }

  /** The counters of update_with_outcome: a triple changes nothing;
      otherwise a voter's total grows by one and its correct count by one
      exactly when it named the outcome, and an abstainer's record stays. */
  lemma UpdatedCounters(run: Voters, s: State, prefix: seq<Record>, actual: Cat, a: Algo)
    requires forall a :: a in s.perf && a in s.weights
    ensures actual == B ==> Updated(run, s, prefix, actual) == s
    ensures var q := Updated(run, s, prefix, actual).perf[a];
      actual != B ==>
        && q.total == s.perf[a].total + (if run(a, prefix).Some? then 1 else 0)
        && q.correct == s.perf[a].correct + (if run(a, prefix) == Some(actual) then 1 else 0)
    ensures run(a, prefix).None? ==> Updated(run, s, prefix, actual).perf[a] == s.perf[a]
  {
    if actual != B {
      var graded := Regraded(run, s.perf, prefix, actual);
      assert graded[a] == Graded(s.perf[a], run(a, prefix), actual);
    }
  }

  /** Fitting keeps the state valid, and after a fit that happens the
      weights sum to 1. */
  lemma FitValid(run: Voters, s: State, h: seq<Record>, pow15: real -> real)
    requires ValidState(s)
    ensures ValidState(Fit(run, s, h, pow15))
    ensures |LastN(Filtered(h), 500)| >= 30 ==> SumVals(Fit(run, s, h, pow15).weights, AllAlgs) == 1.0
  {
    var window := LastN(Filtered(h), 500);
    if |window| >= 30 {
      var perf := Replayed(run, s.perf, window, |window|);
      ReplayedBounds(run, s.perf, window, |window|);
      NormalizedDistribution(Fitted(perf, pow15));
    }
  }

  /** An update keeps the state valid, and after an update that happens the
      weights sum to 1. */
  lemma UpdatedValid(run: Voters, s: State, prefix: seq<Record>, actual: Cat)
    requires ValidState(s)
    ensures ValidState(Updated(run, s, prefix, actual))
    ensures actual != B ==> SumVals(Updated(run, s, prefix, actual).weights, AllAlgs) == 1.0
  {
    if actual != B {
      var graded := Regraded(run, s.perf, prefix, actual);
      var w := Relearned(run, s.weights, graded, prefix);
      forall a
        ensures w[a] > 0.0
      {
        if run(a, prefix).Some? && graded[a].total > 0 {
          LearnedContracts(s.weights[a], graded[a]);
        }
      }
      NormalizedDistribution(w);
    }
  }

  // ---------------------------------------------------------------- votes

  /** The ensemble after calculate_initial_stats' replay of the rounds
      20 .. n - 1 of the filtered history f. */
  function Trained(run: Voters, s: State, f: seq<Record>, n: nat): (r: State)
    requires n <= |f| && forall a :: a in s.perf && a in s.weights
    ensures forall a :: a in r.perf && a in r.weights
  {
    if n <= 20 then s
    else Updated(run, Trained(run, s, f, n - 1), f[..n - 1], f[n - 1].tx)
  }

  lemma TrainedStep(run: Voters, s: State, f: seq<Record>, i: nat)
    requires 20 <= i < |f| && forall a :: a in s.perf && a in s.weights
    ensures Trained(run, s, f, i + 1) == Updated(run, Trained(run, s, f, i), f[..i], f[i].tx)
  {
  }

  /** Training keeps the state valid; on a history without triples the
      weights sum to 1 as soon as one round is replayed. */
  lemma {:induction false} TrainedValid(run: Voters, s: State, f: seq<Record>, n: nat)
    requires n <= |f| && ValidState(s)
    requires forall i :: 0 <= i < |f| ==> f[i].tx != B
    ensures ValidState(Trained(run, s, f, n))
    ensures n > 20 ==> SumVals(Trained(run, s, f, n).weights, AllAlgs) == 1.0
  {
    if n > 20 {
      TrainedValid(run, s, f, n - 1);
      UpdatedValid(run, Trained(run, s, f, n - 1), f[..n - 1], f[n - 1].tx);
    }
  }

  /** The vote table: summed weight per category and the order in which
      the categories were first voted for. */
  datatype Votes = Votes(sum: map<Cat, real>, order: seq<Cat>)

  /** The summed weight of c, 0 when nobody voted for it. */
  function VoteOf(sum: map<Cat, real>, c: Cat): real {
    if c in sum then sum[c] else 0.0
  }

  predicate WellOrdered(v: Votes) {
    && (forall c :: c in v.sum <==> c in v.order)
    && (forall i, j :: 0 <= i < j < |v.order| ==> v.order[i] != v.order[j])
  }

  /** One more vote: pred, if any, gains weight; a category voted for the
      first time is appended to the order. */
  function Cast(v: Votes, pred: Option<Cat>, weight: real): (r: Votes)
    requires WellOrdered(v)
    ensures WellOrdered(r)
  {
    match pred
    case None => v
    case Some(c) =>
      Votes(v.sum[c := VoteOf(v.sum, c) + weight], if c in v.sum then v.order else v.order + [c])
  }

  /** The weighted votes of algs on h, in list order. */
  function Tally(run: Voters, w: map<Algo, real>, h: seq<Record>, algs: seq<Algo>): (v: Votes)
    requires forall a :: a in w
    ensures WellOrdered(v)
  {
    if |algs| == 0 then Votes(map[], [])
    else
      var a := algs[|algs| - 1];
      Cast(Tally(run, w, h, algs[..|algs| - 1]), run(a, h), w[a])
  }

  /** The tally over the first k + 1 algorithms casts the vote of the
      (k + 1)-th on the tally over the first k. */
  lemma TallyStep(run: Voters, w: map<Algo, real>, h: seq<Record>, k: nat)
    requires forall a :: a in w
    requires k < |AllAlgs|
    ensures Tally(run, w, h, AllAlgs[..k + 1])
      == Cast(Tally(run, w, h, AllAlgs[..k]), run(AllAlgs[k], h), w[AllAlgs[k]])
  {
    assert AllAlgs[..k + 1][..k] == AllAlgs[..k];
  }

  /** Only T and X are voted for. */
  lemma {:induction false} TallyCats(run: Voters, w: map<Algo, real>, h: seq<Record>, algs: seq<Algo>)
    requires CastsVotes(run) && forall a :: a in w
    ensures forall c :: c in Tally(run, w, h, algs).sum ==> c == T || c == X
  {
    if |algs| > 0 {
      TallyCats(run, w, h, algs[..|algs| - 1]);
      assert IsVote(run(algs[|algs| - 1], h));
    }
  }

  /** The total weight of the algorithms among algs that vote c on h. */
  function Support(run: Voters, w: map<Algo, real>, h: seq<Record>, algs: seq<Algo>, c: Cat): real
    requires forall a :: a in w
  {
    if |algs| == 0 then 0.0
    else
      var a := algs[|algs| - 1];
      Support(run, w, h, algs[..|algs| - 1], c) + (if run(a, h) == Some(c) then w[a] else 0.0)
  }

  /** The table holds, for each category, the weight of its supporters. */
  lemma {:induction false} TallySupport(run: Voters, w: map<Algo, real>, h: seq<Record>, algs: seq<Algo>, c: Cat)
    requires forall a :: a in w
    ensures VoteOf(Tally(run, w, h, algs).sum, c) == Support(run, w, h, algs, c)
  {
    if |algs| > 0 {
      TallySupport(run, w, h, algs[..|algs| - 1], c);
    }
  }

  /** A category is in the table exactly when some algorithm voted for it. */
  lemma {:induction false} TallyVoted(run: Voters, w: map<Algo, real>, h: seq<Record>, algs: seq<Algo>, c: Cat)
    requires forall a :: a in w
    ensures c in Tally(run, w, h, algs).sum <==> exists i :: 0 <= i < |algs| && run(algs[i], h) == Some(c)
  {
    if |algs| > 0 {
      var init := algs[..|algs| - 1];
      TallyVoted(run, w, h, init, c);
      if exists i :: 0 <= i < |init| && run(init[i], h) == Some(c) {
        var i :| 0 <= i < |init| && run(init[i], h) == Some(c);
        assert algs[i] == init[i];
      }
      if exists i :: 0 <= i < |algs| && run(algs[i], h) == Some(c) {
        var i :| 0 <= i < |algs| && run(algs[i], h) == Some(c);
        if i < |init| {
          assert init[i] == algs[i];
        }
      }
    }
  }

  /** The table's entries in insertion order, as majority visits them. */
  function Entries(v: Votes): (e: seq<(Cat, real)>)
    ensures |e| == |v.order|
    ensures forall i :: 0 <= i < |e| ==> e[i] == (v.order[i], VoteOf(v.sum, v.order[i]))
  {
    seq(|v.order|, i requires 0 <= i < |v.order| => (v.order[i], VoteOf(v.sum, v.order[i])))
  }

  /** Neither T nor X has a non-zero total: the vote falls back. */
  predicate NoVote(v: Votes) {
    VoteOf(v.sum, T) == 0.0 && VoteOf(v.sum, X) == 0.0
  }

  /** The decision on a vote table: without a vote, the frequency
      rebalancer's choice (T when it abstains) at confidence 0.5; otherwise
      the first category of largest weight, at its share of the total
      clamped to [0.51, 0.99] (0.51 when the total is not positive). */
  function Decide(v: Votes, h: seq<Record>): (r: (Cat, real))
    requires WellOrdered(v)
  {
    if NoVote(v) then
      (match FreqRebalance(h) case Some(c) => c case None => T, 0.5)
    else
      var e := Entries(v);
      assert |e| > 0 by {
        if VoteOf(v.sum, T) != 0.0 {
          assert T in v.order;
        } else {
          assert X in v.order;
        }
      }
      var i := MajorityAt(e);
      var total := SumVals(v.sum, v.order);
      (e[i].0, MinReal(0.99, MaxReal(0.51, if total > 0.0 then e[i].1 / total else 0.51)))
  }

  /** The confidence is 0.5 exactly on the fallback and otherwise lies in
      [0.51, 0.99]. */
  lemma DecideConfidence(v: Votes, h: seq<Record>)
    requires WellOrdered(v)
    ensures Decide(v, h).1 == 0.5 <==> NoVote(v)
    ensures !NoVote(v) ==> 0.51 <= Decide(v, h).1 <= 0.99
  {
  }

  /** Outside the fallback the decision is a voted category whose weight
      no category exceeds, and any category voted for earlier weighs
      strictly less. */
  lemma DecideMajority(v: Votes, h: seq<Record>)
    requires WellOrdered(v) && !NoVote(v)
    ensures Decide(v, h).0 in v.sum
    ensures forall c :: c in v.sum ==> VoteOf(v.sum, c) <= VoteOf(v.sum, Decide(v, h).0)
    ensures forall j :: 0 <= j < |v.order| && v.order[j] != Decide(v, h).0 ==>
                VoteOf(v.sum, v.order[j]) == VoteOf(v.sum, Decide(v, h).0) ==>
                exists k :: 0 <= k < j && v.order[k] == Decide(v, h).0
  {
    var e := Entries(v);
    if VoteOf(v.sum, T) != 0.0 {
      assert T in v.order;
    } else {
      assert X in v.order;
    }
    var i := MajorityAt(e);
    assert Decide(v, h).0 == v.order[i];
    forall c | c in v.sum
      ensures VoteOf(v.sum, c) <= VoteOf(v.sum, v.order[i])
    {
      var j :| 0 <= j < |v.order| && v.order[j] == c;
      assert e[j].1 <= e[i].1;
    }
    forall j | 0 <= j < |v.order| && v.order[j] != v.order[i] && VoteOf(v.sum, v.order[j]) == VoteOf(v.sum, v.order[i])
      ensures exists k :: 0 <= k < j && v.order[k] == v.order[i]
    {
      assert e[j].1 == e[i].1;
      assert i < j;
    }
  }

  /** What the ensemble reports for the next round. */
  datatype Prediction = Prediction(prediction: string, confidence: real, raw: Cat, scores: seq<int>)

  /** The display label: "tài" for T and "xỉu" for anything else. */
  function LabelText(c: Cat): (s: string)
    ensures s == "tài" <==> c == T
  {
    if c == T then "tài" else "xỉu"
  }

  /** p is what the ensemble over run with weights w reports on h: the
      decision on the weighted vote, its display label, and the totals the
      score predictor suggests for it against the stored selections
      memory. */
  ghost predicate Reports(p: Prediction, run: Voters, w: map<Algo, real>, memory: map<Cat, seq<seq<int>>>, h: seq<Record>, d: Draws)
    requires (forall a :: a in w) && ValidDraws(d)
  {
    && (p.raw, p.confidence) == Decide(Tally(run, w, h, AllAlgs), h)
    && p.prediction == LabelText(p.raw)
    && p.scores == Scored(memory, h, p.raw, d)
  }

  /** The decision of the ensemble is T or X, with a confidence of 0.5 or
      between 0.51 and 0.99. */
  lemma DecisionShape(run: Voters, w: map<Algo, real>, h: seq<Record>)
    requires CastsVotes(run) && forall a :: a in w
    ensures var r := Decide(Tally(run, w, h, AllAlgs), h);
      && (r.0 == T || r.0 == X)
      && (r.1 == 0.5 || 0.51 <= r.1 <= 0.99)
  {
    var v := Tally(run, w, h, AllAlgs);
    TallyCats(run, w, h, AllAlgs);
    DecideConfidence(v, h);
    if !NoVote(v) {
      DecideMajority(v, h);
    }
  }

  // ---------------------------------------------------------------- class

  /** The state of a loop over the list after k algorithms: the entries of
      the first k are taken from after, the others from before. */
  function Overlay<V>(before: map<Algo, V>, after: map<Algo, V>, k: nat): (r: map<Algo, V>)
    requires forall a :: a in before && a in after
    requires k <= |AllAlgs|
    ensures forall a :: a in r
  {
    if k == 0 then before
    else Overlay(before, after, k - 1)[AllAlgs[k - 1] := after[AllAlgs[k - 1]]]
  }

  /** The algorithms before position k carry their new value, the others
      their old one. */
  lemma {:induction false} OverlayAt<V>(before: map<Algo, V>, after: map<Algo, V>, k: nat, a: Algo)
    requires forall a :: a in before && a in after
    requires k <= |AllAlgs|
    ensures Overlay(before, after, k)[a] == if IndexOf(a) < k then after[a] else before[a]
  {
    if k > 0 {
      OverlayAt(before, after, k - 1, a);
      IndexOfAt(k - 1);
    }
  }

  lemma OverlayStart<V>(before: map<Algo, V>, after: map<Algo, V>)
    requires forall a :: a in before && a in after
    ensures Overlay(before, after, 0) == before
  {
  }

  lemma OverlayStep<V>(before: map<Algo, V>, after: map<Algo, V>, k: nat)
    requires forall a :: a in before && a in after
    requires k < |AllAlgs|
    ensures Overlay(before, after, k)[AllAlgs[k]] == before[AllAlgs[k]]
    ensures Overlay(before, after, k + 1) == Overlay(before, after, k)[AllAlgs[k] := after[AllAlgs[k]]]
  {
    OverlayAt(before, after, k, AllAlgs[k]);
    IndexOfAt(k);
  }

  lemma OverlayEnd<V>(before: map<Algo, V>, after: map<Algo, V>)
    requires forall a :: a in before && a in after
    ensures Overlay(before, after, |AllAlgs|) == after
  {
    var r := Overlay(before, after, |AllAlgs|);
    forall a
      ensures r[a] == after[a]
    {
      OverlayAt(before, after, |AllAlgs|, a);
    }
    assert r.Keys == after.Keys;
  }

  /** The ensemble object: the algorithms it is built over, and weights
      and records keyed by algorithm. */
  class Ensemble {
    const run: Voters
    var weights: map<Algo, real>
    var perf: map<Algo, Perf>

    function Snapshot(): State
      reads this
    {
      State(weights, perf)
    }

    ghost predicate Valid()
      reads this
    {
      ValidState(Snapshot())
    }

    constructor (algorithms: Voters)
      ensures run == algorithms
      ensures Valid()
      ensures Snapshot() == Initial()
    {
      var w: map<Algo, real> := map[];
      var p: map<Algo, Perf> := map[];
      for k := 0 to |AllAlgs|
        invariant forall a :: a in w <==> IndexOf(a) < k
        invariant forall a :: a in p <==> IndexOf(a) < k
        invariant forall a :: a in w ==> w[a] == 1.0
        invariant forall a :: a in p ==> p[a] == Perf(0, 0)
      {
        IndexOfAt(k);
        w := w[AllAlgs[k] := 1.0];
        p := p[AllAlgs[k] := Perf(0, 0)];
      }
      run := algorithms;
      weights := w;
      perf := p;
    }

    /** Divides every weight by total. */
    method DivideAll(total: real)
      requires total != 0.0 && forall a :: a in weights
      modifies this
      ensures perf == old(perf)
      ensures weights == map a | a in old(weights) :: old(weights)[a] / total
    {
      ghost var w0 := weights;
      ghost var divided := map a | a in w0 :: w0[a] / total;
      OverlayStart(w0, divided);
      for k := 0 to |AllAlgs|
        invariant perf == old(perf)
        invariant weights == Overlay(w0, divided, k)
      {
        OverlayStep(w0, divided, k);
        var a := AllAlgs[k];
        weights := weights[a := weights[a] / total];
      }
      OverlayEnd(w0, divided);
    }

    /** Grades one algorithm's record on one round, returning its vote. */
    method GradeOne(a: Algo, prefix: seq<Record>, actual: Cat) returns (pred: Option<Cat>)
      requires a in perf
      modifies this
      ensures pred == run(a, prefix)
      ensures weights == old(weights)
      ensures perf == old(perf)[a := Graded(old(perf)[a], pred, actual)]
    {
      pred := run(a, prefix);
      if pred.Some? {
        var p := perf[a];
        p := p.(total := p.total + 1);
        if pred.value == actual {
          p := p.(correct := p.correct + 1);
        }
        perf := perf[a := p];
      }
    }

    /** Grades every algorithm's record on one replayed round. */
    method GradeAll(prefix: seq<Record>, actual: Cat)
      requires forall a :: a in perf
      modifies this
      ensures weights == old(weights)
      ensures perf == Regraded(run, old(perf), prefix, actual)
    {
      ghost var p0 := perf;
      ghost var graded := Regraded(run, p0, prefix, actual);
      OverlayStart(p0, graded);
      for k := 0 to |AllAlgs|
        invariant weights == old(weights)
        invariant perf == Overlay(p0, graded, k)
      {
        OverlayStep(p0, graded, k);
        var _ := GradeOne(AllAlgs[k], prefix, actual);
      }
      OverlayEnd(p0, graded);
    }

    /** One voter's step of update_with_outcome: its record is graded and,
        when it voted, its weight follows the learning rule. */
    method LearnOne(a: Algo, prefix: seq<Record>, actual: Cat)
      requires a in perf && a in weights
      modifies this
      ensures perf == old(perf)[a := Graded(old(perf)[a], run(a, prefix), actual)]
      ensures weights == old(weights)[a := if run(a, prefix).Some? then Learned(old(weights)[a], perf[a]) else old(weights)[a]]
    {
      var pred := GradeOne(a, prefix, actual);
      if pred.Some? {
        var p := perf[a];
        var recentAccuracy := p.correct as real / p.total as real;
        var currentWeight := if weights[a] != 0.0 then weights[a] else 0.001;
        var targetWeight := MinReal(1.0, MaxReal(0.01, recentAccuracy));
        var newWeight := 0.2 * targetWeight + 0.8 * currentWeight;
        weights := weights[a := MaxReal(0.001, newWeight)];
      }
    }

    /** The replay of fit_initial: rounds 20 .. |window| - 1 graded in
        order. */
    method ReplayAll(window: seq<Record>)
      requires forall a :: a in perf
      modifies this
      ensures weights == old(weights)
      ensures perf == Replayed(run, old(perf), window, |window|)
    {
      if |window| <= 20 {
        return;
      }
      ghost var p0 := perf;
      for i := 20 to |window|
        invariant weights == old(weights)
        invariant perf == Replayed(run, p0, window, i)
      {
        ReplayedStep(run, p0, window, i);
        GradeAll(window[..i], window[i].tx);
      }
    }

    /** The refit of fit_initial: every weight from its record's accuracy,
        returning their total. */
    method Refit(pow15: real -> real) returns (total: real)
      requires forall a :: a in perf && a in weights
      modifies this
      ensures perf == old(perf)
      ensures weights == Fitted(perf, pow15)
      ensures total == SumVals(weights, AllAlgs)
    {
      ghost var w0 := weights;
      ghost var fitted := Fitted(perf, pow15);
      OverlayStart(w0, fitted);
      total := 0.0;
      for k := 0 to |AllAlgs|
        invariant perf == old(perf)
        invariant weights == Overlay(w0, fitted, k)
        invariant total == SumVals(fitted, AllAlgs[..k])
      {
        OverlayStep(w0, fitted, k);
        var a := AllAlgs[k];
        var w := FitWeight(perf[a], pow15);
        weights := weights[a := w];
        assert AllAlgs[..k + 1][..k] == AllAlgs[..k];
        total := total + w;
      }
      OverlayEnd(w0, fitted);
      assert AllAlgs[..|AllAlgs|] == AllAlgs;
    }

    /** fit_initial; pow15 stands for raising to the power 1.5. */
    method FitInitial(h: seq<Record>, pow15: real -> real)
      requires Valid()
      modifies this
      ensures Valid()
      ensures Snapshot() == Fit(run, old(Snapshot()), h, pow15)
    {
      FitValid(run, Snapshot(), h, pow15);
      var window := LastN(Filtered(h), 500);
      if |window| < 30 {
        return;
      }
      ReplayAll(window);
      var total := Refit(pow15);
      FittedTotal(perf, pow15);
      DivideAll(total);
    }

    /** The per-voter loop of update_with_outcome. */
    method LearnAll(prefix: seq<Record>, actual: Cat)
      requires forall a :: a in perf && a in weights
      modifies this
      ensures perf == Regraded(run, old(perf), prefix, actual)
      ensures weights == Relearned(run, old(weights), perf, prefix)
    {
      ghost var p0, w0 := perf, weights;
      ghost var graded := Regraded(run, p0, prefix, actual);
      ghost var learned := Relearned(run, w0, graded, prefix);
      OverlayStart(p0, graded);
      OverlayStart(w0, learned);
      for k := 0 to |AllAlgs|
        invariant perf == Overlay(p0, graded, k)
        invariant weights == Overlay(w0, learned, k)
      {
        OverlayStep(p0, graded, k);
        OverlayStep(w0, learned, k);
        LearnOne(AllAlgs[k], prefix, actual);
      }
      OverlayEnd(p0, graded);
      OverlayEnd(w0, learned);
    }

    /** update_with_outcome. */
    method UpdateWithOutcome(prefix: seq<Record>, actual: Cat)
      requires Valid()
      modifies this
      ensures Valid()
      ensures Snapshot() == Updated(run, old(Snapshot()), prefix, actual)
    {
      UpdatedValid(run, Snapshot(), prefix, actual);
      if actual == B {
        return;
      }
      LearnAll(prefix, actual);
      var total := SumVals(weights, AllAlgs);
      if total == 0.0 {
        total := 1.0;
      }
      DivideAll(total);
    }

    /** The replay loop of calculate_initial_stats: with more than 20
        records in f, the ensemble is updated on every record from round 20
        on, from the records before it. */
    method Train(f: seq<Record>)
      requires Valid()
      modifies this
      ensures Valid()
      ensures Snapshot() == Trained(run, old(Snapshot()), f, |f|)
    {
      ghost var s0 := Snapshot();
      ValidKeys(s0);
      var i := 20;
      while i < |f|
        invariant Valid()
        invariant 20 <= i && (i <= |f| || |f| < 20)
        invariant Snapshot() == Trained(run, s0, f, if i <= |f| then i else |f|)
      {
        TrainRound(s0, f, i);
        i := i + 1;
      }
    }

    /** The round of training that learns from record i. */
    method TrainRound(ghost s0: State, f: seq<Record>, i: nat)
      requires Valid() && 20 <= i < |f| && forall a :: a in s0.perf && a in s0.weights
      requires Snapshot() == Trained(run, s0, f, i)
      modifies this
      ensures Valid()
      ensures Snapshot() == Trained(run, s0, f, i + 1)
    {
      TrainedStep(run, s0, f, i);
      UpdateWithOutcome(f[..i], f[i].tx);
    }

    /** The weighted vote of every algorithm on h. */
    method CollectVotes(h: seq<Record>) returns (votes: map<Cat, real>, order: seq<Cat>)
      requires forall a :: a in weights
      ensures Votes(votes, order) == Tally(run, weights, h, AllAlgs)
    {
      votes := map[];
      order := [];
      for k := 0 to |AllAlgs|
        invariant Votes(votes, order) == Tally(run, weights, h, AllAlgs[..k])
      {
        TallyStep(run, weights, h, k);
        var a := AllAlgs[k];
        votes, order := CastVote(votes, order, run(a, h), weights[a]);
      }
      assert AllAlgs[..|AllAlgs|] == AllAlgs;
    }

    /** predict: the weighted vote of every algorithm on h, the decision,
        and the suggested totals of the predicted category. */
    method Predict(h: seq<Record>, mem: PredictionMemory, d: Draws) returns (p: Prediction)
      requires Valid() && mem.Valid() && ValidDraws(d)
      modifies mem
      ensures mem.Valid()
      ensures Reports(p, run, weights, old(mem.memory), h, d)
      ensures mem.memory == Remembered(old(mem.memory), p.raw, p.scores)
    {
      var votes, order := CollectVotes(h);
      var best, confidence := Decision(Votes(votes, order), h);
      var scores := mem.ScorePredictor(h, best, d);
      p := Prediction(if best == T then "tài" else "xỉu", confidence, best, scores);
    }
  }

  /** One step of the vote loop of predict. */
  method CastVote(votes: map<Cat, real>, order: seq<Cat>, pred: Option<Cat>, weight: real)
    returns (votes': map<Cat, real>, order': seq<Cat>)
    requires WellOrdered(Votes(votes, order))
    ensures Votes(votes', order') == Cast(Votes(votes, order), pred, weight)
  {
    votes', order' := votes, order;
    if pred.Some? {
      var c := pred.value;
      if c !in votes {
        order' := order + [c];
      }
      votes' := votes[c := (if c in votes then votes[c] else 0.0) + weight];
    }
  }

  /** The decision part of predict, with majority's scan. */
  method Decision(v: Votes, h: seq<Record>) returns (best: Cat, confidence: real)
    requires WellOrdered(v)
    ensures (best, confidence) == Decide(v, h)
  {
    if VoteOf(v.sum, T) == 0.0 && VoteOf(v.sum, X) == 0.0 {
      var f := FreqRebalance(h);
      best := if f.Some? then f.value else T;
      confidence := 0.5;
    } else {
      var e := Entries(v);
      if VoteOf(v.sum, T) != 0.0 {
        assert T in v.order;
      } else {
        assert X in v.order;
      }
      var key, val := Majority(e);
      best := key;
      var total := SumVals(v.sum, v.order);
      confidence := MinReal(0.99, MaxReal(0.51, if total > 0.0 then val / total else 0.51));
    }
  }
}
