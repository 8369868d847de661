# sicbob52 prediction engine in Dafny

This project models the prediction core of `sicbob52.js`. That file is a tài/xỉu (big/small) predictor for a three-dice game.

Each round is a record with a session number and a dice total. Its category (`tx`) is one of:
- X (xỉu) for totals 4–10;
- T (tài) for totals 11–17;
- B (bão, a triple) for 3 or 18;
- N for anything else.

The engine works in four layers:
- Ten voting algorithms. Each looks at the history with the triples removed and votes T, X or nothing.
- An ensemble. It keeps a weight and an accuracy record for every algorithm. It fits them on the initial history, updates them after every new outcome, and predicts by weighted vote.
- A score predictor. It suggests three dice totals of the predicted category. Five analyses (frequency with time decay, transition, smoothed distribution, cluster, gap) are combined. A diversity selector picks three totals, and a shared memory of recent selections can swap one of them for an under-represented total.
- A manager. It owns the history, trains the ensemble when the history is loaded, grades each prediction against the next record, and keeps the running accuracy.

Modules follow that structure:
- `Outcomes`: records, banding, filtering, the shared helpers `last_n`, `majority`, `avg` and `similarity`.
- `Features`: the run-length features of `extract_features`.
- `Windows`: counting windows of the history and what follows them.
- `Predictors`: the ten algorithms.
- `Analyses`: the five score analyses and their combination.
- `Selection`: ranking, the diversity selector, and the `PredictionMemory` class.
- `Voting`: the ensemble state as values, plus the `Ensemble` class.
- `Session`: the `Manager` class.

Code that updates objects in place is modelled as classes with `modifies` clauses:
- `SeiuEnsemble` becomes `Voting.Ensemble`.
- `SeiuManager` becomes `Session.Manager`.
- The global `prediction_memory` becomes `Selection.PredictionMemory`.

Each method is proved equal to a specification function of the old state, for example `Updated`, `Fit`, `Trained`, `Remembered` and `Scored`. The properties are lemmas about those functions. Loops in the source are `while`/`for` loops with invariants. Examples are the run scan, the transition table, the window counters, the selector scan, the replay of `fit_initial` and the training of `calculate_initial_stats`.

Arithmetic is exact:
- JavaScript numbers become `real` (weights, shares, confidences) or `int`/`nat` (counts, totals).
- `Math.pow(x, 1.5)` in `fit_initial` is the function parameter `pow15`.
- `Math.random()` is a `Draws` value of three numbers in [0, 1).
- The insertion order of JavaScript object keys is kept where it decides a result, as the `order` of a vote table.

## Model

| member | source | states |
|---|---|---|
| Outcomes.Category | sicbob52.js:36-47 | X exactly for 4–10, T exactly for 11–17, B exactly for 3 or 18, N for every other total |
| Outcomes.LabelOf | sicbob52.js:36-47 | the traditional label XIU/TAI/BAO/UNKNOWN corresponds one-to-one with the category |
| Outcomes.MakeRecord | sicbob52.js:53-59 | a record keeps its session and total, and its category and label agree with the banding |
| Outcomes.DiceTotalsAreBanded | sicbob52.js:36-47 | a total that three dice can roll (3–18) is never N |
| Outcomes.Filtered | sicbob52.js:117 | the filtered history is no longer than the input and contains no triple |
| Outcomes.FilteredAppend | sicbob52.js:1268 | filtering distributes over appending one record, which is dropped exactly when it is a triple |
| Outcomes.FilteredIdentity | sicbob52.js:117 | a history without triples is its own filtering |
| Outcomes.FilteredIdempotent | sicbob52.js:1113 | filtering twice, as `fit_initial` and the predictors do, equals filtering once |
| Outcomes.Txs | sicbob52.js:118 | the category sequence has one entry per record, in order |
| Outcomes.Totals | sicbob52.js:119 | the totals sequence has one entry per record, in order |
| Outcomes.Tx | sicbob52.js:117-118 | the `tx` feature has one entry per non-triple record, none of them B |
| Outcomes.Count | sicbob52.js:122-125 | a frequency never exceeds the length of the sequence; the same count serves categories and candidate totals |
| Outcomes.CountAppend | sicbob52.js:122-125 | frequencies add over concatenation |
| Outcomes.CountPartition | sicbob52.js:122-125 | without triples, the T, X and N frequencies add up to the length |
| Outcomes.CountPositive | sicbob52.js:122-125 | a frequency is positive exactly when the category occurs |
| Outcomes.LastN | sicbob52.js:65-67 | the result has length min(n, \|s\|) and is the suffix of s of that length |
| Outcomes.Sum | sicbob52.js:84-86 | the reduce sum of the values, 0 for none; `SumBounds` bounds it |
| Outcomes.SumBounds | sicbob52.js:84-86 | a sum of values in [lo, hi] lies between lo·n and hi·n |
| Outcomes.Avg | sicbob52.js:88-90 | the sum divided by the length, 0 for an empty sequence; `AvgBounds` keeps it within the range of the values |
| Outcomes.AvgBounds | sicbob52.js:88-90 | the average of a non-empty sequence of values in [lo, hi] lies in [lo, hi] |
| Outcomes.MatchesFull | sicbob52.js:107-114 | all positions match exactly when the two windows are equal |
| Outcomes.MatchesSymmetric | sicbob52.js:107-114 | the match count does not depend on the order of its arguments |
| Outcomes.Similarity | sicbob52.js:107-114 | similarity lies in [0, 1] |
| Outcomes.SimilarityProperties | sicbob52.js:107-114 | similarity is 1 exactly for equal windows and is symmetric |
| Outcomes.MajorityAt | sicbob52.js:69-82 | the chosen entry has the largest value, and every earlier entry is strictly smaller, so ties go to the first |
| Outcomes.Majority | sicbob52.js:69-82 | the loop returns the key and value of that first largest entry |
| Features.Runs | sicbob52.js:129-148 | run encoding is empty exactly for the empty sequence, has at most one run per symbol, and its last run carries the last symbol |
| Features.RunsSnoc | sicbob52.js:132-141 | appending a symbol extends the last run when equal and opens a run of length 1 otherwise |
| Features.RunsValid | sicbob52.js:129-148 | runs have positive lengths and adjacent runs differ in value |
| Features.RunsExpand | sicbob52.js:129-148 | expanding the runs gives back the sequence (round trip) |
| Features.RunsLengthSum | sicbob52.js:129-148 | the run lengths add up to the length of the sequence |
| Features.RunsUnique | sicbob52.js:129-148 | any valid run list that expands to s is the run encoding of s (inverse in the other direction) |
| Features.ComputeRuns | sicbob52.js:129-148 | the scan with `cur` and `len` yields exactly the run encoding |
| Features.MaxRun | sicbob52.js:149 | max_run bounds every run length, is attained by some run, and is 0 when there are no runs |
| Features.FeaturesOf | sicbob52.js:116-155 | the features hold the filtered categories and totals, mean_total is the average of those totals, frequencies equal counts, runs round-trip to `tx`, and max_run is the longest run (`MaxRun` of the runs), 0 exactly for an empty `tx` |
| Windows.Positions | sicbob52.js:213 | the scanned window positions leave a following symbol inside the sequence |
| Windows.OccurrencesSplit | sicbob52.js:213-218 | every occurrence of a window is followed by T, X or N, so the three follower counts add up to the occurrences |
| Windows.Bumped | sicbob52.js:217 | a follower bumps the t or x counter of its key; an N follower bumps neither |
| Windows.BuildTransitions | sicbob52.js:211-218 | the transition table has exactly the order-length keys that occur, each with its T and X follower counts |
| Windows.OneMoreWindow | sicbob52.js:249-255 | moving the scan one position on adds one occurrence and one follower exactly when the window matches |
| Windows.CountFollowers | sicbob52.js:249-256 | the n-gram scan returns the T and X follower counts and the number of exact matches of the last k symbols |
| Windows.Similar80Exact | sicbob52.js:291-297 | a similarity of at least 0.8 holds exactly when 5·matches ≥ 4·length |
| Windows.CountSimilarFollowers | sicbob52.js:287-301 | the neo-pattern scan returns the T and X follower counts over windows at least 80% similar to the target |
| Windows.Recency | sicbob52.js:413-415 | a window's weight is non-negative, and positive when its similarity is positive |
| Windows.WeightedSums | sicbob52.js:409-422 | the transformer's T, X and similarity sums are non-negative |
| Windows.WeightedSumsPositive | sicbob52.js:409-426 | a positive similarity sum implies a positive T+X sum, so the ratio test never divides by zero |
| Windows.TransformerScan | sicbob52.js:406-422 | the attention loop computes the weighted sums |
| Predictors.FreqRebalance | sicbob52.js:160-196 | the vote is T, X or none; none below 15 records or with no non-triple record |
| Predictors.FreqRebalanceContrarian | sicbob52.js:184-193 | the rebalancer votes X only when T leads in the last 10 or the last 30, and T only when X does |
| Predictors.RebalanceRules | sicbob52.js:184-193 | the six rules in order, each voting T, X or none; `RulesContrarian` proves each vote goes against the recent leader |
| Predictors.RulesContrarian | sicbob52.js:184-193 | the same contrarian property for the rule cascade on its counters |
| Predictors.BestOf | sicbob52.js:220-231 | the best candidate above the gate is a listed candidate whose confidence is at least that of every candidate above the gate; none means confidence 0 |
| Predictors.BestOfFirst | sicbob52.js:225 | of equally confident candidates the first is kept (strict improvement) |
| Predictors.MarkovCandidate | sicbob52.js:207-231 | an order's candidate exists only with at least order+5 symbols and a non-empty count for the last key; it names the majority follower at confidence \|t−x\|/(t+x) |
| Predictors.MarkovOrder | sicbob52.js:207-231 | the table-building loop for one order yields that candidate |
| Predictors.Markov | sicbob52.js:199-235 | the vote is T, X or none, and none below 20 symbols |
| Predictors.MarkovJustified | sicbob52.js:199-235 | a Markov vote comes from some order 2–5 whose last-key followers favour it with margin above 0.6 |
| Predictors.NGramCandidate | sicbob52.js:242-264 | a candidate for gram size k needs at least k+10 symbols |
| Predictors.NGramOrder | sicbob52.js:242-264 | the scan for one gram size yields that candidate |
| Predictors.NGramFrom | sicbob52.js:241-267 | the n-gram vote is the candidate of the first gram size that has one |
| Predictors.NGram | sicbob52.js:238-268 | the vote is T, X or none, and none below 13 symbols |
| Predictors.NGramNeedsThirteen | sicbob52.js:241-242 | no gram size from 3 up yields a vote on fewer than 13 symbols |
| Predictors.NGramCandidateMajority | sicbob52.js:249-263 | a vote needs at least 3 exact matches of the last gram and names their strict majority follower |
| Predictors.NeoCandidate | sicbob52.js:282-313 | a pattern length's candidate names T or X with non-negative confidence |
| Predictors.NeoOrder | sicbob52.js:282-313 | the similarity scan for one pattern length yields that candidate |
| Predictors.NeoPattern | sicbob52.js:271-317 | the vote is T, X or none, and none below 40 symbols |
| Predictors.NeoConfidenceIsMargin | sicbob52.js:303-307 | \|t/(t+x) − x/(t+x)\| equals the margin \|t−x\|/(t+x) |
| Predictors.DeepPatternsMinority | sicbob52.js:340-347 | every pattern of the deep analysis predicts the category in the minority of its five symbols |
| Predictors.TrendVote | sicbob52.js:369-371 | at most one vote, T or X: the leader of the last 50 symbols when it leads by more than 10 |
| Predictors.LevelVote | sicbob52.js:373-377 | at most one vote, T or X: X above a recent average total of 13, T below 8.5 |
| Predictors.PatternVote | sicbob52.js:338-354 | at most one vote, T or X: the pattern table's entry for the last five symbols; `DeepPatternsMinority` says which side it takes |
| Predictors.RunVote | sicbob52.js:355-366 | the run rule votes at most once, and only against the value of the current run |
| Predictors.DeepVotes | sicbob52.js:328-382 | the deep analysis collects at most four votes, each T or X |
| Predictors.DeepAnalysis | sicbob52.js:320-394 | none below 80 records; a vote has at least two supporting signals and strictly more than the opposite |
| Predictors.DeepTwoAgreeing | sicbob52.js:387-391 | two agreeing signals with no dissent always produce that vote |
| Predictors.Transformer | sicbob52.js:397-435 | the vote is T, X or none; none below 60 symbols; a vote needs a similarity sum above 2 |
| Predictors.TransformerOf | sicbob52.js:397-435 | the method over the scan yields that vote |
| Predictors.TransformerWeightGuard | sicbob52.js:424-426 | once the similarity sum passes 2, the T+X total is positive |
| Predictors.Singles | sicbob52.js:458-467 | the number of length-1 runs is at most the number of runs |
| Predictors.Bridge | sicbob52.js:438-477 | the bridge predictor votes T, X or none |
| Predictors.BridgeOf | sicbob52.js:442-474 | none with fewer than 5 runs; a last run of length ≥ 4 is reversed; from 5 runs on, an alternating tail (two singles last, four singles among the last six runs, or among all of them when there are fewer) is reversed |
| Predictors.BridgeLongRunReversal | sicbob52.js:453-455 | with at least 5 runs and a current run of 4 or more, the vote is the opposite of the last symbol |
| Predictors.BridgeFourRunsAbstains | sicbob52.js:442-447 | with exactly four runs the predictor abstains, although its first guard only demands four |
| Predictors.BridgeAlternation | sicbob52.js:458-467 | five single runs at the end of five or more always produce the opposite of the last symbol |
| Predictors.AdaptiveCandidate | sicbob52.js:490-511 | an order's candidate needs order+5 symbols and at least two last-key followers, with confidence the margin |
| Predictors.MaxOrder | sicbob52.js:487 | the largest order is at most 4 and at most a tenth of the length, and at least 2 from 25 symbols on |
| Predictors.AdaptiveCands | sicbob52.js:487-512 | the candidates are those of orders 2 up to the largest order |
| Predictors.AdaptiveMarkov | sicbob52.js:480-520 | the vote is T, X or none, and none below 25 symbols |
| Predictors.AdaptiveJustified | sicbob52.js:480-520 | an adaptive vote comes from an order 2–4 with order·10 ≤ length, two or more followers and margin above 0.7 |
| Predictors.PatternTablesAgree | sicbob52.js:558-570 | the neural pattern table has the same patterns as the deep table, its probabilities sum to 1 and favour the same side |
| Predictors.PatternScore | sicbob52.js:567-570 | the pattern layer adds at most 0.18 to either side |
| Predictors.NeuralPatternsBounded | sicbob52.js:558-570 | every pattern probability lies in [0, 0.9] |
| Predictors.NeuralScores | sicbob52.js:530-575 | both neural scores lie in [0, 0.93] |
| Predictors.Neural | sicbob52.js:523-582 | none below 50 symbols; a vote needs scores more than 0.25 apart and names the larger one |
| Predictors.HighEntropy | sicbob52.js:626-627 | the entropy test on twenty symbols; `UniformWindowLowEntropy` and `BalancedWindowHighEntropy` pin both outcomes |
| Predictors.UniformWindowLowEntropy | sicbob52.js:626-631 | twenty equal symbols never pass the high-entropy test |
| Predictors.BalancedWindowHighEntropy | sicbob52.js:626-631 | ten T and ten X always pass the high-entropy test |
| Predictors.QuantumFrequency | sicbob52.js:595-600 | the frequency state adds 0.3 to at most one side |
| Predictors.QuantumPattern | sicbob52.js:603-623 | the pattern state adds 0.25 to at most one side |
| Predictors.QuantumPatternOf | sicbob52.js:603-623 | the loops over the last eight symbols compute the pattern state |
| Predictors.QuantumEntropy | sicbob52.js:626-631 | the entropy state adds 0.2 to at most one side |
| Predictors.Quantum | sicbob52.js:585-643 | the vote is T, X or none, and none below 40 symbols |
| Predictors.QuantumVote | sicbob52.js:634-640 | the measurement votes T, X or none |
| Predictors.QuantumUnanimous | sicbob52.js:585-643 | a quantum vote needs at least two states firing, and none of them for the other side |
| Predictors.QuantumStatesAgree | sicbob52.js:634-640 | the same property for the measurement on the combined scores |
| Analyses.Available | sicbob52.js:649-652 | the candidate totals are seven consecutive totals starting at 11 for T and at 4 otherwise |
| Analyses.AvailableBanded | sicbob52.js:649-652 | every candidate total belongs to the predicted category |
| Analyses.Normalize | sicbob52.js:862-865 | normalising positive weights gives a distribution proportional to them |
| Analyses.DividedDistribution | sicbob52.js:862-865 | dividing positive weights by their sum gives a distribution |
| Analyses.Uniform | sicbob52.js:811-817 | the fallback table is the uniform distribution 1/7 |
| Analyses.Decay | sicbob52.js:704-705 | the time-decay weight lies in (0, 1] |
| Analyses.DecayDecreasing | sicbob52.js:704-705 | older occurrences weigh strictly less |
| Analyses.FrequencyWeights | sicbob52.js:700-709 | the decayed hit weights cover exactly the candidates and are non-negative |
| Analyses.FrequencyAnalysis | sicbob52.js:694-729 | the frequency analysis is positive on every candidate and at most 1 |
| Analyses.FrequencyShares | sicbob52.js:712-718 | a hit candidate's share of the weight total lies in (0, 1] |
| Analyses.FrequencyScan | sicbob52.js:700-709 | the scan stores exactly the positive decayed hit weights of the candidates |
| Analyses.StateNext | sicbob52.js:736-749 | the transitions to a total never exceed the occurrences of the two-total state |
| Analyses.SequenceAnalysis | sicbob52.js:731-774 | the transition analysis is positive on every candidate and at most 1 |
| Analyses.SequenceShares | sicbob52.js:755-762 | an observed transition probability lies in (0, 1] |
| Analyses.TotalsOf | sicbob52.js:777 | there are no more totals of the predicted category than records |
| Analyses.DistributionAnalysis | sicbob52.js:776-803 | the distribution analysis is positive on every candidate |
| Analyses.Smoothed | sicbob52.js:794-800 | each candidate gets (count + 1)/(n + 7), the Laplace-smoothed frequency |
| Analyses.DistributionSumsToOne | sicbob52.js:776-803 | on a well-formed history the smoothed distribution sums to exactly 1 |
| Analyses.SortAsc | sicbob52.js:1060 | the ascending sort is a sorted permutation of its input |
| Analyses.Groups | sicbob52.js:820-844 | grouping is empty exactly for empty input and yields non-empty groups |
| Analyses.GroupsFlatten | sicbob52.js:820-844 | concatenating the groups gives back the sorted totals |
| Analyses.GroupsClose | sicbob52.js:820-844 | consecutive totals within a group are at most 2 apart |
| Analyses.Bonus | sicbob52.js:849-859 | the cluster bonus is non-negative |
| Analyses.BonusInCluster | sicbob52.js:849-859 | a total inside a group of two or more gets a bonus of at least 0.2 |
| Analyses.BonusOutside | sicbob52.js:849-859 | a total in no such group gets no bonus |
| Analyses.ClusterRaw | sicbob52.js:849-859 | each candidate weighs 1 plus its cluster bonus |
| Analyses.ClusterAnalysis | sicbob52.js:805-868 | the cluster analysis is a distribution over the candidates |
| Analyses.ClusterFavoursClustered | sicbob52.js:849-865 | a clustered candidate ends above an unclustered one |
| Analyses.LastSeen | sicbob52.js:875-881 | the last index where the total appeared under the category, with no later one; none when it never did |
| Analyses.LastSeenScan | sicbob52.js:875-881 | the scan returns that index, or −1 |
| Analyses.GapValue | sicbob52.js:883-888 | the gap value lies in (0, 1] |
| Analyses.GapAnalysis | sicbob52.js:870-898 | the gap analysis is a distribution over the candidates |
| Analyses.GapMonotone | sicbob52.js:883-888 | a total seen longer ago weighs at least as much as one seen more recently |
| Analyses.AllTables | sicbob52.js:664-677 | all five analyses are positive on every candidate |
| Analyses.Combine | sicbob52.js:900-923 | the combined table covers exactly the candidates with the 0.25/0.20/0.20/0.20/0.15 mix |
| Analyses.CombineBounds | sicbob52.js:900-923 | mixing values in (0, 1] stays in (0, 1] |
| Analyses.CombineDistribution | sicbob52.js:900-923 | mixing five distributions with weights summing to 1 gives a distribution |
| Selection.BeforeTransitive | sicbob52.js:926-928 | the ranking order is transitive |
| Selection.BeforeTotal | sicbob52.js:926-928 | any two distinct ranked totals are ordered |
| Selection.RankInsert | sicbob52.js:926-928 | one insertion step keeps the elements |
| Selection.Ranked | sicbob52.js:926-928 | the ranking is a permutation of the candidates |
| Selection.RankedSorted | sicbob52.js:926-928 | the ranking is sorted by descending weight, ties by ascending total (a stable sort of ascending keys) |
| Selection.RankedMembers | sicbob52.js:926-928 | the ranking holds exactly the candidates |
| Selection.RankedFirst | sicbob52.js:940-943 | the first ranked total ranks before every other candidate |
| Selection.FirstInSound | sicbob52.js:957-975 | the first ranked total in a range other than the top is in that range; none means there is none |
| Selection.FirstInBest | sicbob52.js:957-975 | that total ranks before every other eligible total of the range |
| Selection.MinOf | sicbob52.js:936 | the minimum is an element and a lower bound |
| Selection.MaxOf | sicbob52.js:937 | the maximum is an element and an upper bound |
| Selection.RangeOf | sicbob52.js:936-938 | for seven consecutive totals the range is avail[0]…avail[0]+6 with midpoint avail[0]+3 |
| Selection.Choice | sicbob52.js:925-1009 | the three picks of the selection; `ChoiceTriple`, `ChoiceTop`, `ChoiceLow` and `ChoiceHigh` describe them |
| Selection.ChoiceTriple | sicbob52.js:925-1009 | the selection is three distinct candidates: the top, one below the midpoint and one above it |
| Selection.PartsNonEmpty | sicbob52.js:977-1006 | the low and high ranges always hold a candidate other than the top, so the fallbacks never run |
| Selection.ChoiceTop | sicbob52.js:940-943 | the first pick ranks before every candidate |
| Selection.ChoiceLow | sicbob52.js:957-975 | the low pick is the best-ranked candidate below the midpoint other than the top |
| Selection.ChoiceHigh | sicbob52.js:957-975 | the high pick is the best-ranked candidate above the midpoint other than the top |
| Selection.SelectOptimalScores | sicbob52.js:925-1009 | the scan with three running bests returns exactly that choice |
| Selection.Scaled | sicbob52.js:1052-1053 | `floor(r·n)` for r in [0, 1) is a valid index |
| Selection.Pushed | sicbob52.js:1027-1036 | pushing keeps at most ten selections, the newest last, dropping the oldest beyond ten |
| Selection.PushedReplaced | sicbob52.js:1030-1060 | replacing the stored last selection by the final result equals pushing the result, which is what the shared array amounts to |
| Selection.RememberedBounded | sicbob52.js:1027-1036 | after a push every category keeps at most ten selections, the new one last, and other categories are unchanged |
| Selection.MinCoverage | sicbob52.js:1047 | the minimum coverage is attained by some candidate and bounds every candidate |
| Selection.WithCoverage | sicbob52.js:1048 | the filter keeps exactly the candidates of the given coverage |
| Selection.Underrepresented | sicbob52.js:1039-1048 | the under-represented totals are exactly the candidates of least coverage, and there is at least one |
| Selection.Swapped | sicbob52.js:1051-1058 | the swap changes at most one position to an under-represented total not already selected, only when the draw is below 0.3, and keeps the totals distinct |
| Selection.SwapStep | sicbob52.js:1051-1058 | the method with the random draws computes that swap |
| Selection.DistinctPermutation | sicbob52.js:1060 | a permutation of distinct totals stays distinct |
| Selection.Covered | sicbob52.js:1023-1061 | coverage returns a sorted selection of the same size, each total selected or under-represented, distinct if the input was |
| Selection.CoveredTriple | sicbob52.js:1023-1061 | a distinct triple of candidates comes back as a strictly increasing triple of candidates |
| Selection.PredictionMemory.constructor | sicbob52.js:16 | the memory starts with no selections for T and X |
| Selection.PredictionMemory.Remember | sicbob52.js:1027-1036 | the stored list of the category becomes the pushed list; nothing else changes |
| Selection.PredictionMemory.EnsureFullCoverage | sicbob52.js:1023-1061 | the result is the sorted swap against the coverage of the pushed list, and the memory ends with the result as the newest selection |
| Selection.PredictionMemory.ScorePredictor | sicbob52.js:648-692 | the suggested totals are the specified score prediction, and the memory records them |
| Selection.CombinedWeightsValid | sicbob52.js:664-686 | the combined table weighs every candidate positively |
| Selection.Scored | sicbob52.js:648-692 | the score predictor's result: the selection over the combined weights after the coverage step; `ScoredTriple` proves it is three increasing totals of the category |
| Selection.ScoredTriple | sicbob52.js:648-692 | the score predictor always suggests three strictly increasing totals of the predicted category |
| Selection.CombinePositive | sicbob52.js:900-923 | the mix of positive tables is positive on every candidate |
| Voting.IndexOf | sicbob52.js:1064-1094 | each algorithm has a position in the list |
| Voting.IndexOfAt | sicbob52.js:1064-1094 | positions and list entries are inverse |
| Voting.AllListed | sicbob52.js:1064-1094 | every algorithm is in the list |
| Voting.RunsVote | sicbob52.js:1064-1094 | the engine's algorithms only ever vote T or X |
| Voting.Run | sicbob52.js:1064-1094 | dispatch to an algorithm gives a T, X or no vote |
| Voting.Graded | sicbob52.js:1122-1128 | a vote adds one to the total and, when right, one to the correct count; an abstention adds nothing |
| Voting.Regraded | sicbob52.js:1121-1129 | grading one round keeps the set of algorithms |
| Voting.Replayed | sicbob52.js:1118-1131 | the replay keeps the set of algorithms |
| Voting.ReplayedBounds | sicbob52.js:1118-1131 | replaying n records keeps correct ≤ total, adds at most n−20 to each total, and never lowers a correct count |
| Voting.Accuracy | sicbob52.js:1137 | the accuracy lies in [0, 1] and is 0.5 without a record |
| Voting.Normalized | sicbob52.js:1144-1146 | normalisation keeps every algorithm |
| Voting.NormalizedDistribution | sicbob52.js:1144-1146 | normalising positive weights gives weights in (0, 1] that sum to 1 |
| Voting.FitWeight | sicbob52.js:1137-1139 | a fitted weight is at least 0.001 |
| Voting.Fitted | sicbob52.js:1134-1141 | every algorithm gets its fitted weight |
| Voting.FittedTotal | sicbob52.js:1134-1141 | the fitted total is positive, so the division that follows is defined |
| Voting.Target | sicbob52.js:1179 | the target weight lies in [0.01, 1] |
| Voting.Learned | sicbob52.js:1175-1182 | the learning step on one weight; `LearnedContracts` states its value and bounds |
| Voting.LearnedContracts | sicbob52.js:1175-1182 | the new weight is at least 0.001; from a weight of at least 0.001 it closes 20% of the gap to the target and stays between the two |
| Voting.Relearned | sicbob52.js:1163-1183 | relearning keeps the set of algorithms |
| Voting.Initial | sicbob52.js:1106-1109 | initially every weight is 1 and every record 0/0 |
| Voting.Fit | sicbob52.js:1112-1158 | fitting keeps every algorithm in both tables |
| Voting.Updated | sicbob52.js:1160-1191 | an update keeps every algorithm in both tables |
| Voting.UpdatedCounters | sicbob52.js:1161-1172 | a triple outcome changes nothing; otherwise each voter's total goes up by one and its correct count by one when right; an abstainer's record is untouched |
| Voting.FitValid | sicbob52.js:1112-1158 | fitting keeps weights positive and records consistent, and with 30 or more records the weights sum to 1 |
| Voting.UpdatedValid | sicbob52.js:1160-1191 | an update keeps weights positive and records consistent, and after a real outcome the weights sum to 1 |
| Voting.Trained | sicbob52.js:1239-1250 | training keeps every algorithm in both tables |
| Voting.TrainedValid | sicbob52.js:1239-1250 | training keeps the state valid, and after a round the weights sum to 1 |
| Voting.Cast | sicbob52.js:1196-1201 | adding a vote keeps the vote table well ordered |
| Voting.Tally | sicbob52.js:1196-1201 | the vote table is well ordered |
| Voting.TallyStep | sicbob52.js:1196-1201 | the tally over one more algorithm casts its vote with its weight |
| Voting.TallyCats | sicbob52.js:1196-1201 | only T and X receive votes |
| Voting.TallySupport | sicbob52.js:1196-1201 | a category's total is the sum of the weights of the algorithms voting for it |
| Voting.TallyVoted | sicbob52.js:1196-1201 | a category is in the vote table exactly when some algorithm voted for it |
| Voting.Entries | sicbob52.js:1209 | the entries follow insertion order with their totals |
| Voting.Decide | sicbob52.js:1203-1213 | the fallback or the weighted majority with its clamped share; `DecideConfidence` and `DecideMajority` state both |
| Voting.DecideConfidence | sicbob52.js:1205-1212 | the confidence is 0.5 exactly when there is no vote, and otherwise lies in [0.51, 0.99] |
| Voting.DecideMajority | sicbob52.js:1209-1212 | with votes, the choice has the largest total, and ties go to the category voted for first |
| Voting.LabelText | sicbob52.js:1219 | the label is "tài" exactly for T |
| Voting.DecisionShape | sicbob52.js:1193-1224 | the ensemble always decides T or X, with confidence 0.5 or within [0.51, 0.99] |
| Voting.Ensemble.constructor | sicbob52.js:1098-1110 | a new ensemble is in the initial state over the given algorithms |
| Voting.Ensemble.DivideAll | sicbob52.js:1144-1146 | every weight is divided by the total; records are unchanged |
| Voting.Ensemble.GradeOne | sicbob52.js:1122-1129 | one algorithm is asked and its record graded |
| Voting.Ensemble.GradeAll | sicbob52.js:1121-1130 | every algorithm's record is graded on one round |
| Voting.Ensemble.LearnOne | sicbob52.js:1163-1183 | one algorithm's record is graded and, if it voted, its weight moved by the learning rule |
| Voting.Ensemble.ReplayAll | sicbob52.js:1118-1131 | after the replay the records are the replayed records; weights are unchanged |
| Voting.Ensemble.Refit | sicbob52.js:1134-1141 | the weights become the fitted weights and the returned total is their sum |
| Voting.Ensemble.FitInitial | sicbob52.js:1112-1158 | the state becomes the fit of the old state and stays valid |
| Voting.Ensemble.LearnAll | sicbob52.js:1163-1183 | the records are graded and the weights relearned for one outcome |
| Voting.Ensemble.UpdateWithOutcome | sicbob52.js:1160-1191 | the state becomes the update of the old state and stays valid |
| Voting.Ensemble.Train | sicbob52.js:1239-1250 | the state becomes the training of the old state over the whole sequence |
| Voting.Ensemble.CollectVotes | sicbob52.js:1196-1201 | the loop builds exactly the weighted vote table |
| Voting.Ensemble.Predict | sicbob52.js:1193-1224 | the prediction is the decision on the weighted vote with its label and score prediction, and the memory records the suggested totals |
| Voting.CastVote | sicbob52.js:1197-1200 | one step of the vote loop adds the weight to the predicted category |
| Voting.Decision | sicbob52.js:1203-1213 | the branch computes the decision and confidence |
| Session.Judged | sicbob52.js:1273-1278 | the total goes up by one and the correct count when the predicted label matches; a triple round is always a miss |
| Session.Manager.constructor | sicbob52.js:1229-1237 | a new manager has no history, no prediction, 0/0 accuracy and an ensemble over the engine's algorithms in its initial state |
| Session.Manager.CalculateInitialStats | sicbob52.js:1239-1250 | the ensemble is trained on the filtered history |
| Session.Manager.GetPrediction | sicbob52.js:1295-1297 | the prediction is what the ensemble reports on the history |
| Session.Manager.LoadInitial | sicbob52.js:1252-1256 | the history is replaced, the ensemble is fitted and then trained on it, and the current prediction is reported on it and its totals are remembered |
| Session.Manager.Load | sicbob52.js:1252-1254 | the history is replaced and the ensemble fitted and trained |
| Session.Manager.Grade | sicbob52.js:1273-1278 | the running accuracy is judged against the new record |
| Session.Manager.PushRecord | sicbob52.js:1265-1289 | the record is appended; with at least ten earlier non-triple records the ensemble learns from it and the previous prediction is graded; a fresh prediction is made and its totals are remembered |
| Session.Manager.Learn | sicbob52.js:1268-1281 | the learning and grading guarded by the ten-record prefix |
| Session.Manager.Refresh | sicbob52.js:1255 | the current prediction is the report on the current history, and its totals are remembered under the predicted category |

## Left out

- Reading the game's JSON feed: HTTP polling, the sort by session and the parsing of `gameNum`, `facesList` and `keyR` are I/O. A record is built from its session and total by `MakeRecord`. Dice faces are not modelled because nothing in the core reads them.
- The fastify server, its routes and the response formatting are I/O.
- Console logging is left out, including the accuracy line printed every 50 predictions and the per-algorithm accuracy log of `fit_initial`.
- `extract_features.std_total` and `entropy`: no predictor reads them, so `FeaturesOf` has no such fields. `mean_total` is kept as `meanTotal`, the average of the filtered totals.
- `entropy` is used only by the quantum predictor, on exactly twenty symbols. There it is modelled as the exact test 2^18·∏cᶜ < 20^20, which is equivalent to an entropy above 0.9 bits. Floating-point rounding near that threshold is not modelled.
- Floating point: all weights, shares and confidences are exact rationals, so rounding in JavaScript is not modelled.
- `Voting.FitWeight`: `Math.pow(accuracy, 1.5)` is the parameter `pow15`.
  - The model does not state that pow15 is the 1.5-th power.
  - Without that, it cannot state that fitted weights grow with accuracy.
- `Math.random()` becomes the three `Draws` values passed to each prediction.
- `ema_alpha` is never read.
- `history_window` and `min_weight` are fixed at their defaults, 500 and 0.001.
- Dead branches are not modelled:
  - the fewer-than-three-candidates branch of `algod_score_predictor`;
  - the fallbacks of `select_optimal_scores`, together with `get_default_selection`.
  
  `Selection.PartsNonEmpty` proves that those fallbacks never run.
- The algorithm list is the `Voters` parameter of an ensemble. `Session.Manager` always builds the engine's own list, `Voting.Run`. Algorithm objects and their string ids become the datatype `Voting.Algo`.
- `ensure_full_coverage` sorts the `selected` array in place, and that array is also the last entry of the memory list. The model uses values:
  - the memory's last entry is the final sorted result (`Selection.PushedReplaced`);
  - the coverage is counted on the selection before the swap, as the code does.
- `majority`'s `max_k` is null only for an empty table, and `predict` never calls it with one, so that case is not modelled.
- Three behaviours of the program are modelled as written.
  - Initial weights: the constructor sets each weight to 1 and does not normalise; `Voting.Initial` does the same.
  - Triple records in the accuracy: `push_record` grades a prediction against a BAO record as a miss (`Session.Judged`).
  - Training on load: the initial history is replayed twice. `fit_initial` replays only the counters on the last 500 records. `calculate_initial_stats` then runs the full online update on every record of the whole filtered history.
- Duplicated records from the caller: the poller stores the array it passes to `load_initial` as its own `txh_history` (sicbob52.js:1329-1330), so the manager's `history` and `txh_history` are the same array. Each new record is then appended twice, once by `push_record` and once by `txh_history.push` (sicbob52.js:1337-1340), until the poller re-slices its copy past 500 records. `Session.Manager` keeps its history as a value of its own, so it sees each polled record once; the aliasing and the doubled records are not modelled.
- `Voting.Relearned` has an extra guard, `graded[a].total > 0`. It always holds after a vote, but it is written out because the function cannot see that.
