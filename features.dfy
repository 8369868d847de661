/** Feature derivation over the filtered category sequence: the run-length
    decomposition, the longest run and the summary record the predictors
    read. */
module Features {
  import opened Outcomes

  /** A maximal block of equal consecutive categories. */
  datatype Run = Run(val: Cat, len: nat)

  /** The runs after one more value c: the last run grows when it holds c,
      otherwise a new run of length 1 opens. */
  function Extend(r: seq<Run>, c: Cat): (e: seq<Run>)
    ensures 0 < |e| <= |r| + 1 && e[|e| - 1].val == c
  {
    if |r| > 0 && r[|r| - 1].val == c then
      r[..|r| - 1] + [Run(c, r[|r| - 1].len + 1)]
    else
      r + [Run(c, 1)]
  }

  /** The run-length decomposition of s, built left to right. */
  function Runs(s: seq<Cat>): (rs: seq<Run>)
    ensures |rs| <= |s|
    ensures |rs| == 0 <==> |s| == 0
    ensures |s| > 0 ==> rs[|rs| - 1].val == s[|s| - 1]
  {
    if |s| == 0 then [] else Extend(Runs(s[..|s| - 1]), s[|s| - 1])
  }

  lemma RunsSingle(s: seq<Cat>)
    requires |s| == 1
    ensures Runs(s) == [Run(s[0], 1)]
  {
    assert s[..0] == [];
  }

  /** The decomposition of p + [c] extends that of p. */
  lemma RunsSnoc(p: seq<Cat>, c: Cat)
    ensures Runs(p + [c]) == Extend(Runs(p), c)
  {
    assert (p + [c])[..|p|] == p;
  }

  function Repeat(c: Cat, n: nat): (s: seq<Cat>)
    ensures |s| == n && forall i :: 0 <= i < n ==> s[i] == c
  {
    seq(n, _ => c)
  }

  /** The category sequence a list of runs stands for. */
  function Expand(rs: seq<Run>): seq<Cat> {
    if |rs| == 0 then [] else Expand(rs[..|rs| - 1]) + Repeat(rs[|rs| - 1].val, rs[|rs| - 1].len)
  }

  /** Sum of the run lengths. */
  function LenSum(rs: seq<Run>): nat {
    if |rs| == 0 then 0 else LenSum(rs[..|rs| - 1]) + rs[|rs| - 1].len
  }

  /** Every run is non-empty and neighbouring runs hold different values. */
  ghost predicate ValidRuns(rs: seq<Run>) {
    && (forall i :: 0 <= i < |rs| ==> rs[i].len >= 1)
    && (forall i, j :: 0 <= i && j == i + 1 && j < |rs| ==> rs[i].val != rs[j].val)
  }

  /** Extending valid runs gives valid runs. */
  lemma ExtendValid(r: seq<Run>, c: Cat)
    requires ValidRuns(r)
    ensures ValidRuns(Extend(r, c))
  {
    if |r| > 0 && r[|r| - 1].val == c {
      var e := Extend(r, c);
      assert e[..|e| - 1] == r[..|r| - 1];
    }
  }

  /** Extending by c appends c to the expansion. */
  lemma ExtendExpand(r: seq<Run>, c: Cat)
    ensures Expand(Extend(r, c)) == Expand(r) + [c]
  {
    var e := Extend(r, c);
    if |r| > 0 && r[|r| - 1].val == c {
      var last := r[|r| - 1];
      var init := r[..|r| - 1];
      assert e[..|e| - 1] == init;
      assert Expand(r) == Expand(init) + Repeat(c, last.len);
      assert Repeat(c, last.len + 1) == Repeat(c, last.len) + [c];
      assert Expand(e) == Expand(init) + Repeat(c, last.len + 1);
    } else {
      assert e[..|e| - 1] == r;
      assert Repeat(c, 1) == [c];
    }
  }

  /** The decomposition consists of valid runs. */
  lemma {:induction false} RunsValid(s: seq<Cat>)
    ensures ValidRuns(Runs(s))
  {
    if |s| > 0 {
      RunsValid(s[..|s| - 1]);
      ExtendValid(Runs(s[..|s| - 1]), s[|s| - 1]);
    }
  }

  /** Concatenating the runs gives back the sequence. */
  lemma {:induction false} RunsExpand(s: seq<Cat>)
    ensures Expand(Runs(s)) == s
  {
    if |s| > 0 {
      var p := s[..|s| - 1];
      var c := s[|s| - 1];
      assert Runs(s) == Extend(Runs(p), c);
      RunsExpand(p);
      ExtendExpand(Runs(p), c);
      assert p + [c] == s;
    }
  }

  lemma {:induction false} ExpandLength(rs: seq<Run>)
    ensures |Expand(rs)| == LenSum(rs)
  {
    if |rs| > 0 {
      ExpandLength(rs[..|rs| - 1]);
    }
  }

  /** The run lengths add up to the length of the sequence. */
  lemma RunsLengthSum(s: seq<Cat>)
    ensures LenSum(Runs(s)) == |s|
  {
    RunsExpand(s);
    ExpandLength(Runs(s));
  }

  /** Appending a value that differs from the last run opens a new run. */
  lemma RunsSnocNew(p: seq<Cat>, c: Cat)
    requires |Runs(p)| == 0 || Runs(p)[|Runs(p)| - 1].val != c
    ensures Runs(p + [c]) == Runs(p) + [Run(c, 1)]
  {
    RunsSnoc(p, c);
  }

  /** Appending the value of the last run extends that run. */
  lemma RunsSnocSame(p: seq<Cat>, c: Cat)
    requires |Runs(p)| > 0 && Runs(p)[|Runs(p)| - 1].val == c
    ensures Runs(p + [c]) == Runs(p)[..|Runs(p)| - 1] + [Run(c, Runs(p)[|Runs(p)| - 1].len + 1)]
  {
    RunsSnoc(p, c);
  }

  /** Valid runs are determined by the sequence they expand to: Runs is the
      only decomposition into maximal runs. */
  lemma {:induction false} RunsUnique(rs: seq<Run>, s: seq<Cat>)
    requires ValidRuns(rs) && Expand(rs) == s
    ensures rs == Runs(s)
    decreases |s|
  {
    if |rs| > 0 {
      if rs[|rs| - 1].len == 1 {
        RunsUniqueNewRun(rs, s);
      } else {
        RunsUniqueLongRun(rs, s);
      }
    }
  }

  lemma {:induction false} RunsUniqueNewRun(rs: seq<Run>, s: seq<Cat>)
    requires ValidRuns(rs) && Expand(rs) == s
    requires |rs| > 0 && rs[|rs| - 1].len == 1
    ensures rs == Runs(s)
    decreases |s|, 0
  {
    var v := rs[|rs| - 1].val;
    var init := rs[..|rs| - 1];
    var e := Expand(init);
    assert ValidRuns(init) && s == e + [v] && (|init| > 0 ==> init[|init| - 1].val != v) by {
      DropLastRun(rs);
    }
    assert Runs(e) == init by {
      RunsUnique(init, e);
    }
    NewRunTail(rs, e);
  }

  /** The runs of e + [v] when those of e are rs without its last run, a
      single v that differs from the run before it. */
  lemma NewRunTail(rs: seq<Run>, e: seq<Cat>)
    requires |rs| > 0 && rs[|rs| - 1].len == 1 && Runs(e) == rs[..|rs| - 1]
    requires |rs| > 1 ==> rs[|rs| - 2].val != rs[|rs| - 1].val
    ensures Runs(e + [rs[|rs| - 1].val]) == rs
  {
    var v := rs[|rs| - 1].val;
    var init := rs[..|rs| - 1];
    RunsSnoc(e, v);
    assert Extend(init, v) == init + [Run(v, 1)];
    assert rs == init + [Run(v, 1)];
  }

  lemma {:induction false} RunsUniqueLongRun(rs: seq<Run>, s: seq<Cat>)
    requires ValidRuns(rs) && Expand(rs) == s
    requires |rs| > 0 && rs[|rs| - 1].len >= 2
    ensures rs == Runs(s)
    decreases |s|, 0
  {
    var last := rs[|rs| - 1];
    var init := rs[..|rs| - 1];
    var shorter := init + [Run(last.val, last.len - 1)];
    var p := Expand(shorter);
    ShortenLastRun(rs);
    assert s == p + [last.val];
    RunsUnique(shorter, p);
    RunsSnoc(p, last.val);
    ExtendShorter(init, last);
    assert rs == init + [last];
  }

  lemma ExtendShorter(init: seq<Run>, last: Run)
    requires last.len >= 2
    ensures Extend(init + [Run(last.val, last.len - 1)], last.val) == init + [last]
  {
    var shorter := init + [Run(last.val, last.len - 1)];
    assert shorter[..|shorter| - 1] == init;
  }

  /** Dropping a last run of length 1 removes the last element. */
  lemma DropLastRun(rs: seq<Run>)
    requires ValidRuns(rs) && |rs| > 0 && rs[|rs| - 1].len == 1
    ensures ValidRuns(rs[..|rs| - 1])
    ensures Expand(rs) == Expand(rs[..|rs| - 1]) + [rs[|rs| - 1].val]
    ensures |rs| > 1 ==> rs[..|rs| - 1][|rs| - 2].val != rs[|rs| - 1].val
  {
    var init := rs[..|rs| - 1];
    assert Repeat(rs[|rs| - 1].val, 1) == [rs[|rs| - 1].val];
    assert ValidRuns(init);
  }

  /** Shortening a last run of length at least 2 removes the last element. */
  lemma ShortenLastRun(rs: seq<Run>)
    requires ValidRuns(rs) && |rs| > 0 && rs[|rs| - 1].len >= 2
    ensures var shorter := rs[..|rs| - 1] + [Run(rs[|rs| - 1].val, rs[|rs| - 1].len - 1)];
      && ValidRuns(shorter)
      && Expand(rs) == Expand(shorter) + [rs[|rs| - 1].val]
      && shorter[..|shorter| - 1] == rs[..|rs| - 1]
  {
    var last := rs[|rs| - 1];
    var init := rs[..|rs| - 1];
    var shorter := init + [Run(last.val, last.len - 1)];
    assert shorter[..|shorter| - 1] == init;
    assert Repeat(last.val, last.len) == Repeat(last.val, last.len - 1) + [last.val];
  }

  /** A list of valid runs expands to a sequence ending in its last run's
      value. */
  lemma ExpandLastVal(rs: seq<Run>)
    requires |rs| > 0 && ValidRuns(rs)
    ensures |Expand(rs)| > 0 && Expand(rs)[|Expand(rs)| - 1] == rs[|rs| - 1].val
  {
    var last := rs[|rs| - 1];
    assert Expand(rs) == Expand(rs[..|rs| - 1]) + Repeat(last.val, last.len);
  }

  lemma ExtendLast(init: seq<Run>, last: Run, c: Cat)
    ensures Extend(init + [last], c)
      == if last.val == c then init + [Run(c, last.len + 1)] else init + [last, Run(c, 1)]
  {
    var r := init + [last];
    assert r[..|r| - 1] == init;
  }

  /** One step of the scan of compute_runs: c lengthens the current run
      or closes it and starts a new one. */
  method Advance(runs: seq<Run>, cur: Cat, len: nat, c: Cat) returns (runs': seq<Run>, cur': Cat, len': nat)
    ensures runs' + [Run(cur', len')] == Extend(runs + [Run(cur, len)], c)
  {
    ExtendLast(runs, Run(cur, len), c);
    if c == cur {
      runs', cur', len' := runs, cur, len + 1;
    } else {
      runs', cur', len' := runs + [Run(cur, len)], c, 1;
    }
  }

  /** The decomposition of one more element of tx is the extension of
      the decomposition so far. */
  lemma RunsPrefixStep(tx: seq<Cat>, i: nat, before: seq<Run>, after: seq<Run>)
    requires i < |tx| && Runs(tx[..i]) == before && after == Extend(before, tx[i])
    ensures Runs(tx[..i + 1]) == after
  {
    assert tx[..i + 1] == tx[..i] + [tx[i]];
    RunsSnoc(tx[..i], tx[i]);
  }

  /** The longest run length, 0 when there are no runs. */
  function MaxRun(rs: seq<Run>): (m: nat)
    ensures forall i :: 0 <= i < |rs| ==> rs[i].len <= m
    ensures |rs| == 0 ==> m == 0
    ensures |rs| > 0 ==> exists i :: 0 <= i < |rs| && rs[i].len == m
  {
    if |rs| == 0 then 0
    else
      var m := MaxRun(rs[..|rs| - 1]);
      if rs[|rs| - 1].len > m then rs[|rs| - 1].len else m
  }

  /** The run loop of the feature extractor: walks the sequence once with
      the current value and the length of the run it is in. */
  method ComputeRuns(tx: seq<Cat>) returns (runs: seq<Run>)
    ensures runs == Runs(tx)
  {
    runs := [];
    if |tx| == 0 {
      return;
    }
    var cur := tx[0];
    var len: nat := 1;
    var i := 1;
    RunsSingle(tx[..1]);
    while i < |tx|
      invariant 1 <= i <= |tx|
      invariant Runs(tx[..i]) == runs + [Run(cur, len)]
    {
      var runs', cur', len' := Advance(runs, cur, len, tx[i]);
      RunsPrefixStep(tx, i, runs + [Run(cur, len)], runs' + [Run(cur', len')]);
      runs, cur, len := runs', cur', len';
      i := i + 1;
    }
    assert tx[..i] == tx;
    runs := runs + [Run(cur, len)];
  }

  /** The summary the feature extractor returns (entropy and standard
      deviation of totals are not part of this model). */
  datatype FeatureSet = FeatureSet(
    tx: seq<Cat>,
    totals: seq<int>,
    freq: map<Cat, nat>,
    runs: seq<Run>,
    maxRun: nat,
    meanTotal: real)

  /** The frequency of a category in a frequency table, 0 when absent. */
  function FreqOf(freq: map<Cat, nat>, c: Cat): nat {
    if c in freq then freq[c] else 0
  }

  function FeaturesOf(h: seq<Record>): (f: FeatureSet)
    ensures f.tx == Tx(h) && |f.totals| == |f.tx|
    ensures f.totals == Totals(Filtered(h)) && f.meanTotal == Avg(f.totals)
    ensures forall c :: FreqOf(f.freq, c) == Count(f.tx, c)
    ensures Expand(f.runs) == f.tx && ValidRuns(f.runs)
    ensures f.runs == Runs(f.tx)
    ensures forall i :: 0 <= i < |f.runs| ==> f.runs[i].len <= f.maxRun
    ensures f.maxRun == MaxRun(f.runs)
    ensures f.maxRun == 0 <==> |f.tx| == 0
  {
    var tx := Tx(h);
    var freq := map c | c in tx :: Count(tx, c);
    var runs := Runs(tx);
    assert forall c :: FreqOf(freq, c) == Count(tx, c) by {
      forall c ensures FreqOf(freq, c) == Count(tx, c) {
        CountPositive(tx, c);
      }
    }
    RunsExpand(tx);
    RunsValid(tx);
    FeatureSet(tx, Totals(Filtered(h)), freq, runs, MaxRun(runs), Avg(Totals(Filtered(h))))
  }
}
