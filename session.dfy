/** The manager that owns the history: it loads the initial history, trains
    the ensemble on it, takes one new record at a time, grades the previous
    prediction and makes the next one. */
module Session {
  import opened Outcomes
  import opened Selection
  import opened Voting

  /** The running accuracy after grading a prediction against the label of
      the round: the prediction counts as "TAI" for T and as "XIU"
      otherwise, so a triple round is always a miss. */
  function Judged(stats: Perf, raw: Cat, result: Label): (q: Perf)
    ensures q.total == stats.total + 1
    ensures q.correct == stats.correct + (if (raw == T && result == Tai) || (raw != T && result == Xiu) then 1 else 0)
    ensures result == Bao ==> q.correct == stats.correct
    ensures stats.correct <= stats.total ==> q.correct <= q.total
  {
    var predicted := if raw == T then Tai else Xiu;
    Perf(if predicted == result then stats.correct + 1 else stats.correct, stats.total + 1)
  }

  class Manager {
    var history: seq<Record>
    const ensemble: Ensemble
    const memory: PredictionMemory
    var current: Option<Prediction>
    var stats: Perf

    ghost predicate Valid()
      reads this`stats, ensemble, memory
    {
      && ensemble.Valid() && memory.Valid()
      && stats.correct <= stats.total
    }

    /** A manager over the engine's algorithm list; mem is the shared
        store of recent selections. */
    constructor (mem: PredictionMemory)
      requires mem.Valid()
      ensures Valid() && ensemble.run == Run
      ensures history == [] && current == None && stats == Perf(0, 0)
      ensures memory == mem && fresh(ensemble) && ensemble.Snapshot() == Initial()
    {
      history := [];
      ensemble := new Ensemble(Run);
      memory := mem;
      current := None;
      stats := Perf(0, 0);
    }

    /** calculate_initial_stats: with at least 20 non-triple records, the
        ensemble is updated on every later one from the prefix before it. */
    method CalculateInitialStats()
      requires Valid()
      modifies ensemble
      ensures Valid()
      ensures ensemble.Snapshot() == Trained(ensemble.run, old(ensemble.Snapshot()), Filtered(history), |Filtered(history)|)
    {
      ensemble.Train(Filtered(history));
    }

    /** get_prediction. */
    method GetPrediction(d: Draws) returns (p: Prediction)
      requires Valid() && ValidDraws(d)
      modifies memory
      ensures Valid()
      ensures Reports(p, ensemble.run, old(ensemble.weights), old(memory.memory), old(history), d)
      ensures memory.memory == Remembered(old(memory.memory), p.raw, p.scores)
    {
      p := ensemble.Predict(history, memory, d);
    }

    /** load_initial: the history is replaced, the ensemble fitted and
        trained on it, and the first prediction made. */
    method LoadInitial(lines: seq<Record>, pow15: real -> real, d: Draws)
      requires Valid() && ValidDraws(d)
      modifies `history, `current, ensemble, memory
      ensures Valid()
      ensures history == lines
      ensures ensemble.Snapshot() == Trained(ensemble.run, Fit(ensemble.run, old(ensemble.Snapshot()), lines, pow15), Filtered(lines), |Filtered(lines)|)
      ensures current.Some? && Reports(current.value, ensemble.run, ensemble.weights, old(memory.memory), history, d)
      ensures memory.memory == Remembered(old(memory.memory), current.value.raw, current.value.scores)
    {
      Load(lines, pow15);
      Refresh(d, old(memory.memory));
    }

    /** The part of load_initial before the first prediction. */
    method Load(lines: seq<Record>, pow15: real -> real)
      requires Valid()
      modifies `history, ensemble
      ensures Valid()
      ensures history == lines
      ensures ensemble.Snapshot() == Trained(ensemble.run, Fit(ensemble.run, old(ensemble.Snapshot()), lines, pow15), Filtered(lines), |Filtered(lines)|)
    {
      history := lines;
      ensemble.FitInitial(lines, pow15);
      ghost var fitted := ensemble.Snapshot();
      assert fitted == Fit(ensemble.run, old(ensemble.Snapshot()), lines, pow15);
      CalculateInitialStats();
      assert ensemble.Snapshot() == Trained(ensemble.run, fitted, Filtered(lines), |Filtered(lines)|);
    }

    /** The accuracy bookkeeping of push_record: the previous prediction
        is graded against the label of the new record. */
    method Grade(raw: Cat, result: Label)
      requires stats.correct <= stats.total
      modifies `stats
      ensures stats == Judged(old(stats), raw, result)
    {
      var s := stats.(total := stats.total + 1);
      var predicted := if raw == T then Tai else Xiu;
      if predicted == result {
        s := s.(correct := s.correct + 1);
      }
      stats := s;
    }

    /** push_record: the record is appended; once at least ten non-triple
        records preceded it, the ensemble learns from it and the previous
        prediction, if any, is graded; then the next prediction is made. */
    method PushRecord(record: Record, d: Draws)
      requires Valid() && ValidDraws(d)
      modifies this, ensemble, memory
      ensures Valid()
      ensures history == old(history) + [record]
      ensures var prefix := Filtered(old(history));
        ensemble.Snapshot() == if |prefix| >= 10 then Updated(ensemble.run, old(ensemble.Snapshot()), prefix, record.tx) else old(ensemble.Snapshot())
      ensures stats == if |Filtered(old(history))| >= 10 && old(current).Some? then Judged(old(stats), old(current).value.raw, record.result) else old(stats)
      ensures current.Some? && Reports(current.value, ensemble.run, ensemble.weights, old(memory.memory), history, d)
      ensures memory.memory == Remembered(old(memory.memory), current.value.raw, current.value.scores)
    {
      history := history + [record];
      assert history[..|history| - 1] == old(history);
      var prefix := Filtered(history[..|history| - 1]);
      Learn(prefix, record);
      Refresh(d, old(memory.memory));
    }

    /** The learning part of push_record, from the non-triple records
        before the new one. */
    method Learn(prefix: seq<Record>, record: Record)
      requires Valid()
      modifies `stats, ensemble
      ensures Valid()
      ensures ensemble.Snapshot() == if |prefix| >= 10 then Updated(ensemble.run, old(ensemble.Snapshot()), prefix, record.tx) else old(ensemble.Snapshot())
      ensures stats == if |prefix| >= 10 && current.Some? then Judged(old(stats), current.value.raw, record.result) else old(stats)
    {
      if |prefix| >= 10 {
        ensemble.UpdateWithOutcome(prefix, record.tx);
        if current.Some? {
          Grade(current.value.raw, record.result);
        }
      }
    }

    /** The assignment of the next prediction that closes load_initial and
        push_record. */
    method Refresh(d: Draws, ghost before: map<Cat, seq<seq<int>>>)
      requires Valid() && ValidDraws(d) && memory.memory == before
      modifies `current, memory
      ensures Valid()
      ensures current.Some? && Reports(current.value, ensemble.run, ensemble.weights, before, history, d)
      ensures memory.memory == Remembered(before, current.value.raw, current.value.scores)
    {
      var p := GetPrediction(d);
      SetCurrent(p);
    }

    /** Stores p as the current prediction. */
    method SetCurrent(p: Prediction)
      requires Valid()
      modifies `current
      ensures Valid() && current == Some(p)
      ensures history == old(history) && ensemble.weights == old(ensemble.weights)
    {
      current := Some(p);
    }
  }
}
