/** The whole run of the driver, from the evaluation of the untrained policy
    through the final evaluation, and what it is proved to do. */
module Training {
  import opened Trace
  import opened Settings
  import opened EpisodeSplit
  import opened TrainSchedule
  import opened EvalSchedule
  import opened Driver
  import opened DriverInvariants
  import opened ExpectedTrace

  /** The step budget is spent one environment step per iteration; each step
      takes its action from the warm-up rule and adds exactly one transition
      to the replay buffer, whose done flag is the truncation-aware one. */
  ghost predicate EveryStepRecorded(cfg: Config, dones: seq<bool>, r: State)
  {
    && r.total == (if cfg.maxTimesteps > 0 then cfg.maxTimesteps else 0)
    && r.total <= |dones|
    && |Adds(r.trace)| == r.total
    && (forall i :: 0 <= i < r.total ==> Adds(r.trace)[i] == StoredFlag(cfg, dones, i))
    && |Acts(r.trace)| == r.total
    && (forall i :: 0 <= i < r.total ==> Acts(r.trace)[i] == ActionFor(cfg, i))
  }

  /** Training follows the episodes the done flags mark out: one environment
      reset per episode, one train call per finished episode with that
      episode's length as its iteration count, and none for the last
      episode, whose steps are never trained on. Train call k is issued once
      the transitions of episodes 0 to k are in the buffer and before any
      transition of a later episode. */
  ghost predicate TrainingFollowsEpisodes(cfg: Config, dones: seq<bool>, r: State)
    requires r.total <= |dones|
  {
    var e := Episodes(dones[..r.total]);
    && r.episodeNum == |e|
    && Summarize(r.trace).resets == |e|
    && (r.total == 0 ==> Trains(r.trace) == [])
    && (r.total > 0 ==>
          && Trains(r.trace) == Schedule(cfg, AllButLast(e))
          && |Trains(r.trace)| == |e| - 1
          && r.episode == Last(e)
          && r.episode >= 1)
    && TrainedSteps(Trains(r.trace)) + r.episode == r.total
    && |AddsBeforeTrain(r.trace)| == |Trains(r.trace)|
    && (r.total > 0 ==> forall k :: 0 <= k < |e| - 1 ==> AddsBeforeTrain(r.trace)[k] == Sum(e[..k+1]))
  }

  /** When the policy was evaluated: the untrained policy at step 0, then
      exactly the periodic evaluations of the reference schedule, which lie
      at episode boundaries and number at most one per `evalFreq` steps, and
      the final evaluation at the last step. The evaluation counter ends as
      the reference counter plus the steps of the last episode. */
  ghost predicate EvaluationTimes(cfg: Config, dones: seq<bool>, r: State)
    requires r.total <= |dones|
  {
    var steps := r.record.steps;
    && |steps| >= 2
    && steps[0] == 0
    && Last(steps) == r.total
    && Sorted(steps)
    && AtEpisodeEnds(AllButLast(steps), dones, r.total)
    && (|steps| - 2) * cfg.evalFreq <= r.total
    && r.sinceEval % cfg.evalFreq == r.total % cfg.evalFreq
    && (r.total == 0 ==> steps == [0, 0])
    && (r.total > 0 ==>
          var e := Episodes(dones[..r.total]);
          && steps == [0] + PeriodicEvals(cfg.evalFreq, AllButLast(e)) + [r.total]
          && r.sinceEval == Carry(cfg.evalFreq, AllButLast(e)) + Last(e))
  }

  /** What the evaluation record holds: three parallel lists, the k-th
      evaluation's results at position k, one evaluation event per entry
      issued once as many transitions as its timestep are in the buffer, and
      the record persisted after every evaluation but the first. */
  ghost predicate EvaluationData(cfg: Config, ev: nat -> Evaluation, r: State)
  {
    var steps := r.record.steps;
    && |r.record.groundTruth| == |steps|
    && |r.record.predicted| == |steps|
    && Evals(r.trace) == steps
    && AddsBeforeEval(r.trace) == steps
    && (forall k :: 0 <= k < |steps| ==>
          r.record.groundTruth[k] == ev(k).groundTruth && r.record.predicted[k] == ev(k).predicted)
    && Summarize(r.trace).resultsSaves == |steps| - 1
    && Summarize(r.trace).modelSaves == (if cfg.saveModels then |steps| - 1 else 0)
  }

  /** The driver on the environment's done flags `dones`, one per step the
      run takes, and the evaluation results `ev`, one per evaluation. */
  method Run(cfg: Config, dones: seq<bool>, ev: nat -> Evaluation) returns (r: State)
    requires cfg.maxTimesteps <= |dones|
    ensures EveryStepRecorded(cfg, dones, r)
    ensures TrainingFollowsEpisodes(cfg, dones, r)
    ensures EvaluationTimes(cfg, dones, r)
    ensures EvaluationData(cfg, ev, r)
    ensures EventsInOrder(cfg.saveModels, r.trace)
    ensures r.trace == ExpectedRun(cfg, dones)
    ensures cfg.maxTimesteps <= 0 ==>
      r.record.steps == [0, 0] && Trains(r.trace) == [] && Adds(r.trace) == []
  {
    var s := Init(ev);
    InitEstablishes(cfg, dones, ev);
    while s.total < cfg.maxTimesteps
      invariant s.total <= cfg.maxTimesteps || s.total == 0
      invariant Inv(cfg, dones, ev, s)
      decreases cfg.maxTimesteps - s.total
    {
      IterationPreserves(cfg, dones, ev, s);
      s := Iterate(cfg, s, dones[s.total], ev);
    }
    FinishEstablishes(cfg, dones, ev, s);
    r := Finish(cfg, s, ev);
  }

  /** Once the step budget is spent, the final evaluation leaves a state
      with all of the run's outcomes. */
  lemma FinishEstablishes(cfg: Config, dones: seq<bool>, ev: nat -> Evaluation, s: State)
    requires Inv(cfg, dones, ev, s)
    requires s.total == (if cfg.maxTimesteps > 0 then cfg.maxTimesteps else 0)
    ensures var r := Finish(cfg, s, ev);
      && EveryStepRecorded(cfg, dones, r)
      && TrainingFollowsEpisodes(cfg, dones, r)
      && EvaluationTimes(cfg, dones, r)
      && EvaluationData(cfg, ev, r)
      && EventsInOrder(cfg.saveModels, r.trace)
      && r.trace == ExpectedRun(cfg, dones)
      && (cfg.maxTimesteps <= 0 ==>
            r.record.steps == [0, 0] && Trains(r.trace) == [] && Adds(r.trace) == [])
  {
    FinishSteps(cfg, dones, ev, s);
    FinishTraining(cfg, dones, ev, s);
    FinishRecord(cfg, dones, ev, s);
    OrderStep(cfg, s, Finish(cfg, s, ev));
  }

  lemma FinishSteps(cfg: Config, dones: seq<bool>, ev: nat -> Evaluation, s: State)
    requires s.total <= |dones| && StepsInv(cfg, dones, s)
    requires s.total == (if cfg.maxTimesteps > 0 then cfg.maxTimesteps else 0)
    ensures EveryStepRecorded(cfg, dones, Finish(cfg, s, ev))
  {
    EvaluatedFacts(cfg, s, ev);
    var r := Finish(cfg, s, ev);
    assert Summarize(r.trace).adds == Summarize(s.trace).adds;
    assert Summarize(r.trace).acts == Summarize(s.trace).acts;
  }

  lemma FinishTraining(cfg: Config, dones: seq<bool>, ev: nat -> Evaluation, s: State)
    requires Inv(cfg, dones, ev, s)
    ensures TrainingFollowsEpisodes(cfg, dones, Finish(cfg, s, ev))
  {
    EvaluatedFacts(cfg, s, ev);
    if s.total > 0 {
      var e := Episodes(dones[..s.total]);
      EpisodesCover(dones[..s.total]);
      ScheduleTrainedSteps(cfg, AllButLast(e));
      assert Sum(e) == Sum(AllButLast(e)) + Last(e);
      TrainPoints(e, AddsBeforeTrain(Finish(cfg, s, ev).trace));
    }
  }

  /** The prefix sums of the completed episodes are where each of them ends. */
  lemma TrainPoints(e: seq<nat>, xs: seq<nat>)
    requires |e| > 0 && xs == PrefixSums(AllButLast(e))
    ensures forall k :: 0 <= k < |e| - 1 ==> xs[k] == Sum(e[..k+1])
  {
    forall k | 0 <= k < |e| - 1
      ensures xs[k] == Sum(e[..k+1])
    {
      PrefixSumsAt(AllButLast(e), k);
      assert AllButLast(e)[..k+1] == e[..k+1];
    }
  }

  lemma FinishRecord(cfg: Config, dones: seq<bool>, ev: nat -> Evaluation, s: State)
    requires Inv(cfg, dones, ev, s)
    ensures EvaluationTimes(cfg, dones, Finish(cfg, s, ev))
    ensures EvaluationData(cfg, ev, Finish(cfg, s, ev))
    ensures s.total == 0 ==> Finish(cfg, s, ev).record.steps == [0, 0]
  {
    EvaluatedFacts(cfg, s, ev);
    var r := Finish(cfg, s, ev);
    FinalTimes(cfg, dones, ev, s, r);
    FinalData(cfg, ev, s, r);
  }

  /** The evaluation times after the final evaluation. */
  lemma FinalTimes(cfg: Config, dones: seq<bool>, ev: nat -> Evaluation, s: State, r: State)
    requires CountersInv(cfg, dones, s) && RecordTimesInv(dones, s) && RecordDataInv(cfg, ev, s)
    requires EvalScheduleInv(cfg, dones, s)
    requires s.total > 0 ==> s.episode == Last(Episodes(dones[..s.total]))
    requires r.total == s.total && r.sinceEval == s.sinceEval
    requires r.record.steps == s.record.steps + [s.total]
    ensures EvaluationTimes(cfg, dones, r)
    ensures s.total == 0 ==> r.record.steps == [0, 0]
  {
    var steps := r.record.steps;
    AppendEvaluation(s.record.steps, dones, s.total, s.total);
    assert AllButLast(steps) == s.record.steps;
    assert |steps| - 2 == |s.record.steps| - 1;
    if s.total == 0 {
      assert |s.record.steps| == 1;
    }
  }

  /** The evaluation record's contents after the final evaluation. */
  lemma FinalData(cfg: Config, ev: nat -> Evaluation, s: State, r: State)
    requires RecordDataInv(cfg, ev, s)
    requires r.record == Record(
      s.record.steps + [s.total],
      s.record.groundTruth + [ev(|s.record.steps|).groundTruth],
      s.record.predicted + [ev(|s.record.steps|).predicted])
    requires Summarize(r.trace).evals == Summarize(s.trace).evals + [s.total]
    requires Summarize(r.trace).addsBeforeEval == Summarize(s.trace).addsBeforeEval + [s.total]
    requires Summarize(r.trace).resultsSaves == Summarize(s.trace).resultsSaves + 1
    requires Summarize(r.trace).modelSaves ==
      Summarize(s.trace).modelSaves + (if cfg.saveModels then 1 else 0)
    ensures EvaluationData(cfg, ev, r)
  {
    var steps := r.record.steps;
    assert forall k :: 0 <= k < |steps| ==>
      r.record.groundTruth[k] == ev(k).groundTruth && r.record.predicted[k] == ev(k).predicted;
  }
}
