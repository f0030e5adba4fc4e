/** The events a run issues, in order, stated from the environment's done
    flags and the configuration alone. */
module ExpectedTrace {
  import opened Trace
  import opened Settings
  import opened EpisodeSplit
  import opened EvalSchedule
  import opened Driver

  /** The events of the episode boundary before step `i`: after the first
      step, the train call for the episode just finished; then, when the
      evaluation counter has reached `evalFreq`, the evaluation at `i` and
      its saves; then the environment reset. */
  function ExpectedBoundary(cfg: Config, dones: seq<bool>, i: nat): seq<Event>
    requires i <= |dones|
  {
    if i == 0 then [EnvReset]
    else
      var e := Episodes(dones[..i]);
      [Trained(TrainCall(Last(e), GuidanceFor(cfg, i)))]
      + (if Carry(cfg.evalFreq, AllButLast(e)) + Last(e) >= cfg.evalFreq
         then EvaluationEvents(cfg.saveModels, i) else [])
      + [EnvReset]
  }

  /** The events of step `i`: the boundary work when step `i` opens an
      episode, then the action and the buffer add of the step. */
  function ExpectedStep(cfg: Config, dones: seq<bool>, i: nat): seq<Event>
    requires i < |dones|
  {
    (if i == 0 || dones[i - 1] then ExpectedBoundary(cfg, dones, i) else [])
    + [Acted(ActionFor(cfg, i)), Added(StoredFlag(cfg, dones, i))]
  }

  /** The events issued before the loop and during its first `n` steps. */
  function ExpectedLoop(cfg: Config, dones: seq<bool>, n: nat): seq<Event>
    requires n <= |dones|
  {
    if n == 0 then [Evaluated(0)]
    else ExpectedLoop(cfg, dones, n - 1) + ExpectedStep(cfg, dones, n - 1)
  }

  /** The events of the whole run: the loop over the step budget, then the
      final evaluation at the last step and its saves. */
  function ExpectedRun(cfg: Config, dones: seq<bool>): seq<Event>
    requires cfg.maxTimesteps <= |dones|
  {
    var n := if cfg.maxTimesteps > 0 then cfg.maxTimesteps else 0;
    ExpectedLoop(cfg, dones, n) + EvaluationEvents(cfg.saveModels, n)
  }

  /** An evaluation is immediately followed by its saves. */
  lemma EvaluationEventsPersist(saveModels: bool, step: nat)
    ensures Persisting(saveModels, EvaluationEvents(saveModels, step))
  {
    assert PersistedAt(saveModels, EvaluationEvents(saveModels, step), 1);
  }

  /** Within one step's events, every evaluation is immediately followed by
      its saves. */
  lemma ExpectedStepPersists(cfg: Config, dones: seq<bool>, i: nat)
    requires i < |dones|
    ensures Persisting(cfg.saveModels, ExpectedStep(cfg, dones, i))
  {
    var sm := cfg.saveModels;
    var tail: seq<Event> := [Acted(ActionFor(cfg, i)), Added(StoredFlag(cfg, dones, i))];
    assert Persisting(sm, tail);
    if i == 0 || dones[i - 1] {
      var b := ExpectedBoundary(cfg, dones, i);
      if i > 0 {
        var e := Episodes(dones[..i]);
        var train: seq<Event> := [Trained(TrainCall(Last(e), GuidanceFor(cfg, i)))];
        var eval := if Carry(cfg.evalFreq, AllButLast(e)) + Last(e) >= cfg.evalFreq
          then EvaluationEvents(sm, i) else [];
        EvaluationEventsPersist(sm, i);
        assert Persisting(sm, train) && Persisting(sm, eval) && Persisting(sm, [EnvReset]);
        PersistingConcat(sm, train, eval);
        PersistingConcat(sm, train + eval, [EnvReset]);
      } else {
        assert Persisting(sm, [EnvReset]);
      }
      PersistingConcat(sm, b, tail);
    } else {
      assert ExpectedStep(cfg, dones, i) == tail;
    }
  }

  /** The expected trace opens with the evaluation of the untrained policy,
      and every later evaluation is immediately followed by its saves. */
  lemma {:induction false} ExpectedLoopInOrder(cfg: Config, dones: seq<bool>, n: nat)
    requires n <= |dones|
    ensures EventsInOrder(cfg.saveModels, ExpectedLoop(cfg, dones, n))
    decreases n
  {
    var t := ExpectedLoop(cfg, dones, n);
    if n == 0 {
      assert t[1..] == [];
    } else {
      ExpectedLoopInOrder(cfg, dones, n - 1);
      ExpectedStepPersists(cfg, dones, n - 1);
      InOrderAppend(cfg.saveModels, ExpectedLoop(cfg, dones, n - 1), ExpectedStep(cfg, dones, n - 1));
    }
  }

  lemma ExpectedRunInOrder(cfg: Config, dones: seq<bool>)
    requires cfg.maxTimesteps <= |dones|
    ensures EventsInOrder(cfg.saveModels, ExpectedRun(cfg, dones))
  {
    var n := if cfg.maxTimesteps > 0 then cfg.maxTimesteps else 0;
    ExpectedLoopInOrder(cfg, dones, n);
    EvaluationEventsPersist(cfg.saveModels, n);
    InOrderAppend(cfg.saveModels, ExpectedLoop(cfg, dones, n), EvaluationEvents(cfg.saveModels, n));
  }
}
