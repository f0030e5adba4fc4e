/** The training driver's outer loop (the `__main__` block of Oursmain.py):
    three step counters, the episode boundary that issues train calls, the
    periodic evaluation, the replay-buffer adds and the evaluation record.
    The environment is an oracle: `dones[k]` is the done flag `env.step`
    returns at the k-th step of the run. Evaluations are an oracle as well:
    `ev(k)` is what the k-th call of the evaluation routine returns. */
module Driver {
  import opened Trace
  import opened Settings
  import opened EpisodeSplit
  import opened Modular

  /** What one run of the evaluation routine returns: the per-episode
      discounted returns and the per-episode initial value predictions. */
  datatype Evaluation = Evaluation(groundTruth: seq<real>, predicted: seq<real>)

  /** The evaluation record: `value_step`, `value_true` and `value_pred`. */
  datatype Record = Record(steps: seq<nat>, groundTruth: seq<seq<real>>, predicted: seq<seq<real>>)

  /** The loop's state: `total_timesteps`, `timesteps_since_eval`,
      `episode_timesteps`, `episode_num`, the last done flag, the
      evaluation record, and the events issued so far. */
  datatype State = State(
    total: nat,
    sinceEval: nat,
    episode: nat,
    episodeNum: nat,
    done: bool,
    record: Record,
    trace: seq<Event>)

  /** Issues one event: the trace's summary tallies it and nothing else changes. */
  function Emit(s: State, e: Event): (r: State)
    ensures r.total == s.total && r.sinceEval == s.sinceEval && r.episode == s.episode
    ensures r.episodeNum == s.episodeNum && r.done == s.done && r.record == s.record
    ensures Summarize(r.trace) == Tally(Summarize(s.trace), e)
  {
    SummarizeSnoc(s.trace, e);
    s.(trace := s.trace + [e])
  }

  /** Runs the evaluation routine and appends its result to the record at
      the current timestep. */
  function Evaluate(s: State, ev: nat -> Evaluation): State
  {
    var result := ev(|s.record.steps|);
    var record := Record(
      s.record.steps + [s.total],
      s.record.groundTruth + [result.groundTruth],
      s.record.predicted + [result.predicted]);
    Emit(s.(record := record), Evaluated(s.total))
  }

  /** Saves the model (when enabled) and then the evaluation record. */
  function Persist(cfg: Config, s: State): State
  {
    var saved := if cfg.saveModels then Emit(s, SavedModel) else s;
    Emit(saved, SavedResults)
  }

  /** Before the loop: all counters zero, `done` set so that the first
      iteration resets the environment, and the untrained policy evaluated. */
  function Init(ev: nat -> Evaluation): (r: State)
    ensures r.total == 0 && r.sinceEval == 0 && r.episodeNum == 0 && r.done
    ensures r.trace == [Evaluated(0)] && r.record.steps == [0]
    ensures r.record.groundTruth == [ev(0).groundTruth] && r.record.predicted == [ev(0).predicted]
  {
    Evaluate(State(0, 0, 0, 0, true, Record([], [], []), []), ev)
  }

  /** At an episode boundary, except on the first iteration: one train call
      whose iteration count is the length of the episode just finished. */
  function TrainIfDue(cfg: Config, s: State): (r: State)
    ensures Extends(cfg.saveModels, s.trace, r.trace)
  {
    if s.total != 0 then
      var e := Trained(TrainCall(s.episode, GuidanceFor(cfg, s.total)));
      ExtendsByOne(cfg.saveModels, s.trace, e);
      Emit(s, e)
    else
      ExtendsRefl(cfg.saveModels, s.trace);
      s
  }

  /** At an episode boundary: evaluate and persist when at least `evalFreq`
      steps have passed since the last evaluation, keeping the overshoot. */
  function EvalIfDue(cfg: Config, s: State, ev: nat -> Evaluation): (r: State)
    ensures r.sinceEval % cfg.evalFreq == s.sinceEval % cfg.evalFreq
    ensures r.sinceEval <= s.sinceEval
    ensures s.sinceEval >= cfg.evalFreq ==>
      r.sinceEval < cfg.evalFreq && r.record.steps == s.record.steps + [s.total]
    ensures s.sinceEval < cfg.evalFreq ==> r == s
    ensures s.sinceEval >= cfg.evalFreq ==>
      r.trace == s.trace + EvaluationEvents(cfg.saveModels, s.total)
    ensures Extends(cfg.saveModels, s.trace, r.trace)
  {
    if s.sinceEval >= cfg.evalFreq then
      ModReduce(s.sinceEval, cfg.evalFreq);
      PersistExtends(cfg, s.(sinceEval := s.sinceEval % cfg.evalFreq), ev);
      Persist(cfg, Evaluate(s.(sinceEval := s.sinceEval % cfg.evalFreq), ev))
    else
      ExtendsRefl(cfg.saveModels, s.trace);
      s
  }

  /** An evaluation and its persistence append the evaluation at the
      current step and its saves, and so extend the trace. */
  lemma PersistExtends(cfg: Config, s: State, ev: nat -> Evaluation)
    ensures Persist(cfg, Evaluate(s, ev)).trace == s.trace + EvaluationEvents(cfg.saveModels, s.total)
    ensures Extends(cfg.saveModels, s.trace, Persist(cfg, Evaluate(s, ev)).trace)
  {
    var t := s.trace;
    var e := Evaluate(s, ev);
    var saved := if cfg.saveModels then Emit(e, SavedModel) else e;
    var u := Persist(cfg, e).trace;
    var tail := EvaluationEvents(cfg.saveModels, s.total);
    assert e.trace == t + [Evaluated(s.total)];
    assert saved.trace == e.trace + (if cfg.saveModels then [SavedModel] else []);
    assert u == saved.trace + [SavedResults];
    assert u == t + tail;
    assert u[..|t|] == t;
    assert u[|t|..] == tail;
    assert PersistedAt(cfg.saveModels, tail, 1);
  }

  /** Resets the environment and opens a new episode. */
  function Reset(s: State): (r: State)
    ensures forall saveModels: bool :: Extends(saveModels, s.trace, r.trace)
  {
    ExtendsByOne(true, s.trace, EnvReset);
    ExtendsByOne(false, s.trace, EnvReset);
    Emit(s, EnvReset).(done := false, episode := 0, episodeNum := s.episodeNum + 1)
  }

  /** Everything the loop does when the previous step ended an episode. */
  function Boundary(cfg: Config, s: State, ev: nat -> Evaluation): (r: State)
    ensures Extends(cfg.saveModels, s.trace, r.trace)
  {
    var t := TrainIfDue(cfg, s);
    var p := EvalIfDue(cfg, t, ev);
    ExtendsTrans(cfg.saveModels, s.trace, t.trace, p.trace);
    ExtendsTrans(cfg.saveModels, s.trace, p.trace, Reset(p).trace);
    Reset(p)
  }

  /** One iteration of the loop, where `done` is what the environment
      reports for this iteration's step. */
  function Iterate(cfg: Config, s: State, done: bool, ev: nat -> Evaluation): (r: State)
    ensures r.total == s.total + 1 && r.done == done
    ensures Extends(cfg.saveModels, s.trace, r.trace)
  {
    var b := if s.done then Boundary(cfg, s, ev) else s;
    var stored := StoredDone(cfg, b.episode, done);
    var a := Emit(b, Acted(ActionFor(cfg, b.total)));
    var acted := Emit(a, Added(stored));
    ExtendsRefl(cfg.saveModels, s.trace);
    ExtendsByOne(cfg.saveModels, b.trace, Acted(ActionFor(cfg, b.total)));
    ExtendsByOne(cfg.saveModels, a.trace, Added(stored));
    ExtendsTrans(cfg.saveModels, s.trace, b.trace, a.trace);
    ExtendsTrans(cfg.saveModels, s.trace, a.trace, acted.trace);
    acted.(total := b.total + 1, sinceEval := b.sinceEval + 1, episode := b.episode + 1, done := done)
  }

  /** After the loop: the final evaluation at the last step and its
      persistence. */
  function Finish(cfg: Config, s: State, ev: nat -> Evaluation): (r: State)
    ensures r.record.steps == s.record.steps + [s.total]
    ensures r.trace == s.trace + EvaluationEvents(cfg.saveModels, s.total)
    ensures Extends(cfg.saveModels, s.trace, r.trace)
  {
    PersistExtends(cfg, s, ev);
    Persist(cfg, Evaluate(s, ev))
  }

  /** The done flag the replay buffer should hold for step `i`, stated from
      the environment's flags alone: the step that reaches the episode cap
      is stored as not done, every other step as the environment reported. */
  function StoredFlag(cfg: Config, dones: seq<bool>, i: nat): bool
    requires i < |dones|
  {
    dones[i] && Offset(dones, i) + 1 != cfg.maxEpisodeSteps
  }
}
