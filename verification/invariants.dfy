/** The loop invariants of the driver, one aspect each, and the proof that
    one iteration preserves them. */
module DriverInvariants {
  import opened Trace
  import opened Settings
  import opened EpisodeSplit
  import opened TrainSchedule
  import opened EvalSchedule
  import opened Modular
  import opened Driver
  import opened ExpectedTrace

  /** The counters agree with the done flags of the steps taken so far, and
      the evaluation counter stays congruent to the step counter. */
  ghost predicate CountersInv(cfg: Config, dones: seq<bool>, s: State)
  {
    && s.total <= |dones|
    && s.done == (s.total == 0 || dones[s.total - 1])
    && (s.total == 0 ==> s.episode == 0)
    && (s.total > 0 ==> s.episode == Offset(dones, s.total - 1) + 1)
    && s.sinceEval <= s.total
    && s.sinceEval % cfg.evalFreq == s.total % cfg.evalFreq
  }

  /** One action and one buffer add per step taken, as the reference says. */
  ghost predicate StepsInv(cfg: Config, dones: seq<bool>, s: State)
    requires s.total <= |dones|
  {
    var m := Summarize(s.trace);
    StepsFollow(cfg, dones, m.adds, m.acts, s.total)
  }

  /** The first `n` buffer adds and action choices are the reference ones. */
  ghost predicate StepsFollow(cfg: Config, dones: seq<bool>, adds: seq<bool>, acts: seq<ActionSource>, n: nat)
    requires n <= |dones|
  {
    && |adds| == n
    && (forall i :: 0 <= i < n ==> adds[i] == StoredFlag(cfg, dones, i))
    && |acts| == n
    && (forall i :: 0 <= i < n ==> acts[i] == ActionFor(cfg, i))
  }

  /** One reset per episode begun, one train call per episode finished. */
  ghost predicate EpisodesInv(cfg: Config, dones: seq<bool>, s: State)
    requires s.total <= |dones|
  {
    var e := Episodes(dones[..s.total]);
    var m := Summarize(s.trace);
    && s.episodeNum == |e|
    && m.resets == |e|
    && (s.total == 0 ==> m.trains == [] && m.addsBeforeTrain == [])
    && (s.total > 0 ==> s.episode == Last(e) && m.trains == Schedule(cfg, AllButLast(e)))
    && (s.total > 0 ==> m.addsBeforeTrain == PrefixSums(AllButLast(e)))
  }

  /** Evaluation timesteps never go back. */
  ghost predicate Sorted(xs: seq<nat>)
  {
    forall i, j :: 0 <= i <= j < |xs| ==> xs[i] <= xs[j]
  }

  /** Every entry but the first is a step count, at most `bound`, at which
      an episode had just ended: the step before it reported done. */
  ghost predicate AtEpisodeEnds(xs: seq<nat>, dones: seq<bool>, bound: nat)
    requires bound <= |dones|
  {
    forall k :: 0 < k < |xs| ==> 0 < xs[k] <= bound && dones[xs[k] - 1]
  }

  /** When the evaluations so far happened. */
  ghost predicate RecordTimesInv(dones: seq<bool>, s: State)
    requires s.total <= |dones|
  {
    var steps := s.record.steps;
    && 1 <= |steps|
    && steps[0] == 0
    && Sorted(steps)
    && AtEpisodeEnds(steps, dones, s.total)
  }

  /** Appending an evaluation at a later step keeps the timesteps in order,
      and at an episode end keeps every periodic one at an episode end. */
  lemma AppendEvaluation(xs: seq<nat>, dones: seq<bool>, bound: nat, t: nat)
    requires bound <= t <= |dones|
    requires 1 <= |xs| && xs[0] == 0 && Sorted(xs) && AtEpisodeEnds(xs, dones, bound)
    ensures (xs + [t])[0] == 0 && Sorted(xs + [t])
    ensures AtEpisodeEnds(xs, dones, t)
    ensures 0 < t && dones[t - 1] ==> AtEpisodeEnds(xs + [t], dones, t)
  {
    var ys := xs + [t];
    assert forall k :: 0 <= k < |xs| ==> ys[k] == xs[k] && xs[k] <= t;
  }

  /** What the evaluation record holds, and what was persisted. */
  ghost predicate RecordDataInv(cfg: Config, ev: nat -> Evaluation, s: State)
  {
    var r := s.record;
    var m := Summarize(s.trace);
    && 1 <= |r.steps|
    && |r.groundTruth| == |r.steps|
    && |r.predicted| == |r.steps|
    && m.evals == r.steps
    && m.addsBeforeEval == r.steps
    && (forall k :: 0 <= k < |r.steps| ==>
          r.groundTruth[k] == ev(k).groundTruth && r.predicted[k] == ev(k).predicted)
    && (|r.steps| - 1) * cfg.evalFreq + s.sinceEval <= s.total
    && m.resultsSaves == |r.steps| - 1
    && m.modelSaves == (if cfg.saveModels then |r.steps| - 1 else 0)
  }

  /** The periodic evaluations so far are the reference ones, and the
      evaluation counter is the reference counter plus the steps of the
      current episode. */
  ghost predicate EvalScheduleInv(cfg: Config, dones: seq<bool>, s: State)
    requires s.total <= |dones|
  {
    var e := Episodes(dones[..s.total]);
    && (s.total == 0 ==> s.record.steps == [0] && s.sinceEval == 0)
    && (s.total > 0 ==>
          && s.record.steps == [0] + PeriodicEvals(cfg.evalFreq, AllButLast(e))
          && s.sinceEval == Carry(cfg.evalFreq, AllButLast(e)) + s.episode)
  }

  /** The events issued so far are the expected ones, in the expected order. */
  ghost predicate TraceInv(cfg: Config, dones: seq<bool>, s: State)
    requires s.total <= |dones|
  {
    s.trace == ExpectedLoop(cfg, dones, s.total)
  }

  ghost predicate Inv(cfg: Config, dones: seq<bool>, ev: nat -> Evaluation, s: State)
  {
    && CountersInv(cfg, dones, s)
    && StepsInv(cfg, dones, s)
    && EpisodesInv(cfg, dones, s)
    && RecordTimesInv(dones, s)
    && RecordDataInv(cfg, ev, s)
    && EvalScheduleInv(cfg, dones, s)
    && EventsInOrder(cfg.saveModels, s.trace)
    && TraceInv(cfg, dones, s)
  }

  // ---------------------------------------------------------------------
  // What one boundary and one iteration do to the counters and the trace.

  /** The relation between the states before and after the boundary work. */
  ghost predicate BoundaryStep(cfg: Config, ev: nat -> Evaluation, s: State, b: State)
  {
    var m := Summarize(s.trace);
    var mb := Summarize(b.trace);
    && b.total == s.total && b.episode == 0 && !b.done && b.episodeNum == s.episodeNum + 1
    && mb.adds == m.adds && mb.acts == m.acts && mb.resets == m.resets + 1
    && mb.trains == m.trains +
         (if s.total != 0 then [TrainCall(s.episode, GuidanceFor(cfg, s.total))] else [])
    && mb.addsBeforeTrain == m.addsBeforeTrain + (if s.total != 0 then [|m.adds|] else [])
    && b.sinceEval % cfg.evalFreq == s.sinceEval % cfg.evalFreq
    && b.sinceEval <= s.sinceEval
    && (s.sinceEval < cfg.evalFreq ==>
          b.record == s.record && mb.evals == m.evals && mb.addsBeforeEval == m.addsBeforeEval
          && mb.resultsSaves == m.resultsSaves && mb.modelSaves == m.modelSaves)
    && (s.sinceEval >= cfg.evalFreq ==>
          && b.sinceEval == s.sinceEval % cfg.evalFreq
          && b.record == Record(
               s.record.steps + [s.total],
               s.record.groundTruth + [ev(|s.record.steps|).groundTruth],
               s.record.predicted + [ev(|s.record.steps|).predicted])
          && mb.evals == m.evals + [s.total]
          && mb.addsBeforeEval == m.addsBeforeEval + [|m.adds|]
          && mb.resultsSaves == m.resultsSaves + 1
          && mb.modelSaves == m.modelSaves + (if cfg.saveModels then 1 else 0))
  }

  /** The relation between the states before and after one loop iteration,
      with `b` the state after the boundary work (or `s` itself). */
  ghost predicate IterationStep(cfg: Config, ev: nat -> Evaluation, s: State, done: bool, b: State, r: State)
  {
    var mb := Summarize(b.trace);
    && (s.done ==> BoundaryStep(cfg, ev, s, b))
    && (!s.done ==> b == s)
    && r.total == s.total + 1 && r.done == done
    && r.episode == b.episode + 1 && r.sinceEval == b.sinceEval + 1
    && r.episodeNum == b.episodeNum && r.record == b.record
    && Summarize(r.trace) == mb.(
         adds := mb.adds + [StoredDone(cfg, b.episode, done)],
         acts := mb.acts + [ActionFor(cfg, s.total)])
  }

  /** The record and the trace after an evaluation and the persistence that
      follows it. */
  lemma EvaluatedFacts(cfg: Config, s: State, ev: nat -> Evaluation)
    ensures var p := Persist(cfg, Evaluate(s, ev));
      var m := Summarize(s.trace);
      && p.total == s.total && p.sinceEval == s.sinceEval && p.episode == s.episode
      && p.episodeNum == s.episodeNum && p.done == s.done
      && p.record == Record(
           s.record.steps + [s.total],
           s.record.groundTruth + [ev(|s.record.steps|).groundTruth],
           s.record.predicted + [ev(|s.record.steps|).predicted])
      && Summarize(p.trace) == m.(
           evals := m.evals + [s.total],
           addsBeforeEval := m.addsBeforeEval + [|m.adds|],
           resultsSaves := m.resultsSaves + 1,
           modelSaves := m.modelSaves + (if cfg.saveModels then 1 else 0))
  {
  }

  lemma TrainFacts(cfg: Config, s: State)
    ensures var t := TrainIfDue(cfg, s);
      var m := Summarize(s.trace);
      && t.total == s.total && t.sinceEval == s.sinceEval && t.episode == s.episode
      && t.episodeNum == s.episodeNum && t.record == s.record
      && Summarize(t.trace) == m.(
           trains := m.trains +
             (if s.total != 0 then [TrainCall(s.episode, GuidanceFor(cfg, s.total))] else []),
           addsBeforeTrain := m.addsBeforeTrain + (if s.total != 0 then [|m.adds|] else []))
  {
  }

  lemma EvalFacts(cfg: Config, s: State, ev: nat -> Evaluation)
    ensures var p := EvalIfDue(cfg, s, ev);
      var m := Summarize(s.trace);
      && p.total == s.total && p.episode == s.episode && p.episodeNum == s.episodeNum
      && (s.sinceEval < cfg.evalFreq ==> p == s)
      && (s.sinceEval >= cfg.evalFreq ==>
            && p.sinceEval == s.sinceEval % cfg.evalFreq
            && p.record == Record(
                 s.record.steps + [s.total],
                 s.record.groundTruth + [ev(|s.record.steps|).groundTruth],
                 s.record.predicted + [ev(|s.record.steps|).predicted])
            && Summarize(p.trace) == m.(
                 evals := m.evals + [s.total],
                 addsBeforeEval := m.addsBeforeEval + [|m.adds|],
                 resultsSaves := m.resultsSaves + 1,
                 modelSaves := m.modelSaves + (if cfg.saveModels then 1 else 0)))
  {
    if s.sinceEval >= cfg.evalFreq {
      EvaluatedFacts(cfg, s.(sinceEval := s.sinceEval % cfg.evalFreq), ev);
    }
  }

  lemma ResetFacts(s: State)
    ensures var r := Reset(s);
      var m := Summarize(s.trace);
      && r.total == s.total && r.sinceEval == s.sinceEval && r.record == s.record
      && r.episode == 0 && !r.done && r.episodeNum == s.episodeNum + 1
      && Summarize(r.trace) == m.(resets := m.resets + 1)
  {
  }

  lemma BoundaryFacts(cfg: Config, s: State, ev: nat -> Evaluation)
    ensures BoundaryStep(cfg, ev, s, Boundary(cfg, s, ev))
  {
    var t := TrainIfDue(cfg, s);
    var p := EvalIfDue(cfg, t, ev);
    TrainFacts(cfg, s);
    EvalFacts(cfg, t, ev);
    ResetFacts(p);
  }

  lemma IterateFacts(cfg: Config, s: State, done: bool, ev: nat -> Evaluation)
    ensures IterationStep(cfg, ev, s, done, if s.done then Boundary(cfg, s, ev) else s, Iterate(cfg, s, done, ev))
  {
    var b := if s.done then Boundary(cfg, s, ev) else s;
    if s.done {
      BoundaryFacts(cfg, s, ev);
    }
    var a := Emit(b, Acted(ActionFor(cfg, b.total)));
    var acted := Emit(a, Added(StoredDone(cfg, b.episode, done)));
    var mb := Summarize(b.trace);
    assert Summarize(acted.trace) == mb.(
      adds := mb.adds + [StoredDone(cfg, b.episode, done)],
      acts := mb.acts + [ActionFor(cfg, s.total)]);
  }

  // ---------------------------------------------------------------------
  // Each invariant is preserved by one iteration that steps `dones[s.total]`.

  lemma CountersStep(cfg: Config, dones: seq<bool>, ev: nat -> Evaluation, s: State, b: State, r: State)
    requires CountersInv(cfg, dones, s) && s.total < |dones|
    requires IterationStep(cfg, ev, s, dones[s.total], b, r)
    ensures CountersInv(cfg, dones, r)
  {
    ModSucc(b.sinceEval, s.total, cfg.evalFreq);
  }

  lemma StepsStep(cfg: Config, dones: seq<bool>, ev: nat -> Evaluation, s: State, b: State, r: State)
    requires CountersInv(cfg, dones, s) && StepsInv(cfg, dones, s) && s.total < |dones|
    requires IterationStep(cfg, ev, s, dones[s.total], b, r)
    ensures StepsInv(cfg, dones, r)
  {
    var t := s.total;
    var m := Summarize(s.trace);
    assert b.episode == Offset(dones, t);
    assert Summarize(b.trace).adds == m.adds && Summarize(b.trace).acts == m.acts;
    StepsAppend(cfg, dones, m.adds, m.acts, t);
  }

  lemma StepsAppend(cfg: Config, dones: seq<bool>, adds: seq<bool>, acts: seq<ActionSource>, t: nat)
    requires t < |dones| && StepsFollow(cfg, dones, adds, acts, t)
    ensures StepsFollow(cfg, dones,
      adds + [StoredDone(cfg, Offset(dones, t), dones[t])], acts + [ActionFor(cfg, t)], t + 1)
  {
    StoredDoneAgrees(cfg, dones, t);
    var adds' := adds + [StoredDone(cfg, Offset(dones, t), dones[t])];
    var acts' := acts + [ActionFor(cfg, t)];
    assert forall i :: 0 <= i < t ==> adds'[i] == adds[i] && acts'[i] == acts[i];
  }

  /** The flag the loop stores, from the episode counter, is the one stated
      from the environment's flags alone. */
  lemma StoredDoneAgrees(cfg: Config, dones: seq<bool>, i: nat)
    requires i < |dones|
    ensures StoredDone(cfg, Offset(dones, i), dones[i]) == StoredFlag(cfg, dones, i)
  {
  }

  /** What one iteration does to the episode counters, the resets and the
      train calls: a boundary (after the first step) issues one train call
      after the `s.total` adds so far. */
  ghost predicate EpisodeUpdate(cfg: Config, s: State, r: State)
  {
    var m := Summarize(s.trace);
    var mr := Summarize(r.trace);
    && r.total == s.total + 1
    && r.episode == (if s.done then 1 else s.episode + 1)
    && r.episodeNum == s.episodeNum + (if s.done then 1 else 0)
    && mr.resets == m.resets + (if s.done then 1 else 0)
    && mr.trains == m.trains +
         (if s.done && s.total != 0 then [TrainCall(s.episode, GuidanceFor(cfg, s.total))] else [])
    && mr.addsBeforeTrain == m.addsBeforeTrain + (if s.done && s.total != 0 then [s.total] else [])
  }

  lemma EpisodeFacts(cfg: Config, ev: nat -> Evaluation, s: State, done: bool, b: State, r: State)
    requires IterationStep(cfg, ev, s, done, b, r)
    requires |Summarize(s.trace).adds| == s.total
    ensures EpisodeUpdate(cfg, s, r)
  {
  }

  lemma EpisodesStep(cfg: Config, dones: seq<bool>, s: State, r: State)
    requires s.total < |dones| && EpisodesInv(cfg, dones, s)
    requires s.done == (s.total == 0 || dones[s.total - 1])
    requires EpisodeUpdate(cfg, s, r)
    ensures EpisodesInv(cfg, dones, r)
  {
    if s.total == 0 {
      EpisodesFirst(cfg, dones, s, r);
    } else if s.done {
      EpisodesBoundary(cfg, dones, s, r);
    } else {
      EpisodesWithin(cfg, dones, s, r);
    }
  }

  lemma EpisodesFirst(cfg: Config, dones: seq<bool>, s: State, r: State)
    requires 0 == s.total < |dones| && EpisodesInv(cfg, dones, s)
    requires s.done && EpisodeUpdate(cfg, s, r)
    ensures EpisodesInv(cfg, dones, r)
  {
    EpisodesSnoc(dones, 0);
    assert dones[..0] == [];
  }

  lemma EpisodesWithin(cfg: Config, dones: seq<bool>, s: State, r: State)
    requires 0 < s.total < |dones| && EpisodesInv(cfg, dones, s)
    requires !dones[s.total - 1] && !s.done && EpisodeUpdate(cfg, s, r)
    ensures EpisodesInv(cfg, dones, r)
  {
    EpisodesSnoc(dones, s.total);
    var e := Episodes(dones[..s.total]);
    var e' := Episodes(dones[..s.total + 1]);
    assert AllButLast(e') == AllButLast(e);
  }

  lemma EpisodesBoundary(cfg: Config, dones: seq<bool>, s: State, r: State)
    requires 0 < s.total < |dones| && EpisodesInv(cfg, dones, s)
    requires dones[s.total - 1] && s.done && EpisodeUpdate(cfg, s, r)
    ensures EpisodesInv(cfg, dones, r)
  {
    var t := s.total;
    EpisodesSnoc(dones, t);
    var e := Episodes(dones[..t]);
    EpisodesCover(dones[..t]);
    CompletedOneMore(cfg, e, t);
    assert AllButLast(e + [1]) == e;
  }

  /** Completing the current episode `Last(e)`, which ends at step `t`,
      adds one scheduled train call and one train point. */
  lemma CompletedOneMore(cfg: Config, e: seq<nat>, t: nat)
    requires |e| > 0 && Sum(e) == t
    ensures Schedule(cfg, e) == Schedule(cfg, AllButLast(e)) + [TrainCall(Last(e), GuidanceFor(cfg, t))]
    ensures PrefixSums(e) == PrefixSums(AllButLast(e)) + [t]
  {
  }

  /** Facts about an iteration whose boundary evaluated the policy. */
  ghost predicate EvaluatedStep(cfg: Config, ev: nat -> Evaluation, s: State, r: State)
  {
    && r.total == s.total + 1
    && r.record == Record(
         s.record.steps + [s.total],
         s.record.groundTruth + [ev(|s.record.steps|).groundTruth],
         s.record.predicted + [ev(|s.record.steps|).predicted])
    && Summarize(r.trace).evals == Summarize(s.trace).evals + [s.total]
    && Summarize(r.trace).addsBeforeEval == Summarize(s.trace).addsBeforeEval + [s.total]
    && Summarize(r.trace).resultsSaves == Summarize(s.trace).resultsSaves + 1
    && Summarize(r.trace).modelSaves ==
         Summarize(s.trace).modelSaves + (if cfg.saveModels then 1 else 0)
    && r.sinceEval == s.sinceEval % cfg.evalFreq + 1
  }

  lemma RecordStep(cfg: Config, dones: seq<bool>, ev: nat -> Evaluation, s: State, b: State, r: State)
    requires CountersInv(cfg, dones, s) && s.total < |dones|
    requires RecordTimesInv(dones, s) && RecordDataInv(cfg, ev, s)
    requires |Summarize(s.trace).adds| == s.total
    requires IterationStep(cfg, ev, s, dones[s.total], b, r)
    ensures RecordTimesInv(dones, r) && RecordDataInv(cfg, ev, r)
  {
    var m := Summarize(s.trace);
    var mr := Summarize(r.trace);
    if s.done && s.sinceEval >= cfg.evalFreq {
      assert EvaluatedStep(cfg, ev, s, r);
      RecordTimesEvaluated(cfg, dones, ev, s, r);
      RecordDataEvaluated(cfg, ev, s, r);
    } else {
      assert r.record == s.record;
      AppendEvaluation(s.record.steps, dones, s.total, r.total);
      assert mr.evals == m.evals;
      assert mr.addsBeforeEval == m.addsBeforeEval;
      assert mr.resultsSaves == m.resultsSaves;
      assert mr.modelSaves == m.modelSaves;
    }
  }

  lemma RecordTimesEvaluated(cfg: Config, dones: seq<bool>, ev: nat -> Evaluation, s: State, r: State)
    requires s.total < |dones| && RecordTimesInv(dones, s)
    requires 0 < s.total && dones[s.total - 1]
    requires EvaluatedStep(cfg, ev, s, r)
    ensures RecordTimesInv(dones, r)
  {
    AppendEvaluation(s.record.steps, dones, s.total, s.total);
    AppendEvaluation(s.record.steps + [s.total], dones, s.total, r.total);
  }

  lemma RecordDataEvaluated(cfg: Config, ev: nat -> Evaluation, s: State, r: State)
    requires RecordDataInv(cfg, ev, s) && s.sinceEval >= cfg.evalFreq
    requires EvaluatedStep(cfg, ev, s, r)
    ensures RecordDataInv(cfg, ev, r)
  {
    var steps := r.record.steps;
    EvalBudget(|s.record.steps|, cfg.evalFreq, s.sinceEval, s.total);
    assert forall k :: 0 <= k < |steps| ==>
      r.record.groundTruth[k] == ev(k).groundTruth && r.record.predicted[k] == ev(k).predicted;
    assert |steps| - 1 == |s.record.steps|;
  }

  /** After one more evaluation the budget of `evalFreq` steps per periodic
      evaluation still fits in the steps taken. */
  lemma EvalBudget(n: nat, f: Positive, since: nat, t: nat)
    requires n >= 1 && (n - 1) * f + since <= t && since >= f
    ensures n * f + since % f <= t
  {
    ModReduce(since, f);
    assert n * f == (n - 1) * f + f;
  }

  /** What one iteration does to the evaluation counter and the record's
      timesteps: an evaluation at a boundary whose counter had reached
      `evalFreq` reduces the counter and records the current step. */
  lemma EvalCounterFacts(cfg: Config, ev: nat -> Evaluation, s: State, done: bool, b: State, r: State)
    requires IterationStep(cfg, ev, s, done, b, r)
    ensures r.sinceEval ==
      (if s.done && s.sinceEval >= cfg.evalFreq then s.sinceEval % cfg.evalFreq else s.sinceEval) + 1
    ensures r.record.steps ==
      s.record.steps + (if s.done && s.sinceEval >= cfg.evalFreq then [s.total] else [])
  {
    assert r.sinceEval == b.sinceEval + 1 && r.record == b.record;
    if s.done {
      BoundaryCounter(cfg, ev, s, b);
    } else {
      assert b == s;
    }
  }

  lemma BoundaryCounter(cfg: Config, ev: nat -> Evaluation, s: State, b: State)
    requires BoundaryStep(cfg, ev, s, b)
    ensures b.sinceEval == (if s.sinceEval >= cfg.evalFreq then s.sinceEval % cfg.evalFreq else s.sinceEval)
    ensures b.record.steps == s.record.steps + (if s.sinceEval >= cfg.evalFreq then [s.total] else [])
  {
    if s.sinceEval < cfg.evalFreq {
      assert b.record == s.record;
      ModSmall(s.sinceEval, b.sinceEval, cfg.evalFreq);
    }
  }

  lemma EvalScheduleStep(cfg: Config, dones: seq<bool>, s: State, r: State)
    requires s.total < |dones| && EvalScheduleInv(cfg, dones, s)
    requires s.done == (s.total == 0 || dones[s.total - 1])
    requires s.total > 0 ==> s.episode == Last(Episodes(dones[..s.total]))
    requires r.total == s.total + 1
    requires r.episode == (if s.done then 1 else s.episode + 1)
    requires r.sinceEval ==
      (if s.done && s.sinceEval >= cfg.evalFreq then s.sinceEval % cfg.evalFreq else s.sinceEval) + 1
    requires r.record.steps ==
      s.record.steps + (if s.done && s.sinceEval >= cfg.evalFreq then [s.total] else [])
    ensures EvalScheduleInv(cfg, dones, r)
  {
    var t := s.total;
    EpisodesSnoc(dones, t);
    var e' := Episodes(dones[..t + 1]);
    if t == 0 {
      assert AllButLast(e') == [];
    } else {
      var e := Episodes(dones[..t]);
      if s.done {
        EpisodesCover(dones[..t]);
        assert AllButLast(e') == e;
      } else {
        assert AllButLast(e') == AllButLast(e);
      }
    }
  }

  /** Extending the trace keeps every evaluation followed by its saves. */
  lemma OrderStep(cfg: Config, s: State, r: State)
    requires EventsInOrder(cfg.saveModels, s.trace) && Extends(cfg.saveModels, s.trace, r.trace)
    ensures EventsInOrder(cfg.saveModels, r.trace)
  {
    var n := |s.trace|;
    assert r.trace[1..] == s.trace[1..] + r.trace[n..];
    PersistingConcat(cfg.saveModels, s.trace[1..], r.trace[n..]);
    assert r.trace[0] == r.trace[..n][0];
  }

  /** The events one episode boundary issues, from the state before it. */
  function BoundaryIssues(cfg: Config, s: State): seq<Event>
  {
    (if s.total != 0 then [Trained(TrainCall(s.episode, GuidanceFor(cfg, s.total)))] else [])
    + (if s.sinceEval >= cfg.evalFreq then EvaluationEvents(cfg.saveModels, s.total) else [])
    + [EnvReset]
  }

  /** The events one iteration issues, from the state before it. */
  function IterationIssues(cfg: Config, s: State, done: bool): seq<Event>
  {
    (if s.done then BoundaryIssues(cfg, s) else [])
    + [Acted(ActionFor(cfg, s.total)), Added(StoredDone(cfg, if s.done then 0 else s.episode, done))]
  }

  lemma BoundaryIssued(cfg: Config, s: State, ev: nat -> Evaluation)
    ensures Boundary(cfg, s, ev).trace == s.trace + BoundaryIssues(cfg, s)
    ensures Boundary(cfg, s, ev).total == s.total && Boundary(cfg, s, ev).episode == 0
  {
    var t := TrainIfDue(cfg, s);
    var p := EvalIfDue(cfg, t, ev);
    var train := if s.total != 0 then [Trained(TrainCall(s.episode, GuidanceFor(cfg, s.total)))] else [];
    var eval := if s.sinceEval >= cfg.evalFreq then EvaluationEvents(cfg.saveModels, s.total) else [];
    TrainIssued(cfg, s);
    EvalIssued(cfg, t, ev);
    ResetIssued(p);
    assert Boundary(cfg, s, ev) == Reset(p);
    AppendThree(s.trace, train, eval, [EnvReset]);
  }

  lemma AppendThree<T>(a: seq<T>, x: seq<T>, y: seq<T>, z: seq<T>)
    ensures a + x + y + z == a + (x + y + z)
  {
  }

  lemma TrainIssued(cfg: Config, s: State)
    ensures var t := TrainIfDue(cfg, s);
      && t.total == s.total && t.sinceEval == s.sinceEval
      && t.trace == s.trace +
           (if s.total != 0 then [Trained(TrainCall(s.episode, GuidanceFor(cfg, s.total)))] else [])
  {
  }

  lemma EvalIssued(cfg: Config, s: State, ev: nat -> Evaluation)
    ensures EvalIfDue(cfg, s, ev).trace == s.trace +
      (if s.sinceEval >= cfg.evalFreq then EvaluationEvents(cfg.saveModels, s.total) else [])
  {
    if s.sinceEval < cfg.evalFreq {
      assert s.trace + [] == s.trace;
    }
  }

  lemma ResetIssued(s: State)
    ensures Reset(s).trace == s.trace + [EnvReset]
  {
  }

  lemma IterationIssued(cfg: Config, s: State, done: bool, ev: nat -> Evaluation)
    ensures Iterate(cfg, s, done, ev).trace == s.trace + IterationIssues(cfg, s, done)
  {
    var b := if s.done then Boundary(cfg, s, ev) else s;
    var boundary := if s.done then BoundaryIssues(cfg, s) else [];
    if s.done {
      BoundaryIssued(cfg, s, ev);
    }
    assert b.trace == s.trace + boundary;
    assert b.total == s.total && b.episode == (if s.done then 0 else s.episode);
    var act := Acted(ActionFor(cfg, s.total));
    var add := Added(StoredDone(cfg, b.episode, done));
    assert Iterate(cfg, s, done, ev).trace == b.trace + [act] + [add];
    AppendThree(s.trace, boundary, [act], [add]);
  }

  /** What one iteration issues is the step's expected events, once the
      counters agree with the done flags. */
  lemma IssuesExpected(cfg: Config, dones: seq<bool>, s: State)
    requires CountersInv(cfg, dones, s) && s.total < |dones|
    requires s.total == 0 ==> s.sinceEval == 0
    requires s.total > 0 ==>
      var e := Episodes(dones[..s.total]);
      s.episode == Last(e) && s.sinceEval == Carry(cfg.evalFreq, AllButLast(e)) + s.episode
    ensures IterationIssues(cfg, s, dones[s.total]) == ExpectedStep(cfg, dones, s.total)
  {
    var t := s.total;
    StoredDoneAgrees(cfg, dones, t);
    assert Offset(dones, t) == (if s.done then 0 else s.episode);
  }

  lemma TraceStep(cfg: Config, dones: seq<bool>, s: State, r: State)
    requires s.total < |dones| && TraceInv(cfg, dones, s)
    requires r.total == s.total + 1 && r.trace == s.trace + ExpectedStep(cfg, dones, s.total)
    ensures TraceInv(cfg, dones, r)
  {
  }

  // ---------------------------------------------------------------------
  // The invariant holds initially and is preserved.

  lemma InitEstablishes(cfg: Config, dones: seq<bool>, ev: nat -> Evaluation)
    ensures Inv(cfg, dones, ev, Init(ev))
  {
    var s := Init(ev);
    assert dones[..0] == [];
    assert s.trace[1..] == [];
  }

  lemma IterationPreserves(cfg: Config, dones: seq<bool>, ev: nat -> Evaluation, s: State)
    requires Inv(cfg, dones, ev, s) && s.total < |dones|
    ensures Inv(cfg, dones, ev, Iterate(cfg, s, dones[s.total], ev))
  {
    var done := dones[s.total];
    var b := if s.done then Boundary(cfg, s, ev) else s;
    var r := Iterate(cfg, s, done, ev);
    IterateFacts(cfg, s, done, ev);
    CountersStep(cfg, dones, ev, s, b, r);
    StepsStep(cfg, dones, ev, s, b, r);
    EpisodeFacts(cfg, ev, s, done, b, r);
    EpisodesStep(cfg, dones, s, r);
    RecordStep(cfg, dones, ev, s, b, r);
    EvalCounterFacts(cfg, ev, s, done, b, r);
    EvalScheduleStep(cfg, dones, s, r);
    OrderStep(cfg, s, r);
    IterationIssued(cfg, s, done, ev);
    IssuesExpected(cfg, dones, s);
    TraceStep(cfg, dones, s, r);
  }
}
