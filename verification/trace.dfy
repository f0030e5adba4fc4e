/** The events the training driver issues, in the order it issues them.
    Calls into the policy, the replay buffer, the evaluation routine and the
    file system are not modelled; each becomes one event. */
module Trace {
  /** Where the action of one environment step comes from: sampled from the
      action space, or computed by the policy (with or without Gaussian
      exploration noise and clipping). */
  datatype ActionSource = Random | Policy(noisy: bool)

  /** The expert-guidance argument of a train call. The TD3 variant is
      called without it; every other variant receives the current flag. */
  datatype Guidance = Unflagged | Flagged(active: bool)

  /** One `policy.train` call: the number of gradient iterations and the
      guidance argument. */
  datatype TrainCall = TrainCall(iterations: nat, guidance: Guidance)

  datatype Event =
    | Trained(call: TrainCall)      // policy.train(...)
    | Evaluated(step: nat)          // evaluate_policy, recorded at total_timesteps == step
    | SavedModel                    // policy.save(...)
    | SavedResults                  // np.savez(...) of the evaluation record
    | EnvReset                      // env.reset()
    | Acted(source: ActionSource)   // action chosen and env.step(action) performed
    | Added(stored: bool)           // replay_buffer.add with done_bool (true = 1.0, false = 0)

  /** What a trace amounts to, per kind of event: the train calls, the
      evaluation timesteps, the action sources and the stored done flags in
      issue order, and how many model saves, result saves and environment
      resets it holds. Where train calls and evaluations fall relative to the
      buffer adds is kept as well: `addsBeforeTrain[k]` is the number of
      adds issued before the k-th train call, and `addsBeforeEval[k]` the
      number issued before the k-th evaluation. */
  datatype Summary = Summary(
    trains: seq<TrainCall>,
    addsBeforeTrain: seq<nat>,
    evals: seq<nat>,
    addsBeforeEval: seq<nat>,
    acts: seq<ActionSource>,
    adds: seq<bool>,
    modelSaves: nat,
    resultsSaves: nat,
    resets: nat)

  /** Accounts for one more event. */
  function Tally(m: Summary, e: Event): Summary
  {
    match e
    case Trained(call) => m.(trains := m.trains + [call], addsBeforeTrain := m.addsBeforeTrain + [|m.adds|])
    case Evaluated(step) => m.(evals := m.evals + [step], addsBeforeEval := m.addsBeforeEval + [|m.adds|])
    case SavedModel => m.(modelSaves := m.modelSaves + 1)
    case SavedResults => m.(resultsSaves := m.resultsSaves + 1)
    case EnvReset => m.(resets := m.resets + 1)
    case Acted(source) => m.(acts := m.acts + [source])
    case Added(stored) => m.(adds := m.adds + [stored])
  }

  function Summarize(t: seq<Event>): Summary
  {
    if |t| == 0 then Summary([], [], [], [], [], [], 0, 0, 0)
    else Tally(Summarize(t[..|t|-1]), t[|t|-1])
  }

  /** Issuing one more event tallies exactly that event. */
  lemma SummarizeSnoc(t: seq<Event>, e: Event)
    ensures Summarize(t + [e]) == Tally(Summarize(t), e)
  {
    assert (t + [e])[..|t|] == t;
  }

  /** The train calls of a trace, in order. */
  function Trains(t: seq<Event>): seq<TrainCall> { Summarize(t).trains }
  /** The stored done flags of the replay-buffer adds of a trace, in order. */
  function Adds(t: seq<Event>): seq<bool> { Summarize(t).adds }
  /** The action sources of the environment steps of a trace, in order. */
  function Acts(t: seq<Event>): seq<ActionSource> { Summarize(t).acts }
  /** The timesteps at which the trace evaluates the policy, in order. */
  function Evals(t: seq<Event>): seq<nat> { Summarize(t).evals }

  /** The number of buffer adds issued before each train call, in order. */
  function AddsBeforeTrain(t: seq<Event>): seq<nat> { Summarize(t).addsBeforeTrain }
  /** The number of buffer adds issued before each evaluation, in order. */
  function AddsBeforeEval(t: seq<Event>): seq<nat> { Summarize(t).addsBeforeEval }

  /** An evaluation at `step` and the persistence that follows it: the model
      save when models are saved, then the results save. */
  function EvaluationEvents(saveModels: bool, step: nat): seq<Event>
  {
    [Evaluated(step)] + (if saveModels then [SavedModel] else []) + [SavedResults]
  }

  /** The persistence that follows an evaluation starts at position `j` of
      `t`: a model save (when models are saved) and then a results save. */
  ghost predicate PersistedAt(saveModels: bool, t: seq<Event>, j: nat)
  {
    if saveModels then j + 1 < |t| && t[j] == SavedModel && t[j+1] == SavedResults
    else j < |t| && t[j] == SavedResults
  }

  /** Every evaluation in `t` is immediately followed by its persistence. */
  ghost predicate Persisting(saveModels: bool, t: seq<Event>)
  {
    forall i :: 0 <= i < |t| && t[i].Evaluated? ==> PersistedAt(saveModels, t, i + 1)
  }

  /** The trace opens with the evaluation of the untrained policy, and every
      later evaluation is immediately followed by its persistence. */
  ghost predicate EventsInOrder(saveModels: bool, t: seq<Event>)
  {
    |t| >= 1 && t[0] == Evaluated(0) && Persisting(saveModels, t[1..])
  }

  /** `u` is `t` followed by events in which every evaluation is
      immediately followed by its persistence. */
  ghost predicate Extends(saveModels: bool, t: seq<Event>, u: seq<Event>)
  {
    |t| <= |u| && u[..|t|] == t && Persisting(saveModels, u[|t|..])
  }

  lemma PersistingConcat(saveModels: bool, a: seq<Event>, b: seq<Event>)
    requires Persisting(saveModels, a) && Persisting(saveModels, b)
    ensures Persisting(saveModels, a + b)
  {
    var c := a + b;
    forall i | 0 <= i < |c| && c[i].Evaluated?
      ensures PersistedAt(saveModels, c, i + 1)
    {
      if i < |a| {
        assert a[i].Evaluated?;
        assert PersistedAt(saveModels, a, i + 1);
      } else {
        assert b[i - |a|].Evaluated?;
        assert PersistedAt(saveModels, b, i - |a| + 1);
      }
    }
  }

  /** Appending events that keep every evaluation followed by its saves
      keeps a trace in order. */
  lemma InOrderAppend(saveModels: bool, t: seq<Event>, u: seq<Event>)
    requires EventsInOrder(saveModels, t) && Persisting(saveModels, u)
    ensures EventsInOrder(saveModels, t + u)
  {
    assert (t + u)[1..] == t[1..] + u;
    PersistingConcat(saveModels, t[1..], u);
  }

  /** Extension is transitive. */
  lemma ExtendsTrans(saveModels: bool, t: seq<Event>, u: seq<Event>, w: seq<Event>)
    requires Extends(saveModels, t, u) && Extends(saveModels, u, w)
    ensures Extends(saveModels, t, w)
  {
    assert w[|t|..] == u[|t|..] + w[|u|..];
    PersistingConcat(saveModels, u[|t|..], w[|u|..]);
    assert w[..|t|] == u[..|u|][..|t|];
  }

  lemma ExtendsRefl(saveModels: bool, t: seq<Event>)
    ensures Extends(saveModels, t, t)
  {
    assert t[|t|..] == [];
  }

  /** Appending one event other than an evaluation extends a trace. */
  lemma ExtendsByOne(saveModels: bool, t: seq<Event>, e: Event)
    requires !e.Evaluated?
    ensures Extends(saveModels, t, t + [e])
  {
    assert (t + [e])[|t|..] == [e];
    assert (t + [e])[..|t|] == t;
  }

  /** Total number of gradient iterations requested by a list of train calls. */
  function TrainedSteps(calls: seq<TrainCall>): nat
  {
    if |calls| == 0 then 0
    else TrainedSteps(calls[..|calls|-1]) + calls[|calls|-1].iterations
  }
}
