/** The run configuration the driver loop reads, and the per-step decisions
    that depend only on the configuration and the counters. */
module Settings {
  import opened Optional
  import opened Trace

  type Positive = n: int | n > 0 witness 1

  /** The policy variants the driver can construct. */
  datatype Variant = TD3 | OurDDPG | DDPG | ExpertDDPG

  function VariantName(v: Variant): string
  {
    match v
    case TD3 => "TD3"
    case OurDDPG => "OurDDPG"
    case DDPG => "DDPG"
    case ExpertDDPG => "ExpertDDPG"
  }

  /** Variant dispatch on the `--policy_name` option. An unknown name builds
      no policy at all (the run then fails before its first evaluation). */
  function SelectPolicy(name: string): (r: Option<Variant>)
    ensures r.Some? ==> VariantName(r.value) == name
    ensures forall v :: VariantName(v) == name ==> r == Some(v)
  {
    if name == "TD3" then Some(TD3)
    else if name == "OurDDPG" then Some(OurDDPG)
    else if name == "DDPG" then Some(DDPG)
    else if name == "ExpertDDPG" then Some(ExpertDDPG)
    else None
  }

  /** The options the driver loop consults. Float-valued options enter only
      through what the loop decides from them: `explorationNoise` says
      whether `--expl_noise` is non-zero. `maxEpisodeSteps` is the
      environment's episode-length cap. */
  datatype Config = Config(
    variant: Variant,
    startTimesteps: int,
    evalFreq: Positive,
    maxTimesteps: int,
    explorationNoise: bool,
    expertTimesteps: int,
    useExpert: bool,
    saveModels: bool,
    maxEpisodeSteps: Positive)

  /** Expert guidance, recomputed at the head of every loop iteration. */
  function ExpertActive(cfg: Config, total: nat): bool
  {
    cfg.useExpert && total < cfg.expertTimesteps
  }

  /** The guidance argument a train call issued at `total` receives. */
  function GuidanceFor(cfg: Config, total: nat): (r: Guidance)
    ensures r.Unflagged? <==> cfg.variant == TD3
    ensures r.Flagged? ==> (r.active <==> cfg.useExpert && total < cfg.expertTimesteps)
  {
    if cfg.variant == TD3 then Unflagged else Flagged(ExpertActive(cfg, total))
  }

  /** Warm-up: random actions while `total < startTimesteps`. */
  function ActionFor(cfg: Config, total: nat): (r: ActionSource)
    ensures r == Random <==> total < cfg.startTimesteps
    ensures r.Policy? ==> r.noisy == cfg.explorationNoise
  {
    if total < cfg.startTimesteps then Random else Policy(cfg.explorationNoise)
  }

  /** How many of the given action choices were sampled at random. */
  function RandomActions(acts: seq<ActionSource>): nat
  {
    if |acts| == 0 then 0
    else RandomActions(acts[..|acts|-1]) + (if acts[|acts|-1] == Random then 1 else 0)
  }

  /** Warm-up is a prefix phase: over the first `n` steps, exactly the first
      `startTimesteps` of them (or all `n`, if fewer) take random actions,
      and no random action follows a policy action. */
  lemma {:induction false} WarmUpIsPrefix(cfg: Config, acts: seq<ActionSource>)
    requires forall i :: 0 <= i < |acts| ==> acts[i] == ActionFor(cfg, i)
    ensures RandomActions(acts) ==
      (if cfg.startTimesteps <= 0 then 0
       else if |acts| <= cfg.startTimesteps then |acts|
       else cfg.startTimesteps)
    ensures forall i, j :: 0 <= i <= j < |acts| && acts[j] == Random ==> acts[i] == Random
    decreases |acts|
  {
    if |acts| > 0 {
      var prefix := acts[..|acts|-1];
      assert forall i :: 0 <= i < |prefix| ==> prefix[i] == acts[i];
      WarmUpIsPrefix(cfg, prefix);
    }
  }

  /** The done flag stored in the replay buffer for a step taken when
      `episode` steps of the current episode have already been taken:
      the step that reaches the cap is stored as not done. */
  function StoredDone(cfg: Config, episode: nat, done: bool): (r: bool)
    ensures r ==> done
    ensures episode + 1 == cfg.maxEpisodeSteps ==> !r
    ensures episode + 1 != cfg.maxEpisodeSteps ==> r == done
  {
    if episode + 1 == cfg.maxEpisodeSteps then false else done
  }
}
