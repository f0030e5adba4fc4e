/** The train calls the driver is expected to issue for a list of completed
    episodes, stated from the episode lengths alone. */
module TrainSchedule {
  import opened Trace
  import opened Settings
  import opened EpisodeSplit

  /** One train call per completed episode, in episode order: its iteration
      count is that episode's length, and its guidance flag is the one in
      force when the episode has just ended, that is at the total number of
      steps taken up to and including that episode. */
  function Schedule(cfg: Config, completed: seq<nat>): (r: seq<TrainCall>)
    ensures |r| == |completed|
    ensures forall k :: 0 <= k < |r| ==>
      r[k].iterations == completed[k] && r[k].guidance == GuidanceFor(cfg, Sum(completed[..k+1]))
    decreases |completed|
  {
    if |completed| == 0 then []
    else
      var n := |completed|;
      assert forall m :: 0 <= m < n ==> completed[..n-1][..m] == completed[..m];
      assert completed[..n] == completed;
      Schedule(cfg, AllButLast(completed)) + [TrainCall(Last(completed), GuidanceFor(cfg, Sum(completed)))]
  }

  /** The scheduled calls together request exactly one gradient iteration per
      step of the completed episodes. */
  lemma {:induction false} ScheduleTrainedSteps(cfg: Config, completed: seq<nat>)
    ensures TrainedSteps(Schedule(cfg, completed)) == Sum(completed)
    decreases |completed|
  {
    if |completed| > 0 {
      var r := Schedule(cfg, completed);
      var n := |completed|;
      ScheduleTrainedSteps(cfg, completed[..n-1]);
      assert r[..n-1] == Schedule(cfg, completed[..n-1]);
    }
  }

  /** Expert guidance is a prefix phase of training: once a train call is
      issued without it, every later call is issued without it too; and TD3
      calls never carry the flag. */
  lemma GuidanceIsPrefixPhase(cfg: Config, completed: seq<nat>, i: nat, j: nat)
    requires i <= j < |completed|
    ensures cfg.variant == TD3 ==> Schedule(cfg, completed)[j].guidance == Unflagged
    ensures Schedule(cfg, completed)[j].guidance == Flagged(true) ==>
      Schedule(cfg, completed)[i].guidance == Flagged(true)
  {
    SumPrefixMonotone(completed, i + 1, j + 1);
  }
}
