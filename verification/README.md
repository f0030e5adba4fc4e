# Training driver of Oursmain.py, modelled in Dafny

This project models the outer training loop of `Oursmain.py`. That loop is
the `__main__` block that drives an off-policy actor-critic agent (TD3, DDPG,
OurDDPG or ExpertDDPG) through a gym environment. The model follows these
steps of the loop:

- It evaluates the untrained policy first.
- It then steps the environment one step per iteration until
  `total_timesteps` reaches `max_timesteps`.
- Each iteration takes a random action during warm-up and a policy action
  afterwards.
- Each iteration stores exactly one transition in the replay buffer. The
  transition's done flag is the truncation-aware `done_bool`.
- At every episode boundary except the first, the loop issues one
  `policy.train` call. The call's iteration count is the length of the
  episode that just finished. Every variant but TD3 also passes the expert
  flag.
- Every step adds one to the counter `timesteps_since_eval`. At an episode
  boundary where that counter has reached `eval_freq`, the loop reduces it
  modulo `eval_freq`, keeping the remainder. It then evaluates the policy and
  grows the evaluation record. It saves the model when enabled, then saves
  the record.
- After the loop it evaluates once more and saves again.
- Every evaluation after the first is immediately followed by its saves.
  Each train call and each evaluation comes after exactly the buffer adds of
  the steps taken so far.

The model makes two things oracles:

- **The environment.** It is the sequence `dones` of done flags that
  `env.step` returns, one per step, together with the episode cap
  `maxEpisodeSteps`.
- **The evaluation routine.** It is a function `ev`, where `ev(k)` is what
  the k-th call of `evaluate_policy` returns.

Every call the loop makes into code outside the model becomes an `Event` in
a trace: a train call, an evaluation, a model save, a results save, an
environment reset, an action or a buffer add. `Summarize` sorts a trace by
event kind.

The proofs compare the driver with reference definitions computed from
`dones` alone:

- `EpisodeSplit.Episodes` gives the lengths of the episodes the flags mark
  out.
- `EpisodeSplit.Offset` gives each step's position inside its episode.
- `TrainSchedule.Schedule` gives the train calls expected for a list of
  completed episodes.
- `Driver.StoredFlag` gives the stored done flag of each step.
- `EvalSchedule.PeriodicEvals` gives the steps at which the boundaries after
  a list of completed episodes evaluate. `EvalSchedule.Carry` gives the
  evaluation counter after them.
- `EpisodeSplit.PrefixSums` gives the step at which each episode of a list
  ends.
- `ExpectedTrace.ExpectedRun` gives the whole sequence of events a run
  issues. It opens with the evaluation at step 0. Each step then brings its
  boundary work when it opens an episode: the train call (after the first
  step), then the evaluation and its saves when due, then the reset. The
  step's action and buffer add follow. The final evaluation and its saves
  close the sequence.

Module layout:

| file | module | contents |
|---|---|---|
| optional.dfy | `Optional` | `Option` |
| trace.dfy | `Trace` | events, the trace summary |
| settings.dfy | `Settings` | the run configuration; the variant, expert-flag, warm-up and done-flag rules |
| episodes.dfy | `EpisodeSplit` | episodes from done flags |
| schedule.dfy | `TrainSchedule` | the expected train calls |
| evaluations.dfy | `EvalSchedule` | the expected periodic evaluations |
| expected.dfy | `ExpectedTrace` | the expected sequence of events of a run |
| modular.dfy | `Modular` | facts about the evaluation counter's remainder |
| driver.dfy | `Driver` | the loop's state and each step of one iteration |
| invariants.dfy | `DriverInvariants` | the loop invariant, and its preservation by one iteration |
| run.dfy | `Training` | the whole run and its outcome |

## Model

| member | source | states |
|---|---|---|
| `Training.Run` | Oursmain.py:102-183 | For every oracle that is long enough, the run ends after exactly `max(maxTimesteps, 0)` steps. It chooses one action and makes one buffer add per step, each equal to the reference choice and the reference flag. It resets once per episode the flags mark out. It trains once per completed episode, using that episode's length and the expert flag in force when the episode ended, and it never trains on the last episode. Train call k comes after exactly the adds of episodes 0 to k. The evaluation record is 0, then exactly the periodic evaluations of the reference schedule over the completed episodes, then the final step. The counter ends at the reference counter plus the last episode's length. Position k of the record holds the k-th evaluation's results, and evaluation k comes after exactly `steps[k]` adds. The trace opens with the evaluation at step 0, and every later evaluation is immediately followed by the model save (when enabled) and the results save. The whole trace is the expected one, which fixes the order across kinds: at each boundary the train call comes first, then the evaluation and its saves, then the reset, and only then the step's action and its add. With a non-positive budget the record is `[0, 0]`, with no train call and no add. |
| `Training.FinishEstablishes` | Oursmain.py:174-183 | After the loop, the final evaluation and save turn the loop invariant into the run's outcome, with the final step as the record's last entry. |
| `DriverInvariants.InitEstablishes` | Oursmain.py:102-111 | Before the loop, with all counters zero and `done` set, the loop invariant holds. The record holds just the evaluation at step 0. |
| `DriverInvariants.IterationPreserves` | Oursmain.py:113-172 | Any iteration that steps the environment once preserves the whole loop invariant. This covers the counters, the actions and adds, the episodes and train calls, the evaluation schedule, the record and saves, and the trace, which stays equal to the expected events of the steps so far. |
| `DriverInvariants.StepsAppend` | Oursmain.py:152-166 | One more step appends exactly one action source and one stored done flag. Both agree with the reference for every step so far. |
| `DriverInvariants.EpisodesStep` | Oursmain.py:117-171 | One iteration keeps `episode_num` and the reset count equal to the number of episodes so far. It keeps the train calls equal to the schedule of every episode but the current one, each issued after the adds up to that episode's end. It keeps `episode_timesteps` equal to the current episode's length. |
| `DriverInvariants.RecordStep` | Oursmain.py:128-140 | One iteration keeps the record sorted with periodic entries at episode ends. It keeps the three lists parallel, with the k-th evaluation's results at position k and issued after `steps[k]` adds. It keeps the eval-frequency budget, and one results save, plus one model save when enabled, per evaluation after the first. |
| `DriverInvariants.EvalScheduleStep` | Oursmain.py:127-133 | One iteration keeps the record equal to 0 followed by the reference schedule's periodic evaluations over the completed episodes. It keeps the counter equal to the reference counter plus the current episode's length. |
| `DriverInvariants.IssuesExpected` | Oursmain.py:113-166 | Once the counters agree with the done flags and the reference counter, the events one iteration issues are the step's expected events, in their order. |
| `DriverInvariants.BoundaryIssued` | Oursmain.py:117-147 | The boundary work appends the train call (skipped at step 0), then the evaluation and its saves when the counter has reached `eval_freq`, then the reset. It leaves the step count alone and the episode length at zero. |
| `DriverInvariants.IterationIssued` | Oursmain.py:113-166 | One iteration appends its boundary work when the previous step ended an episode, then the action and the buffer add of the step. |
| `ExpectedTrace.ExpectedLoopInOrder` | Oursmain.py:107-172 | The expected events of the loop open with the evaluation at step 0, and each evaluation in them is immediately followed by its saves. |
| `ExpectedTrace.ExpectedRunInOrder` | Oursmain.py:107-183 | The same holds of the expected events of a whole run, the final evaluation and its saves included. |
| `DriverInvariants.OrderStep` | Oursmain.py:128-140 | Work that only appends events, each evaluation among them immediately followed by its saves, keeps the trace opening with the evaluation at step 0 and every later evaluation followed by its saves. |
| `Driver.Init` | Oursmain.py:102-111 | Before the loop all counters are zero and `done` is set. The trace holds only the evaluation at step 0, and the record holds step 0 with that evaluation's results. |
| `Driver.TrainIfDue` | Oursmain.py:119-125 | The train call only appends to the trace, so every evaluation stays followed by its saves. The call it appends is pinned through `Training.Run`. |
| `Driver.EvalIfDue` | Oursmain.py:128-140 | The evaluation fires exactly when `since_eval >= eval_freq`. It then leaves the counter below `eval_freq` and congruent to before, appends the current step to the record, and appends to the trace the evaluation followed by its saves. Otherwise nothing changes. |
| `Driver.PersistExtends` | Oursmain.py:130-140 | An evaluation and its persistence append exactly the evaluation at the current step, the model save when enabled, and then the results save. |
| `Driver.Boundary` | Oursmain.py:117-147 | The boundary work only appends to the trace, and every evaluation it issues is immediately followed by its saves. Its counters and events are pinned through `DriverInvariants.IterationPreserves`. |
| `Driver.Iterate` | Oursmain.py:113-172 | One iteration advances the step count by one and keeps the environment's done flag for the next iteration. It only appends to the trace, keeping every evaluation followed by its saves. The rest is pinned through `DriverInvariants.IterationPreserves`. |
| `Driver.Finish` | Oursmain.py:174-183 | The final evaluation appends the final step to the record. It appends to the trace exactly the evaluation at the final step, the model save when enabled, and the results save. |
| `Settings.SelectPolicy` | Oursmain.py:89-92 | A variant is built exactly when the name is one of the four variant names, and it is the variant with that name. |
| `Settings.ActionFor` | Oursmain.py:152-157 | The action is random exactly during warm-up, and a policy action is noisy exactly when exploration noise is non-zero. `Training.Run` pins every step's action to this rule. |
| `Settings.GuidanceFor` | Oursmain.py:115-125 | TD3 receives no expert flag. Every other variant receives the flag, which is set exactly while the expert is enabled and the step count is below `expert_timesteps`. `Training.Run` pins every train call's guidance to this rule. |
| `Settings.StoredDone` | Oursmain.py:162 | The stored flag is set only when the environment reported done. The step that fills the episode cap is stored as not done, and any other step as reported. `Training.Run` pins every add to this rule. |
| `Settings.WarmUpIsPrefix` | Oursmain.py:152-157 | Over the first n steps, `min(n, start_timesteps)` actions are random (none when `start_timesteps <= 0`). No random action follows a policy action. |
| `EpisodeSplit.Episodes` | Oursmain.py:117-147 | There are no more episodes than steps, and there is none only when there is no step. |
| `EpisodeSplit.EpisodesPositive` | Oursmain.py:143-147 | Every episode has at least one step. |
| `EpisodeSplit.EpisodesCover` | Oursmain.py:146-171 | Episode lengths add up to the number of steps taken. |
| `EpisodeSplit.EpisodesLastOffset` | Oursmain.py:162-170 | The current episode's length after step i is one more than the number of its steps before i. |
| `EpisodeSplit.OffsetIsDistanceToLastDone` | Oursmain.py:117-170 | A step's position in its episode is its distance back to the most recent done flag, or to the first step. No done flag lies in between. |
| `EpisodeSplit.PrefixSumsAt` | Oursmain.py:117-125 | Entry k of the episode ends is the total length of episodes 0 to k. |
| `TrainSchedule.Schedule` | Oursmain.py:115-125 | There is one call per completed episode. Call k has episode k's length as its iteration count, and its guidance is the expert flag at the total step count when episode k ended. |
| `TrainSchedule.ScheduleTrainedSteps` | Oursmain.py:119-125 | The scheduled calls request exactly as many iterations as the completed episodes have steps. |
| `TrainSchedule.GuidanceIsPrefixPhase` | Oursmain.py:115-125 | TD3 calls never carry the flag. Once a call is issued without expert guidance, no later call has it. |
| `EvalSchedule.PeriodicEvals` | Oursmain.py:128-133 | There is at most one periodic evaluation per completed episode. |
| `EvalSchedule.CarryCongruent` | Oursmain.py:128-129 | The reference counter stays congruent to the number of steps taken, modulo `eval_freq`. |
| `EvalSchedule.PeriodicBudget` | Oursmain.py:128-133 | Each periodic evaluation uses up `eval_freq` of the steps taken, together with what remains on the counter. |
| `EvalSchedule.PeriodicEvalsLongEpisodes` | Oursmain.py:128-133 | No due evaluation is skipped: when every completed episode has at least `eval_freq` steps, the end of every one of them is evaluated. |
| `EvalSchedule.PeriodicEvalsAtEnds` | Oursmain.py:128-133 | Periodic evaluations come in strictly increasing step order, none after the last completed episode ends. |

## Left out

- Environment internals: `gym.make`, observations, rewards and `episode_reward` are left out. The environment is the sequence of done flags it returns. `Run` requires that sequence to be at least `maxTimesteps` long, so it covers every step the loop can take.
- `evaluate_policy` (lines 16-40) is floating-point work against the environment. Its result is an oracle indexed by call number, and it appears in the trace as an `Evaluated` event.
- The policies' networks, `select_action`, `train` internals, `save`, the replay buffer's storage and the `Expert` data are out of scope. Calls into them appear as events with the arguments the loop decides: iteration count and expert flag for `train`, action source, and stored done flag.
- Exploration noise and clipping (line 157) are floating point. The model records only whether the policy action was noisy, that is whether `expl_noise != 0`.
- Argument parsing, the run's file name, directory creation, `np.savez` contents and printing (lines 45-75, 120, 138-140, 181-183) are I/O. Each save is one event.
- Seeding (lines 80-82) is left out, because randomness does not enter the modelled decisions.
- The model's `evalFreq` has a positive type, so runs with `eval_freq <= 0` are not modelled. In the source, an `eval_freq` of zero raises `ZeroDivisionError` at line 129. A negative one raises nothing: Python's `%` then leaves the counter in `(eval_freq, 0]`, so the check at line 128 passes at every episode boundary. Such a run evaluates at every boundary, step 0 included, and its record starts `[0, 0, …]`. A non-integral `eval_freq` is not modelled either.
- `max_timesteps` is a float in the source and an integer in the model. A fractional budget behaves like the next integer up and is not modelled separately.
- An unknown `--policy_name` leaves `policy` unbound, and the source then fails at its first use (line 108). `SelectPolicy` returns `None` for it, and `Run` takes a configuration with a known variant.
- With a budget of zero or below the loop body never runs. The initial evaluation (lines 108-111) and the final one (lines 175-183) both record step 0, so the record is `[0, 0]`, with one results save.
- The initial evaluation (line 108) is not saved: saves follow only the periodic and the final evaluations, as in the code.
