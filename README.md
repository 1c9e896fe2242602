# RL2Sampler bookkeeping in Dafny

This project models the batch sampler garage uses for RL^2 (`RL2Sampler` in
`src/garage/sampler/rl2_sampler.py`). The model covers its two pieces of logic:

* **start_worker** checks that `n_envs` is at least `meta_batch_size` and a
  multiple of it. It then clones the base environment once per sampled task,
  sets the task on the clone, and puts that one clone in
  `envs_per_worker = n_envs // meta_batch_size` consecutive slots. When a
  global seed exists, it seeds slot `i` with `seed0 + i`.
* **obtain_samples** keeps a fixed-size table of running trajectories, one
  per slot. Each entry is `None` or six parallel lists. At each environment
  step it visits the slots in index order and appends the slot's
  transition. When the transition is `done`, it moves the entry to that
  slot's output list, adds its length to `n_samples`, and clears the entry.
  It stops once `n_samples` reaches the batch size.

Files:

* `wrappers.dfy`: `Option` and `Result`.
* `trajectories.dfy`: transitions and trajectories. A trajectory is the six
  parallel lists of a running entry, or the six stacked fields of a path.
  Stacking a list into an array is modelled as keeping it as a sequence. The
  file also defines the predicates `Open` (a running entry) and `Finished`
  (an emitted path).
* `running_table.dfy`: the collection state.
  * `Table` is its abstract value.
  * `ProcessSlot` and `ProcessSlots` model the per-slot `for` loop.
  * `Advance` and `Run` model the outer `while` loop, driven over a finite
    sequence of steps.
  * The lemmas prove the invariants and the exit behaviour.
  * The class `PathTable` holds `running_paths` (an array of optional
    entries), `paths` (a map from slot to list of paths) and `n_samples`.
    Its methods update them in place and are proved against the functions.
* `rl2_sampler.dfy`: the environment object (`Env`: task, seed and the log
  of seed calls it received), and the sampler class. The class holds the
  constructor, `StartWorker` and `ObtainSamples`.

The environment, the policy, the task sampler and the global seed are
inputs. `StartWorker` takes the sampled tasks and the optional seed.
`ObtainSamples` takes two inputs:

* the observations returned by `reset`;
* one `StepBatch` per step, holding the policy's actions and agent infos and
  the next observations, rewards, dones and env infos the environment
  returned. Each field has one entry per slot.

Two docstring statements in the source disagree with its code. The model
follows the code in both cases:

* The docstring of `obtain_samples` says paths are truncated when
  `whole_paths` is true. The code calls `truncate_paths` only when it is
  false (`rl2_sampler.py:191`). With `whole_paths` true, the model returns
  the output dictionary untouched.
* The docstring gives the default batch size as
  `max_path_length * n_envs`. The code uses
  `episode_per_task * max_path_length * n_envs` (`rl2_sampler.py:111`).

Because one clone serves all the slots of its task, the seeding loop seeds
the same object `envs_per_worker` times (`rl2_sampler.py:60-67`). The seed
left in effect on task `k`'s environment is therefore
`seed0 + (k + 1) * envs_per_worker - 1`. `StartWorker` states this
outright.

## Model

| member | source | states |
|---|---|---|
| `Sampler.EnvsPerWorker` | src/garage/sampler/rl2_sampler.py:51-55 | start_worker succeeds exactly when 0 < meta_batch_size <= n_envs and n_envs is a multiple of it; then envs_per_worker * meta_batch_size == n_envs, with at least one copy per task. The failures are told apart: too few environments first, then a meta_batch_size of 0 (ZeroMetaBatch, where Python's modulo by zero would raise), then a count that is not a multiple. |
| `Sampler.Replicate` | src/garage/sampler/rl2_sampler.py:58-62 | The slot list has meta_batch_size * envs_per_worker entries. |
| `Sampler.ReplicateAt` | src/garage/sampler/rl2_sampler.py:58-62 | Slot k * envs_per_worker + j (j < envs_per_worker) holds task k's clone, in task order. |
| `Sampler.CloneForTasks` | src/garage/sampler/rl2_sampler.py:57-62 | One new object per task, pairwise distinct. Each is set to its task and is otherwise in the base environment's state. The slot list is these objects, each repeated envs_per_worker times. |
| `Sampler.SeedSlots` | src/garage/sampler/rl2_sampler.py:63-67 | Slot i's environment gets seed seed0 + i in ascending i. Task k's shared clone receives exactly seed0 + k * epw, ..., seed0 + (k + 1) * epw - 1 in that order and keeps the last; its task is unchanged. |
| `Sampler.Env.Clone` | src/garage/sampler/rl2_sampler.py:60 | The pickle round-trip gives a new object with the base environment's task and seed. |
| `Sampler.Env.SetTask` | src/garage/sampler/rl2_sampler.py:61 | Sets the task and nothing else. |
| `Sampler.Env.Seed` | src/garage/sampler/rl2_sampler.py:67 | Sets the seed and records the call; the task is unchanged. |
| `Sampler.RL2Sampler.constructor` | src/garage/sampler/rl2_sampler.py:32-46 | n_envs defaults to 4 * n_parallel; no executor exists yet. |
| `Sampler.RL2Sampler.StartWorker` | src/garage/sampler/rl2_sampler.py:48-70 | On a failed check, the error is returned and nothing is built. Otherwise the executor holds n_envs slots laid out task by task. Each clone is set to its task. With a seed, clone k received seed0 + k * epw .. seed0 + (k + 1) * epw - 1 and keeps the last. Without a seed, no seed call is made and the base environment's seed stays in effect. |
| `Sampler.RL2Sampler.ObtainSamples` | src/garage/sampler/rl2_sampler.py:110-191 | The result is the state at which the collection loop stops, as defined by Run. With whole_paths true it returns the dictionary untouched; otherwise it returns truncate_paths applied to it with the batch size. Its keys are exactly the slots 0..n_envs-1 and every path in it is a finished episode. Its paths hold at least batch-size transitions. |
| `Trajectories.Extend` | src/garage/sampler/rl2_sampler.py:161-166 | Appending a transition keeps the six lists aligned (and only aligned lists stay aligned) and adds exactly one entry. |
| `Trajectories.ExtendAt` | src/garage/sampler/rl2_sampler.py:161-166 | In an aligned trajectory, the appended transition is read back at the last position, and every earlier position reads back as before. |
| `Trajectories.ExtendOpen` | src/garage/sampler/rl2_sampler.py:161-178 | Extending an open entry with a non-done transition leaves it open. With a done transition it becomes a finished path: last `dones` entry true, all earlier false. |
| `Trajectories.ItemsUpToAt` | src/garage/sampler/rl2_sampler.py:161-166 | The first k transitions an aligned trajectory records are k long, and the j-th of them is the j-th entry of each of the six lists. |
| `Trajectories.ItemsUpToExtend` | src/garage/sampler/rl2_sampler.py:161-166 | Appending to an aligned trajectory leaves the transitions it already recorded unchanged. |
| `Trajectories.ItemsExtend` | src/garage/sampler/rl2_sampler.py:161-166 | Appending a transition to an aligned trajectory appends exactly it to the list of transitions the trajectory records. |
| `Trajectories.OpenItems` | src/garage/sampler/rl2_sampler.py:161-167 | No transition recorded by a running (open) entry is done. |
| `RunningTable.Zip` | src/garage/sampler/rl2_sampler.py:149-151 | The zipped transitions have one entry per slot, and slot i's done flag is the step's dones[i]. |
| `RunningTable.Initial` | src/garage/sampler/rl2_sampler.py:113-120 | Before the loop, every entry is None and every output list is empty. The output has exactly the keys 0..n-1, n_samples is 0, and the invariant holds. |
| `RunningTable.EmptyOutput` | src/garage/sampler/rl2_sampler.py:113-115 | The output dictionary has exactly the keys 0..n-1, each bound to an empty list. |
| `RunningTable.ProcessSlot` | src/garage/sampler/rl2_sampler.py:152-180 | One slot's step keeps the table size and the set of output keys. |
| `RunningTable.ProcessSlots` | src/garage/sampler/rl2_sampler.py:149-180 | The per-slot loop, slots in index order, keeps the table size and the output keys. |
| `RunningTable.InFlightUpdate` | src/garage/sampler/rl2_sampler.py:152-166 | Replacing one running entry changes the count of in-flight transitions in any prefix holding it by the difference of the two entries, and leaves shorter prefixes unchanged. |
| `RunningTable.OutputSamplesAppend` | src/garage/sampler/rl2_sampler.py:170-179 | Appending a path to one slot's list adds exactly its length to the output count. |
| `RunningTable.ProcessSlotCount` | src/garage/sampler/rl2_sampler.py:152-180 | One slot step never decreases n_samples. n_samples plus the in-flight transitions grows by exactly one: the appended transition is either in the flushed path or in the running entry. |
| `RunningTable.ProcessSlotKeeps` | src/garage/sampler/rl2_sampler.py:152-180 | One slot step keeps the invariant: entries are open, aligned and non-empty; output paths are finished; n_samples equals the output length. |
| `RunningTable.ProcessSlotLocal` | src/garage/sampler/rl2_sampler.py:152-180 | A slot step touches only its own slot. The slot's entry (a fresh empty one when it was None) extended by the transition is the new episode data. On done, the entry becomes None and that one path is appended to the slot's list, with length old entry + 1. Otherwise the entry becomes that extended trajectory and the output is unchanged. |
| `RunningTable.ProcessSlotsCount` | src/garage/sampler/rl2_sampler.py:149-180 | After k slots, n_samples has not decreased and exactly k transitions have entered the table. |
| `RunningTable.ProcessSlotsKeeps` | src/garage/sampler/rl2_sampler.py:149-180 | After k slots, the invariant still holds. |
| `RunningTable.ProcessSlotsDoneMask` | src/garage/sampler/rl2_sampler.py:149-180 | After slots 0..k-1, entry i is None exactly when slot i's transition was done; later slots are untouched. |
| `RunningTable.ProcessSlotsFrame` | src/garage/sampler/rl2_sampler.py:149-180 | After slots 0..k-1, each of them has had exactly its own transition applied as ProcessSlotLocal describes; slots k and later are untouched. |
| `RunningTable.SlotHistory` | src/garage/sampler/rl2_sampler.py:152-180 | Applying transition x to slot i appends exactly x to the slot's history: its output paths' transitions followed by its running entry's. |
| `RunningTable.StepHistory` | src/garage/sampler/rl2_sampler.py:149-180 | One whole step appends to each slot's history exactly that slot's transition of the step, and keeps the running entries aligned. |
| `RunningTable.StepEffect` | src/garage/sampler/rl2_sampler.py:149-180 | A whole step keeps the invariant and leaves entry i None exactly when the step reported dones[i]. |
| `RunningTable.Run` | src/garage/sampler/rl2_sampler.py:131-183 | When the loop stops, n_samples >= batch_size, and the table size and output keys are unchanged. |
| `RunningTable.AdvanceKeeps` | src/garage/sampler/rl2_sampler.py:131-183 | s steps keep the invariant and never decrease n_samples. n_samples plus the in-flight transitions grows by exactly n per step. |
| `RunningTable.RunStopsAtFirstReach` | src/garage/sampler/rl2_sampler.py:131 | The loop stops after the first step at which n_samples reaches the batch size, and returns that state. |
| `RunningTable.RunExhausted` | src/garage/sampler/rl2_sampler.py:131 | If n_samples stays below the batch size for the whole input, the loop never stops within it. |
| `RunningTable.RunKeeps` | src/garage/sampler/rl2_sampler.py:117-183 | The state the loop stops in satisfies the invariant, and its n_samples is at least the starting one. |
| `RunningTable.RunIsAdvance` | src/garage/sampler/rl2_sampler.py:131-183 | The stopping state is the state after RunSteps steps, which is at most the number of steps given. |
| `RunningTable.AdvanceAligned` | src/garage/sampler/rl2_sampler.py:131-183 | s steps keep every running entry aligned. |
| `RunningTable.AdvanceHistory` | src/garage/sampler/rl2_sampler.py:131-183 | After s steps, slot i's history has grown by exactly the s transitions the slot was given, in order (proved by induction on s, with AdvanceHistoryStep and AdvanceHistoryAfter as its step). |
| `RunningTable.StoppedStreams` | src/garage/sampler/rl2_sampler.py:117-191 | When the loop stops, each slot's output paths followed by its running entry are exactly the transitions the slot was given, in order (the reset observation first, then each next_obses), over the steps taken. |
| `RunningTable.UnfinishedAtExit` | src/garage/sampler/rl2_sampler.py:131-191 | When the loop stops, no transition held in a running entry is done, so the transitions missing from the output belong to the unfinished episodes. |
| `RunningTable.DroppedAtExit` | src/garage/sampler/rl2_sampler.py:131-191 | At exit, the transitions counted by n_samples plus those held in running entries are exactly n per step taken: what the output lacks is what the running entries hold. |
| `RunningTable.PathTable.constructor` | src/garage/sampler/rl2_sampler.py:113-120 | The output dictionary gets the keys 0..n-1 with empty lists (built by a loop); running_paths is all None; n_samples is 0. |
| `RunningTable.PathTable.StepSlot` | src/garage/sampler/rl2_sampler.py:152-180 | Updates running_paths, paths and n_samples in place, as ProcessSlot describes. |
| `RunningTable.PathTable.ProcessAll` | src/garage/sampler/rl2_sampler.py:149-180 | The in-place per-slot loop leaves the state ProcessSlots gives. |
| `RunningTable.PathTable.Step` | src/garage/sampler/rl2_sampler.py:143-183 | One step keeps the invariant and follows ProcessSlots. Afterwards entry i is None exactly when the step reported dones[i]. |
| `RunningTable.PathTable.Collect` | src/garage/sampler/rl2_sampler.py:117-183 | The outer loop keeps the invariant and ends in the state Run defines. It reports whether the batch size was reached before the input ran out. |

## Left out

- Timing and logging (`time.time`, the policy/env/process timers, `tabular.record`, `logger.log`, `ProgBarCounter`): wall-clock values and I/O with no effect on control flow. The `itr` argument is used only for logging.
- `policy.reset(dones)` before the loop: a call into the policy whose argument is always all-true. The all-true `dones` mask is modelled, as the state every entry starts in.
- `VecEnvExecutor`, the policy and the environment are inputs. `reset` gives `resetObservations`; `get_actions` and `step` give one `StepBatch` per step, each field with one entry per slot. The executor's own `max_path_length` handling is not part of this model.
- Sampler.RL2Sampler.ObtainSamples: the loop is driven over a finite sequence of steps. When that sequence runs out before the batch size is reached, the result is `StepsExhausted`, where the source would keep stepping; termination in the source rests on the executor's `max_path_length`.
- `split_tensor_dict_list`, `stack_tensor_dict_list` and the fallback to empty info dictionaries: their code is not part of this model. Info dictionaries are opaque per-slot values, and stacking keeps a list as a sequence.
- `truncate_paths`: its code is not part of this model. The `Truncated(paths, limit)` result stands for that call on the untruncated dictionary.
- Deep copy by `pickle` is modelled as a new object in the base environment's state. `deterministic.get_seed()` and `env.sample_tasks` are inputs; the task sampler is taken to return `meta_batch_size` tasks.
- `shutdown_worker`: it only closes the external executor.
- Python `assert` statements are modelled as errors; running Python with `-O` would skip them.
- The other files of the repository (torch and TensorFlow modules, the MAML-PPO test) are neural-network code over a framework, re-exports, or an end-to-end training run.
