/**
 * RL2Sampler: the batch sampler for RL^2 that runs one vectorised group of
 * environment copies, several per sampled task, and collects whole episodes
 * from them until a sample budget is met.
 *
 * The environment and the policy are external: tasks, the global seed, the
 * observations returned by `reset` and what each step returns are inputs.
 */
module Sampler {
  import opened Wrappers
  import opened Trajectories
  import opened RunningTable

  /** The exceptions start_worker can raise before it builds anything. */
  datatype ConfigError =
    | TooFewEnvs      // assertion: n_envs < meta_batch_size
    | ZeroMetaBatch   // ZeroDivisionError from n_envs % 0
    | NotMultiple     // assertion: n_envs not a multiple of meta_batch_size

  /**
   * The checks of start_worker, in the order the source makes them, and on
   * success the number of copies of each task's environment.
   */
  function EnvsPerWorker(nEnvs: nat, metaBatchSize: nat): (r: Result<nat, ConfigError>)
    ensures r.Ok? <==> 0 < metaBatchSize <= nEnvs && nEnvs % metaBatchSize == 0
    ensures r.Ok? ==> r.value > 0 && r.value * metaBatchSize == nEnvs
    ensures nEnvs < metaBatchSize ==> r == Err(TooFewEnvs)
    ensures metaBatchSize == 0 ==> r == Err(ZeroMetaBatch)
    ensures metaBatchSize <= nEnvs && metaBatchSize > 0 && nEnvs % metaBatchSize != 0 ==> r == Err(NotMultiple)
  {
    if nEnvs < metaBatchSize then Err(TooFewEnvs)
    else if metaBatchSize == 0 then Err(ZeroMetaBatch)
    else if nEnvs % metaBatchSize != 0 then Err(NotMultiple)
    else Ok(nEnvs / metaBatchSize)
  }

  /** Each element of xs repeated `copies` times, in order. */
  function Replicate<X>(xs: seq<X>, copies: nat): (r: seq<X>)
    ensures |r| == |xs| * copies
  {
    if xs == [] then []
    else
      var r := Replicate(xs[..|xs| - 1], copies) + seq(copies, _ => xs[|xs| - 1]);
      assert |r| == (|xs| - 1) * copies + copies;
      r
  }

  /** Position k * copies + j of the replicated list holds element k. */
  lemma {:induction false} ReplicateAt<X>(xs: seq<X>, copies: nat, k: nat, j: nat)
    requires k < |xs| && j < copies
    ensures k * copies + j < |Replicate(xs, copies)|
    ensures Replicate(xs, copies)[k * copies + j] == xs[k]
  {
    var init := xs[..|xs| - 1];
    assert |Replicate(init, copies)| == (|xs| - 1) * copies;
    if k < |xs| - 1 {
      ReplicateAt(init, copies, k, j);
      assert k * copies + j < (|xs| - 1) * copies by {
        assert (k + 1) * copies <= (|xs| - 1) * copies;
      }
    } else {
      assert k * copies == (|xs| - 1) * copies;
    }
  }

  /** The seeds start, start + 1, ..., start + count - 1. */
  function SeedRun(start: int, count: nat): seq<int> {
    seq(count, j => start + j)
  }

  /**
   * A garage environment as far as the sampler sees it: the task it is set
   * to and the seed last passed to it; `seedCalls` records every seed call
   * the object received, in order.
   */
  class Env<Task> {
    var task: Option<Task>
    var seed: Option<int>
    ghost var seedCalls: seq<int>

    /** A deep copy (the pickle round-trip) of `base`: a new object in the same state. */
    constructor Clone(base: Env<Task>)
      ensures task == base.task && seed == base.seed && seedCalls == []
    {
      task := base.task;
      seed := base.seed;
      seedCalls := [];
    }

    method SetTask(t: Task)
      modifies this
      ensures task == Some(t) && seed == old(seed) && seedCalls == old(seedCalls)
    {
      task := Some(t);
    }

    method Seed(s: int)
      modifies this
      ensures seed == Some(s) && seedCalls == old(seedCalls) + [s] && task == old(task)
    {
      seed := Some(s);
      seedCalls := seedCalls + [s];
    }
  }

  /** The sampler's default batch size: episode_per_task episodes of max_path_length steps on every slot. */
  function BatchSize(requested: Option<int>, episodePerTask: nat, maxPathLength: nat, nEnvs: nat): int {
    if requested.Some? then requested.value else episodePerTask * maxPathLength * nEnvs
  }

  /** The result of obtain_samples. */
  datatype Samples =
      /** The output dictionary itself (whole_paths is true). */
    | Whole(paths: map<int, seq<Trajectory>>)
      /** truncate_paths(paths, limit), a call this model does not cover (whole_paths is false). */
    | Truncated(paths: map<int, seq<Trajectory>>, limit: int)
      /** The input steps ran out before the budget was met; the source would keep stepping. */
    | StepsExhausted

  class RL2Sampler<Task> {
    const env: Env<Task>
    const nEnvs: nat
    const metaBatchSize: nat
    const episodePerTask: nat
    const maxPathLength: nat
    /** The environments of the vectorised executor, slot by slot; None before start_worker. */
    var vecEnvs: Option<seq<Env<Task>>>

    /** n_envs defaults to four environments per parallel worker. */
    constructor (env: Env<Task>, metaBatchSize: nat, episodePerTask: nat, maxPathLength: nat,
                 nEnvs: Option<nat>, nParallel: nat)
      ensures this.env == env && this.metaBatchSize == metaBatchSize
      ensures this.episodePerTask == episodePerTask && this.maxPathLength == maxPathLength
      ensures this.nEnvs == (if nEnvs.Some? then nEnvs.value else nParallel * 4)
      ensures vecEnvs == None
    {
      this.env := env;
      this.metaBatchSize := metaBatchSize;
      this.episodePerTask := episodePerTask;
      this.maxPathLength := maxPathLength;
      this.nEnvs := if nEnvs.Some? then nEnvs.value else nParallel * 4;
      vecEnvs := None;
    }

    /**
     * start_worker: check the slot and task counts; clone the base environment
     * once per sampled task, set the task, and put that one clone in
     * envs_per_worker consecutive slots; then, when there is a global seed,
     * seed slot i with seed0 + i in slot order. Because the copies of one task
     * are one object, task k's clone receives the seeds of all its slots, and
     * the last of them, seed0 + (k + 1) * envs_per_worker - 1, is the one in effect.
     */
    method StartWorker(tasks: seq<Task>, seed0: Option<int>) returns (err: Option<ConfigError>, ghost clones: seq<Env<Task>>)
      requires |tasks| == metaBatchSize
      modifies this
      ensures EnvsPerWorker(nEnvs, metaBatchSize).Err? ==>
                err == Some(EnvsPerWorker(nEnvs, metaBatchSize).error) && vecEnvs == old(vecEnvs)
      ensures EnvsPerWorker(nEnvs, metaBatchSize).Ok? ==> err == None
      ensures err == None ==>
        var epw := EnvsPerWorker(nEnvs, metaBatchSize).value;
        && vecEnvs == Some(Replicate(clones, epw))
        && |vecEnvs.value| == nEnvs
        && |clones| == |tasks|
        && (forall k :: 0 <= k < |clones| ==> fresh(clones[k]) && clones[k].task == Some(tasks[k]))
        && (forall k, k' :: 0 <= k < k' < |clones| ==> clones[k] != clones[k'])
        && (forall k :: 0 <= k < |clones| ==>
              if seed0.Some? then
                && clones[k].seedCalls == SeedRun(seed0.value + k * epw, epw)
                && clones[k].seed == Some(seed0.value + k * epw + epw - 1)
              else
                clones[k].seedCalls == [] && clones[k].seed == env.seed)
    {
      var check := EnvsPerWorker(nEnvs, metaBatchSize);
      if check.Err? {
        return Some(check.error), [];
      }
      var epw := check.value;
      var vec;
      vec, clones := CloneForTasks(env, tasks, epw);
      if seed0.Some? {
        SeedSlots(vec, clones, seed0.value, epw, env.seed);
      }
      vecEnvs := Some(vec);
      assert |vec| == |tasks| * epw;
      err := None;
    }

    /**
     * obtain_samples, with the environment and the policy given as the
     * observations `reset` returns and the sequence of what each step
     * returns. It collects until the counter reaches the batch size (by
     * default episode_per_task * max_path_length * n_envs); the result is the
     * state Run reaches, every output path is a finished episode, the keys are
     * the slots, and the paths hold as many transitions as the counter, at
     * least the batch size. Since the paths are those of Run's state,
     * StoppedStreams and UnfinishedAtExit say what they hold: each slot's
     * transitions in order, less the episode still running at the end.
     */
    method ObtainSamples(resetObservations: seq<Observation>, steps: seq<StepBatch>,
                         batchSize: Option<int>, wholePaths: bool) returns (r: Samples)
      requires vecEnvs.Some? && |vecEnvs.value| == nEnvs
      requires |resetObservations| == nEnvs && WellFormedSteps(steps, nEnvs)
      ensures var budget := BatchSize(batchSize, episodePerTask, maxPathLength, nEnvs);
              var run := Run(Initial(nEnvs), nEnvs, resetObservations, steps, budget);
        && (r.StepsExhausted? <==> run.None?)
        && (run.Some? ==> r.paths == run.value.paths)
        && (r.Whole? <==> run.Some? && wholePaths)
        && (r.Truncated? <==> run.Some? && !wholePaths)
        && (r.Truncated? ==> r.limit == budget)
      ensures !r.StepsExhausted? ==>
        var budget := BatchSize(batchSize, episodePerTask, maxPathLength, nEnvs);
        && HasSlots(r.paths, nEnvs)
        && PathsFinished(r.paths)
        && OutputSamples(r.paths, nEnvs) >= budget
    {
      var budget := BatchSize(batchSize, episodePerTask, maxPathLength, nEnvs);
      var table := new PathTable(nEnvs);
      var met := table.Collect(resetObservations, steps, budget);
      if !met {
        r := StepsExhausted;
      } else {
        RunKeeps(Initial(nEnvs), nEnvs, resetObservations, steps, budget);
        r := if wholePaths then Whole(table.paths) else Truncated(table.paths, budget);
      }
    }
  }

  /**
   * The slot list of start_worker: for each task in order, one new copy of
   * `base` set to that task, placed in `copies` consecutive slots.
   */
  method CloneForTasks<Task>(base: Env<Task>, tasks: seq<Task>, copies: nat)
    returns (vec: seq<Env<Task>>, ghost clones: seq<Env<Task>>)
    ensures vec == Replicate(clones, copies) && |clones| == |tasks|
    ensures forall k :: 0 <= k < |clones| ==>
      && fresh(clones[k])
      && clones[k].task == Some(tasks[k])
      && clones[k].seed == base.seed
      && clones[k].seedCalls == []
    ensures forall k, k' :: 0 <= k < k' < |clones| ==> clones[k] != clones[k']
  {
    vec := [];
    clones := [];
    var q := 0;
    while q < |tasks|
      invariant 0 <= q <= |tasks| && |clones| == q
      invariant vec == Replicate(clones, copies)
      invariant forall k :: 0 <= k < q ==>
        fresh(clones[k]) && clones[k].task == Some(tasks[k]) && clones[k].seed == base.seed && clones[k].seedCalls == []
      invariant forall k, k' :: 0 <= k < k' < q ==> clones[k] != clones[k']
    {
      var e := new Env.Clone(base);
      e.SetTask(tasks[q]);
      assert (clones + [e])[..q] == clones;
      vec := vec + seq(copies, _ => e);
      clones := clones + [e];
      q := q + 1;
    }
  }

  /**
   * The seeding loop of start_worker: slot i's environment is seeded with
   * s0 + i, in slot order. Slots k * copies .. (k + 1) * copies - 1 share the
   * object clones[k], so it receives those seeds in ascending order and keeps the last.
   */
  method SeedSlots<Task>(vec: seq<Env<Task>>, ghost clones: seq<Env<Task>>, s0: int, copies: nat, ghost baseSeed: Option<int>)
    requires copies > 0 && vec == Replicate(clones, copies)
    requires forall k, k' :: 0 <= k < k' < |clones| ==> clones[k] != clones[k']
    requires forall k :: 0 <= k < |clones| ==> clones[k].seedCalls == [] && clones[k].seed == baseSeed
    modifies set e | e in clones
    ensures forall k :: 0 <= k < |clones| ==>
      && clones[k].task == old(clones[k].task)
      && clones[k].seedCalls == SeedRun(s0 + k * copies, copies)
      && clones[k].seed == Some(s0 + k * copies + copies - 1)
  {
    var i := 0;
    ghost var k, j := 0, 0;
    while i < |vec|
      invariant 0 <= k <= |clones| && 0 <= j < copies && i == k * copies + j
      invariant k == |clones| ==> j == 0
      invariant i < |vec| <==> k < |clones|
      invariant forall q :: 0 <= q < |clones| ==> clones[q].task == old(clones[q].task)
      invariant forall q :: 0 <= q < k ==>
        clones[q].seedCalls == SeedRun(s0 + q * copies, copies) && clones[q].seed == Some(s0 + q * copies + copies - 1)
      invariant k < |clones| ==>
        clones[k].seedCalls == SeedRun(s0 + k * copies, j)
        && clones[k].seed == (if j == 0 then baseSeed else Some(s0 + k * copies + j - 1))
      invariant forall q :: k < q < |clones| ==> clones[q].seedCalls == [] && clones[q].seed == baseSeed
    {
      ReplicateAt(clones, copies, k, j);
      vec[i].Seed(s0 + i);
      assert SeedRun(s0 + k * copies, j + 1) == SeedRun(s0 + k * copies, j) + [s0 + i];
      i := i + 1;
      if j + 1 == copies {
        MulSucc(k, copies);
        MulLess(k + 1, |clones|, copies);
        k, j := k + 1, 0;
      } else {
        j := j + 1;
      }
    }
  }

  lemma MulSucc(k: nat, c: nat)
    ensures (k + 1) * c == k * c + c
  {
  }

  lemma MulLess(a: nat, b: nat, c: nat)
    requires c > 0
    ensures a < b <==> a * c < b * c
  {
    if a < b {
      assert b * c == a * c + (b - a) * c;
    } else {
      assert a * c == b * c + (a - b) * c;
    }
  }
}
