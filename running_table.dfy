/**
 * The per-slot bookkeeping of RL2Sampler.obtain_samples: a fixed-size table of
 * running trajectories, the per-slot output lists, and the sample counter.
 *
 * `Table` is the abstract value of that state; `ProcessSlot` is the body of
 * the per-slot `for` loop, `ProcessSlots` the loop itself, `Advance` and `Run`
 * the outer `while` loop driven over a finite sequence of environment steps.
 * `PathTable` is the mutable state the sampler updates in place.
 */
module RunningTable {
  import opened Wrappers
  import opened Trajectories

  /** What the policy and the vectorised environment return for one step, one entry per slot. */
  datatype StepBatch = StepBatch(
    actions: seq<Action>,
    agentInfos: seq<AgentInfo>,
    nextObservations: seq<Observation>,
    rewards: seq<Reward>,
    dones: seq<bool>,
    envInfos: seq<EnvInfo>)
  {
    /** Every per-slot list has one entry per slot. */
    predicate Width(n: nat) {
      && |actions| == n
      && |agentInfos| == n
      && |nextObservations| == n
      && |rewards| == n
      && |dones| == n
      && |envInfos| == n
    }
  }

  /** The transitions of one step, slot by slot: the observation the action was chosen for, and what the step returned. */
  function Zip(obses: seq<Observation>, b: StepBatch): (xs: seq<Transition>)
    requires b.Width(|obses|)
    ensures |xs| == |obses|
    ensures forall i :: 0 <= i < |xs| ==> xs[i].done == b.dones[i]
  {
    seq(|obses|, i requires 0 <= i < |obses| =>
      Transition(obses[i], b.actions[i], b.rewards[i], b.dones[i], b.envInfos[i], b.agentInfos[i]))
  }

  /**
   * The collection state: the running entries (None or a trajectory), the
   * output lists keyed by slot, and the sample counter.
   */
  datatype Table = Table(
    running: seq<Option<Trajectory>>,
    paths: map<int, seq<Trajectory>>,
    nSamples: int)

  /** The total number of transitions in a list of paths. */
  function TotalLength(ps: seq<Trajectory>): nat {
    if ps == [] then 0 else TotalLength(ps[..|ps| - 1]) + ps[|ps| - 1].Length()
  }

  /** The number of transitions in a running entry; None holds none. */
  function EntryLength(e: Option<Trajectory>): nat {
    if e.Some? then e.value.Length() else 0
  }

  /** The number of transitions held in running entries 0..k-1. */
  function InFlightPrefix(running: seq<Option<Trajectory>>, k: nat): nat
    requires k <= |running|
  {
    if k == 0 then 0 else InFlightPrefix(running, k - 1) + EntryLength(running[k - 1])
  }

  /** The number of transitions held in running entries. */
  function InFlight(running: seq<Option<Trajectory>>): nat {
    InFlightPrefix(running, |running|)
  }

  /** The number of transitions in the output lists of slots 0..k-1. */
  function OutputSamples(paths: map<int, seq<Trajectory>>, k: nat): nat
    requires forall i :: 0 <= i < k ==> i in paths
  {
    if k == 0 then 0 else OutputSamples(paths, k - 1) + TotalLength(paths[k - 1])
  }

  /** The transitions of a list of paths, path after path. */
  function PathItems(ps: seq<Trajectory>): seq<Transition> {
    if ps == [] then [] else PathItems(ps[..|ps| - 1]) + Items(ps[|ps| - 1])
  }

  /** The transitions of a running entry; None holds none. */
  function EntryItems(e: Option<Trajectory>): seq<Transition> {
    if e.Some? then Items(e.value) else []
  }

  /**
   * Everything slot i has recorded: the transitions of its output paths, then
   * those of its running entry. A slot outside the table has recorded nothing.
   */
  function History(t: Table, i: nat): seq<Transition> {
    if i < |t.running| && i in t.paths then PathItems(t.paths[i]) + EntryItems(t.running[i]) else []
  }

  /** Every running entry has its six lists aligned. */
  ghost predicate EntriesAligned(running: seq<Option<Trajectory>>) {
    forall i :: 0 <= i < |running| && running[i].Some? ==> running[i].value.Aligned()
  }

  /** The output has exactly the keys 0..n-1. */
  ghost predicate HasSlots(paths: map<int, seq<Trajectory>>, n: nat) {
    forall i :: i in paths <==> 0 <= i < n
  }

  /** Every running entry is a non-empty open trajectory. */
  ghost predicate RunningOpen(running: seq<Option<Trajectory>>) {
    forall i :: 0 <= i < |running| && running[i].Some? ==>
      Open(running[i].value) && running[i].value.Length() > 0
  }

  /** Every path in the output is a finished episode. */
  ghost predicate PathsFinished(paths: map<int, seq<Trajectory>>) {
    forall i, j :: i in paths && 0 <= j < |paths[i]| ==> Finished(paths[i][j])
  }

  /** The invariant of the collection state over n slots. */
  ghost predicate Consistent(t: Table, n: nat) {
    && |t.running| == n
    && HasSlots(t.paths, n)
    && RunningOpen(t.running)
    && PathsFinished(t.paths)
    && t.nSamples == OutputSamples(t.paths, n)
  }

  /** The state before the first step: every entry None, every output list empty, no samples. */
  function Initial(n: nat): (t: Table)
    ensures Consistent(t, n)
    ensures forall i :: 0 <= i < n ==> t.running[i].None? && t.paths[i] == []
    ensures t.nSamples == 0 && InFlight(t.running) == 0
  {
    var t := Table(seq(n, _ => None), EmptyOutput(n), 0);
    AllNoneInFlight(t.running, n);
    EmptyOutputSamples(n, n);
    t
  }

  /** The output dictionary with the keys 0..n-1 each bound to an empty list. */
  function EmptyOutput(n: nat): (paths: map<int, seq<Trajectory>>)
    ensures HasSlots(paths, n)
    ensures forall i :: i in paths ==> paths[i] == []
  {
    if n == 0 then map[] else EmptyOutput(n - 1)[n - 1 := []]
  }

  lemma {:induction false} EmptyOutputSamples(n: nat, k: nat)
    requires k <= n
    ensures OutputSamples(EmptyOutput(n), k) == 0
  {
    if k > 0 {
      EmptyOutputSamples(n, k - 1);
    }
  }

  lemma {:induction false} AllNoneInFlight(running: seq<Option<Trajectory>>, k: nat)
    requires k <= |running|
    requires forall i :: 0 <= i < |running| ==> running[i].None?
    ensures InFlightPrefix(running, k) == 0
  {
    if k > 0 {
      AllNoneInFlight(running, k - 1);
    }
  }

  /** The slot's running entry, or the fresh six empty lists the loop creates when there is none. */
  function Current(e: Option<Trajectory>): Trajectory {
    if e.Some? then e.value else Empty
  }

  /**
   * One iteration of the per-slot loop: create the entry if absent, append the
   * transition, and when it is done move the entry to the slot's output list,
   * add its length to the counter and clear the entry.
   */
  function ProcessSlot(t: Table, idx: nat, x: Transition): (r: Table)
    requires idx < |t.running| && idx in t.paths
    ensures |r.running| == |t.running| && (forall i :: i in r.paths <==> i in t.paths)
  {
    var entry := Extend(Current(t.running[idx]), x);
    if x.done then
      Table(t.running[idx := None], t.paths[idx := t.paths[idx] + [entry]], t.nSamples + entry.Length())
    else
      Table(t.running[idx := Some(entry)], t.paths, t.nSamples)
  }

  /** The per-slot loop after its first k iterations, slots taken in index order. */
  function ProcessSlots(t: Table, xs: seq<Transition>, k: nat): (r: Table)
    requires k <= |xs| && k <= |t.running|
    requires forall i :: 0 <= i < |t.running| ==> i in t.paths
    ensures |r.running| == |t.running| && (forall i :: i in r.paths <==> i in t.paths)
  {
    if k == 0 then t else ProcessSlot(ProcessSlots(t, xs, k - 1), k - 1, xs[k - 1])
  }

  /** Replacing one entry changes the in-flight count by the difference of the two entries. */
  lemma {:induction false} InFlightUpdate(running: seq<Option<Trajectory>>, i: nat, e: Option<Trajectory>, k: nat)
    requires i < |running| && k <= |running|
    ensures InFlightPrefix(running[i := e], k) + (if i < k then EntryLength(running[i]) else 0)
            == InFlightPrefix(running, k) + (if i < k then EntryLength(e) else 0)
  {
    if k > 0 {
      InFlightUpdate(running, i, e, k - 1);
    }
  }

  lemma {:induction false} TotalLengthAppend(ps: seq<Trajectory>, p: Trajectory)
    ensures TotalLength(ps + [p]) == TotalLength(ps) + p.Length()
  {
    assert (ps + [p])[..|ps|] == ps;
  }

  /** Appending a path to one slot's list adds its length to the output count of every range holding that slot. */
  lemma {:induction false} OutputSamplesAppend(paths: map<int, seq<Trajectory>>, k: nat, idx: int, p: Trajectory)
    requires forall i :: 0 <= i < k ==> i in paths
    requires idx in paths
    ensures OutputSamples(paths[idx := paths[idx] + [p]], k)
            == OutputSamples(paths, k) + (if 0 <= idx < k then p.Length() else 0)
  {
    if k > 0 {
      OutputSamplesAppend(paths, k - 1, idx, p);
      if idx == k - 1 {
        TotalLengthAppend(paths[idx], p);
      }
    }
  }

  /** One slot step never decreases the counter and brings exactly one transition into the table. */
  lemma ProcessSlotCount(t: Table, idx: nat, x: Transition)
    requires idx < |t.running| && idx in t.paths
    ensures ProcessSlot(t, idx, x).nSamples >= t.nSamples
    ensures ProcessSlot(t, idx, x).nSamples + InFlight(ProcessSlot(t, idx, x).running)
            == t.nSamples + InFlight(t.running) + 1
  {
    var oldEntry := if t.running[idx].Some? then t.running[idx].value else Empty;
    var entry := Extend(oldEntry, x);
    assert EntryLength(t.running[idx]) == oldEntry.Length();
    if x.done {
      InFlightUpdate(t.running, idx, None, |t.running|);
    } else {
      InFlightUpdate(t.running, idx, Some(entry), |t.running|);
    }
  }

  /**
   * One slot step keeps the invariant: entries stay open, aligned and
   * non-empty, output paths stay finished, and the counter stays equal to the
   * length of the output.
   */
  lemma ProcessSlotKeeps(t: Table, n: nat, idx: nat, x: Transition)
    requires Consistent(t, n) && idx < n
    ensures Consistent(ProcessSlot(t, idx, x), n)
  {
    var oldEntry := if t.running[idx].Some? then t.running[idx].value else Empty;
    var entry := Extend(oldEntry, x);
    ExtendOpen(oldEntry, x);
    if x.done {
      OutputSamplesAppend(t.paths, n, idx, entry);
    }
  }

  /**
   * A slot step touches only its own slot: the entry is cleared exactly when the
   * transition is done, and then one path is appended to that slot's list and
   * to no other; otherwise the output is unchanged.
   */
  lemma ProcessSlotLocal(t: Table, idx: nat, x: Transition)
    requires idx < |t.running| && idx in t.paths
    ensures var r := ProcessSlot(t, idx, x);
      && (r.running[idx].None? <==> x.done)
      && (forall i :: 0 <= i < |t.running| && i != idx ==> r.running[i] == t.running[i])
      && (forall i :: i in t.paths && i != idx ==> r.paths[i] == t.paths[i])
      && (x.done ==> r.paths[idx] == t.paths[idx] + [Extend(Current(t.running[idx]), x)]
                     && r.paths[idx][|t.paths[idx]|].Length() == EntryLength(t.running[idx]) + 1)
      && (!x.done ==> r.running[idx] == Some(Extend(Current(t.running[idx]), x)) && r.paths == t.paths)
  {
  }

  lemma {:induction false} PathItemsAppend(ps: seq<Trajectory>, p: Trajectory)
    ensures PathItems(ps + [p]) == PathItems(ps) + Items(p)
  {
    assert (ps + [p])[..|ps|] == ps;
  }

  /** The per-slot loop after k iterations never decreases the counter and brings in exactly k transitions. */
  lemma {:induction false} ProcessSlotsCount(t: Table, xs: seq<Transition>, k: nat)
    requires k <= |xs| && k <= |t.running|
    requires forall i :: 0 <= i < |t.running| ==> i in t.paths
    ensures ProcessSlots(t, xs, k).nSamples >= t.nSamples
    ensures ProcessSlots(t, xs, k).nSamples + InFlight(ProcessSlots(t, xs, k).running)
            == t.nSamples + InFlight(t.running) + k
  {
    if k > 0 {
      ProcessSlotsCount(t, xs, k - 1);
      ProcessSlotCount(ProcessSlots(t, xs, k - 1), k - 1, xs[k - 1]);
    }
  }

  /** The per-slot loop after k iterations keeps the invariant. */
  lemma {:induction false} ProcessSlotsKeeps(t: Table, n: nat, xs: seq<Transition>, k: nat)
    requires Consistent(t, n) && |xs| == n && k <= n
    ensures Consistent(ProcessSlots(t, xs, k), n)
  {
    if k > 0 {
      var prev := ProcessSlots(t, xs, k - 1);
      ProcessSlotsKeeps(t, n, xs, k - 1);
      ProcessSlotKeeps(prev, n, k - 1, xs[k - 1]);
      assert ProcessSlots(t, xs, k) == ProcessSlot(prev, k - 1, xs[k - 1]);
    }
  }

  /**
   * After the per-slot loop has visited slots 0..k-1, entry i of those slots is
   * None exactly when slot i's transition was done; later slots are untouched.
   */
  lemma {:induction false} ProcessSlotsDoneMask(t: Table, xs: seq<Transition>, k: nat)
    requires k <= |xs| && k <= |t.running|
    requires forall i :: 0 <= i < |t.running| ==> i in t.paths
    ensures forall i :: 0 <= i < k ==> (ProcessSlots(t, xs, k).running[i].None? <==> xs[i].done)
    ensures forall i :: k <= i < |t.running| ==> ProcessSlots(t, xs, k).running[i] == t.running[i]
  {
    if k > 0 {
      ProcessSlotsDoneMask(t, xs, k - 1);
      ProcessSlotLocal(ProcessSlots(t, xs, k - 1), k - 1, xs[k - 1]);
    }
  }

  /**
   * A whole step (the per-slot loop over all n slots) keeps the invariant and
   * leaves a slot's entry None exactly when that slot reported done.
   */
  lemma StepEffect(t: Table, n: nat, obses: seq<Observation>, batch: StepBatch)
    requires Consistent(t, n) && |obses| == n && batch.Width(n)
    ensures Consistent(ProcessSlots(t, Zip(obses, batch), n), n)
    ensures forall i :: 0 <= i < n ==> (ProcessSlots(t, Zip(obses, batch), n).running[i].None? <==> batch.dones[i])
  {
    ProcessSlotsKeeps(t, n, Zip(obses, batch), n);
    ProcessSlotsDoneMask(t, Zip(obses, batch), n);
  }

  /**
   * Slot i of r is slot i of t after its own update by x: the entry extended
   * by x stays running, or on done is appended to the slot's output and
   * cleared.
   */
  ghost predicate SlotUpdated(t: Table, r: Table, i: nat, x: Transition)
    requires i < |t.running| && i < |r.running| && i in t.paths && i in r.paths
  {
    var entry := Extend(Current(t.running[i]), x);
    if x.done then r.running[i] == None && r.paths[i] == t.paths[i] + [entry]
    else r.running[i] == Some(entry) && r.paths[i] == t.paths[i]
  }

  /**
   * The per-slot loop updates every slot independently: after slots 0..k-1,
   * each of them holds its own update by its own transition, and the later
   * slots are untouched.
   */
  lemma {:induction false} ProcessSlotsFrame(t: Table, xs: seq<Transition>, k: nat)
    requires k <= |xs| && k <= |t.running|
    requires forall i :: 0 <= i < |t.running| ==> i in t.paths
    ensures forall i :: 0 <= i < k ==> SlotUpdated(t, ProcessSlots(t, xs, k), i, xs[i])
    ensures forall i :: k <= i < |t.running| ==>
      ProcessSlots(t, xs, k).running[i] == t.running[i] && ProcessSlots(t, xs, k).paths[i] == t.paths[i]
  {
    if k > 0 {
      var prev := ProcessSlots(t, xs, k - 1);
      var r := ProcessSlots(t, xs, k);
      ProcessSlotsFrame(t, xs, k - 1);
      ProcessSlotLocal(prev, k - 1, xs[k - 1]);
      assert r == ProcessSlot(prev, k - 1, xs[k - 1]);
      forall i | 0 <= i < k ensures SlotUpdated(t, r, i, xs[i]) {
        if i < k - 1 {
          assert SlotUpdated(t, prev, i, xs[i]);
        }
      }
    }
  }

  /** A slot's own update appends its transition to the slot's history and keeps its entry aligned. */
  lemma SlotHistory(t: Table, r: Table, i: nat, x: Transition)
    requires i < |t.running| && i < |r.running| && i in t.paths && i in r.paths
    requires t.running[i].Some? ==> t.running[i].value.Aligned()
    requires SlotUpdated(t, r, i, x)
    ensures r.running[i].Some? ==> r.running[i].value.Aligned()
    ensures History(r, i) == History(t, i) + [x]
  {
    var entry := Extend(Current(t.running[i]), x);
    ItemsExtend(Current(t.running[i]), x);
    assert EntryItems(t.running[i]) == Items(Current(t.running[i]));
    if x.done {
      PathItemsAppend(t.paths[i], entry);
    }
  }

  /** One whole step appends to each slot's history exactly that slot's transition. */
  lemma StepHistory(t: Table, xs: seq<Transition>)
    requires |xs| == |t.running| && (forall i :: 0 <= i < |t.running| ==> i in t.paths)
    requires EntriesAligned(t.running)
    ensures EntriesAligned(ProcessSlots(t, xs, |xs|).running)
    ensures forall i :: 0 <= i < |xs| ==> History(ProcessSlots(t, xs, |xs|), i) == History(t, i) + [xs[i]]
  {
    var r := ProcessSlots(t, xs, |xs|);
    ProcessSlotsFrame(t, xs, |xs|);
    forall i | 0 <= i < |xs|
      ensures r.running[i].Some? ==> r.running[i].value.Aligned()
      ensures History(r, i) == History(t, i) + [xs[i]]
    {
      SlotHistory(t, r, i, xs[i]);
    }
  }

  /** Every step of the input has one entry per slot. */
  predicate WellFormedSteps(steps: seq<StepBatch>, n: nat) {
    forall j :: 0 <= j < |steps| ==> steps[j].Width(n)
  }

  lemma TailWellFormed(steps: seq<StepBatch>, n: nat)
    requires WellFormedSteps(steps, n) && steps != []
    ensures WellFormedSteps(steps[1..], n)
  {
    forall j | 0 <= j < |steps| - 1 ensures steps[1..][j].Width(n) {
      assert steps[1..][j] == steps[j + 1];
    }
  }

  /**
   * What slot i is given over the first s steps, independently of the table:
   * at each step the observation the policy acted on (the reset observation,
   * then the previous step's next observation) with the action, reward, done
   * flag and infos that step returned for the slot. The stream stops early
   * only at a step without an entry for the slot, which well-formed input
   * does not have.
   */
  function SlotStream(obses: seq<Observation>, steps: seq<StepBatch>, i: nat, s: nat): seq<Transition>
    decreases s
  {
    if s == 0 || steps == [] || i >= |obses| || !steps[0].Width(|obses|) then []
    else
      var b := steps[0];
      [Transition(obses[i], b.actions[i], b.rewards[i], b.dones[i], b.envInfos[i], b.agentInfos[i])]
        + SlotStream(b.nextObservations, steps[1..], i, s - 1)
  }

  /** The state after the first s steps of the outer loop, starting from observations `obses`. */
  function Advance(t: Table, n: nat, obses: seq<Observation>, steps: seq<StepBatch>, s: nat): (r: Table)
    requires |t.running| == n && HasSlots(t.paths, n) && |obses| == n
    requires WellFormedSteps(steps, n) && s <= |steps|
    ensures |r.running| == n && HasSlots(r.paths, n)
    decreases s
  {
    if s == 0 then t
    else Advance(ProcessSlots(t, Zip(obses, steps[0]), n), n, steps[0].nextObservations, steps[1..], s - 1)
  }

  /**
   * The outer loop: it stops with the current state as soon as the counter
   * reaches the budget; None when the input runs out before that.
   */
  function Run(t: Table, n: nat, obses: seq<Observation>, steps: seq<StepBatch>, budget: int): (r: Option<Table>)
    requires |t.running| == n && HasSlots(t.paths, n) && |obses| == n
    requires WellFormedSteps(steps, n)
    ensures r.Some? ==> r.value.nSamples >= budget
    ensures r.Some? ==> |r.value.running| == n && HasSlots(r.value.paths, n)
    decreases |steps|
  {
    if t.nSamples >= budget then Some(t)
    else if steps == [] then None
    else Run(ProcessSlots(t, Zip(obses, steps[0]), n), n, steps[0].nextObservations, steps[1..], budget)
  }

  /**
   * s steps keep the invariant, never decrease the counter, and bring in n
   * transitions each: the counter plus the transitions held in running entries
   * grows by s * n (which transition sits where is StoppedStreams' result).
   */
  lemma {:induction false} AdvanceKeeps(t: Table, n: nat, obses: seq<Observation>, steps: seq<StepBatch>, s: nat)
    requires Consistent(t, n) && |obses| == n && WellFormedSteps(steps, n) && s <= |steps|
    ensures var r := Advance(t, n, obses, steps, s);
      && Consistent(r, n)
      && r.nSamples >= t.nSamples
      && r.nSamples + InFlight(r.running) == t.nSamples + InFlight(t.running) + s * n
    decreases s
  {
    if s > 0 {
      var xs := Zip(obses, steps[0]);
      var t' := ProcessSlots(t, xs, n);
      ProcessSlotsKeeps(t, n, xs, n);
      ProcessSlotsCount(t, xs, n);
      TailWellFormed(steps, n);
      AdvanceKeeps(t', n, steps[0].nextObservations, steps[1..], s - 1);
      var r := Advance(t', n, steps[0].nextObservations, steps[1..], s - 1);
      assert r == Advance(t, n, obses, steps, s);
      MulStep(s, n);
    }
  }

  lemma MulStep(s: nat, n: nat)
    requires s > 0
    ensures (s - 1) * n + n == s * n
  {
  }

  /**
   * The loop stops at the first step after which the counter has reached the
   * budget: if s is that step, Run returns the state after s steps.
   */
  lemma {:induction false} RunStopsAtFirstReach(t: Table, n: nat, obses: seq<Observation>, steps: seq<StepBatch>, budget: int, s: nat)
    requires |t.running| == n && HasSlots(t.paths, n) && |obses| == n
    requires WellFormedSteps(steps, n) && s <= |steps|
    requires Advance(t, n, obses, steps, s).nSamples >= budget
    requires forall s' :: 0 <= s' < s ==> Advance(t, n, obses, steps, s').nSamples < budget
    ensures Run(t, n, obses, steps, budget) == Some(Advance(t, n, obses, steps, s))
    decreases s
  {
    if s > 0 {
      assert Advance(t, n, obses, steps, 0).nSamples < budget;
      var t' := ProcessSlots(t, Zip(obses, steps[0]), n);
      TailWellFormed(steps, n);
      forall s' | 0 <= s' < s - 1
        ensures Advance(t', n, steps[0].nextObservations, steps[1..], s').nSamples < budget
      {
        assert Advance(t, n, obses, steps, s' + 1) == Advance(t', n, steps[0].nextObservations, steps[1..], s');
      }
      RunStopsAtFirstReach(t', n, steps[0].nextObservations, steps[1..], budget, s - 1);
    }
  }

  /** If the counter stays below the budget for the whole input, Run finds no stopping point. */
  lemma {:induction false} RunExhausted(t: Table, n: nat, obses: seq<Observation>, steps: seq<StepBatch>, budget: int)
    requires |t.running| == n && HasSlots(t.paths, n) && |obses| == n
    requires WellFormedSteps(steps, n)
    requires forall s :: 0 <= s <= |steps| ==> Advance(t, n, obses, steps, s).nSamples < budget
    ensures Run(t, n, obses, steps, budget) == None
    decreases |steps|
  {
    assert Advance(t, n, obses, steps, 0).nSamples < budget;
    if steps != [] {
      var t' := ProcessSlots(t, Zip(obses, steps[0]), n);
      TailWellFormed(steps, n);
      forall s | 0 <= s <= |steps| - 1
        ensures Advance(t', n, steps[0].nextObservations, steps[1..], s).nSamples < budget
      {
        assert Advance(t, n, obses, steps, s + 1) == Advance(t', n, steps[0].nextObservations, steps[1..], s);
      }
      RunExhausted(t', n, steps[0].nextObservations, steps[1..], budget);
    }
  }

  /** Whatever Run returns satisfies the invariant of the collection state. */
  lemma {:induction false} RunKeeps(t: Table, n: nat, obses: seq<Observation>, steps: seq<StepBatch>, budget: int)
    requires Consistent(t, n) && |obses| == n && WellFormedSteps(steps, n)
    requires Run(t, n, obses, steps, budget).Some?
    ensures Consistent(Run(t, n, obses, steps, budget).value, n)
    ensures Run(t, n, obses, steps, budget).value.nSamples >= t.nSamples
    decreases |steps|
  {
    if t.nSamples < budget {
      var xs := Zip(obses, steps[0]);
      ProcessSlotsKeeps(t, n, xs, n);
      ProcessSlotsCount(t, xs, n);
      TailWellFormed(steps, n);
      RunKeeps(ProcessSlots(t, xs, n), n, steps[0].nextObservations, steps[1..], budget);
    }
  }

  /** The number of steps the outer loop takes before Run stops (0 when the input runs out first). */
  function RunSteps(t: Table, n: nat, obses: seq<Observation>, steps: seq<StepBatch>, budget: int): nat
    requires |t.running| == n && HasSlots(t.paths, n) && |obses| == n
    requires WellFormedSteps(steps, n)
    decreases |steps|
  {
    if t.nSamples >= budget || steps == [] then 0
    else 1 + RunSteps(ProcessSlots(t, Zip(obses, steps[0]), n), n, steps[0].nextObservations, steps[1..], budget)
  }

  /** When Run stops, its state is the state after RunSteps steps. */
  lemma {:induction false} RunIsAdvance(t: Table, n: nat, obses: seq<Observation>, steps: seq<StepBatch>, budget: int)
    requires |t.running| == n && HasSlots(t.paths, n) && |obses| == n
    requires WellFormedSteps(steps, n)
    requires Run(t, n, obses, steps, budget).Some?
    ensures RunSteps(t, n, obses, steps, budget) <= |steps|
    ensures Run(t, n, obses, steps, budget).value == Advance(t, n, obses, steps, RunSteps(t, n, obses, steps, budget))
    decreases |steps|
  {
    if t.nSamples < budget {
      TailWellFormed(steps, n);
      RunIsAdvance(ProcessSlots(t, Zip(obses, steps[0]), n), n, steps[0].nextObservations, steps[1..], budget);
    }
  }

  /** Running entries stay aligned over any number of steps. */
  lemma {:induction false} AdvanceAligned(t: Table, n: nat, obses: seq<Observation>, steps: seq<StepBatch>, s: nat)
    requires |t.running| == n && HasSlots(t.paths, n) && EntriesAligned(t.running) && |obses| == n
    requires WellFormedSteps(steps, n) && s <= |steps|
    ensures EntriesAligned(Advance(t, n, obses, steps, s).running)
    decreases s
  {
    if s > 0 {
      TailWellFormed(steps, n);
      assert EntriesAligned(ProcessSlots(t, Zip(obses, steps[0]), n).running) by {
        StepHistory(t, Zip(obses, steps[0]));
      }
      AdvanceAligned(ProcessSlots(t, Zip(obses, steps[0]), n), n, steps[0].nextObservations, steps[1..], s - 1);
    }
  }

  /** Two histories that grow in turn: by one item, then by the rest of a stream. */
  lemma {:induction false} GrowInTurn(later: seq<Transition>, middle: seq<Transition>, earlier: seq<Transition>, x: Transition, rest: seq<Transition>)
    requires middle == earlier + [x] && later == middle + rest
    ensures later == earlier + ([x] + rest)
  {
  }

  /** A slot's stream over s > 0 steps: its transition of the first step, then its stream over the rest. */
  lemma SlotStreamStep(obses: seq<Observation>, steps: seq<StepBatch>, i: nat, s: nat)
    requires WellFormedSteps(steps, |obses|) && 0 < s <= |steps| && i < |obses|
    ensures SlotStream(obses, steps, i, s)
      == [Zip(obses, steps[0])[i]] + SlotStream(steps[0].nextObservations, steps[1..], i, s - 1)
  {
  }

  /** After s steps, slot i's history has grown by exactly its stream of those s steps. */
  lemma {:induction false} AdvanceHistory(t: Table, n: nat, obses: seq<Observation>, steps: seq<StepBatch>, s: nat, i: nat)
    requires |t.running| == n && HasSlots(t.paths, n) && EntriesAligned(t.running) && |obses| == n
    requires WellFormedSteps(steps, n) && s <= |steps| && i < n
    ensures History(Advance(t, n, obses, steps, s), i) == History(t, i) + SlotStream(obses, steps, i, s)
    decreases s, 2
  {
    if s == 0 {
      assert SlotStream(obses, steps, i, s) == [];
    } else {
      AdvanceHistoryStep(t, n, obses, steps, s, i);
    }
  }

  /** The inductive step of AdvanceHistory: one step, then the remaining s - 1. */
  lemma {:induction false} AdvanceHistoryStep(t: Table, n: nat, obses: seq<Observation>, steps: seq<StepBatch>, s: nat, i: nat)
    requires |t.running| == n && HasSlots(t.paths, n) && EntriesAligned(t.running) && |obses| == n
    requires WellFormedSteps(steps, n) && 0 < s <= |steps| && i < n
    ensures History(Advance(t, n, obses, steps, s), i) == History(t, i) + SlotStream(obses, steps, i, s)
    decreases s, 1
  {
    TailWellFormed(steps, n);
    var xs := Zip(obses, steps[0]);
    assert EntriesAligned(ProcessSlots(t, xs, n).running)
      && History(ProcessSlots(t, xs, n), i) == History(t, i) + [xs[i]] by {
      StepHistory(t, xs);
    }
    SlotStreamStep(obses, steps, i, s);
    AdvanceHistoryAfter(t, ProcessSlots(t, xs, n), n, steps[0].nextObservations, steps[1..], s - 1, i, xs[i]);
  }

  /** A table whose slot i has grown by x from t goes on to grow by its stream. */
  lemma {:induction false} AdvanceHistoryAfter(t: Table, t': Table, n: nat, obses: seq<Observation>, steps: seq<StepBatch>, s: nat, i: nat, x: Transition)
    requires |t'.running| == n && HasSlots(t'.paths, n) && EntriesAligned(t'.running) && |obses| == n
    requires WellFormedSteps(steps, n) && s <= |steps| && i < n
    requires History(t', i) == History(t, i) + [x]
    ensures History(Advance(t', n, obses, steps, s), i) == History(t, i) + ([x] + SlotStream(obses, steps, i, s))
    decreases s, 3
  {
    AdvanceHistory(t', n, obses, steps, s, i);
    GrowInTurn(History(Advance(t', n, obses, steps, s), i), History(t', i), History(t, i), x, SlotStream(obses, steps, i, s));
  }

  /**
   * At the exit of obtain_samples's loop the transitions counted in the
   * output plus those held in running entries are n per step taken; which
   * transition sits where is StoppedStreams' result.
   */
  lemma DroppedAtExit(n: nat, obses: seq<Observation>, steps: seq<StepBatch>, budget: int)
    requires |obses| == n && WellFormedSteps(steps, n)
    requires Run(Initial(n), n, obses, steps, budget).Some?
    ensures var u := Run(Initial(n), n, obses, steps, budget).value;
      OutputSamples(u.paths, n) + InFlight(u.running) == RunSteps(Initial(n), n, obses, steps, budget) * n
  {
    RunIsAdvance(Initial(n), n, obses, steps, budget);
    AdvanceKeeps(Initial(n), n, obses, steps, RunSteps(Initial(n), n, obses, steps, budget));
  }

  /**
   * At the exit of obtain_samples's loop, each slot's output paths followed
   * by its running entry are exactly the transitions the slot was given, in
   * order, so what the output lacks is exactly the running entry (the
   * unfinished episode at the end, see UnfinishedAtExit).
   */
  lemma StoppedStreams(n: nat, obses: seq<Observation>, steps: seq<StepBatch>, budget: int)
    requires |obses| == n && WellFormedSteps(steps, n)
    requires Run(Initial(n), n, obses, steps, budget).Some?
    ensures RunSteps(Initial(n), n, obses, steps, budget) <= |steps|
    ensures var u := Run(Initial(n), n, obses, steps, budget).value;
      forall i :: 0 <= i < n ==>
        PathItems(u.paths[i]) + EntryItems(u.running[i])
          == SlotStream(obses, steps, i, RunSteps(Initial(n), n, obses, steps, budget))
  {
    var t := Initial(n);
    var u := Run(t, n, obses, steps, budget).value;
    RunIsAdvance(t, n, obses, steps, budget);
    forall i | 0 <= i < n
      ensures History(u, i) == SlotStream(obses, steps, i, RunSteps(t, n, obses, steps, budget))
    {
      AdvanceHistory(t, n, obses, steps, RunSteps(t, n, obses, steps, budget), i);
      assert t.paths[i] == [] && t.running[i].None?;
    }
  }

  /** What the stream of a slot has beyond its output paths, its running entry, holds no done transition. */
  lemma UnfinishedAtExit(n: nat, obses: seq<Observation>, steps: seq<StepBatch>, budget: int)
    requires |obses| == n && WellFormedSteps(steps, n)
    requires Run(Initial(n), n, obses, steps, budget).Some?
    ensures var u := Run(Initial(n), n, obses, steps, budget).value;
      forall i, j :: 0 <= i < n && 0 <= j < |EntryItems(u.running[i])| ==> !EntryItems(u.running[i])[j].done
  {
    var u := Run(Initial(n), n, obses, steps, budget).value;
    RunKeeps(Initial(n), n, obses, steps, budget);
    forall i | 0 <= i < n && u.running[i].Some?
      ensures forall j :: 0 <= j < |EntryItems(u.running[i])| ==> !EntryItems(u.running[i])[j].done
    {
      OpenItems(u.running[i].value);
    }
  }

  /**
   * The table of running_paths, the per-slot output lists and the sample
   * counter, updated in place by the per-slot loop.
   */
  class PathTable {
    const n: nat
    const runningPaths: array<Option<Trajectory>>
    var paths: map<int, seq<Trajectory>>
    var nSamples: int

    ghost function State(): Table
      reads this, runningPaths
    {
      Table(runningPaths[..], paths, nSamples)
    }

    ghost predicate Valid()
      reads this, runningPaths
    {
      runningPaths.Length == n && Consistent(State(), n)
    }

    /** `paths` with the keys 0..n-1 bound to empty lists, n_samples = 0, running_paths all None. */
    constructor (n: nat)
      ensures Valid() && fresh(runningPaths)
      ensures this.n == n && State() == Initial(n)
    {
      this.n := n;
      runningPaths := new Option<Trajectory>[n](_ => None);
      var output := map[];
      var i := 0;
      while i < n
        invariant 0 <= i <= n && output == EmptyOutput(i)
      {
        output := output[i := []];
        i := i + 1;
      }
      paths := output;
      nSamples := 0;
      new;
      assert runningPaths[..] == Initial(n).running;
    }

    /**
     * One iteration of the per-slot loop: append the transition to the slot's
     * running entry (creating it if absent) and flush the entry on done.
     */
    method StepSlot(idx: nat, x: Transition)
      requires runningPaths.Length == n && idx < n && idx in paths
      modifies this, runningPaths
      ensures State() == ProcessSlot(old(State()), idx, x)
    {
      var entry := Extend(if runningPaths[idx].None? then Empty else runningPaths[idx].value, x);
      if x.done {
        paths := paths[idx := paths[idx] + [entry]];
        nSamples := nSamples + entry.Length();
        runningPaths[idx] := None;
      } else {
        runningPaths[idx] := Some(entry);
      }
      assert runningPaths[..] == old(runningPaths[..])[idx := runningPaths[idx]];
    }

    /**
     * The per-slot loop over the transitions of one step, in slot order.
     */
    method ProcessAll(xs: seq<Transition>)
      requires runningPaths.Length == n && HasSlots(paths, n) && |xs| == n
      modifies this, runningPaths
      ensures State() == ProcessSlots(old(State()), xs, n)
    {
      ghost var start := State();
      var idx := 0;
      while idx < n
        invariant 0 <= idx <= n
        invariant State() == ProcessSlots(start, xs, idx)
      {
        ghost var before := State();
        StepSlot(idx, xs[idx]);
        assert ProcessSlots(start, xs, idx + 1) == ProcessSlot(before, idx, xs[idx]);
        idx := idx + 1;
      }
    }

    /**
     * The bookkeeping of one environment step: the transitions of all slots go
     * through the per-slot loop. Afterwards a slot's entry is None exactly when
     * that slot reported done.
     */
    method Step(obses: seq<Observation>, batch: StepBatch)
      requires Valid() && |obses| == n && batch.Width(n)
      modifies this, runningPaths
      ensures Valid()
      ensures State() == ProcessSlots(old(State()), Zip(obses, batch), n)
      ensures forall i :: 0 <= i < n ==> (runningPaths[i].None? <==> batch.dones[i])
    {
      StepEffect(State(), n, obses, batch);
      ProcessAll(Zip(obses, batch));
    }

    /**
     * The outer loop of obtain_samples over a finite sequence of steps: it
     * runs while the counter is below the budget. `met` is false when the
     * steps run out first. Between steps, a slot's entry is None exactly when
     * the slot's last transition was done, or no step has run yet.
     */
    method Collect(resetObservations: seq<Observation>, steps: seq<StepBatch>, budget: int) returns (met: bool)
      requires Valid() && |resetObservations| == n && WellFormedSteps(steps, n)
      requires forall i :: 0 <= i < n ==> runningPaths[i].None?
      modifies this, runningPaths
      ensures Valid()
      ensures met <==> Run(old(State()), n, resetObservations, steps, budget).Some?
      ensures met ==> State() == Run(old(State()), n, resetObservations, steps, budget).value
    {
      var obses := resetObservations;
      var dones := seq(n, _ => true);
      var t := 0;
      while nSamples < budget && t < |steps|
        invariant 0 <= t <= |steps|
        invariant Valid() && |obses| == n && |dones| == n
        invariant WellFormedSteps(steps[t..], n)
        invariant Run(State(), n, obses, steps[t..], budget)
                  == Run(old(State()), n, resetObservations, steps, budget)
        invariant forall i :: 0 <= i < n ==> (runningPaths[i].None? <==> dones[i])
        decreases |steps| - t
      {
        TailWellFormed(steps[t..], n);
        assert steps[t..][1..] == steps[t + 1..];
        Step(obses, steps[t]);
        dones := steps[t].dones;
        obses := steps[t].nextObservations;
        t := t + 1;
      }
      met := nSamples >= budget;
    }
  }
}
