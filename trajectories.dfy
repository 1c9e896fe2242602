/**
 * Transitions and trajectories of the RL^2 sampler.
 *
 * A running trajectory is the dictionary of six parallel lists that the
 * sampler keeps for one environment slot; a path is the same six fields once
 * stacked into arrays. Stacking a list (np.asarray, and the per-key stacking of
 * info dictionaries) is modelled as keeping the list as a sequence, so one
 * datatype serves for both.
 */
module Trajectories {

  /** Observations, actions, rewards and info dictionaries are never inspected by the sampler. */
  type Observation
  type Action
  type Reward
  type EnvInfo
  type AgentInfo

  /** What one slot contributes at one step. */
  datatype Transition = Transition(
    observation: Observation,
    action: Action,
    reward: Reward,
    done: bool,
    envInfo: EnvInfo,
    agentInfo: AgentInfo)

  /** The six parallel lists of a running trajectory, or the six stacked fields of a path. */
  datatype Trajectory = Trajectory(
    observations: seq<Observation>,
    actions: seq<Action>,
    rewards: seq<Reward>,
    dones: seq<bool>,
    envInfos: seq<EnvInfo>,
    agentInfos: seq<AgentInfo>)
  {
    /** The sample count of a trajectory is the length of its reward list. */
    function Length(): nat {
      |rewards|
    }

    /** All six lists have the same length. */
    predicate Aligned() {
      && |observations| == |rewards|
      && |actions| == |rewards|
      && |dones| == |rewards|
      && |envInfos| == |rewards|
      && |agentInfos| == |rewards|
    }

    /** The transition recorded at position i. */
    function At(i: nat): Transition
      requires Aligned() && i < Length()
    {
      Transition(observations[i], actions[i], rewards[i], dones[i], envInfos[i], agentInfos[i])
    }
  }

  /** A freshly created running entry: six empty lists. */
  const Empty: Trajectory := Trajectory([], [], [], [], [], [])

  /** Appends one transition to each of the six lists. */
  function Extend(t: Trajectory, x: Transition): (r: Trajectory)
    ensures r.Aligned() <==> t.Aligned()
    ensures r.Length() == t.Length() + 1
  {
    Trajectory(
      t.observations + [x.observation],
      t.actions + [x.action],
      t.rewards + [x.reward],
      t.dones + [x.done],
      t.envInfos + [x.envInfo],
      t.agentInfos + [x.agentInfo])
  }

  /** Extending an aligned trajectory records the transition last and keeps the earlier ones. */
  lemma ExtendAt(t: Trajectory, x: Transition)
    requires t.Aligned()
    ensures Extend(t, x).At(t.Length()) == x
    ensures forall i :: 0 <= i < t.Length() ==> Extend(t, x).At(i) == t.At(i)
  {
  }

  /** The transitions a trajectory records, in order; an unaligned trajectory records none. */
  function Items(t: Trajectory): seq<Transition> {
    ItemsUpTo(t, t.Length())
  }

  /** The first k transitions of an aligned trajectory, in order. */
  function ItemsUpTo(t: Trajectory, k: nat): seq<Transition> {
    if k == 0 || !t.Aligned() || k > t.Length() then [] else ItemsUpTo(t, k - 1) + [t.At(k - 1)]
  }

  /** The first k transitions are k long and the j-th of them is At(j). */
  lemma {:induction false} ItemsUpToAt(t: Trajectory, k: nat)
    requires t.Aligned() && k <= t.Length()
    ensures |ItemsUpTo(t, k)| == k
    ensures forall j :: 0 <= j < k ==> ItemsUpTo(t, k)[j] == t.At(j)
  {
    if k > 0 {
      ItemsUpToAt(t, k - 1);
    }
  }

  /** Extending a trajectory leaves the transitions it already recorded in place. */
  lemma {:induction false} ItemsUpToExtend(t: Trajectory, x: Transition, k: nat)
    requires t.Aligned() && k <= t.Length()
    ensures ItemsUpTo(Extend(t, x), k) == ItemsUpTo(t, k)
  {
    if k > 0 {
      ItemsUpToExtend(t, x, k - 1);
      ExtendAt(t, x);
    }
  }

  /** Appending a transition to an aligned trajectory appends it to the transitions it records. */
  lemma ItemsExtend(t: Trajectory, x: Transition)
    requires t.Aligned()
    ensures Items(Extend(t, x)) == Items(t) + [x]
  {
    ItemsUpToExtend(t, x, t.Length());
    ExtendAt(t, x);
  }

  /** A running entry: aligned, and no transition in it ended the episode. */
  ghost predicate Open(t: Trajectory) {
    t.Aligned() && forall i :: 0 <= i < |t.dones| ==> !t.dones[i]
  }

  /** The transitions an open trajectory records are all not done. */
  lemma OpenItems(t: Trajectory)
    requires Open(t)
    ensures forall j :: 0 <= j < |Items(t)| ==> !Items(t)[j].done
  {
    ItemsUpToAt(t, t.Length());
  }

  /** An emitted path: aligned, non-empty, its last transition is done and no earlier one is. */
  ghost predicate Finished(t: Trajectory) {
    && t.Aligned()
    && t.Length() > 0
    && t.dones[t.Length() - 1]
    && forall i :: 0 <= i < t.Length() - 1 ==> !t.dones[i]
  }

  /** Extending an open entry keeps it open unless the new transition is done, which finishes it. */
  lemma ExtendOpen(t: Trajectory, x: Transition)
    requires Open(t)
    ensures x.done ==> Finished(Extend(t, x))
    ensures !x.done ==> Open(Extend(t, x))
  {
    var r := Extend(t, x);
    assert r.dones == t.dones + [x.done];
  }
}
