/**
 * The branching explorer: `nextStates` forms every combination of "arrives now"
 * and "does not arrive now" for the apps, and `simulate` repeats tick plus
 * branching for every tick of the horizon over a set of states.
 */
module Explorer {
  import opened Jobs
  import opened Policies
  import opened Timeline

  /** `nextStates(apps, state, time)`: the branch set over "schedule apps[0] now or not", recursively. */
  function NextStates(apps: seq<App>, s: State, time: int): set<State>
    decreases |apps|
  {
    if apps == [] then {s}
    else NextStates(apps[1..], Schedule(s, apps[0], time), time) + NextStates(apps[1..], s, time)
  }

  function Pow2(n: nat): nat {
    if n == 0 then 1 else 2 * Pow2(n - 1)
  }

  /** `nextStates` keeps its input state among the branches and yields between 1 and 2^|apps| states. */
  lemma {:induction false} NextStatesSize(apps: seq<App>, s: State, time: int)
    ensures s in NextStates(apps, s, time)
    ensures 1 <= |NextStates(apps, s, time)| <= Pow2(|apps|)
    decreases |apps|
  {
    if apps != [] {
      var sched := Schedule(s, apps[0], time);
      NextStatesSize(apps[1..], sched, time);
      NextStatesSize(apps[1..], s, time);
      var a := NextStates(apps[1..], sched, time);
      var b := NextStates(apps[1..], s, time);
      assert |a + b| <= |a| + |b|;
    }
  }

  /**
   * `x` is `s` plus apps of `apps` that arrived at `time`: the ended map and
   * every old running entry are unchanged, and each new running entry is an app
   * of `apps` at `(time, 0)` whose predecessor is present.
   */
  predicate Arrivals(s: State, x: State, apps: seq<App>, time: int) {
    && x.ended == s.ended
    && s.running.Keys <= x.running.Keys
    && (forall a :: a in s.running ==> x.running[a] == s.running[a])
    && (forall a :: a in x.running && a !in s.running ==>
          a in apps && a !in s.ended && x.running[a] == Run(time, 0.0) && HasPredecessor(x, a))
  }

  lemma HasPredecessorMonotone(s: State, x: State, a: AppData)
    requires Present(s) <= Present(x) && HasPredecessor(s, a)
    ensures HasPredecessor(x, a)
  {
    var b :| b in Present(s) && b.id == a.id - 1;
    assert b in Present(x);
  }

  lemma ArrivalsTransitive(s: State, y: State, x: State, app: App, rest: seq<App>, time: int)
    requires Arrivals(s, y, [app], time) && Arrivals(y, x, rest, time)
    ensures Arrivals(s, x, [app] + rest, time)
  {
    forall a | a in x.running && a !in s.running
      ensures a in [app] + rest && a !in s.ended && x.running[a] == Run(time, 0.0) && HasPredecessor(x, a)
    {
      if a in y.running {
        HasPredecessorMonotone(y, x, a);
      }
    }
  }

  /** Every branch of `nextStates` differs from its input only by apps added to `running` at `(time, 0)`. */
  lemma {:induction false} NextStatesAreArrivals(apps: seq<App>, s: State, time: int)
    ensures forall x :: x in NextStates(apps, s, time) ==> Arrivals(s, x, apps, time)
    decreases |apps|
  {
    if apps != [] {
      var sched := Schedule(s, apps[0], time);
      NextStatesAreArrivals(apps[1..], sched, time);
      NextStatesAreArrivals(apps[1..], s, time);
      assert Arrivals(s, sched, [apps[0]], time);
      assert apps == [apps[0]] + apps[1..];
      assert NextStates(apps, s, time) == NextStates(apps[1..], sched, time) + NextStates(apps[1..], s, time);
      forall x | x in NextStates(apps, s, time) ensures Arrivals(s, x, apps, time) {
        if x in NextStates(apps[1..], sched, time) {
          ArrivalsTransitive(s, sched, x, apps[0], apps[1..], time);
        } else {
          assert Arrivals(s, x, apps[1..], time);
          assert forall a :: a in apps[1..] ==> a in apps;
        }
      }
    }
  }

  /** The union of `branch(s)` over the states `s` of `states`. */
  function Union(states: set<State>, branch: State -> set<State>): set<State> {
    set s, x | s in states && x in branch(s) :: x
  }

  /** Every branch of every state is in the union. */
  lemma UnionIntro(states: set<State>, branch: State -> set<State>, s: State, x: State)
    requires s in states && x in branch(s)
    ensures x in Union(states, branch)
  {
  }

  /** Every element of the union is a branch of some state. */
  lemma UnionMember(states: set<State>, branch: State -> set<State>, x: State)
    requires x in Union(states, branch)
    ensures exists s :: s in states && x in branch(s)
  {
  }

  /** The union over a set grown by one state. */
  lemma UnionAdd(done: set<State>, s: State, branch: State -> set<State>)
    ensures Union(done + {s}, branch) == Union(done, branch) + branch(s)
  {
  }

  /** The union over a single state is that state's branches. */
  lemma UnionSingleton(s: State, branch: State -> set<State>)
    ensures Union({s}, branch) == branch(s)
  {
    UnionAdd({}, s, branch);
    assert {} + {s} == {s};
  }

  /** Moving one element from the pending part of a set to the visited part. */
  lemma VisitOne<T>(all: set<T>, rest: set<T>, x: T)
    requires x in rest && rest <= all
    ensures (all - rest) + {x} == all - (rest - {x})
  {
  }

  /** The branches of one state: tick it, then branch over the arrivals; none if the tick raises. */
  function Branches(p: Policy, apps: seq<App>, s: State, time: int): set<State> {
    match Tick(p, s, time)
    case Ok(t) => NextStates(apps, t, time)
    case MissingPriority => {}
  }

  /** `Branches` as a function of the state. */
  function BranchOf(p: Policy, apps: seq<App>, time: int): State -> set<State> {
    s => Branches(p, apps, s, time)
  }

  /** The successors of a set of states: tick each one, then branch. */
  function Successors(p: Policy, apps: seq<App>, states: set<State>, time: int): set<State> {
    Union(states, BranchOf(p, apps, time))
  }

  /** One iteration of `simulate`'s loop; a KeyError in any tick aborts it. */
  function Step(p: Policy, apps: seq<App>, states: set<State>, time: int): Result<set<State>> {
    if forall s :: s in states ==> Tick(p, s, time).Ok? then Ok(Successors(p, apps, states, time))
    else MissingPriority
  }

  /** The loop of `simulate` from tick `t` up to and including `steps`. */
  function SimulateFrom(p: Policy, apps: seq<App>, states: set<State>, t: int, steps: int): Result<set<State>>
    decreases steps - t + 1
  {
    if t > steps then Ok(states)
    else
      match Step(p, apps, states, t)
      case MissingPriority => MissingPriority
      case Ok(next) => SimulateFrom(p, apps, next, t + 1, steps)
  }

  /** `simulate(initial, apps, steps)`. */
  function Simulate(p: Policy, initial: State, apps: seq<App>, steps: int): Result<set<State>> {
    SimulateFrom(p, apps, {initial}, 0, steps)
  }

  /** Every successor comes from a state whose tick succeeded, as one of its branches. */
  lemma SuccessorOrigin(p: Policy, apps: seq<App>, states: set<State>, time: int, x: State)
    requires x in Successors(p, apps, states, time)
    ensures exists s :: s in states && Tick(p, s, time).Ok? && x in NextStates(apps, Tick(p, s, time).value, time)
  {
    var f := BranchOf(p, apps, time);
    UnionMember(states, f, x);
    var s :| s in states && x in f(s);
    assert f(s) == Branches(p, apps, s, time);
  }

  /** One iteration of `simulate`'s loop raises exactly when the tick of some state raises. */
  lemma StepRaises(p: Policy, apps: seq<App>, states: set<State>, time: int)
    ensures Step(p, apps, states, time).MissingPriority?
            <==> exists s :: s in states && Tick(p, s, time).MissingPriority?
  {
    if Step(p, apps, states, time).MissingPriority? {
      var s :| s in states && !Tick(p, s, time).Ok?;
      assert Tick(p, s, time).MissingPriority?;
    }
  }

  /** Every branch of every state's tick is a successor. */
  lemma SuccessorIntro(p: Policy, apps: seq<App>, states: set<State>, time: int, s: State, x: State)
    requires s in states && Tick(p, s, time).Ok? && x in NextStates(apps, Tick(p, s, time).value, time)
    ensures x in Successors(p, apps, states, time)
  {
    var f := BranchOf(p, apps, time);
    assert f(s) == Branches(p, apps, s, time);
    UnionIntro(states, f, s, x);
  }

  /**
   * When one iteration of `simulate`'s loop succeeds, the new set holds
   * exactly the branches of the ticks of the old states.
   */
  lemma StepMembers(p: Policy, apps: seq<App>, states: set<State>, time: int)
    requires Step(p, apps, states, time).Ok?
    ensures forall x :: x in Step(p, apps, states, time).value <==>
              exists s :: s in states && Tick(p, s, time).Ok? && x in NextStates(apps, Tick(p, s, time).value, time)
  {
    var next := Step(p, apps, states, time).value;
    assert next == Successors(p, apps, states, time);
    forall x
      ensures x in next <==>
              exists s :: s in states && Tick(p, s, time).Ok? && x in NextStates(apps, Tick(p, s, time).value, time)
    {
      if x in next {
        SuccessorOrigin(p, apps, states, time, x);
      }
      if exists s :: s in states && Tick(p, s, time).Ok? && x in NextStates(apps, Tick(p, s, time).value, time) {
        var s :| s in states && Tick(p, s, time).Ok? && x in NextStates(apps, Tick(p, s, time).value, time);
        SuccessorIntro(p, apps, states, time, s, x);
      }
    }
  }

  /** A nonempty state set has a nonempty successor set. */
  lemma SuccessorsNonEmpty(p: Policy, apps: seq<App>, states: set<State>, time: int)
    requires states != {} && Step(p, apps, states, time).Ok?
    ensures Step(p, apps, states, time).value != {}
  {
    var s :| s in states;
    assert Step(p, apps, states, time).value == Successors(p, apps, states, time);
    assert Tick(p, s, time).Ok?;
    var t := Tick(p, s, time).value;
    NextStatesSize(apps, t, time);
    SuccessorIntro(p, apps, states, time, s, t);
  }

  /** `simulate` never returns an empty set: the divisions by `len(states)` in the metrics are defined. */
  lemma {:induction false} SimulateFromNonEmpty(p: Policy, apps: seq<App>, states: set<State>, t: int, steps: int)
    requires states != {}
    requires SimulateFrom(p, apps, states, t, steps).Ok?
    ensures SimulateFrom(p, apps, states, t, steps).value != {}
    decreases steps - t + 1
  {
    if t <= steps {
      SuccessorsNonEmpty(p, apps, states, t);
      SimulateFromNonEmpty(p, apps, Step(p, apps, states, t).value, t + 1, steps);
    }
  }

  lemma SimulateNonEmpty(p: Policy, initial: State, apps: seq<App>, steps: int)
    requires Simulate(p, initial, apps, steps).Ok?
    ensures Simulate(p, initial, apps, steps).value != {}
  {
    SimulateFromNonEmpty(p, apps, {initial}, 0, steps);
  }

  /**
   * The invariant of every reachable state, for the apps `seeds` present in the
   * initial state: running and ended are disjoint, running progress lies in
   * [0, 1), no seed ever leaves, every present app is a seed or an app of the
   * list, and every app that is not a seed has its predecessor present.
   */
  predicate Consistent(s: State, seeds: set<App>, apps: seq<App>) {
    && Disjoint(s)
    && ProgressInRange(s)
    && seeds <= Present(s)
    && (forall a :: a in Present(s) ==> a in seeds || a in apps)
    && (forall a :: a in Present(s) ==> a in seeds || HasPredecessor(s, a))
  }

  lemma TickConsistent(p: Policy, s: State, seeds: set<App>, apps: seq<App>, time: int)
    requires Consistent(s, seeds, apps) && Tick(p, s, time).Ok?
    ensures Consistent(Tick(p, s, time).value, seeds, apps)
    ensures Present(Tick(p, s, time).value) == Present(s)
  {
    TickEffect(p, s, time);
    TickKeepsProgressInRange(p, s, time);
    var r := Tick(p, s, time).value;
    forall a | a in Present(r) && a !in seeds ensures HasPredecessor(r, a) {
      HasPredecessorMonotone(s, r, a);
    }
  }

  lemma ArrivalsConsistent(s: State, x: State, seeds: set<App>, apps: seq<App>, time: int)
    requires Consistent(s, seeds, apps) && Arrivals(s, x, apps, time)
    ensures Consistent(x, seeds, apps)
    ensures Present(s) <= Present(x)
  {
    assert Present(s) <= Present(x);
    forall a | a in Present(x) && a !in seeds ensures HasPredecessor(x, a) {
      if a in Present(s) {
        HasPredecessorMonotone(s, x, a);
      }
    }
  }

  /** One step keeps the invariant, and every successor keeps the apps of the state it came from. */
  lemma StepConsistent(p: Policy, apps: seq<App>, states: set<State>, seeds: set<App>, time: int)
    requires forall s :: s in states ==> Consistent(s, seeds, apps)
    requires Step(p, apps, states, time).Ok?
    ensures forall x :: x in Step(p, apps, states, time).value ==> Consistent(x, seeds, apps)
    ensures forall x :: x in Step(p, apps, states, time).value ==>
              exists s :: s in states && Present(s) <= Present(x)
  {
    forall x | x in Step(p, apps, states, time).value
      ensures Consistent(x, seeds, apps)
      ensures exists s :: s in states && Present(s) <= Present(x)
    {
      SuccessorOrigin(p, apps, states, time, x);
      var s :| s in states && Tick(p, s, time).Ok? && x in NextStates(apps, Tick(p, s, time).value, time);
      var t := Tick(p, s, time).value;
      TickConsistent(p, s, seeds, apps, time);
      NextStatesAreArrivals(apps, t, time);
      ArrivalsConsistent(t, x, seeds, apps, time);
    }
  }

  lemma {:induction false} SimulateFromConsistent(p: Policy, apps: seq<App>, states: set<State>, seeds: set<App>,
                                                  t: int, steps: int)
    requires forall s :: s in states ==> Consistent(s, seeds, apps)
    requires SimulateFrom(p, apps, states, t, steps).Ok?
    ensures forall x :: x in SimulateFrom(p, apps, states, t, steps).value ==> Consistent(x, seeds, apps)
    decreases steps - t + 1
  {
    if t <= steps {
      StepConsistent(p, apps, states, seeds, t);
      SimulateFromConsistent(p, apps, Step(p, apps, states, t).value, seeds, t + 1, steps);
    }
  }

  /**
   * Dependency invariant: in every state `simulate` returns, the apps of the
   * initial state are still present, every present app is from the initial
   * state or the list, and every app that arrived through `schedule` has its
   * predecessor (`id - 1`) present.
   */
  lemma SimulateConsistent(p: Policy, initial: State, apps: seq<App>, steps: int)
    requires Disjoint(initial) && ProgressInRange(initial)
    requires Simulate(p, initial, apps, steps).Ok?
    ensures forall x :: x in Simulate(p, initial, apps, steps).value ==> Consistent(x, Present(initial), apps)
  {
    SimulateFromConsistent(p, apps, {initial}, Present(initial), 0, steps);
  }

  /** A tick fails only for the priority policy when a running app has no priority. */
  lemma StepOk(p: Policy, apps: seq<App>, states: set<State>, seeds: set<App>, time: int)
    requires forall s :: s in states ==> Consistent(s, seeds, apps)
    requires p.Priority? ==> seeds <= p.priorities.Keys && forall a :: a in apps ==> a in p.priorities
    ensures Step(p, apps, states, time).Ok?
  {
    forall s | s in states ensures Tick(p, s, time).Ok? {
      assert forall a :: a in s.running ==> a in Present(s);
    }
  }

  lemma {:induction false} SimulateFromOk(p: Policy, apps: seq<App>, states: set<State>, seeds: set<App>,
                                          t: int, steps: int)
    requires forall s :: s in states ==> Consistent(s, seeds, apps)
    requires p.Priority? ==> seeds <= p.priorities.Keys && forall a :: a in apps ==> a in p.priorities
    ensures SimulateFrom(p, apps, states, t, steps).Ok?
    decreases steps - t + 1
  {
    if t <= steps {
      StepOk(p, apps, states, seeds, t);
      StepConsistent(p, apps, states, seeds, t);
      SimulateFromOk(p, apps, Step(p, apps, states, t).value, seeds, t + 1, steps);
    }
  }

  /**
   * `simulate` raises only under the priority policy, and not when every app
   * that can be present has a priority.
   */
  lemma SimulateOk(p: Policy, initial: State, apps: seq<App>, steps: int)
    requires Disjoint(initial) && ProgressInRange(initial)
    requires p.Priority? ==> Present(initial) <= p.priorities.Keys && forall a :: a in apps ==> a in p.priorities
    ensures Simulate(p, initial, apps, steps).Ok?
  {
    SimulateFromOk(p, apps, {initial}, Present(initial), 0, steps);
  }

  /** With nothing seeded no app can ever arrive: the lowest id has no present predecessor. */
  lemma {:induction false} NextStatesFromEmpty(apps: seq<App>, time: int)
    ensures NextStates(apps, State(map[], map[]), time) == {State(map[], map[])}
    decreases |apps|
  {
    if apps != [] {
      NextStatesFromEmpty(apps[1..], time);
      assert !HasPredecessor(State(map[], map[]), apps[0]);
    }
  }

  /** One step from the empty state only: the tick changes nothing and nothing arrives. */
  lemma StepFromEmpty(p: Policy, apps: seq<App>, t: int)
    ensures Step(p, apps, {State(map[], map[])}, t) == Ok({State(map[], map[])})
  {
    var e := State(map[], map[]);
    var st := {e};
    forall s | s in st ensures Tick(p, s, t).Ok? {
      assert s == e;
    }
    assert Step(p, apps, st, t).Ok?;
    SuccessorsFromEmpty(p, apps, t);
  }

  lemma SuccessorsFromEmpty(p: Policy, apps: seq<App>, t: int)
    ensures Successors(p, apps, {State(map[], map[])}, t) == {State(map[], map[])}
  {
    var e := State(map[], map[]);
    NextStatesFromEmpty(apps, t);
    assert Tick(p, e, t) == Ok(e);
    var f := BranchOf(p, apps, t);
    assert f(e) == Branches(p, apps, e, t) == {e};
    UnionSingleton(e, f);
  }

  lemma {:induction false} SimulateFromEmpty(p: Policy, apps: seq<App>, t: int, steps: int)
    ensures SimulateFrom(p, apps, {State(map[], map[])}, t, steps) == Ok({State(map[], map[])})
    decreases steps - t + 1
  {
    if t <= steps {
      StepFromEmpty(p, apps, t);
      SimulateFromEmpty(p, apps, t + 1, steps);
    }
  }

  /** Simulating from the empty state yields exactly the empty state, for every policy and app list. */
  lemma SimulateFromEmptySeed(p: Policy, apps: seq<App>, steps: int)
    ensures Simulate(p, State(map[], map[]), apps, steps) == Ok({State(map[], map[])})
  {
    SimulateFromEmpty(p, apps, 0, steps);
  }

  /** Successors of a set grown by one state. */
  lemma SuccessorsAdd(p: Policy, apps: seq<App>, done: set<State>, s: State, time: int)
    requires Tick(p, s, time).Ok?
    ensures Successors(p, apps, done + {s}, time)
            == Successors(p, apps, done, time) + NextStates(apps, Tick(p, s, time).value, time)
  {
    UnionAdd(done, s, BranchOf(p, apps, time));
    assert BranchOf(p, apps, time)(s) == Branches(p, apps, s, time);
  }

  /** The loop body of `simulate` for one tick: tick every state and union the branch sets. */
  method StepStates(p: Policy, apps: seq<App>, states: set<State>, time: int) returns (r: Result<set<State>>)
    ensures r == Step(p, apps, states, time)
  {
    var acc: set<State> := {};
    var rest := states;
    while rest != {}
      invariant rest <= states
      invariant forall s :: s in states - rest ==> Tick(p, s, time).Ok?
      invariant acc == Successors(p, apps, states - rest, time)
      decreases rest
    {
      var s :| s in rest;
      var ticked := ApplyTick(p, s, time);
      if ticked.MissingPriority? {
        return MissingPriority;
      }
      SuccessorsAdd(p, apps, states - rest, s, time);
      VisitOne(states, rest, s);
      acc := acc + NextStates(apps, ticked.value, time);
      rest := rest - {s};
    }
    assert states - rest == states;
    return Ok(acc);
  }

  /** `simulate` as the source runs it: a loop over ticks `0..steps`, replacing the state set each time. */
  method RunSimulation(p: Policy, initial: State, apps: seq<App>, steps: int) returns (r: Result<set<State>>)
    ensures r == Simulate(p, initial, apps, steps)
  {
    var states := {initial};
    var t := 0;
    while t <= steps
      invariant t >= 0
      invariant SimulateFrom(p, apps, states, t, steps) == Simulate(p, initial, apps, steps)
      decreases steps - t + 1
    {
      var next := StepStates(p, apps, states, t);
      if next.MissingPriority? {
        return MissingPriority;
      }
      states := next.value;
      t := t + 1;
    }
    return Ok(states);
  }
}
