/**
 * `computeMetrics`: per-state tallies of the ended apps, the error metric and
 * the four classifiers, summed over a set of final states and turned into
 * averages and percentages.
 */
module Metrics {
  import opened Jobs
  import opened Classify

  /** The four counters of the nested loop: turnaround, waiting, ended apps, ended on time. */
  datatype Tally = Tally(turnaround: int, waiting: int, tasks: int, onTime: int)

  function AddTally(x: Tally, y: Tally): Tally {
    Tally(x.turnaround + y.turnaround, x.waiting + y.waiting, x.tasks + y.tasks, x.onTime + y.onTime)
  }

  /** `max(0, turnaround - duration)`. */
  function Waiting(a: App, turnaround: int): (w: int)
    ensures w >= 0 && w >= turnaround - a.duration
    ensures w == 0 || w == turnaround - a.duration
  {
    if turnaround - a.duration > 0 then turnaround - a.duration else 0
  }

  /** What one app of the list adds to the counters of one state. */
  function AppTally(s: State, a: App): Tally {
    if a in s.ended then
      var t := ExecTime(s.ended[a]);
      Tally(t, Waiting(a, t), 1, if t <= a.deadline then 1 else 0)
    else Tally(0, 0, 0, 0)
  }

  /** The inner loop of `computeMetrics` over the app list, for one state. */
  function StateTally(s: State, apps: seq<App>): (t: Tally)
    ensures 0 <= t.onTime <= t.tasks <= |apps|
    ensures t.waiting >= 0
    decreases |apps|
  {
    if apps == [] then Tally(0, 0, 0, 0)
    else AddTally(StateTally(s, apps[..|apps| - 1]), AppTally(s, apps[|apps| - 1]))
  }

  /** The tally of a prefix one app longer. */
  lemma StateTallySnoc(s: State, apps: seq<App>, i: nat)
    requires i < |apps|
    ensures StateTally(s, apps[..i + 1]) == AddTally(StateTally(s, apps[..i]), AppTally(s, apps[i]))
  {
    assert apps[..i + 1][..i] == apps[..i];
  }

  /** Every app of the list is counted exactly when every one has ended. */
  lemma {:induction false} StateTallyAllEnded(s: State, apps: seq<App>)
    ensures StateTally(s, apps).tasks == |apps| <==> forall i :: 0 <= i < |apps| ==> apps[i] in s.ended
    decreases |apps|
  {
    if apps != [] {
      var init := apps[..|apps| - 1];
      var last := apps[|apps| - 1];
      StateTallyAllEnded(s, init);
      assert StateTally(s, apps).tasks == StateTally(s, init).tasks + (if last in s.ended then 1 else 0);
      assert (forall i :: 0 <= i < |apps| ==> apps[i] in s.ended)
             <==> (forall i :: 0 <= i < |init| ==> init[i] in s.ended) && last in s.ended;
    }
  }

  /** An ended app within its deadline. */
  predicate OnTime(s: State, a: App) {
    a in s.ended && ExecTime(s.ended[a]) <= a.deadline
  }

  /** Every app of the list is on time exactly when every one has ended within its deadline. */
  lemma {:induction false} StateTallyAllOnTime(s: State, apps: seq<App>)
    ensures StateTally(s, apps).onTime == |apps| <==> forall i :: 0 <= i < |apps| ==> OnTime(s, apps[i])
    decreases |apps|
  {
    if apps != [] {
      var init := apps[..|apps| - 1];
      var last := apps[|apps| - 1];
      StateTallyAllOnTime(s, init);
      assert StateTally(s, apps).onTime == StateTally(s, init).onTime + (if OnTime(s, last) then 1 else 0);
      assert (forall i :: 0 <= i < |apps| ==> OnTime(s, apps[i]))
             <==> (forall i :: 0 <= i < |init| ==> OnTime(s, init[i])) && OnTime(s, last);
    }
  }

  /**
   * On a disjoint state the tally agrees with the classifier: the state is
   * non-violated exactly when every app of the list is counted as on time.
   */
  lemma NonViolatedIffTallyOnTime(s: State, apps: seq<App>, steps: int)
    requires Disjoint(s)
    ensures NonViolated(s, apps, steps) <==> StateTally(s, apps).onTime == |apps|
  {
    StateTallyAllOnTime(s, apps);
    NonViolatedIffAllOnTime(s, apps, steps);
    assert (forall i :: 0 <= i < |apps| ==> OnTime(s, apps[i]))
           <==> (forall a :: a in apps ==> a in s.ended && ExecTime(s.ended[a]) <= a.deadline);
  }

  /** The inner loop of `computeMetrics` as the source runs it, for one state. */
  method TallyState(s: State, apps: seq<App>) returns (t: Tally)
    ensures t == StateTally(s, apps)
  {
    var turnaround, waiting, tasks, onTime := 0, 0, 0, 0;
    for i := 0 to |apps|
      invariant Tally(turnaround, waiting, tasks, onTime) == StateTally(s, apps[..i])
    {
      StateTallySnoc(s, apps, i);
      var app := apps[i];
      if app in s.ended {
        var t := s.ended[app].finish - s.ended[app].submit;
        var w := if t - app.duration > 0 then t - app.duration else 0;
        turnaround := turnaround + t;
        waiting := waiting + w;
        tasks := tasks + 1;
        if t <= app.deadline {
          onTime := onTime + 1;
        }
      }
    }
    assert apps[..|apps|] == apps;
    t := Tally(turnaround, waiting, tasks, onTime);
  }

  /** Everything one state contributes to the metrics. */
  datatype Totals = Totals(
    states: nat,
    tally: Tally,
    earliness: real,
    tardiness: real,
    violated: nat,
    scenario: nat,
    unfeasible: nat,
    nonViolated: nat)

  const NoTotals := Totals(0, Tally(0, 0, 0, 0), 0.0, 0.0, 0, 0, 0, 0)

  function AddTotals(x: Totals, y: Totals): Totals {
    Totals(
      x.states + y.states,
      AddTally(x.tally, y.tally),
      x.earliness + y.earliness,
      x.tardiness + y.tardiness,
      x.violated + y.violated,
      x.scenario + y.scenario,
      x.unfeasible + y.unfeasible,
      x.nonViolated + y.nonViolated)
  }

  function Indicator(b: bool): nat {
    if b then 1 else 0
  }

  /** The contribution of one state. */
  function StateTotals(s: State, apps: seq<App>, steps: int): (r: Totals)
    ensures Bounded(r, 1)
  {
    ClassesPartition(s, apps, steps);
    var e := Error(s, apps);
    Totals(
      1,
      StateTally(s, apps),
      e.earliness,
      e.tardiness,
      Indicator(Violated(s, apps)),
      Indicator(ScenarioViolated(s, apps, steps)),
      Indicator(Unfeasible(s, apps, steps)),
      Indicator(NonViolated(s, apps, steps)))
  }

  /** Some element of a non-empty set of states. */
  ghost function Pick(ss: set<State>): State
    requires ss != {}
  {
    var s :| s in ss; s
  }

  /**
   * The contributions `f(s)` of all states `s` of `ss` added up; the sums are
   * order-independent, so the choice made by Pick is immaterial (SumByRemove).
   */
  ghost function SumBy(ss: set<State>, f: State -> Totals): Totals
    decreases ss
  {
    if ss == {} then NoTotals
    else
      var s := Pick(ss);
      AddTotals(f(s), SumBy(ss - {s}, f))
  }

  /** Any element can be taken out of the sum first. */
  lemma {:induction false} SumByRemove(ss: set<State>, x: State, f: State -> Totals)
    requires x in ss
    ensures SumBy(ss, f) == AddTotals(f(x), SumBy(ss - {x}, f))
    decreases ss
  {
    var y := Pick(ss);
    if y != x {
      SumByRemove(ss - {y}, x, f);
      assert ss - {y} - {x} == ss - {x} - {y};
      SumByRemove(ss - {x}, y, f);
    }
  }

  /** What each state contributes to the metrics of one call. */
  ghost function Contribution(apps: seq<App>, steps: int): State -> Totals {
    s => StateTotals(s, apps, steps)
  }

  /** The contributions of all states of `ss`. */
  ghost function Sum(ss: set<State>, apps: seq<App>, steps: int): Totals {
    SumBy(ss, Contribution(apps, steps))
  }

  /**
   * The sums over `n` states: `n` states counted, at most as many on-time
   * apps as ended ones, non-negative waiting and errors, and no state counted
   * in two classes that exclude each other.
   */
  predicate Bounded(t: Totals, n: nat) {
    && t.states == n
    && 0 <= t.tally.onTime <= t.tally.tasks
    && t.tally.waiting >= 0
    && t.earliness >= 0.0 && t.tardiness >= 0.0
    && t.nonViolated + t.scenario <= n
    && t.nonViolated + t.violated <= n && t.nonViolated + t.unfeasible <= n
    && t.scenario + t.violated <= n && t.scenario + t.unfeasible <= n
  }

  /** The sums over a set of states are bounded by its size. */
  lemma {:induction false} SumBounded(ss: set<State>, apps: seq<App>, steps: int)
    ensures Bounded(Sum(ss, apps, steps), |ss|)
    decreases ss
  {
    if ss != {} {
      var y := Pick(ss);
      SumBounded(ss - {y}, apps, steps);
      assert Sum(ss, apps, steps) == AddTotals(StateTotals(y, apps, steps), Sum(ss - {y}, apps, steps));
    }
  }

  /** The violated states of `ss`. */
  function ViolatedAmong(ss: set<State>, apps: seq<App>): set<State> {
    set s | s in ss && Violated(s, apps)
  }

  /** The non-violated states of `ss`. */
  function NonViolatedAmong(ss: set<State>, apps: seq<App>, steps: int): set<State> {
    set s | s in ss && NonViolated(s, apps, steps)
  }

  lemma ViolatedAmongRemove(ss: set<State>, y: State, apps: seq<App>)
    requires y in ss
    ensures y !in ViolatedAmong(ss - {y}, apps)
    ensures ViolatedAmong(ss, apps) == ViolatedAmong(ss - {y}, apps) + (if Violated(y, apps) then {y} else {})
  {
  }

  lemma NonViolatedAmongRemove(ss: set<State>, y: State, apps: seq<App>, steps: int)
    requires y in ss
    ensures y !in NonViolatedAmong(ss - {y}, apps, steps)
    ensures NonViolatedAmong(ss, apps, steps) ==
              NonViolatedAmong(ss - {y}, apps, steps) + (if NonViolated(y, apps, steps) then {y} else {})
  {
  }

  /** The violation count of the sum is the number of violated states. */
  lemma {:induction false} SumCountsViolated(ss: set<State>, apps: seq<App>, steps: int)
    ensures Sum(ss, apps, steps).violated == |ViolatedAmong(ss, apps)|
    decreases ss
  {
    if ss != {} {
      var y := Pick(ss);
      SumCountsViolated(ss - {y}, apps, steps);
      assert Sum(ss, apps, steps) == AddTotals(StateTotals(y, apps, steps), Sum(ss - {y}, apps, steps));
      ViolatedAmongRemove(ss, y, apps);
    }
  }

  /** The non-violation count of the sum is the number of non-violated states. */
  lemma {:induction false} SumCountsNonViolated(ss: set<State>, apps: seq<App>, steps: int)
    ensures Sum(ss, apps, steps).nonViolated == |NonViolatedAmong(ss, apps, steps)|
    decreases ss
  {
    if ss != {} {
      var y := Pick(ss);
      SumCountsNonViolated(ss - {y}, apps, steps);
      assert Sum(ss, apps, steps) == AddTotals(StateTotals(y, apps, steps), Sum(ss - {y}, apps, steps));
      NonViolatedAmongRemove(ss, y, apps, steps);
    }
  }

  /** The dictionary `computeMetrics` returns. */
  datatype Metrics = Metrics(
    avgTurnaround: real,
    avgWaiting: real,
    deadlineAdherencePct: real,
    earlinessPct: real,
    tardinessPct: real,
    violationsPct: real,
    scenarioViolationsPct: real,
    unfeasiblesPct: real,
    nonViolationsPct: real,
    numStates: nat,
    numTasks: int)

  /** `x / n * 100`. */
  function Percent(x: real, n: int): real
    requires n != 0
  {
    x / (n as real) * 100.0
  }

  /** A count out of `n` as a percentage lies in [0, 100]. */
  lemma PercentBounds(k: nat, n: nat)
    requires 0 < n && k <= n
    ensures 0.0 <= Percent(k as real, n) <= 100.0
    ensures Percent(k as real, n) == 100.0 <==> k == n
  {
    var q := (k as real) / (n as real);
    var d := (n as real) - (k as real);
    assert q * (n as real) == k as real;
    assert (1.0 - q) * (n as real) == d;
    assert d >= 0.0;
    if q == 1.0 {
      assert k as real == n as real;
    }
  }

  /** The metrics of the final states, from the summed contributions. */
  function MetricsFrom(t: Totals): Metrics
    requires t.states > 0
  {
    var c := t.tally.tasks;
    Metrics(
      if c != 0 then (t.tally.turnaround as real) / (c as real) else 0.0,
      if c != 0 then (t.tally.waiting as real) / (c as real) else 0.0,
      if c != 0 then Percent(t.tally.onTime as real, c) else 0.0,
      Percent(t.earliness, t.states),
      Percent(t.tardiness, t.states),
      Percent(t.violated as real, t.states),
      Percent(t.scenario as real, t.states),
      Percent(t.unfeasible as real, t.states),
      Percent(t.nonViolated as real, t.states),
      t.states,
      c)
  }

  /** `computeMetrics(states, apps, steps)`; an empty set of states divides by zero in the source. */
  ghost function MetricsOf(states: set<State>, apps: seq<App>, steps: int): Metrics
    requires states != {}
  {
    MetricsFrom(Sum(states, apps, steps))
  }

  /**
   * The percentages that count states lie in [0, 100], the non-violated share
   * and the scenario-violated share together do not exceed 100, nor does the
   * non-violated share with either failure share; the adherence lies in
   * [0, 100]; the error percentages and the average waiting time are
   * non-negative; the state count is the size of the set.
   */
  lemma MetricsBounds(states: set<State>, apps: seq<App>, steps: int)
    requires states != {}
    ensures var m := MetricsOf(states, apps, steps);
            && m.numStates == |states|
            && 0.0 <= m.violationsPct <= 100.0
            && 0.0 <= m.scenarioViolationsPct <= 100.0
            && 0.0 <= m.unfeasiblesPct <= 100.0
            && 0.0 <= m.nonViolationsPct <= 100.0
            && m.nonViolationsPct + m.scenarioViolationsPct <= 100.0
            && m.nonViolationsPct + m.violationsPct <= 100.0
            && m.nonViolationsPct + m.unfeasiblesPct <= 100.0
            && 0.0 <= m.deadlineAdherencePct <= 100.0
            && m.earlinessPct >= 0.0 && m.tardinessPct >= 0.0
            && m.avgWaiting >= 0.0 && m.numTasks >= 0
  {
    SumBounded(states, apps, steps);
    MetricsFromBounds(Sum(states, apps, steps));
  }

  /** MetricsBounds for any bounded sums over a non-empty set of states. */
  lemma MetricsFromBounds(t: Totals)
    requires t.states > 0 && Bounded(t, t.states)
    ensures var m := MetricsFrom(t);
            && m.numStates == t.states
            && 0.0 <= m.violationsPct <= 100.0
            && 0.0 <= m.scenarioViolationsPct <= 100.0
            && 0.0 <= m.unfeasiblesPct <= 100.0
            && 0.0 <= m.nonViolationsPct <= 100.0
            && m.nonViolationsPct + m.scenarioViolationsPct <= 100.0
            && m.nonViolationsPct + m.violationsPct <= 100.0
            && m.nonViolationsPct + m.unfeasiblesPct <= 100.0
            && 0.0 <= m.deadlineAdherencePct <= 100.0
            && m.earlinessPct >= 0.0 && m.tardinessPct >= 0.0
            && m.avgWaiting >= 0.0 && m.numTasks >= 0
  {
    var n := t.states;
    PercentBounds(t.violated, n);
    PercentBounds(t.scenario, n);
    PercentBounds(t.unfeasible, n);
    PercentBounds(t.nonViolated, n);
    PercentBounds(t.nonViolated + t.scenario, n);
    PercentBounds(t.nonViolated + t.violated, n);
    PercentBounds(t.nonViolated + t.unfeasible, n);
    PercentSum(t.nonViolated, t.scenario, n);
    PercentSum(t.nonViolated, t.violated, n);
    PercentSum(t.nonViolated, t.unfeasible, n);
    PercentNonNegative(t.earliness, n);
    PercentNonNegative(t.tardiness, n);
    var c := t.tally.tasks;
    if c != 0 {
      PercentBounds(t.tally.onTime, c);
      assert (t.tally.waiting as real) / (c as real) >= 0.0;
    }
  }

  lemma PercentNonNegative(x: real, n: nat)
    requires n > 0 && x >= 0.0
    ensures Percent(x, n) >= 0.0
  {
  }

  lemma PercentSum(x: nat, y: nat, n: nat)
    requires n > 0
    ensures Percent(x as real, n) + Percent(y as real, n) == Percent((x + y) as real, n)
  {
  }

  /**
   * The non-violation percentage is 100 exactly when every final state is
   * non-violated.
   */
  lemma AllNonViolatedIff(states: set<State>, apps: seq<App>, steps: int)
    requires states != {}
    ensures MetricsOf(states, apps, steps).nonViolationsPct == 100.0
            <==> forall s :: s in states ==> NonViolated(s, apps, steps)
  {
    var t := Sum(states, apps, steps);
    SumBounded(states, apps, steps);
    SumCountsNonViolated(states, apps, steps);
    var good := NonViolatedAmong(states, apps, steps);
    FullShare(good, states);
    assert good == states <==> forall s :: s in states ==> NonViolated(s, apps, steps);
  }

  /** A subset of a non-empty set is the whole set exactly when its share is 100 percent. */
  lemma FullShare(part: set<State>, whole: set<State>)
    requires part <= whole && whole != {}
    ensures Percent(|part| as real, |whole|) == 100.0 <==> part == whole
  {
    var rest := whole - part;
    assert whole == part + rest && part !! rest;
    PercentBounds(|part|, |whole|);
    if part != whole {
      var x :| x in whole && x !in part;
      assert x in rest;
    }
  }

  /** One state's contribution, with each classifier run by its loop. */
  method ComputeStateTotals(s: State, apps: seq<App>, steps: int) returns (r: Totals)
    ensures r == StateTotals(s, apps, steps)
  {
    var tally := TallyState(s, apps);
    var e := ComputeError(s, apps);
    var violated := ComputeViolations(s, apps);
    var scenario := ComputeScenarioViolations(s, apps, steps);
    var unfeasible := ComputeUnfeasibility(s, apps, steps);
    var nonViolated := ComputeNonViolations(s, apps, steps);
    r := Totals(
      1, tally, e.earliness, e.tardiness,
      Indicator(violated), Indicator(scenario), Indicator(unfeasible), Indicator(nonViolated));
  }

  /** The loop of `computeMetrics` over the states: the summed contributions. */
  method SumStates(states: set<State>, apps: seq<App>, steps: int) returns (t: Totals)
    ensures t == Sum(states, apps, steps)
  {
    ghost var f := Contribution(apps, steps);
    t := NoTotals;
    var rest := states;
    while rest != {}
      invariant rest <= states
      invariant t == SumBy(states - rest, f)
      decreases rest
    {
      var s :| s in rest;
      var contribution := ComputeStateTotals(s, apps, steps);
      assert contribution == f(s);
      ghost var done := states - rest;
      SumByRemove(done + {s}, s, f);
      assert done + {s} - {s} == done;
      t := AddTotals(contribution, t);
      rest := rest - {s};
      assert states - rest == done + {s};
    }
    assert states - rest == states;
  }

  /** `computeMetrics`: one pass over the states, then the averages and percentages. */
  method ComputeMetrics(states: set<State>, apps: seq<App>, steps: int) returns (m: Metrics)
    requires states != {}
    ensures m == MetricsOf(states, apps, steps)
  {
    var t := SumStates(states, apps, steps);
    SumBounded(states, apps, steps);
    m := MetricsFrom(t);
  }
}
