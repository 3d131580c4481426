/**
 * Per-state classification against the job list and the horizon
 * (`computeViolations`, `computeUnfeasibility`, `computeScenarioViolations`,
 * `computeNonViolations`) and the earliness/tardiness metric `error`.
 */
module Classify {
  import opened Jobs

  /** Turnaround of an ended app: finish time minus submission time. */
  function ExecTime(d: Done): int {
    d.finish - d.submit
  }

  /** `a` ended after its deadline. */
  predicate EndedLate(s: State, a: App) {
    a in s.ended && ExecTime(s.ended[a]) > a.deadline
  }

  /** `a` is absent, or running with a submission too late to finish within the horizon. */
  predicate CannotFinish(s: State, a: App, steps: int) {
    (a !in s.ended && a !in s.running)
    || (a in s.running && s.running[a].submit + a.duration > steps)
  }

  /** `a` is still running although the horizon left it time to finish. */
  predicate LeftRunning(s: State, a: App, steps: int) {
    a !in s.ended && a in s.running && s.running[a].submit + a.duration <= steps
  }

  /** `computeViolations`: some app of the list ended after its deadline. */
  predicate Violated(s: State, apps: seq<App>) {
    exists a :: a in apps && EndedLate(s, a)
  }

  /** `computeUnfeasibility`: some app of the list is absent or cannot finish within the horizon. */
  predicate Unfeasible(s: State, apps: seq<App>, steps: int) {
    exists a :: a in apps && CannotFinish(s, a, steps)
  }

  /** `computeScenarioViolations`: neither of the above, yet the policy left a finishable app running. */
  predicate ScenarioViolated(s: State, apps: seq<App>, steps: int) {
    && !Violated(s, apps)
    && !Unfeasible(s, apps, steps)
    && exists a :: a in apps && LeftRunning(s, a, steps)
  }

  /** `computeNonViolations`. */
  predicate NonViolated(s: State, apps: seq<App>, steps: int) {
    !Violated(s, apps) && !ScenarioViolated(s, apps, steps) && !Unfeasible(s, apps, steps)
  }

  /**
   * A state is non-violated exactly when it is in none of the other three
   * classes, and scenario-violated only when it is neither violated nor
   * unfeasible; so exactly one of "non-violated", "scenario-violated" and
   * "violated or unfeasible" holds.
   */
  lemma ClassesPartition(s: State, apps: seq<App>, steps: int)
    ensures NonViolated(s, apps, steps)
            <==> !Violated(s, apps) && !Unfeasible(s, apps, steps) && !ScenarioViolated(s, apps, steps)
    ensures ScenarioViolated(s, apps, steps) ==> !Violated(s, apps) && !Unfeasible(s, apps, steps)
    ensures (if NonViolated(s, apps, steps) then 1 else 0)
            + (if ScenarioViolated(s, apps, steps) then 1 else 0)
            + (if Violated(s, apps) || Unfeasible(s, apps, steps) then 1 else 0) == 1
  {
  }

  /**
   * On a disjoint state, the non-violated class is exactly the states in which
   * every app of the list has ended within its deadline.
   */
  lemma NonViolatedIffAllOnTime(s: State, apps: seq<App>, steps: int)
    requires Disjoint(s)
    ensures NonViolated(s, apps, steps)
            <==> forall a :: a in apps ==> a in s.ended && ExecTime(s.ended[a]) <= a.deadline
  {
    if NonViolated(s, apps, steps) {
      forall a | a in apps ensures a in s.ended && ExecTime(s.ended[a]) <= a.deadline {
        assert !CannotFinish(s, a, steps);
        assert !LeftRunning(s, a, steps);
        assert !EndedLate(s, a);
      }
    }
  }

  /** The early-return loop of `computeViolations`. */
  method ComputeViolations(s: State, apps: seq<App>) returns (b: bool)
    ensures b == Violated(s, apps)
  {
    for i := 0 to |apps|
      invariant forall j :: 0 <= j < i ==> !EndedLate(s, apps[j])
    {
      if apps[i] in s.ended {
        if s.ended[apps[i]].finish - s.ended[apps[i]].submit > apps[i].deadline {
          assert apps[i] in apps && EndedLate(s, apps[i]);
          return true;
        }
      }
    }
    return false;
  }

  /** The early-return loop of `computeUnfeasibility`. */
  method ComputeUnfeasibility(s: State, apps: seq<App>, steps: int) returns (b: bool)
    ensures b == Unfeasible(s, apps, steps)
  {
    for i := 0 to |apps|
      invariant forall j :: 0 <= j < i ==> !CannotFinish(s, apps[j], steps)
    {
      if apps[i] !in s.ended && apps[i] !in s.running {
        assert apps[i] in apps && CannotFinish(s, apps[i], steps);
        return true;
      }
      if apps[i] in s.running && s.running[apps[i]].submit + apps[i].duration > steps {
        assert apps[i] in apps && CannotFinish(s, apps[i], steps);
        return true;
      }
    }
    return false;
  }

  /** `computeScenarioViolations`: the two checks first, then the early-return loop. */
  method ComputeScenarioViolations(s: State, apps: seq<App>, steps: int) returns (b: bool)
    ensures b == ScenarioViolated(s, apps, steps)
  {
    var violated := ComputeViolations(s, apps);
    var unfeasible := false;
    if !violated {
      unfeasible := ComputeUnfeasibility(s, apps, steps);
    }
    if violated || unfeasible {
      return false;
    }
    for i := 0 to |apps|
      invariant forall j :: 0 <= j < i ==> !LeftRunning(s, apps[j], steps)
    {
      if apps[i] !in s.ended && apps[i] in s.running {
        if s.running[apps[i]].submit + apps[i].duration <= steps {
          assert apps[i] in apps && LeftRunning(s, apps[i], steps);
          return true;
        }
      }
    }
    return false;
  }

  /** `computeNonViolations`, with the same short-circuit order as the source. */
  method ComputeNonViolations(s: State, apps: seq<App>, steps: int) returns (b: bool)
    ensures b == NonViolated(s, apps, steps)
  {
    var violated := ComputeViolations(s, apps);
    if violated {
      return false;
    }
    var scenario := ComputeScenarioViolations(s, apps, steps);
    if scenario {
      return false;
    }
    var unfeasible := ComputeUnfeasibility(s, apps, steps);
    return !unfeasible;
  }

  /** The pair `error` returns: normalised earliness `eA` and tardiness `eD`. */
  datatype Errors = Errors(earliness: real, tardiness: real)

  /** `e = (deadline - exec_time) / deadline` of an ended app. */
  function Deviation(s: State, a: App): real
    requires a in s.ended
  {
    (a.deadline - ExecTime(s.ended[a])) as real / (a.deadline as real)
  }

  /** The deviation is negative exactly when the app ended after its deadline. */
  lemma DeviationNegativeIffLate(s: State, a: App)
    requires a in s.ended
    ensures Deviation(s, a) < 0.0 <==> EndedLate(s, a)
  {
    var d := a.deadline as real;
    var x := (a.deadline - ExecTime(s.ended[a])) as real;
    var e := Deviation(s, a);
    assert e * d == x;
    if e < 0.0 {
      assert e * d < 0.0;
    } else {
      assert e * d >= 0.0;
    }
  }

  /** A positive deviation is added to eA, a negative one is negated and added to eD. */
  function AddDeviation(acc: Errors, e: real): Errors {
    if e < 0.0 then Errors(acc.earliness, acc.tardiness - e) else Errors(acc.earliness + e, acc.tardiness)
  }

  /** The sums of the loop of `error` over the given ended apps. */
  function Accumulate(s: State, keys: seq<App>): (r: Errors)
    requires forall a :: a in keys ==> a in s.ended
    ensures r.earliness >= 0.0 && r.tardiness >= 0.0
    decreases |keys|
  {
    if keys == [] then Errors(0.0, 0.0)
    else
      AddDeviation(Accumulate(s, keys[..|keys| - 1]), Deviation(s, keys[|keys| - 1]))
  }

  /** The ended apps in the order the loop of `error` visits them. */
  function EndedKeys(s: State): (r: seq<App>)
    ensures forall a :: a in r <==> a in s.ended
  {
    InOrderMembers(s.ended.Keys);
    InOrder(s.ended.Keys)
  }

  /** `Spark.error(apps)`; the float conversion is left out, the ratios are exact. */
  function Error(s: State, apps: seq<App>): (r: Errors)
    ensures r.earliness >= 0.0 && r.tardiness >= 0.0
    ensures |apps| == 0 ==> r == Errors(0.0, 0.0)
  {
    var sums := Accumulate(s, EndedKeys(s));
    var n := |apps| as real;
    if |apps| > 0 then Errors(sums.earliness / n, sums.tardiness / n) else Errors(0.0, 0.0)
  }

  /** The tardiness sum is positive exactly when some summed app ended late. */
  lemma {:induction false} AccumulateTardinessIff(s: State, keys: seq<App>)
    requires forall a :: a in keys ==> a in s.ended
    ensures Accumulate(s, keys).tardiness > 0.0 <==> exists a :: a in keys && EndedLate(s, a)
    decreases |keys|
  {
    if keys != [] {
      var init := keys[..|keys| - 1];
      var last := keys[|keys| - 1];
      assert keys == init + [last];
      AccumulateTardinessIff(s, init);
      DeviationNegativeIffLate(s, last);
      assert forall a :: a in keys <==> a in init || a == last;
    }
  }

  /** Dividing by a positive count keeps the sign. */
  lemma QuotientPositive(t: real, n: real)
    requires n > 0.0
    ensures t / n > 0.0 <==> t > 0.0
  {
    assert (t / n) * n == t;
  }

  /** When every ended app is listed, some ended app is late exactly when `computeViolations` holds. */
  lemma LateAmongEnded(s: State, apps: seq<App>)
    requires forall a :: a in s.ended ==> a in apps
    ensures (exists a :: a in EndedKeys(s) && EndedLate(s, a)) <==> Violated(s, apps)
  {
    var keys := EndedKeys(s);
    if exists a :: a in keys && EndedLate(s, a) {
      var a :| a in keys && EndedLate(s, a);
      assert a in apps;
    }
    if Violated(s, apps) {
      var a :| a in apps && EndedLate(s, a);
      assert a in keys;
    }
  }

  /**
   * For a state whose ended apps all belong to the list, the tardiness `eD` is
   * positive exactly when `computeViolations` holds.
   */
  lemma TardinessIffViolated(s: State, apps: seq<App>)
    requires |apps| > 0
    requires forall a :: a in s.ended ==> a in apps
    ensures Error(s, apps).tardiness > 0.0 <==> Violated(s, apps)
  {
    var keys := EndedKeys(s);
    AccumulateTardinessIff(s, keys);
    LateAmongEnded(s, apps);
    QuotientPositive(Accumulate(s, keys).tardiness, |apps| as real);
  }

  /** `error`: the summing loop, then the division by the number of apps. */
  method ComputeError(s: State, apps: seq<App>) returns (r: Errors)
    ensures r == Error(s, apps)
  {
    var sums := SumDeviations(s);
    var n := |apps|;
    if n > 0 {
      return Errors(sums.earliness / (n as real), sums.tardiness / (n as real));
    }
    return Errors(0.0, 0.0);
  }

  /** The loop of `error` over the ended apps: the undivided sums. */
  method SumDeviations(s: State) returns (r: Errors)
    ensures r == Accumulate(s, EndedKeys(s))
  {
    var keys := EndedKeys(s);
    var eA, eD := 0.0, 0.0;
    for i := 0 to |keys|
      invariant Errors(eA, eD) == Accumulate(s, keys[..i])
    {
      var e := Deviation(s, keys[i]);
      AccumulateSnoc(s, keys, i);
      ghost var before := Errors(eA, eD);
      if e < 0.0 {
        eD := eD + -e;
      } else {
        eA := eA + e;
      }
      assert Errors(eA, eD) == AddDeviation(before, e);
    }
    assert keys[..|keys|] == keys;
    r := Errors(eA, eD);
  }

  /** One more ended app folded into the sums. */
  lemma AccumulateSnoc(s: State, keys: seq<App>, i: nat)
    requires forall a :: a in keys ==> a in s.ended
    requires i < |keys|
    ensures Accumulate(s, keys[..i + 1]) == AddDeviation(Accumulate(s, keys[..i]), Deviation(s, keys[i]))
  {
    assert keys[..i + 1][..i] == keys[..i];
  }
}
