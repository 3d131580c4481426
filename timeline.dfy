/**
 * The two transitions of a timeline state (`Spark.schedule` and `Spark.tick`),
 * each a function of the old state to a new one.
 */
module Timeline {
  import opened Jobs
  import opened Policies

  /** Some present app has id `a.id - 1`: the arrival dependency of `a` is met. */
  predicate HasPredecessor(s: State, a: AppData) {
    exists b :: b in Present(s) && b.id == a.id - 1
  }

  /** `schedule` admits `app`: it is neither running nor ended and its predecessor is present. */
  predicate Admits(s: State, app: App) {
    app !in s.running && app !in s.ended && HasPredecessor(s, app)
  }

  /** `Spark.schedule(app, time)`. */
  function Schedule(s: State, app: App, time: int): (r: State)
    ensures !Admits(s, app) ==> r == s
    ensures Admits(s, app) ==>
              && r.ended == s.ended
              && r.running.Keys == s.running.Keys + {app}
              && r.running[app] == Run(time, 0.0)
              && forall a :: a in s.running ==> r.running[a] == s.running[a]
  {
    if app in s.running || app in s.ended then s
    else if !HasPredecessor(s, app) then s
    else State(s.running[app := Run(time, 0.0)], s.ended)
  }

  /** `schedule` returns its receiver exactly when it does not admit the app. */
  lemma ScheduleIdentityIff(s: State, app: App, time: int)
    ensures Schedule(s, app, time) == s <==> !Admits(s, app)
  {
    if Admits(s, app) {
      assert app in Schedule(s, app, time).running;
    }
  }

  /** The apps of the advanced running map that reached progress 1, with finish time `time`. */
  function FinishedAmong(adv: map<App, Run>, keys: set<App>, time: int): (f: map<App, Done>)
    ensures f.Keys <= keys
    ensures forall a :: a in keys && a in adv ==> (a in f <==> adv[a].progress >= 1.0)
  {
    map a | a in keys && a in adv && adv[a].progress >= 1.0 :: Done(adv[a].submit, time)
  }

  /**
   * The second half of `tick`: every app of the advanced map `adv` whose
   * progress reached 1 is copied into `ended` with finish time `time`, and every
   * ended app is removed from the running map.
   */
  function Retire(s: State, adv: map<App, Run>, time: int): (r: State)
    ensures Disjoint(r)
    ensures forall a :: a in r.running ==> a in adv && r.running[a] == adv[a] && adv[a].progress < 1.0
  {
    var ended := s.ended + FinishedAmong(adv, adv.Keys, time);
    State(adv - ended.Keys, ended)
  }

  /** The policy's advance of the running map keeps its keys and submission times and loses no progress. */
  predicate Advances(old_running: map<App, Run>, adv: map<App, Run>) {
    && adv.Keys == old_running.Keys
    && forall a :: a in adv ==>
         adv[a].submit == old_running[a].submit && old_running[a].progress <= adv[a].progress
  }

  /** `Spark.tick(time)` under a stateless policy. */
  function Tick(p: Policy, s: State, time: int): (r: Result<State>)
    ensures r.MissingPriority? <==> ApplyPolicy(p, s.running, time).MissingPriority?
    ensures s.running == map[] ==> r == Ok(s)
    ensures s.running != map[] && r.Ok? ==>
              && Advances(s.running, ApplyPolicy(p, s.running, time).value)
              && r.value == Retire(s, ApplyPolicy(p, s.running, time).value, time)
  {
    if s.running == map[] then Ok(s)
    else
      match ApplyPolicy(p, s.running, time)
      case MissingPriority => MissingPriority
      case Ok(adv) => Ok(Retire(s, adv, time))
  }

  /** Every running progress lies in [0, 1). */
  predicate ProgressInRange(s: State) {
    forall a :: a in s.running ==> 0.0 <= s.running[a].progress < 1.0
  }

  /** After a tick no running app has progress 1 or more, and the running/ended split is disjoint. */
  lemma TickRetiresFinished(p: Policy, s: State, time: int)
    requires s.running != map[] && Tick(p, s, time).Ok?
    ensures var r := Tick(p, s, time).value;
            && Disjoint(r)
            && (forall a :: a in r.running ==> r.running[a].progress < 1.0)
  {
  }

  /** The effect of Retire on a disjoint state and an advance that keeps the keys. */
  lemma RetireEffect(s: State, adv: map<App, Run>, time: int)
    requires Disjoint(s) && Advances(s.running, adv)
    ensures var r := Retire(s, adv, time);
            && Present(r) == Present(s)
            && (forall a :: a in s.ended ==> a in r.ended && r.ended[a] == s.ended[a])
            && (forall a :: a in s.running ==> (a in r.ended <==> adv[a].progress >= 1.0))
            && (forall a :: a in s.running && a in r.ended ==> r.ended[a] == Done(s.running[a].submit, time))
            && (forall a :: a in r.running ==>
                  a in s.running && r.running[a].submit == s.running[a].submit
                  && s.running[a].progress <= r.running[a].progress < 1.0)
  {
    var f := FinishedAmong(adv, adv.Keys, time);
    var r := Retire(s, adv, time);
    assert r.ended == s.ended + f;
    assert Present(r) == Present(s) by {
      assert r.ended.Keys == s.ended.Keys + f.Keys;
      assert r.running.Keys == adv.Keys - r.ended.Keys;
    }
  }

  /**
   * What a tick does to each app, given a disjoint state: an app whose progress
   * reached 1 moves to `ended` with its submission time and finish `time`; the
   * rest stay below 1, keep their submission time and lose no progress; old ended entries
   * are untouched; the set of present apps does not change.
   */
  lemma TickEffect(p: Policy, s: State, time: int)
    requires Disjoint(s) && Tick(p, s, time).Ok?
    ensures var r := Tick(p, s, time).value;
            && Disjoint(r)
            && Present(r) == Present(s)
            && (forall a :: a in s.ended ==> a in r.ended && r.ended[a] == s.ended[a])
            && (forall a :: a in s.running && a in r.ended ==> r.ended[a] == Done(s.running[a].submit, time))
            && (forall a :: a in r.running ==>
                  a in s.running && r.running[a].submit == s.running[a].submit
                  && s.running[a].progress <= r.running[a].progress < 1.0)
    ensures s.running != map[] ==>
              forall a :: a in s.running ==>
                (a in Tick(p, s, time).value.ended <==> ApplyPolicy(p, s.running, time).value[a].progress >= 1.0)
  {
    if s.running != map[] {
      RetireEffect(s, ApplyPolicy(p, s.running, time).value, time);
    }
  }

  /** A tick keeps every running progress within [0, 1). */
  lemma TickKeepsProgressInRange(p: Policy, s: State, time: int)
    requires ProgressInRange(s) && Disjoint(s) && Tick(p, s, time).Ok?
    ensures ProgressInRange(Tick(p, s, time).value)
  {
    TickEffect(p, s, time);
  }

  /** The finished apps among one more visited key. */
  lemma FinishedAmongAdd(adv: map<App, Run>, done: set<App>, a: App, time: int)
    requires a in adv && a !in done
    ensures FinishedAmong(adv, done + {a}, time)
            == if adv[a].progress >= 1.0 then FinishedAmong(adv, done, time)[a := Done(adv[a].submit, time)]
               else FinishedAmong(adv, done, time)
  {
  }

  /** The copy loop of `tick`: every finished app of the advanced map is entered in `ended`. */
  method CopyFinished(ended0: map<App, Done>, adv: map<App, Run>, time: int) returns (ended: map<App, Done>)
    ensures ended == ended0 + FinishedAmong(adv, adv.Keys, time)
  {
    ended := ended0;
    var pending := adv.Keys;
    while pending != {}
      invariant pending <= adv.Keys
      invariant ended == ended0 + FinishedAmong(adv, adv.Keys - pending, time)
      decreases pending
    {
      var a :| a in pending;
      ghost var done := adv.Keys - pending;
      FinishedAmongAdd(adv, done, a, time);
      assert adv.Keys - (pending - {a}) == done + {a};
      if adv[a].progress >= 1.0 {
        MergeUpdate(ended0, FinishedAmong(adv, done, time), a, Done(adv[a].submit, time));
        ended := ended[a := Done(adv[a].submit, time)];
      }
      pending := pending - {a};
    }
    assert adv.Keys - pending == adv.Keys;
  }

  /** The delete loop of `tick`: every ended app is removed from the running map. */
  method DropEnded(adv: map<App, Run>, ended: map<App, Done>) returns (kept: map<App, Run>)
    ensures kept == adv - ended.Keys
  {
    kept := adv;
    var todo := ended.Keys;
    while todo != {}
      invariant todo <= ended.Keys
      invariant kept == adv - (ended.Keys - todo)
      decreases todo
    {
      var a :| a in todo;
      if a in kept {
        kept := kept - {a};
      }
      todo := todo - {a};
    }
    assert ended.Keys - todo == ended.Keys;
  }

  /** The copy and delete loops of `tick`. */
  method RetireLoops(s: State, adv: map<App, Run>, time: int) returns (r: State)
    ensures r == Retire(s, adv, time)
  {
    var ended := CopyFinished(s.ended, adv, time);
    var kept := DropEnded(adv, ended);
    r := State(kept, ended);
  }

  /**
   * `tick` as the source runs it: advance a copy of `running` under the policy,
   * then run the copy and delete loops.
   */
  method ApplyTick(p: Policy, s: State, time: int) returns (r: Result<State>)
    ensures r == Tick(p, s, time)
  {
    if s.running == map[] {
      return Ok(s);
    }
    var advanced := AddProgress(p, s.running, time);
    if advanced.MissingPriority? {
      return MissingPriority;
    }
    var next := RetireLoops(s, advanced.value, time);
    return Ok(next);
  }
}
