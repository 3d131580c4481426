/**
 * The RoundRobin policy: an object that remembers the position it served last
 * and serves the next position of the running list on every call.
 */
module Rotation {
  import opened Jobs
  import opened Policies

  /**
   * The position served after `last` among `n` apps, `(last + 1) % n`; for a
   * positive `n` the source's modulo and Dafny's agree.
   */
  function NextIndex(last: int, n: nat): (k: nat)
    requires n > 0
    ensures k < n
    ensures -1 <= last < n - 1 ==> k == last + 1
    ensures last == n - 1 ==> k == 0
  {
    (last + 1) % n
  }

  /** `running` with the app at position `k` of the running list advanced by one time slice. */
  function Turn(running: map<App, Run>, k: nat, timeSlice: int): (r: map<App, Run>)
    requires k < |running.Keys|
    ensures var a := InOrder(running.Keys)[k];
            RaisesOnly(running, r, a, SliceGain(a, timeSlice))
  {
    var a := InOrder(running.Keys)[k];
    Raise(running, a, SliceGain(a, timeSlice))
  }

  /** The positions served by `k` successive calls, the first one after `last`. */
  function Turns(last: int, n: nat, k: nat): (r: seq<nat>)
    requires n > 0
    ensures |r| == k
    ensures forall m :: 0 <= m < k ==> r[m] < n
    decreases k
  {
    if k == 0 then [] else
      var i := NextIndex(last, n);
      [i] + Turns(i, n, k - 1)
  }

  /**
   * From a position `last` in [-1, n), the `m`-th successive position is
   * `last + 1 + m`, wrapped once past the end.
   */
  lemma {:induction false} TurnsAt(last: int, n: nat, k: nat, m: nat)
    requires n > 0 && -1 <= last < n && m < k && m < n
    ensures Turns(last, n, k)[m] == if last + 1 + m < n then last + 1 + m else last + 1 + m - n
    decreases k
  {
    if m > 0 {
      var i := NextIndex(last, n);
      TurnsAt(i, n, k - 1, m - 1);
      assert Turns(last, n, k)[m] == Turns(i, n, k - 1)[m - 1];
    }
  }

  /** Any `n` successive calls over `n` apps serve every position, whatever `last` was. */
  lemma TurnsCoverAll(last: int, n: nat)
    requires n > 0
    ensures forall j :: 0 <= j < n ==> j in Turns(last, n, n)
  {
    var first := NextIndex(last, n);
    var start := first as int - 1;
    assert NextIndex(start, n) == first;
    assert Turns(last, n, n) == Turns(start, n, n);
    forall j | 0 <= j < n ensures j in Turns(last, n, n) {
      var m := if j > start then j - start - 1 else j + n - start - 1;
      TurnsAt(start, n, n, m);
      assert Turns(last, n, n)[m] == j;
    }
  }

  /** The apps served by `k` successive calls on an unchanged running map, the first one after `last`. */
  function ServedApps(running: map<App, Run>, last: int, k: nat): (r: seq<App>)
    requires running != map[]
    ensures |r| == k
    ensures forall m :: 0 <= m < k ==> r[m] in running
  {
    var order := InOrder(running.Keys);
    var turns := Turns(last, |order|, k);
    seq(k, m requires 0 <= m < k => order[turns[m]])
  }

  /**
   * While the set of running apps stays the same, `n` successive calls over
   * `n` running apps serve every one of them, whatever position was served last.
   */
  lemma RoundRobinServesEveryApp(running: map<App, Run>, last: int)
    requires running != map[]
    ensures forall a :: a in running ==> a in ServedApps(running, last, |running.Keys|)
  {
    var n := |running.Keys|;
    var order := InOrder(running.Keys);
    var turns := Turns(last, n, n);
    var served := ServedApps(running, last, n);
    TurnsCoverAll(last, n);
    InOrderMembers(running.Keys);
    forall a | a in running ensures a in served {
      var j := IndexIn(order, a);
      assert j in turns;
      var m :| 0 <= m < n && turns[m] == j;
      assert served[m] == a;
    }
  }

  class RoundRobin {
    const timeSlice: int
    var lastIndex: int

    constructor (timeSlice: int)
      ensures this.timeSlice == timeSlice && lastIndex == -1
    {
      this.timeSlice := timeSlice;
      lastIndex := -1;
    }

    /**
     * `RoundRobin.addProgress`: on an empty running map nothing changes;
     * otherwise the next position is recorded and its app advanced by one slice.
     */
    method AddProgress(running: map<App, Run>, time: int) returns (r: map<App, Run>)
      modifies this
      ensures running == map[] ==> r == running && lastIndex == old(lastIndex)
      ensures running != map[] ==>
                && lastIndex == NextIndex(old(lastIndex), |running.Keys|)
                && r == Turn(running, lastIndex, timeSlice)
    {
      var appsList := InOrder(running.Keys);
      if |appsList| == 0 {
        return running;
      }
      lastIndex := (lastIndex + 1) % |appsList|;
      var app := appsList[lastIndex];
      r := Raise(running, app, SliceGain(app, timeSlice));
    }
  }
}
