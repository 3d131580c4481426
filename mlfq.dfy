/**
 * The MultilevelFeedbackQueue policy. The queue state is a value (`Levels`)
 * with one function per phase of `addProgress`: purge the apps that left
 * `running`, admit the new ones at the top level, serve the head of the
 * highest non-empty level. The class at the end keeps that state in fields and
 * runs the three phases as loops, each proved against its function.
 */
module Feedback {
  import opened Jobs
  import opened Policies

  /** `queues[i]` is level `i`, 0 the highest; `appQueue` maps each tracked app to its level. */
  datatype Levels = Levels(queues: seq<seq<App>>, appQueue: map<App, nat>)

  /** The queue state and the running map after one call. */
  datatype Outcome = Outcome(levels: Levels, running: map<App, Run>)

  /** No app occurs twice. */
  predicate NoDup(q: seq<App>) {
    forall i, j :: 0 <= i < j < |q| ==> q[i] != q[j]
  }

  /** Every level lists its apps once. */
  predicate LevelsDistinct(qs: seq<seq<App>>) {
    forall i :: 0 <= i < |qs| ==> NoDup(qs[i])
  }

  /** An app queued at level `i` is tracked at level `i`. */
  predicate QueuedTracked(l: Levels) {
    forall i, a: App {:trigger a in l.queues[i]} :: 0 <= i < |l.queues| && a in l.queues[i] ==> a in l.appQueue && l.appQueue[a] == i
  }

  /** Every tracked app is queued at the level it is tracked at. */
  predicate TrackedQueued(l: Levels) {
    forall a: App :: a in l.appQueue ==> l.appQueue[a] < |l.queues| && a in l.queues[l.appQueue[a]]
  }

  /** The invariant of the queue state over `n` levels. */
  predicate WellFormed(l: Levels, n: nat) {
    |l.queues| == n && LevelsDistinct(l.queues) && QueuedTracked(l) && TrackedQueued(l)
  }

  /** `q` without the apps of `gone`, in the same order. */
  function Drop(q: seq<App>, gone: set<App>): (r: seq<App>)
    ensures |r| <= |q|
    decreases |q|
  {
    if q == [] then []
    else (if q[0] in gone then [] else [q[0]]) + Drop(q[1..], gone)
  }

  /** Python's `list.remove`: the first occurrence of `a` taken out. */
  function RemoveFirst(q: seq<App>, a: App): (r: seq<App>)
    decreases |q|
  {
    if q == [] then []
    else if q[0] == a then q[1..]
    else [q[0]] + RemoveFirst(q[1..], a)
  }

  /** Drop keeps exactly the apps not in `gone`. */
  lemma {:induction false} DropMembers(q: seq<App>, gone: set<App>)
    ensures forall a: App :: a in Drop(q, gone) <==> a in q && a !in gone
    decreases |q|
  {
    if q != [] {
      DropMembers(q[1..], gone);
      assert q == [q[0]] + q[1..];
    }
  }

  /** The tail of a list without repetitions has none and lacks the head. */
  lemma NoDupTail(q: seq<App>)
    requires NoDup(q) && q != []
    ensures NoDup(q[1..]) && q[0] !in q[1..]
  {
    forall i, j | 0 <= i < j < |q[1..]| ensures q[1..][i] != q[1..][j] {
      assert q[1..][i] == q[i + 1] && q[1..][j] == q[j + 1];
    }
    forall k | 0 <= k < |q[1..]| ensures q[1..][k] != q[0] {
      assert q[1..][k] == q[k + 1];
    }
  }

  /** Two lists without repetitions and without common apps join into one without repetitions. */
  lemma NoDupAppend(p: seq<App>, q: seq<App>)
    requires NoDup(p) && NoDup(q)
    requires forall a: App :: a in p ==> a !in q
    ensures NoDup(p + q)
  {
    forall i, j | 0 <= i < j < |p + q| ensures (p + q)[i] != (p + q)[j] {
      if i < |p| && j >= |p| {
        assert (p + q)[i] == p[i] && (p + q)[j] == q[j - |p|];
        assert p[i] in p;
      } else if j < |p| {
        assert (p + q)[i] == p[i] && (p + q)[j] == p[j];
      } else {
        assert (p + q)[i] == q[i - |p|] && (p + q)[j] == q[j - |p|];
      }
    }
  }

  lemma {:induction false} DropNoDup(q: seq<App>, gone: set<App>)
    requires NoDup(q)
    ensures NoDup(Drop(q, gone))
    decreases |q|
  {
    if q != [] {
      NoDupTail(q);
      DropNoDup(q[1..], gone);
      DropMembers(q[1..], gone);
      var h := if q[0] in gone then [] else [q[0]];
      NoDupAppend(h, Drop(q[1..], gone));
    }
  }

  lemma {:induction false} DropSnoc(q: seq<App>, x: App, gone: set<App>)
    ensures Drop(q + [x], gone) == Drop(q, gone) + (if x in gone then [] else [x])
    decreases |q|
  {
    var e: seq<App> := if x in gone then [] else [x];
    var t := q + [x];
    if q == [] {
      assert t == [x] && t[1..] == [];
      assert Drop(t, gone) == e + Drop([], gone);
      assert e + [] == e;
    } else {
      var h: seq<App> := if q[0] in gone then [] else [q[0]];
      assert t[0] == q[0] && t[1..] == q[1..] + [x];
      DropSnoc(q[1..], x, gone);
      assert Drop(t, gone) == h + (Drop(q[1..], gone) + e);
      assert Drop(q, gone) == h + Drop(q[1..], gone);
      assert h + (Drop(q[1..], gone) + e) == (h + Drop(q[1..], gone)) + e;
    }
  }

  /** Dropping an app that does not occur changes nothing. */
  lemma {:induction false} DropAbsent(q: seq<App>, gone: set<App>, a: App)
    requires a !in q
    ensures Drop(q, gone + {a}) == Drop(q, gone)
    decreases |q|
  {
    if q != [] {
      DropAbsent(q[1..], gone, a);
    }
  }

  /** Dropping nothing keeps the list. */
  lemma {:induction false} DropNothing(q: seq<App>)
    ensures Drop(q, {}) == q
    decreases |q|
  {
    if q != [] {
      DropNothing(q[1..]);
      assert q == [q[0]] + q[1..];
    }
  }

  /** On a list without repetitions, `remove` drops the one occurrence. */
  lemma {:induction false} RemoveFirstIsDrop(q: seq<App>, a: App)
    requires NoDup(q)
    ensures RemoveFirst(q, a) == Drop(q, {a})
    decreases |q|
  {
    if q != [] {
      NoDupTail(q);
      RemoveFirstIsDrop(q[1..], a);
      if q[0] == a {
        DropAbsent(q[1..], {}, a);
        DropNothing(q[1..]);
        assert {} + {a} == {a};
      }
    }
  }

  lemma {:induction false} DropAppend(p: seq<App>, q: seq<App>, gone: set<App>)
    ensures Drop(p + q, gone) == Drop(p, gone) + Drop(q, gone)
    decreases |p|
  {
    if p == [] {
      assert p + q == q;
    } else {
      assert (p + q)[0] == p[0];
      assert (p + q)[1..] == p[1..] + q;
      DropAppend(p[1..], q, gone);
    }
  }

  /** Dropping in two rounds is dropping the union. */
  lemma {:induction false} DropTwice(q: seq<App>, gone: set<App>, a: App)
    ensures Drop(Drop(q, gone), {a}) == Drop(q, gone + {a})
    decreases |q|
  {
    if q != [] {
      DropTwice(q[1..], gone, a);
      var h := if q[0] in gone then [] else [q[0]];
      DropAppend(h, Drop(q[1..], gone), {a});
      if q[0] !in gone {
        assert Drop(h, {a}) == ([] + (if q[0] in {a} then [] else [q[0]])) + Drop([], {a});
      }
    }
  }

  /** Tracked apps that have left the running map. */
  function Gone(l: Levels, running: map<App, Run>): set<App> {
    l.appQueue.Keys - running.Keys
  }

  /** `l` with the apps of `gone` taken out of every level and untracked. */
  function Without(l: Levels, gone: set<App>): (r: Levels)
    ensures |r.queues| == |l.queues|
  {
    Levels(seq(|l.queues|, i requires 0 <= i < |l.queues| => Drop(l.queues[i], gone)), l.appQueue - gone)
  }

  /** The first phase: every tracked app that left `running` is taken out of its level and untracked. */
  function Purged(l: Levels, running: map<App, Run>): (r: Levels)
    ensures |r.queues| == |l.queues|
  {
    Without(l, Gone(l, running))
  }

  /** The running apps not yet tracked, in enumeration order. */
  function Fresh(l: Levels, running: map<App, Run>): seq<App> {
    Drop(InOrder(running.Keys), l.appQueue.Keys)
  }

  /** Level 0 for each app of `s`. */
  function AtTop(s: seq<App>): (m: map<App, nat>)
    ensures forall a: App :: a in m <==> a in s
    ensures forall a: App :: a in m ==> m[a] == 0
  {
    map a | a in s :: 0
  }

  lemma AtTopSnoc(s: seq<App>, x: App)
    ensures AtTop(s + [x]) == AtTop(s)[x := 0]
  {
    assert AtTop(s + [x]).Keys == AtTop(s)[x := 0].Keys;
  }

  /** The second phase: every running app not yet tracked joins the back of level 0. */
  function Admitted(l: Levels, running: map<App, Run>): (r: Levels)
    requires |l.queues| >= 1
    ensures |r.queues| == |l.queues|
  {
    var arrivals := Fresh(l, running);
    Levels(l.queues[0 := l.queues[0] + arrivals], l.appQueue + AtTop(arrivals))
  }

  /** The highest level that holds an app, or the number of levels when all are empty. */
  function FirstNonEmpty(qs: seq<seq<App>>): (k: nat)
    ensures k <= |qs|
    ensures forall j :: 0 <= j < k ==> qs[j] == []
    ensures k < |qs| ==> qs[k] != []
    decreases |qs|
  {
    if qs == [] then 0
    else if qs[0] != [] then 0
    else 1 + FirstNonEmpty(qs[1..])
  }

  /** The level an unfinished app served at level `i` moves to: `min(i + 1, n - 1)`. */
  function Demoted(i: nat, n: nat): (j: nat)
    requires i < n
    ensures j < n
    ensures i + 1 < n ==> j == i + 1
    ensures i + 1 >= n ==> j == n - 1
  {
    if i + 1 < n then i + 1 else n - 1
  }

  /**
   * The third phase: the head of the highest non-empty level is popped; if it
   * is running it gains one slice of that level, then it moves one level down
   * while below progress 1 and is untracked otherwise.
   */
  function Served(l: Levels, running: map<App, Run>, slices: seq<int>): (r: Outcome)
    requires |slices| >= |l.queues|
    ensures |r.levels.queues| == |l.queues| && r.running.Keys == running.Keys
  {
    var i := FirstNonEmpty(l.queues);
    if i == |l.queues| then Outcome(l, running)
    else
      var a := l.queues[i][0];
      var popped := l.queues[i := l.queues[i][1..]];
      if a !in running then Outcome(Levels(popped, l.appQueue), running)
      else
        var r := Raise(running, a, SliceGain(a, slices[i]));
        if r[a].progress < 1.0 then
          var next := Demoted(i, |l.queues|);
          Outcome(Levels(popped[next := popped[next] + [a]], l.appQueue[a := next]), r)
        else
          Outcome(Levels(popped, l.appQueue - {a}), r)
  }

  /** The queue state after the first two phases, synchronised with `running`. */
  function Synced(l: Levels, running: map<App, Run>): (r: Levels)
    requires |l.queues| >= 1
    ensures |r.queues| == |l.queues|
  {
    Admitted(Purged(l, running), running)
  }

  /** `MultilevelFeedbackQueue.addProgress` on the queue state `l`. */
  function MlfqStep(l: Levels, running: map<App, Run>, slices: seq<int>): Outcome
    requires |l.queues| >= 1 && |slices| >= |l.queues|
  {
    if running == map[] then Outcome(l, running)
    else Served(Synced(l, running), running, slices)
  }

  /** Purging keeps the invariant. */
  lemma PurgedWellFormed(l: Levels, running: map<App, Run>, n: nat)
    requires WellFormed(l, n)
    ensures WellFormed(Purged(l, running), n)
  {
    var r := Purged(l, running);
    var gone := Gone(l, running);
    forall i | 0 <= i < n
      ensures NoDup(r.queues[i])
      ensures forall a: App :: a in r.queues[i] <==> a in l.queues[i] && a !in gone
    {
      DropNoDup(l.queues[i], gone);
      DropMembers(l.queues[i], gone);
    }
    assert LevelsDistinct(r.queues);
    assert QueuedTracked(r);
    assert TrackedQueued(r);
  }

  /** After purging, the tracked apps are the tracked running ones, at their old levels. */
  lemma PurgedTracks(l: Levels, running: map<App, Run>)
    ensures Purged(l, running).appQueue.Keys == l.appQueue.Keys * running.Keys
    ensures forall a: App :: a in Purged(l, running).appQueue ==> Purged(l, running).appQueue[a] == l.appQueue[a]
  {
    assert Purged(l, running).appQueue.Keys == l.appQueue.Keys - Gone(l, running);
  }

  /** The apps admitted are listed once each, and are exactly the untracked running apps. */
  lemma FreshFacts(l: Levels, running: map<App, Run>)
    ensures NoDup(Fresh(l, running))
    ensures forall a: App :: a in Fresh(l, running) <==> a in running && a !in l.appQueue
  {
    EnumerationNoDup(running.Keys);
    InOrderMembers(running.Keys);
    DropNoDup(InOrder(running.Keys), l.appQueue.Keys);
    DropMembers(InOrder(running.Keys), l.appQueue.Keys);
  }

  /** New untracked apps, listed once each, appended to level 0 and tracked there keep the invariant. */
  lemma AppendAtTop(l: Levels, n: nat, arrivals: seq<App>)
    requires n >= 1 && WellFormed(l, n)
    requires NoDup(arrivals) && forall a: App :: a in arrivals ==> a !in l.appQueue
    ensures WellFormed(Levels(l.queues[0 := l.queues[0] + arrivals], l.appQueue + AtTop(arrivals)), n)
  {
    var r := Levels(l.queues[0 := l.queues[0] + arrivals], l.appQueue + AtTop(arrivals));
    var top := AtTop(arrivals);
    assert LevelsDistinct(r.queues) by {
      forall a: App | a in l.queues[0] ensures a !in arrivals {
        assert a in l.appQueue;
      }
      NoDupAppend(l.queues[0], arrivals);
    }
    assert QueuedTracked(r) by {
      forall i, a: App | 0 <= i < n && a in r.queues[i] ensures a in r.appQueue && r.appQueue[a] == i {
        if i == 0 && a in arrivals {
          assert a in top && r.appQueue[a] == top[a];
        } else {
          assert a in l.queues[i] by {
            if i == 0 {
              assert a in l.queues[0] + arrivals;
            }
          }
          assert a in l.appQueue && l.appQueue[a] == i;
          assert a !in top;
        }
      }
    }
    assert TrackedQueued(r) by {
      forall a: App | a in r.appQueue ensures r.appQueue[a] < n && a in r.queues[r.appQueue[a]] {
        if a !in top {
          assert a in l.queues[l.appQueue[a]];
        }
      }
    }
  }

  /** Admission keeps the invariant. */
  lemma AdmittedWellFormed(l: Levels, running: map<App, Run>, n: nat)
    requires n >= 1 && WellFormed(l, n)
    ensures WellFormed(Admitted(l, running), n)
  {
    FreshFacts(l, running);
    AppendAtTop(l, n, Fresh(l, running));
  }

  /** Tracking the untracked apps of `running` at level 0 tracks all of `running` and moves no one. */
  lemma TrackAtTop(m: map<App, nat>, arrivals: seq<App>, running: set<App>)
    requires forall a: App :: a in arrivals <==> a in running && a !in m
    ensures (m + AtTop(arrivals)).Keys == m.Keys + running
    ensures forall a: App :: a in running && a !in m ==> (m + AtTop(arrivals))[a] == 0
    ensures forall a: App :: a in m ==> (m + AtTop(arrivals))[a] == m[a]
  {
  }

  /**
   * Admission tracks every running app: the new ones at level 0 and in
   * `queues[0]`, the others at their old levels.
   */
  lemma AdmittedTracks(l: Levels, running: map<App, Run>)
    requires |l.queues| >= 1
    ensures Admitted(l, running).appQueue.Keys == l.appQueue.Keys + running.Keys
    ensures forall a: App :: a in running && a !in l.appQueue ==>
              Admitted(l, running).appQueue[a] == 0 && a in Admitted(l, running).queues[0]
    ensures forall a: App :: a in l.appQueue ==> Admitted(l, running).appQueue[a] == l.appQueue[a]
  {
    var arrivals := Fresh(l, running);
    FreshFacts(l, running);
    TrackAtTop(l.appQueue, arrivals, running.Keys);
  }

  /** The invariant, except that app `a` is queued nowhere (it may still be tracked). */
  predicate Detached(l: Levels, n: nat, a: App) {
    && |l.queues| == n && LevelsDistinct(l.queues)
    && (forall i, b: App {:trigger b in l.queues[i]} :: 0 <= i < n && b in l.queues[i] ==> b != a && b in l.appQueue && l.appQueue[b] == i)
    && (forall b: App :: b in l.appQueue && b != a ==> l.appQueue[b] < n && b in l.queues[l.appQueue[b]])
  }

  /** Popping the head of a level leaves that app queued nowhere. */
  lemma PopHead(l: Levels, n: nat, i: nat)
    requires WellFormed(l, n) && i < n && l.queues[i] != []
    ensures Detached(Levels(l.queues[i := l.queues[i][1..]], l.appQueue), n, l.queues[i][0])
  {
    var q := l.queues[i];
    var p := Levels(l.queues[i := q[1..]], l.appQueue);
    NoDupTail(q);
    assert q == [q[0]] + q[1..];
    assert LevelsDistinct(p.queues);
    assert q[0] in l.queues[i];
    forall j, b: App | 0 <= j < n && b in p.queues[j] ensures b != q[0] && b in p.appQueue && p.appQueue[b] == j {
      if j == i {
        assert b in q[1..] && b in q;
      } else {
        assert b in l.queues[j];
      }
    }
    forall b: App | b in p.appQueue && b != q[0] ensures p.appQueue[b] < n && b in p.queues[p.appQueue[b]] {
      assert b in l.queues[l.appQueue[b]];
    }
  }

  /** A detached app appended to level `j` and tracked there restores the invariant. */
  lemma Requeue(l: Levels, n: nat, a: App, j: nat)
    requires Detached(l, n, a) && j < n
    ensures WellFormed(Levels(l.queues[j := l.queues[j] + [a]], l.appQueue[a := j]), n)
  {
    var r := Levels(l.queues[j := l.queues[j] + [a]], l.appQueue[a := j]);
    forall x: App | x in l.queues[j] ensures x !in [a] {
      assert x != a;
    }
    NoDupAppend(l.queues[j], [a]);
    assert LevelsDistinct(r.queues);
    forall k, b: App | 0 <= k < n && b in r.queues[k] ensures b in r.appQueue && r.appQueue[b] == k {
      if b != a {
        assert b in l.queues[k] by {
          if k == j {
            assert b in l.queues[j] + [a];
          }
        }
        assert b in l.appQueue && l.appQueue[b] == k;
      }
    }
    assert QueuedTracked(r);
    forall b: App | b in r.appQueue ensures r.appQueue[b] < n && b in r.queues[r.appQueue[b]] {
      if b != a {
        assert b in l.queues[l.appQueue[b]];
      }
    }
    assert TrackedQueued(r);
  }

  /** A detached app no longer tracked restores the invariant. */
  lemma Untrack(l: Levels, n: nat, a: App)
    requires Detached(l, n, a)
    ensures WellFormed(Levels(l.queues, l.appQueue - {a}), n)
  {
    var r := Levels(l.queues, l.appQueue - {a});
    assert QueuedTracked(r);
    assert TrackedQueued(r);
  }

  /** Serving keeps the invariant when every tracked app is running. */
  lemma ServedWellFormed(l: Levels, running: map<App, Run>, slices: seq<int>, n: nat)
    requires n >= 1 && |slices| >= n && WellFormed(l, n)
    requires l.appQueue.Keys <= running.Keys
    ensures WellFormed(Served(l, running, slices).levels, n)
  {
    var i := FirstNonEmpty(l.queues);
    if i < n {
      var a := l.queues[i][0];
      assert a in l.queues[i];
      assert a in running;
      PopHead(l, n, i);
      var p := Levels(l.queues[i := l.queues[i][1..]], l.appQueue);
      var r := Raise(running, a, SliceGain(a, slices[i]));
      if r[a].progress < 1.0 {
        Requeue(p, n, a, Demoted(i, n));
      } else {
        Untrack(p, n, a);
      }
    }
  }

  /** The first two phases keep the invariant. */
  lemma SyncedWellFormed(l: Levels, running: map<App, Run>, n: nat)
    requires n >= 1 && WellFormed(l, n)
    ensures WellFormed(Synced(l, running), n)
  {
    PurgedWellFormed(l, running, n);
    AdmittedWellFormed(Purged(l, running), running, n);
  }

  /**
   * After the first two phases exactly the running apps are tracked: those
   * tracked before at their old levels, the others at level 0 and in `queues[0]`.
   */
  lemma SyncedTracks(l: Levels, running: map<App, Run>)
    requires |l.queues| >= 1
    ensures Synced(l, running).appQueue.Keys == running.Keys
    ensures forall a: App :: a in running && a in l.appQueue ==> Synced(l, running).appQueue[a] == l.appQueue[a]
    ensures forall a: App :: a in running && a !in l.appQueue ==>
              Synced(l, running).appQueue[a] == 0 && a in Synced(l, running).queues[0]
  {
    var p := Purged(l, running);
    PurgedTracks(l, running);
    AdmittedTracks(p, running);
    MeetJoin(l.appQueue.Keys, running.Keys);
  }

  lemma MeetJoin<T>(a: set<T>, r: set<T>)
    ensures a * r + r == r
    ensures forall x :: x in r ==> (x in a * r <==> x in a)
  {
  }

  /**
   * With every tracked app running and some app running, serving picks a
   * running app queued at the highest level that holds one: no running app is
   * tracked above it.
   */
  lemma ServedChoice(l: Levels, running: map<App, Run>, n: nat)
    requires n >= 1 && WellFormed(l, n)
    requires l.appQueue.Keys == running.Keys && running != map[]
    ensures FirstNonEmpty(l.queues) < n
    ensures var i := FirstNonEmpty(l.queues);
            var a := l.queues[i][0];
            && a in running && l.appQueue[a] == i
            && forall b: App :: b in running ==> l.appQueue[b] >= i
  {
    var b: App :| b in running;
    assert b in l.queues[l.appQueue[b]];
    var i := FirstNonEmpty(l.queues);
    assert l.queues[i][0] in l.queues[i];
    forall c: App | c in running ensures l.appQueue[c] >= i {
      assert c in l.queues[l.appQueue[c]];
    }
  }

  /**
   * The served app gains one slice of its level and nothing else changes in
   * `running`; unfinished, it stays tracked one level down at the back of that
   * level; finished, it is untracked. Every other app keeps its level.
   */
  lemma ServedEffect(l: Levels, running: map<App, Run>, slices: seq<int>, n: nat)
    requires n >= 1 && |slices| >= n && WellFormed(l, n)
    requires l.appQueue.Keys == running.Keys && running != map[]
    ensures FirstNonEmpty(l.queues) < n
    ensures var i := FirstNonEmpty(l.queues);
            var a := l.queues[i][0];
            var out := Served(l, running, slices);
            var next := Demoted(i, n);
            && RaisesOnly(running, out.running, a, SliceGain(a, slices[i]))
            && (out.running[a].progress < 1.0 ==>
                  && out.levels.appQueue.Keys == running.Keys
                  && out.levels.appQueue[a] == next
                  && out.levels.queues[next] != []
                  && out.levels.queues[next][|out.levels.queues[next]| - 1] == a)
            && (out.running[a].progress >= 1.0 ==> out.levels.appQueue.Keys == running.Keys - {a})
            && forall b: App :: b in running && b != a ==> out.levels.appQueue[b] == l.appQueue[b]
  {
    ServedChoice(l, running, n);
    var i := FirstNonEmpty(l.queues);
    var a := l.queues[i][0];
    var popped := l.queues[i := l.queues[i][1..]];
    var r := Raise(running, a, SliceGain(a, slices[i]));
    var out := Served(l, running, slices);
    assert out.running == r;
    if r[a].progress < 1.0 {
      var next := Demoted(i, n);
      assert out.levels == Levels(popped[next := popped[next] + [a]], l.appQueue[a := next]);
    } else {
      assert out.levels == Levels(popped, l.appQueue - {a});
    }
  }

  /** One call keeps the invariant of the queue state. */
  lemma {:induction false} MlfqStepWellFormed(l: Levels, running: map<App, Run>, slices: seq<int>)
    requires |l.queues| >= 1 && |slices| >= |l.queues| && WellFormed(l, |l.queues|)
    ensures WellFormed(MlfqStep(l, running, slices).levels, |l.queues|)
  {
    if running != map[] {
      var n := |l.queues|;
      SyncedWellFormed(l, running, n);
      SyncedTracks(l, running);
      ServedWellFormed(Synced(l, running), running, slices, n);
    }
  }

  /**
   * One call on a non-empty running map: once synchronised, the app served is
   * a running one at the highest occupied level, it alone gains that level's
   * slice, and afterwards exactly the running apps are tracked except the
   * served one if it reached progress 1, which is otherwise demoted.
   */
  lemma MlfqStepServesHighest(l: Levels, running: map<App, Run>, slices: seq<int>)
    requires |l.queues| >= 1 && |slices| >= |l.queues| && WellFormed(l, |l.queues|)
    requires running != map[]
    ensures var s := Synced(l, running);
            var i := FirstNonEmpty(s.queues);
            && i < |l.queues|
            && var a := s.queues[i][0];
               var out := MlfqStep(l, running, slices);
               && s.appQueue.Keys == running.Keys
               && a in running
               && (forall b: App :: b in running ==> b in s.appQueue && s.appQueue[b] >= i)
               && RaisesOnly(running, out.running, a, SliceGain(a, slices[i]))
               && (out.running[a].progress < 1.0 ==>
                     out.levels.appQueue.Keys == running.Keys && out.levels.appQueue[a] == Demoted(i, |l.queues|))
               && (out.running[a].progress >= 1.0 ==> out.levels.appQueue.Keys == running.Keys - {a})
  {
    var n := |l.queues|;
    SyncedWellFormed(l, running, n);
    SyncedTracks(l, running);
    ServedChoice(Synced(l, running), running, n);
    ServedEffect(Synced(l, running), running, slices, n);
  }

  /**
   * One call on a non-empty running map: a running app that was already
   * tracked keeps its level unless it is the one served, and a new one is
   * tracked at level 0 unless it is the one served.
   */
  lemma MlfqStepKeepsLevels(l: Levels, running: map<App, Run>, slices: seq<int>)
    requires |l.queues| >= 1 && |slices| >= |l.queues| && WellFormed(l, |l.queues|)
    requires running != map[]
    ensures var s := Synced(l, running);
            var i := FirstNonEmpty(s.queues);
            && i < |l.queues|
            && var a := s.queues[i][0];
               var out := MlfqStep(l, running, slices).levels;
               && (forall b: App :: b in running && b != a && b in l.appQueue ==>
                     b in out.appQueue && out.appQueue[b] == l.appQueue[b])
               && (forall b: App :: b in running && b != a && b !in l.appQueue ==>
                     b in out.appQueue && out.appQueue[b] == 0)
  {
    var n := |l.queues|;
    SyncedWellFormed(l, running, n);
    SyncedTracks(l, running);
    ServedEffect(Synced(l, running), running, slices, n);
  }

  /** Level 0 lists the apps of `arrivals` in order, after the old level 0. */
  lemma AdmitStep(order: seq<App>, k: nat, known: set<App>)
    requires k < |order| && NoDup(order)
    ensures order[k] !in Drop(order[..k], known)
    ensures Drop(order[..k + 1], known) == Drop(order[..k], known) + (if order[k] in known then [] else [order[k]])
  {
    DropMembers(order[..k], known);
    assert order[..k + 1] == order[..k] + [order[k]];
    DropSnoc(order[..k], order[k], known);
  }

  /** Taking nothing out keeps the queue state. */
  lemma WithoutNothing(l: Levels)
    ensures Without(l, {}) == l
  {
    var r := Without(l, {});
    forall j | 0 <= j < |l.queues| ensures r.queues[j] == l.queues[j] {
      DropNothing(l.queues[j]);
    }
    assert r.queues == l.queues;
  }

  /**
   * With the apps of `done` taken out, removing a further tracked app `a`
   * from its own level and untracking it takes it out everywhere.
   */
  lemma PurgeNext(l: Levels, n: nat, done: set<App>, a: App)
    requires WellFormed(l, n) && a in l.appQueue && a !in done
    ensures var s := Without(l, done);
            var k := l.appQueue[a];
            && k < n && a in s.appQueue && s.appQueue[a] == k
            && Without(l, done + {a}) == Levels(s.queues[k := RemoveFirst(s.queues[k], a)], s.appQueue - {a})
  {
    var s := Without(l, done);
    var k := l.appQueue[a];
    var qs := s.queues[k := RemoveFirst(s.queues[k], a)];
    var t := Without(l, done + {a});
    forall j | 0 <= j < n ensures qs[j] == t.queues[j] {
      if j == k {
        DropNoDup(l.queues[k], done);
        RemoveFirstIsDrop(s.queues[k], a);
        DropTwice(l.queues[k], done, a);
      } else {
        assert a !in l.queues[j];
        DropAbsent(l.queues[j], done, a);
      }
    }
    assert qs == t.queues;
    RemoveKeys(l.appQueue, done, a);
  }

  /** Level 0 and the tracking after admitting the untracked apps among the first `k` of `order`. */
  function AdmittedPrefix(l: Levels, order: seq<App>, k: nat, known: set<App>): Levels
    requires |l.queues| >= 1 && k <= |order|
  {
    var d := Drop(order[..k], known);
    Levels(l.queues[0 := l.queues[0] + d], l.appQueue + AtTop(d))
  }

  /** An app of `order` not yet visited is tracked after the first `k` exactly when it was tracked before. */
  lemma AdmitVisits(l: Levels, order: seq<App>, k: nat)
    requires |l.queues| >= 1 && k < |order| && NoDup(order)
    ensures order[k] in AdmittedPrefix(l, order, k, l.appQueue.Keys).appQueue <==> order[k] in l.appQueue
  {
    AdmitStep(order, k, l.appQueue.Keys);
  }

  /** Admitting the next app of `order`, none repeated: appended to level 0 and tracked at 0 when untracked. */
  lemma AdmitNext(l: Levels, order: seq<App>, k: nat)
    requires |l.queues| >= 1 && k < |order| && NoDup(order)
    ensures var known := l.appQueue.Keys;
            var s := AdmittedPrefix(l, order, k, known);
            var app := order[k];
            && (app in known ==> AdmittedPrefix(l, order, k + 1, known) == s)
            && (app !in known ==>
                  AdmittedPrefix(l, order, k + 1, known) == Levels(s.queues[0 := s.queues[0] + [app]], s.appQueue[app := 0]))
  {
    var known := l.appQueue.Keys;
    var d := Drop(order[..k], known);
    var app := order[k];
    AdmitStep(order, k, known);
    if app in known {
      assert d + [] == d;
    } else {
      var q := l.queues[0] + d;
      assert q + [app] == l.queues[0] + (d + [app]);
      UpdateTwice(l.queues, 0, q, q + [app]);
      AtTopSnoc(d, app);
      MergeUpdate(l.appQueue, AtTop(d), app, 0);
    }
  }

  /** A second update at the same index overrides the first. */
  lemma UpdateTwice<T>(s: seq<T>, i: nat, x: T, y: T)
    requires i < |s|
    ensures s[i := x][i := y] == s[i := y]
  {
  }

  /** Admitting nobody yet is the starting state. */
  lemma AdmitStart(l: Levels, order: seq<App>)
    requires |l.queues| >= 1
    ensures AdmittedPrefix(l, order, 0, l.appQueue.Keys) == l
  {
    assert order[..0] == [] && l.queues[0] + [] == l.queues[0];
    assert l.appQueue + AtTop([]) == l.appQueue;
  }

  /** Admitting the whole enumeration of the running apps is `Admitted`. */
  lemma AdmitDone(l: Levels, running: map<App, Run>)
    requires |l.queues| >= 1
    ensures var order := InOrder(running.Keys);
            AdmittedPrefix(l, order, |order|, l.appQueue.Keys) == Admitted(l, running)
  {
    var order := InOrder(running.Keys);
    assert order[..|order|] == order;
  }

  /** The enumeration order of a set lists every member once. */
  lemma EnumerationNoDup(m: set<App>)
    ensures NoDup(InOrder(m))
  {
    InOrderDistinct(m);
  }

  /** Set bookkeeping of the purge loop: `done` collects the gone apps already visited. */
  lemma VisitGone<T>(gone: set<T>, pending: set<T>, done: set<T>, a: T)
    requires done == gone - pending && a in pending
    ensures a in gone ==> done + {a} == gone - (pending - {a})
    ensures a !in gone ==> done == gone - (pending - {a})
  {
  }

  /** Removing keys one at a time is removing them together. */
  lemma RemoveKeys<V>(m: map<App, V>, done: set<App>, a: App)
    ensures (m - done) - {a} == m - (done + {a})
  {
  }

  class MultilevelFeedbackQueue {
    const numQueues: nat
    const timeSlices: seq<int>
    var queues: seq<seq<App>>
    var appQueue: map<App, nat>

    /** The queue state held in the fields. */
    function Snapshot(): Levels
      reads this
    {
      Levels(queues, appQueue)
    }

    ghost predicate Valid()
      reads this
    {
      numQueues >= 1 && |timeSlices| >= numQueues && WellFormed(Snapshot(), numQueues)
    }

    /** `numQueues` empty levels and nothing tracked. */
    constructor (numQueues: nat, timeSlices: seq<int>)
      requires numQueues >= 1 && |timeSlices| >= numQueues
      ensures Valid()
      ensures this.numQueues == numQueues && this.timeSlices == timeSlices
      ensures |queues| == numQueues && (forall i :: 0 <= i < numQueues ==> queues[i] == []) && appQueue == map[]
    {
      this.numQueues := numQueues;
      this.timeSlices := timeSlices;
      queues := seq(numQueues, i => []);
      appQueue := map[];
    }

    /** The first phase: every tracked app that is no longer running is removed from its level and untracked. */
    method Purge(running: map<App, Run>)
      requires Valid()
      modifies this
      ensures Valid()
      ensures Snapshot() == Purged(old(Snapshot()), running)
    {
      ghost var l := Snapshot();
      ghost var gone := Gone(l, running);
      ghost var done: set<App> := {};
      var pending := appQueue.Keys;
      WithoutNothing(l);
      while pending != {}
        invariant pending <= l.appQueue.Keys
        invariant done == gone - pending
        invariant Snapshot() == Without(l, done)
        decreases pending
      {
        var app :| app in pending;
        VisitGone(gone, pending, done, app);
        if app !in running {
          PurgeNext(l, numQueues, done, app);
          var queueIdx := appQueue[app];
          // `remove` is guarded by a membership test in the source; RemoveFirst
          // of an absent app changes nothing, so no guard is needed here.
          queues := queues[queueIdx := RemoveFirst(queues[queueIdx], app)];
          appQueue := appQueue - {app};
          done := done + {app};
        }
        pending := pending - {app};
      }
      assert done == gone;
      PurgedWellFormed(l, running, numQueues);
    }

    /** The second phase: each running app, in enumeration order, joins the back of level 0 if untracked. */
    method Admit(running: map<App, Run>)
      requires Valid()
      modifies this
      ensures Valid()
      ensures Snapshot() == Admitted(old(Snapshot()), running)
    {
      ghost var l := Snapshot();
      var order := InOrder(running.Keys);
      EnumerationNoDup(running.Keys);
      AdmitStart(l, order);
      for k := 0 to |order|
        invariant Snapshot() == AdmittedPrefix(l, order, k, l.appQueue.Keys)
      {
        var app := order[k];
        AdmitVisits(l, order, k);
        AdmitNext(l, order, k);
        if app !in appQueue {
          queues := queues[0 := queues[0] + [app]];
          appQueue := appQueue[app := 0];
        }
      }
      AdmitDone(l, running);
      AdmittedWellFormed(l, running, numQueues);
    }

    /**
     * The third phase: the head of the highest non-empty level is popped and,
     * if running, advanced by the slice of its level, then demoted or untracked.
     */
    method Serve(running: map<App, Run>) returns (r: map<App, Run>)
      requires Valid()
      modifies this
      ensures appQueue.Keys <= running.Keys ==> Valid()
      ensures old(appQueue.Keys) <= running.Keys ==> Valid()
      ensures Outcome(Snapshot(), r) == Served(old(Snapshot()), running, timeSlices)
    {
      ghost var l := Snapshot();
      if l.appQueue.Keys <= running.Keys {
        ServedWellFormed(l, running, timeSlices, numQueues);
      }
      r := running;
      var i := 0;
      while i < numQueues
        invariant i <= numQueues
        invariant queues == l.queues && appQueue == l.appQueue && r == running
        invariant forall j :: 0 <= j < i ==> queues[j] == []
      {
        if queues[i] != [] {
          assert FirstNonEmpty(l.queues) == i;
          var app := queues[i][0];
          queues := queues[i := queues[i][1..]];
          if app in running {
            var progressIncrement := SliceGain(app, timeSlices[i]);
            r := Raise(running, app, progressIncrement);
            if r[app].progress < 1.0 {
              var nextQueue := if i + 1 < numQueues then i + 1 else numQueues - 1;
              queues := queues[nextQueue := queues[nextQueue] + [app]];
              appQueue := appQueue[app := nextQueue];
            } else {
              appQueue := appQueue - {app};
            }
          }
          break;
        }
        i := i + 1;
      }
    }

    /**
     * `MultilevelFeedbackQueue.addProgress`: nothing happens on an empty
     * running map; otherwise the three phases run in turn.
     */
    method AddProgress(running: map<App, Run>, time: int) returns (r: map<App, Run>)
      requires Valid()
      modifies this
      ensures Valid()
      ensures Outcome(Snapshot(), r) == MlfqStep(old(Snapshot()), running, timeSlices)
    {
      if running == map[] {
        return running;
      }
      ghost var l := Snapshot();
      Purge(running);
      Admit(running);
      SyncedTracks(l, running);
      r := Serve(running);
    }
  }
}
