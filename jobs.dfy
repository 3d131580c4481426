/** Jobs ("apps"), the two kinds of timeline entry and the timeline state. */
module Jobs {

  /** The fields of a job: its identity, the processing time it needs and its deadline. */
  datatype AppData = AppData(id: int, duration: int, deadline: int)

  /**
   * A well-formed job. `Fraction(1, duration)` fails for a zero duration and the
   * error metric divides by the deadline, so both are positive.
   */
  type App = a: AppData | a.duration > 0 && a.deadline > 0 witness AppData(1, 1, 1)

  /** Progress one tick of full, undivided service contributes: exactly 1/duration. */
  function NominalRate(a: App): (r: real)
    ensures 0.0 < r <= 1.0
    ensures r * (a.duration as real) == 1.0
  {
    1.0 / (a.duration as real)
  }

  /**
   * The order in which the model enumerates the keys of a mapping: ascending id,
   * with the remaining fields deciding between two records with the same id
   * (which a dictionary keyed by id can never hold at once).
   */
  predicate Precedes(a: AppData, b: AppData) {
    a.id < b.id
    || (a.id == b.id && a.duration < b.duration)
    || (a.id == b.id && a.duration == b.duration && a.deadline < b.deadline)
  }

  /** `running` entry: the submission time and the progress so far. */
  datatype Run = Run(submit: int, progress: real)

  /** `ended` entry: the submission time and the finish time. */
  datatype Done = Done(submit: int, finish: int)

  /** A timeline snapshot; equal snapshots are one element of a `set<State>`. */
  datatype State = State(running: map<App, Run>, ended: map<App, Done>)

  /** The apps present in a state, running or ended. */
  function Present(s: State): (r: set<App>)
    ensures forall a :: a in r <==> a in s.running || a in s.ended
  {
    s.running.Keys + s.ended.Keys
  }

  /** No app is both running and ended. */
  predicate Disjoint(s: State) {
    s.running.Keys !! s.ended.Keys
  }

  /** Outcome of a step that may raise the priority table's KeyError. */
  datatype Result<T> = Ok(value: T) | MissingPriority

  lemma PrecedesAsymmetric(a: AppData, b: AppData)
    ensures !(Precedes(a, b) && Precedes(b, a))
  {
  }

  lemma PrecedesTransitive(a: AppData, b: AppData, c: AppData)
    requires Precedes(a, b) && Precedes(b, c)
    ensures Precedes(a, c)
  {
  }

  /** `a` is the least element of `m` under Precedes. */
  predicate IsLeast(a: App, m: set<App>) {
    a in m && forall b {:trigger Precedes(a, b)} :: b in m && b != a ==> Precedes(a, b)
  }

  lemma {:induction false} LeastExists(m: set<App>)
    requires m != {}
    ensures exists a: App :: IsLeast(a, m)
  {
    var x :| x in m;
    if m != {x} {
      var rest := m - {x};
      LeastExists(rest);
      var y: App :| IsLeast(y, rest);
      if Precedes(x, y) {
        forall b | b in m && b != x ensures Precedes(x, b) {
          if b != y { PrecedesTransitive(x, y, b); }
        }
        assert IsLeast(x, m);
      } else {
        assert y != x && Precedes(y, x);
        forall b | b in m && b != y ensures Precedes(y, b) {
          if b != x { assert b in rest; }
        }
        assert IsLeast(y, m);
      }
    } else {
      assert IsLeast(x, m);
    }
  }

  /** A set has at most one least element. */
  lemma LeastUnique(m: set<App>)
    ensures forall a: App, a': App :: IsLeast(a, m) && IsLeast(a', m) ==> a == a'
  {
    forall a: App, a': App | IsLeast(a, m) && IsLeast(a', m) ensures a == a' {
      PrecedesAsymmetric(a, a');
    }
  }

  /** The first app of `m` in enumeration order. */
  function LeastOf(m: set<App>): (a: App)
    requires m != {}
    ensures IsLeast(a, m)
  {
    LeastExists(m);
    LeastUnique(m);
    var a: App :| IsLeast(a, m);
    a
  }

  /**
   * The keys of a mapping as `list(d.keys())` yields them: every key once, in
   * the order InOrderSorted states. When the ids of the seeded apps and of the
   * app list are distinct, in every state the explorer reaches from a one-app
   * seed apps arrive in ascending id order, so this is the dictionary's
   * insertion order.
   */
  function InOrder(m: set<App>): (r: seq<App>)
    ensures |r| == |m|
    ensures forall i :: 0 <= i < |r| ==> r[i] in m
    decreases m
  {
    if m == {} then []
    else
      var a := LeastOf(m);
      [a] + InOrder(m - {a})
  }

  /** `r` lists its elements in strictly ascending Precedes order. */
  predicate Ascending(r: seq<App>) {
    forall i, j :: 0 <= i < j < |r| ==> Precedes(r[i], r[j])
  }

  /** InOrder enumerates the keys in strictly ascending Precedes order. */
  lemma {:induction false} InOrderSorted(m: set<App>)
    ensures Ascending(InOrder(m))
    decreases m
  {
    if m != {} {
      var a := LeastOf(m);
      var t := InOrder(m - {a});
      InOrderSorted(m - {a});
      var r := InOrder(m);
      assert r == [a] + t;
      forall i, j | 0 <= i < j < |r| ensures Precedes(r[i], r[j]) {
        assert r[j] == t[j - 1] && r[j] in m - {a};
        if i > 0 {
          assert r[i] == t[i - 1];
        } else {
          assert r[i] == a;
        }
      }
    }
  }

  /** Updating one key of a merged map is updating it in the right-hand map. */
  lemma MergeUpdate<V>(m: map<App, V>, f: map<App, V>, a: App, d: V)
    ensures (m + f)[a := d] == m + f[a := d]
  {
  }

  /** InOrder lists every key once. */
  lemma InOrderDistinct(m: set<App>)
    ensures var r := InOrder(m);
            forall i, j :: 0 <= i < j < |r| ==> r[i] != r[j]
  {
    InOrderSorted(m);
  }

  /** InOrder lists exactly the keys. */
  lemma {:induction false} InOrderMembers(m: set<App>)
    ensures forall a :: a in InOrder(m) <==> a in m
    decreases m
  {
    if m != {} {
      var a := LeastOf(m);
      InOrderMembers(m - {a});
      assert InOrder(m) == [a] + InOrder(m - {a});
    }
  }
}
