/**
 * The seven stateless progress policies. Each one is a function of the running
 * map (and the current tick) to the running map after one `addProgress`; the
 * KeyError of the priority table is the one failure.
 */
module Policies {
  import opened Jobs

  datatype Policy =
    | FIFO
    | Fair
    | EDFAll
    | EDFPure
    | ShortestJobNext
    | LeastLaxityFirst
    | Priority(priorities: map<App, int>)

  /** The policies that serve a single app chosen by `min` or `max`. */
  predicate Selects(p: Policy) {
    !p.Fair? && !p.EDFAll?
  }

  /** Slack between the time left to the deadline and the work left. */
  function Laxity(running: map<App, Run>, time: int, a: App): real
    requires a in running
  {
    (a.deadline - time) as real - (1.0 - running[a].progress)
  }

  /** The value a selecting policy minimises; Priority maximises, so its key is negated. */
  function Key(p: Policy, running: map<App, Run>, time: int, a: App): real
    requires Selects(p) && a in running && (p.Priority? ==> a in p.priorities)
  {
    match p
    case FIFO => running[a].submit as real
    case EDFPure => a.deadline as real
    case ShortestJobNext => a.duration as real
    case LeastLaxityFirst => Laxity(running, time, a)
    case Priority(pr) => -(pr[a] as real)
  }

  /** Index of the first minimum of `v`, the element Python's `min` returns. */
  function ArgMinIndex(v: seq<real>): (k: nat)
    requires |v| > 0
    ensures k < |v|
    ensures forall j :: 0 <= j < |v| ==> v[k] <= v[j]
    ensures forall j :: 0 <= j < k ==> v[k] < v[j]
  {
    if |v| == 1 then 0
    else
      var k := ArgMinIndex(v[1..]);
      if v[0] <= v[k + 1] then 0 else k + 1
  }

  /** Only one index satisfies both halves of ArgMinIndex's contract. */
  lemma ArgMinUnique(v: seq<real>, k: nat)
    requires k < |v|
    requires forall j :: 0 <= j < |v| ==> v[k] <= v[j]
    requires forall j :: 0 <= j < k ==> v[k] < v[j]
    ensures k == ArgMinIndex(v)
  {
  }

  /** The keys of the apps of `order`, in that order. */
  function KeysOf(p: Policy, running: map<App, Run>, time: int, order: seq<App>): (v: seq<real>)
    requires Selects(p)
    requires forall a :: a in order ==> a in running && (p.Priority? ==> a in p.priorities)
    ensures |v| == |order|
    ensures forall i :: 0 <= i < |v| ==> v[i] == Key(p, running, time, order[i])
    decreases |order|
  {
    if order == [] then []
    else [Key(p, running, time, order[0])] + KeysOf(p, running, time, order[1..])
  }

  /** The keys of the running apps, in enumeration order. */
  function KeyValues(p: Policy, running: map<App, Run>, time: int): (v: seq<real>)
    requires Selects(p) && (p.Priority? ==> running.Keys <= p.priorities.Keys)
    ensures |v| == |running.Keys|
    ensures forall i :: 0 <= i < |v| ==> v[i] == Key(p, running, time, InOrder(running.Keys)[i])
  {
    InOrderMembers(running.Keys);
    KeysOf(p, running, time, InOrder(running.Keys))
  }

  /**
   * The app a selecting policy serves: a minimiser of its key, and among equal
   * keys the one enumerated first.
   */
  function Select(p: Policy, running: map<App, Run>, time: int): (a: App)
    requires Selects(p) && running != map[]
    requires p.Priority? ==> running.Keys <= p.priorities.Keys
    ensures a in running
    ensures forall b :: b in running ==> Key(p, running, time, a) <= Key(p, running, time, b)
    ensures forall b :: b in running && b != a && Key(p, running, time, b) == Key(p, running, time, a)
              ==> Precedes(a, b)
  {
    var order := InOrder(running.Keys);
    assert order[0] in running.Keys;
    var v := KeyValues(p, running, time);
    var k := ArgMinIndex(v);
    FirstMinimum(p, running, time, k);
    order[k]
  }

  /** The first minimum of the key sequence is the enumeration-first minimiser. */
  lemma FirstMinimum(p: Policy, running: map<App, Run>, time: int, k: nat)
    requires Selects(p) && (p.Priority? ==> running.Keys <= p.priorities.Keys)
    requires k < |running.Keys|
    requires forall j :: 0 <= j < |running.Keys| ==> KeyValues(p, running, time)[k] <= KeyValues(p, running, time)[j]
    requires forall j :: 0 <= j < k ==> KeyValues(p, running, time)[k] < KeyValues(p, running, time)[j]
    ensures var a := InOrder(running.Keys)[k];
            && a in running
            && (forall b :: b in running ==> Key(p, running, time, a) <= Key(p, running, time, b))
            && (forall b :: b in running && b != a && Key(p, running, time, b) == Key(p, running, time, a)
                  ==> Precedes(a, b))
  {
    var order := InOrder(running.Keys);
    var v := KeyValues(p, running, time);
    var a := order[k];
    forall b | b in running
      ensures Key(p, running, time, a) <= Key(p, running, time, b)
      ensures b != a && Key(p, running, time, b) == Key(p, running, time, a) ==> Precedes(a, b)
    {
      InOrderMembers(running.Keys);
      var j := IndexIn(order, b);
      FirstMinimumAt(running.Keys, v, k, j);
      assert v[j] == Key(p, running, time, b) && v[k] == Key(p, running, time, a);
    }
  }

  /** The position of `b` in `order`. */
  function IndexIn(order: seq<App>, b: App): (j: nat)
    requires b in order
    ensures j < |order| && order[j] == b
  {
    if order[0] == b then 0 else 1 + IndexIn(order[1..], b)
  }

  /** In the enumeration order, the first minimum of `v` precedes every other minimum. */
  lemma FirstMinimumAt(m: set<App>, v: seq<real>, k: nat, j: nat)
    requires |v| == |m| && k < |v| && j < |v|
    requires forall i :: 0 <= i < |v| ==> v[k] <= v[i]
    requires forall i :: 0 <= i < k ==> v[k] < v[i]
    ensures v[k] <= v[j]
    ensures InOrder(m)[j] != InOrder(m)[k] && v[j] == v[k] ==> Precedes(InOrder(m)[k], InOrder(m)[j])
  {
    if InOrder(m)[j] != InOrder(m)[k] && v[j] == v[k] {
      assert k < j;
      InOrderSorted(m);
    }
  }

  /** `r` is `running` with only app `a` advanced, by `amount`. */
  predicate RaisesOnly(running: map<App, Run>, r: map<App, Run>, a: App, amount: real) {
    && a in running
    && r.Keys == running.Keys
    && r[a] == Run(running[a].submit, running[a].progress + amount)
    && forall b :: b in running && b != a ==> r[b] == running[b]
  }

  /** `running` with app `a` advanced by `amount`. */
  function Raise(running: map<App, Run>, a: App, amount: real): (r: map<App, Run>)
    requires a in running
    ensures RaisesOnly(running, r, a, amount)
  {
    running[a := Run(running[a].submit, running[a].progress + amount)]
  }

  /** Progress one call of a time-sliced policy gives `a`: `nominalRate * slice`. */
  function SliceGain(a: App, slice: int): real {
    NominalRate(a) * (slice as real)
  }

  /** The amount every running app gains under Fair (`all` = false) or EDFAll (`all` = true). */
  function Share(running: map<App, Run>, a: App, all: bool): real
    requires a in running
  {
    if all then NominalRate(a) else NominalRate(a) / (|running.Keys| as real)
  }

  /** Every running app advanced by its share. */
  function ServeAll(running: map<App, Run>, all: bool): (r: map<App, Run>)
    ensures r.Keys == running.Keys
    ensures forall a :: a in running ==>
              && r[a].submit == running[a].submit
              && running[a].progress < r[a].progress <= running[a].progress + NominalRate(a)
  {
    SharesBounded(running, all);
    map a | a in running :: Run(running[a].submit, running[a].progress + Share(running, a, all))
  }

  lemma SharesBounded(running: map<App, Run>, all: bool)
    ensures forall a :: a in running ==> 0.0 < Share(running, a, all) <= NominalRate(a)
  {
    forall a | a in running ensures 0.0 < Share(running, a, all) <= NominalRate(a) {
      ShareBounds(running, a, all);
    }
  }

  lemma ShareBounds(running: map<App, Run>, a: App, all: bool)
    requires a in running
    ensures 0.0 < Share(running, a, all) <= NominalRate(a)
  {
    var n := |running.Keys| as real;
    assert n >= 1.0;
    var x := NominalRate(a);
    if !all {
      var y := x / n;
      assert y * n == x;
      assert y > 0.0;
      assert y * (n - 1.0) >= 0.0;
    }
  }

  /** One `addProgress` call of a stateless policy. */
  function ApplyPolicy(p: Policy, running: map<App, Run>, time: int): (r: Result<map<App, Run>>)
    ensures r.MissingPriority? <==> p.Priority? && exists a :: a in running && a !in p.priorities
    ensures running == map[] ==> r == Ok(running)
    ensures r.Ok? ==> r.value.Keys == running.Keys
    ensures r.Ok? ==> forall a :: a in running ==> r.value[a].submit == running[a].submit
    ensures r.Ok? ==> forall a :: a in running ==>
              running[a].progress < r.value[a].progress <= running[a].progress + NominalRate(a)
              || r.value[a] == running[a]
  {
    if running == map[] then Ok(running)
    else if p.Fair? || p.EDFAll? then Ok(ServeAll(running, p.EDFAll?))
    else if p.Priority? && !(running.Keys <= p.priorities.Keys) then MissingPriority
    else Ok(ServeSelected(p, running, time))
  }

  /** A selecting policy's update: the selected app gains one full nominal increment. */
  function ServeSelected(p: Policy, running: map<App, Run>, time: int): (r: map<App, Run>)
    requires Selects(p) && running != map[]
    requires p.Priority? ==> running.Keys <= p.priorities.Keys
    ensures RaisesOnly(running, r, Select(p, running, time), NominalRate(Select(p, running, time)))
  {
    var a := Select(p, running, time);
    Raise(running, a, NominalRate(a))
  }

  /** A selecting policy advances only the selected app, by one full nominal increment. */
  lemma SelectingPolicyRaisesOne(p: Policy, running: map<App, Run>, time: int)
    requires Selects(p) && running != map[]
    requires p.Priority? ==> running.Keys <= p.priorities.Keys
    ensures var a := Select(p, running, time);
            ApplyPolicy(p, running, time).Ok?
            && RaisesOnly(running, ApplyPolicy(p, running, time).value, a, NominalRate(a))
  {
  }

  /** FIFO serves the app with the earliest submission time. */
  lemma FifoServesEarliestSubmitted(running: map<App, Run>, time: int)
    requires running != map[]
    ensures var a := Select(FIFO, running, time);
            && (forall b :: b in running ==> running[a].submit <= running[b].submit)
            && ApplyPolicy(FIFO, running, time).Ok?
            && RaisesOnly(running, ApplyPolicy(FIFO, running, time).value, a, NominalRate(a))
  {
    SelectingPolicyRaisesOne(FIFO, running, time);
  }

  /** EDFPure serves the app with the earliest deadline. */
  lemma EdfPureServesEarliestDeadline(running: map<App, Run>, time: int)
    requires running != map[]
    ensures var a := Select(EDFPure, running, time);
            && (forall b :: b in running ==> a.deadline <= b.deadline)
            && ApplyPolicy(EDFPure, running, time).Ok?
            && RaisesOnly(running, ApplyPolicy(EDFPure, running, time).value, a, NominalRate(a))
  {
    SelectingPolicyRaisesOne(EDFPure, running, time);
  }

  /** ShortestJobNext serves the app with the smallest duration. */
  lemma SjnServesShortest(running: map<App, Run>, time: int)
    requires running != map[]
    ensures var a := Select(ShortestJobNext, running, time);
            && (forall b :: b in running ==> a.duration <= b.duration)
            && ApplyPolicy(ShortestJobNext, running, time).Ok?
            && RaisesOnly(running, ApplyPolicy(ShortestJobNext, running, time).value, a, NominalRate(a))
  {
    SelectingPolicyRaisesOne(ShortestJobNext, running, time);
  }

  /** LeastLaxityFirst serves the app with the least laxity at this tick. */
  lemma LlfServesLeastLaxity(running: map<App, Run>, time: int)
    requires running != map[]
    ensures var a := Select(LeastLaxityFirst, running, time);
            && (forall b :: b in running ==> Laxity(running, time, a) <= Laxity(running, time, b))
            && ApplyPolicy(LeastLaxityFirst, running, time).Ok?
            && RaisesOnly(running, ApplyPolicy(LeastLaxityFirst, running, time).value, a, NominalRate(a))
  {
    SelectingPolicyRaisesOne(LeastLaxityFirst, running, time);
  }

  /**
   * Priority serves the app with the highest priority when every running app
   * has one, and raises the KeyError otherwise.
   */
  lemma PriorityServesHighest(pr: map<App, int>, running: map<App, Run>, time: int)
    requires running != map[]
    ensures ApplyPolicy(Priority(pr), running, time).MissingPriority? <==> !(running.Keys <= pr.Keys)
    ensures running.Keys <= pr.Keys ==>
            var a := Select(Priority(pr), running, time);
            && (forall b :: b in running ==> pr[b] <= pr[a])
            && (forall b :: b in running && b != a && pr[b] == pr[a] ==> Precedes(a, b))
            && ApplyPolicy(Priority(pr), running, time).Ok?
            && RaisesOnly(running, ApplyPolicy(Priority(pr), running, time).value, a, NominalRate(a))
  {
    if running.Keys <= pr.Keys {
      SelectingPolicyRaisesOne(Priority(pr), running, time);
      var a := Select(Priority(pr), running, time);
      forall b | b in running ensures pr[b] <= pr[a] {
        assert Key(Priority(pr), running, time, a) <= Key(Priority(pr), running, time, b);
      }
    }
  }

  /** Fair and EDFAll advance every running app, by `nominalRate / count` and `nominalRate`. */
  lemma FairAndEdfAllServeEveryApp(running: map<App, Run>, time: int)
    requires running != map[]
    ensures var r := ApplyPolicy(Fair, running, time);
            r.Ok? && r.value.Keys == running.Keys
            && forall a :: a in running ==>
                 r.value[a] == Run(running[a].submit, running[a].progress + NominalRate(a) / (|running.Keys| as real))
    ensures var r := ApplyPolicy(EDFAll, running, time);
            r.Ok? && r.value.Keys == running.Keys
            && forall a :: a in running ==>
                 r.value[a] == Run(running[a].submit, running[a].progress + NominalRate(a))
  {
  }

  /** The loop of Fair and EDFAll: every running app gains its share. */
  method ServeEveryApp(running: map<App, Run>, all: bool) returns (out: map<App, Run>)
    ensures out == ServeAll(running, all)
  {
    out := running;
    var pending := running.Keys;
    while pending != {}
      invariant pending <= running.Keys
      invariant out.Keys == running.Keys
      invariant forall a :: a in running ==>
                  out[a] == if a in pending then running[a]
                            else Run(running[a].submit, running[a].progress + Share(running, a, all))
      decreases pending
    {
      var a :| a in pending;
      out := out[a := Run(out[a].submit, out[a].progress + Share(running, a, all))];
      pending := pending - {a};
    }
  }

  /** Python's `min` over the running apps in enumeration order, by the policy's key. */
  method ScanFirstMinimum(p: Policy, running: map<App, Run>, time: int) returns (a: App)
    requires Selects(p) && running != map[]
    requires p.Priority? ==> running.Keys <= p.priorities.Keys
    ensures a == Select(p, running, time)
  {
    var order := InOrder(running.Keys);
    var v := KeyValues(p, running, time);
    var best := 0;
    var k := 1;
    while k < |v|
      invariant 1 <= k <= |v|
      invariant best < k
      invariant forall j :: 0 <= j < k ==> v[best] <= v[j]
      invariant forall j :: 0 <= j < best ==> v[best] < v[j]
    {
      if v[k] < v[best] {
        best := k;
      }
      k := k + 1;
    }
    ArgMinUnique(v, best);
    a := order[best];
  }

  /**
   * `addProgress` as the source runs it: Fair and EDFAll update every entry in
   * a loop, the selecting policies scan the running apps for the first minimum.
   */
  method AddProgress(p: Policy, running: map<App, Run>, time: int) returns (r: Result<map<App, Run>>)
    ensures r == ApplyPolicy(p, running, time)
  {
    if running == map[] {
      return Ok(running);
    }
    if p.Fair? || p.EDFAll? {
      var out := ServeEveryApp(running, p.EDFAll?);
      return Ok(out);
    }
    if p.Priority? && !(running.Keys <= p.priorities.Keys) {
      return MissingPriority;
    }
    var a := ScanFirstMinimum(p, running, time);
    return Ok(running[a := Run(running[a].submit, running[a].progress + NominalRate(a))]);
  }
}
