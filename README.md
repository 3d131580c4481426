# Spark job scheduling simulator, modelled in Dafny

The program explores every way a list of jobs ("apps") can arrive on a Spark
cluster over a discrete horizon. It applies one progress policy per tick and
scores the final states.

- A timeline state (`Spark`) holds a `running` map from app to (submission
  time, progress) and an `ended` map from app to (submission time, finish
  time).
- `schedule` admits an app only when the app with the previous id is already
  present. `tick` applies the policy once, then moves every app with progress
  1 or more to `ended`.
- `nextStates` branches on "arrives now / does not arrive now" for each app.
  `simulate` repeats tick plus branching for ticks `0..steps` over a set of
  states.
- The four classifiers, the earliness/tardiness `error` and `computeMetrics`
  turn the final set of states into averages and percentages.

Nine progress policies are modelled:

- FIFO, Fair, EDFAll, EDFPure, ShortestJobNext, LeastLaxityFirst and Priority
  are stateless. They are one function (`Policies.ApplyPolicy`) and the
  imperative `Policies.AddProgress` that is proved equal to it.
- RoundRobin (`Rotation.RoundRobin`) keeps a cursor.
- MultilevelFeedbackQueue (`Feedback.MultilevelFeedbackQueue`) keeps its
  levels and a tracking map.

RoundRobin and MultilevelFeedbackQueue are classes whose fields the methods
update. Their phases are proved against value-level functions (`Turn`,
`Purged`, `Admitted`, `Served`, `MlfqStep`), and the promised properties are
lemmas about those functions.

Layout, one module per file:

| file | module | contents |
|---|---|---|
| `jobs.dfy` | `Jobs` | apps, entries, states, the enumeration order of map keys |
| `policies.dfy` | `Policies` | the seven stateless policies |
| `timeline.dfy` | `Timeline` | `schedule` and `tick` |
| `explorer.dfy` | `Explorer` | `nextStates`, `simulate` and the reachability invariants |
| `classify.dfy` | `Classify` | the four classifiers and `error` |
| `metrics.dfy` | `Metrics` | `computeMetrics` |
| `rotation.dfy` | `Rotation` | RoundRobin |
| `mlfq.dfy` | `Feedback` | MultilevelFeedbackQueue |

Exact fractions (`Fraction`) are Dafny `real`s.

Python's `min`/`max` return the first extremum in dictionary order, and
RoundRobin indexes `list(running.keys())`. The model enumerates map keys with
`Jobs.InOrder`, which lists them by ascending id. When the ids of the seed
and of the app list are distinct, arrivals follow the id chain in every state
the explorer reaches from a one-app seed. Insertion order and ascending id
then coincide there.

Two consequences of the code that its driver does not show:

- An app seeded into the initial state is progressed by the tick at `t = 0`,
  because `simulate` starts from tick 0.
- With an empty initial state nothing can ever arrive, because the lowest id
  has no present predecessor. `Explorer.SimulateFromEmptySeed` proves the
  result is then exactly the empty state.

## Model

| member | source | states |
|---|---|---|
| Jobs.NominalRate | Spark_job_Schedule.py:693 | the rate is `1/duration`: positive, at most 1, and times the duration it gives exactly 1 |
| Jobs.InOrder | Spark_job_Schedule.py:898 | the key listing has one entry per key and every entry is a key |
| Jobs.InOrderMembers | Spark_job_Schedule.py:898 | the key listing contains exactly the keys |
| Jobs.InOrderSorted | Spark_job_Schedule.py:898 | the key listing is strictly ascending (by id, then the other fields) |
| Jobs.InOrderDistinct | Spark_job_Schedule.py:898 | the key listing lists every key once |
| Timeline.HasPredecessor | Spark_job_Schedule.py:719-724 | some present app, running or ended, has id `app.id - 1`; used in the contract of Schedule |
| Timeline.Admits | Spark_job_Schedule.py:716-724 | the admission condition of `schedule`; ScheduleIdentityIff proves the state changes exactly when it holds |
| Timeline.Schedule | Spark_job_Schedule.py:715-728 | without admission (app already running or ended, or no present app with id `app.id - 1`) the state is returned unchanged; otherwise exactly that app is added to `running` at `(time, 0)`, and `ended` and every other entry are unchanged |
| Timeline.ScheduleIdentityIff | Spark_job_Schedule.py:715-728 | `schedule` returns its input state exactly when it does not admit the app |
| Timeline.FinishedAmong | Spark_job_Schedule.py:738-740 | the apps copied to `ended` are exactly the visited apps whose progress reached 1 |
| Timeline.Retire | Spark_job_Schedule.py:738-743 | after the copy and delete loops, `running` and `ended` are disjoint, and every app left running keeps its advanced entry below progress 1 |
| Timeline.Tick | Spark_job_Schedule.py:730-745 | identity on an empty `running`; fails exactly when the policy raises; otherwise the policy keeps keys and submission times and loses no progress, and the result is the retirement of the advanced map |
| Timeline.TickRetiresFinished | Spark_job_Schedule.py:738-743 | after a tick no running app has progress of 1 or more, and `running`/`ended` are disjoint |
| Timeline.RetireEffect | Spark_job_Schedule.py:738-743 | on a disjoint state: the present apps are unchanged, old `ended` entries are untouched, a running app ends iff its advanced progress reached 1 (as `(submit, time)`), and the others keep their submission time and lose no progress |
| Timeline.TickEffect | Spark_job_Schedule.py:730-745 | a tick on a disjoint state keeps it disjoint and keeps the set of present apps; each newly ended app gets `(its submit, time)`; earlier `ended` entries are untouched; an app ends iff the policy brought it to progress 1 |
| Timeline.TickKeepsProgressInRange | Spark_job_Schedule.py:730-745 | a tick keeps every running progress within [0, 1) |
| Timeline.CopyFinished | Spark_job_Schedule.py:738-740 | the copy loop enters exactly the finished apps into `ended` with finish time `time` |
| Timeline.DropEnded | Spark_job_Schedule.py:741-743 | the delete loop removes exactly the ended apps from `running` |
| Timeline.RetireLoops | Spark_job_Schedule.py:738-743 | the two loops together compute `Retire` |
| Timeline.ApplyTick | Spark_job_Schedule.py:730-745 | the imperative tick equals `Tick` |
| Explorer.NextStates | Spark_job_Schedule.py:798-803 | the branch set over "schedule the first app now or not", recursively; its properties are stated by NextStatesSize, NextStatesAreArrivals and NextStatesFromEmpty |
| Explorer.SimulateFrom | Spark_job_Schedule.py:807-811 | the loop of `simulate` from tick `t` to `steps`; its properties are stated by SimulateFromNonEmpty, SimulateFromConsistent, SimulateFromOk and SimulateFromEmpty |
| Explorer.Simulate | Spark_job_Schedule.py:805-812 | `simulate` from the single initial state; its properties are stated by SimulateNonEmpty, SimulateConsistent, SimulateOk and SimulateFromEmptySeed, and RunSimulation is proved equal to it |
| Explorer.NextStatesSize | Spark_job_Schedule.py:798-803 | `nextStates` contains its input state and has between 1 and 2^n states for a list of n apps |
| Explorer.NextStatesAreArrivals | Spark_job_Schedule.py:798-803 | every branch differs from the input only by apps of the list added to `running` at `(time, 0)` with their predecessor present |
| Explorer.NextStatesFromEmpty | Spark_job_Schedule.py:798-803 | from the empty state `nextStates` yields only the empty state |
| Explorer.Branches | Spark_job_Schedule.py:810 | the branches of one state, `nextStates(apps, state.tick(t), t)`; its properties are stated by SuccessorOrigin, SuccessorIntro and StepMembers |
| Explorer.Step | Spark_job_Schedule.py:808-811 | one iteration of the loop over the states; its properties are stated by StepRaises, StepMembers, StepConsistent and StepOk |
| Explorer.StepRaises | Spark_job_Schedule.py:808-811 | one iteration raises exactly when the tick of some state raises |
| Explorer.StepMembers | Spark_job_Schedule.py:808-811 | a successful iteration yields exactly the branches of the ticks of the old states: every such branch is in the new set, and every element of it is one |
| Explorer.SuccessorIntro | Spark_job_Schedule.py:809-810 | every branch of every state's successful tick is a successor |
| Explorer.SuccessorOrigin | Spark_job_Schedule.py:808-811 | every successor is a branch of some state's successful tick |
| Explorer.SuccessorsNonEmpty | Spark_job_Schedule.py:808-811 | a non-empty state set has a non-empty successor set |
| Explorer.SimulateNonEmpty | Spark_job_Schedule.py:805-812 | `simulate` never returns an empty set, so the divisions by `len(states)` are defined |
| Explorer.TickConsistent | Spark_job_Schedule.py:730-745 | a tick keeps the reachability invariant and the set of present apps |
| Explorer.ArrivalsConsistent | Spark_job_Schedule.py:715-728 | admissions keep the reachability invariant and add apps only |
| Explorer.StepConsistent | Spark_job_Schedule.py:808-811 | one loop iteration keeps the invariant, and every successor keeps the apps of the state it came from |
| Explorer.SimulateConsistent | Spark_job_Schedule.py:805-812 | in every final state `running`/`ended` are disjoint and progress lies in [0, 1); the seeded apps are still present; every app comes from the seed or the list; every admitted app has its predecessor (`id - 1`) present |
| Explorer.StepOk | Spark_job_Schedule.py:808-811 | a loop iteration raises nothing when every app that can be present has a priority (or the policy is not Priority) |
| Explorer.SimulateOk | Spark_job_Schedule.py:805-812 | `simulate` raises the priority KeyError only under Priority with an app lacking a priority |
| Explorer.SimulateFromEmptySeed | Spark_job_Schedule.py:805-812 | simulating from the empty state yields exactly the empty state, for every policy and app list |
| Explorer.StepStates | Spark_job_Schedule.py:808-811 | the loop over the states, accumulating `newStates`, equals `Step` |
| Explorer.RunSimulation | Spark_job_Schedule.py:805-812 | the loop over ticks `0..steps` equals `Simulate` |
| Policies.Laxity | Spark_job_Schedule.py:916-918 | `(deadline - time) - (1 - progress)`; LlfServesLeastLaxity states that the served app minimises it |
| Policies.Key | Spark_job_Schedule.py:867-929 | the value each selecting policy minimises (the negated priority for Priority); Select and the per-policy lemmas state what minimising it means |
| Policies.ArgMinIndex | Spark_job_Schedule.py:867 | the index of the first minimum: no later value is smaller, and every earlier one is larger |
| Policies.ArgMinUnique | Spark_job_Schedule.py:867 | only one index has both properties |
| Policies.Select | Spark_job_Schedule.py:863-930 | the selected app is running, minimises the policy's key, and precedes every other app with the same key in enumeration order |
| Policies.FirstMinimum | Spark_job_Schedule.py:867 | the first minimum of the key listing is the enumeration-first minimiser |
| Policies.Raise | Spark_job_Schedule.py:868 | only the given app changes: it keeps its submission time and gains the amount |
| Policies.ServeAll | Spark_job_Schedule.py:870-883 | every running app keeps its submission time and gains more than 0 and at most its nominal rate |
| Policies.ShareBounds | Spark_job_Schedule.py:876 | `nominalRate / cnt` is positive and at most `nominalRate` |
| Policies.ApplyPolicy | Spark_job_Schedule.py:863-930 | fails exactly for Priority with a running app lacking a priority; no-op on an empty map; keeps the keys and submission times; each entry is unchanged or gains more than 0 and at most its nominal rate |
| Policies.ServeSelected | Spark_job_Schedule.py:867-868 | only the selected app changes, by one nominal rate |
| Policies.SelectingPolicyRaisesOne | Spark_job_Schedule.py:863-930 | a selecting policy succeeds and raises exactly the selected app by its nominal rate |
| Policies.FifoServesEarliestSubmitted | Spark_job_Schedule.py:863-868 | FIFO raises exactly the app with the earliest submission time, by its nominal rate |
| Policies.EdfPureServesEarliestDeadline | Spark_job_Schedule.py:885-890 | EDFPure raises exactly the app with the earliest deadline, by its nominal rate |
| Policies.SjnServesShortest | Spark_job_Schedule.py:905-910 | ShortestJobNext raises exactly the shortest app, by its nominal rate |
| Policies.LlfServesLeastLaxity | Spark_job_Schedule.py:912-920 | LeastLaxityFirst raises exactly the app of least laxity `(deadline - time) - (1 - progress)`, by its nominal rate |
| Policies.PriorityServesHighest | Spark_job_Schedule.py:922-930 | Priority raises the KeyError iff some running app has no priority; otherwise it raises exactly the first app of highest priority, by its nominal rate |
| Policies.FairAndEdfAllServeEveryApp | Spark_job_Schedule.py:870-883 | Fair adds `nominalRate / cnt` and EDFAll adds `nominalRate` to every running app, keeping the keys and submission times |
| Policies.ServeEveryApp | Spark_job_Schedule.py:875-883 | the update loop of Fair and EDFAll equals `ServeAll` |
| Policies.ScanFirstMinimum | Spark_job_Schedule.py:863-930 | the scan for the first minimum returns `Select`'s app |
| Policies.AddProgress | Spark_job_Schedule.py:863-930 | the imperative `addProgress` of the stateless policies equals `ApplyPolicy` |
| Rotation.NextIndex | Spark_job_Schedule.py:901 | the new cursor lies in [0, n); it is `last + 1`, or 0 after the last position |
| Rotation.Turn | Spark_job_Schedule.py:902-903 | only the app at the cursor changes, by `nominalRate * time_slice` |
| Rotation.TurnsAt | Spark_job_Schedule.py:901 | the m-th successive cursor from `last` is `last + 1 + m`, wrapped once |
| Rotation.TurnsCoverAll | Spark_job_Schedule.py:901 | any n successive cursors over n apps visit every position |
| Rotation.ServedApps | Spark_job_Schedule.py:898-903 | every app served by k successive calls is running |
| Rotation.RoundRobinServesEveryApp | Spark_job_Schedule.py:897-903 | while the running set is unchanged, n successive calls over n apps serve every app |
| Rotation.RoundRobin.constructor | Spark_job_Schedule.py:893-895 | the slice is stored and the cursor starts at -1 |
| Rotation.RoundRobin.AddProgress | Spark_job_Schedule.py:897-903 | no-op on an empty map; otherwise the cursor moves to `NextIndex` and only that app gains one slice |
| Feedback.Purged | Spark_job_Schedule.py:945-950 | the purge phase; PurgedWellFormed and PurgedTracks state its properties, and Purge is proved equal to it |
| Feedback.Admitted | Spark_job_Schedule.py:953-956 | the admission phase; AdmittedWellFormed and AdmittedTracks state its properties, and Admit is proved equal to it |
| Feedback.Served | Spark_job_Schedule.py:959-973 | the serving phase; ServedWellFormed, ServedChoice and ServedEffect state its properties, and Serve is proved equal to it |
| Feedback.Synced | Spark_job_Schedule.py:945-956 | purge then admission; SyncedWellFormed and SyncedTracks state its properties |
| Feedback.MlfqStep | Spark_job_Schedule.py:939-973 | one whole call; MlfqStepWellFormed, MlfqStepServesHighest and MlfqStepKeepsLevels state its properties, and the class's AddProgress is proved equal to it |
| Feedback.AtTop | Spark_job_Schedule.py:956 | the new apps are tracked, all at level 0 |
| Feedback.FirstNonEmpty | Spark_job_Schedule.py:959-960 | the first level that holds an app; every level above it is empty |
| Feedback.Demoted | Spark_job_Schedule.py:968 | `min(i + 1, numQueues - 1)` |
| Feedback.RemoveFirstIsDrop | Spark_job_Schedule.py:948-949 | on a level without repetitions, `remove` takes out the app's one occurrence |
| Feedback.PurgedWellFormed | Spark_job_Schedule.py:945-950 | purging keeps the queue invariant: each tracked app is queued once, at its tracked level, and nothing else is queued |
| Feedback.PurgedTracks | Spark_job_Schedule.py:945-950 | after purging, the tracked apps are the tracked running ones, at their old levels |
| Feedback.PurgeNext | Spark_job_Schedule.py:946-950 | removing one more gone app from its own level and untracking it takes it out of every level |
| Feedback.FreshFacts | Spark_job_Schedule.py:953-954 | the admitted apps are exactly the untracked running ones, each once |
| Feedback.AppendAtTop | Spark_job_Schedule.py:953-956 | appending untracked apps to level 0 and tracking them there keeps the invariant |
| Feedback.AdmittedWellFormed | Spark_job_Schedule.py:953-956 | admission keeps the invariant |
| Feedback.AdmittedTracks | Spark_job_Schedule.py:953-956 | after admission every running app is tracked; new apps are at level 0 and in `queues[0]`; old levels are kept |
| Feedback.AdmitNext | Spark_job_Schedule.py:953-956 | one iteration of the admission loop appends the app to level 0 iff it is untracked |
| Feedback.PopHead | Spark_job_Schedule.py:961 | after popping the head of a level, that app is queued nowhere and the rest of the invariant holds |
| Feedback.Requeue | Spark_job_Schedule.py:967-970 | appending the popped app to a level and tracking it there restores the invariant |
| Feedback.Untrack | Spark_job_Schedule.py:971-972 | untracking the popped app restores the invariant |
| Feedback.ServedWellFormed | Spark_job_Schedule.py:959-973 | serving keeps the invariant when every tracked app is running |
| Feedback.SyncedWellFormed | Spark_job_Schedule.py:945-956 | synchronisation keeps the invariant |
| Feedback.SyncedTracks | Spark_job_Schedule.py:945-956 | after synchronisation the tracked apps are exactly the running apps; old ones keep their level, new ones are at level 0 and in `queues[0]` |
| Feedback.ServedChoice | Spark_job_Schedule.py:959-962 | after synchronisation some level is non-empty; its head is running, tracked at that level, and no running app is tracked above it |
| Feedback.ServedEffect | Spark_job_Schedule.py:959-973 | the head of the first non-empty level `i` alone gains `nominalRate * time_slices[i]`; unfinished, it is tracked at `min(i + 1, n - 1)` at the back of that level; finished, it is untracked; all other apps keep their level |
| Feedback.MlfqStepWellFormed | Spark_job_Schedule.py:939-973 | one call keeps the queue invariant |
| Feedback.MlfqStepServesHighest | Spark_job_Schedule.py:939-973 | one call on a non-empty map: synchronisation tracks exactly the running apps; the served app is running, at the highest occupied level, and alone gains that level's slice; afterwards exactly the running apps are tracked, minus the served app if it finished, and the served app is otherwise demoted |
| Feedback.MlfqStepKeepsLevels | Spark_job_Schedule.py:939-973 | one call: an already tracked running app keeps its level, and a new one is tracked at level 0, unless it is the one served |
| Feedback.MultilevelFeedbackQueue.constructor | Spark_job_Schedule.py:933-937 | `numQueues` empty levels, nothing tracked, and the invariant holds |
| Feedback.MultilevelFeedbackQueue.Purge | Spark_job_Schedule.py:945-950 | the purge loop keeps the invariant and leaves the fields equal to `Purged` of the old state |
| Feedback.MultilevelFeedbackQueue.Admit | Spark_job_Schedule.py:953-956 | the admission loop keeps the invariant and leaves the fields equal to `Admitted` of the old state |
| Feedback.MultilevelFeedbackQueue.Serve | Spark_job_Schedule.py:959-973 | the serving loop leaves fields and running map equal to `Served`, and keeps the invariant when every tracked app is running |
| Feedback.MultilevelFeedbackQueue.AddProgress | Spark_job_Schedule.py:939-973 | no-op on an empty map; otherwise fields and running map equal `MlfqStep` of the old state, and the invariant holds |
| Classify.Violated | Spark_job_Schedule.py:760-765 | some app of the list ended after its deadline; ComputeViolations is proved equal to it |
| Classify.Unfeasible | Spark_job_Schedule.py:767-773 | some app of the list is absent, or running too late to finish; ComputeUnfeasibility is proved equal to it |
| Classify.ScenarioViolated | Spark_job_Schedule.py:775-782 | neither of the above, yet a finishable app is still running; ComputeScenarioViolations is proved equal to it |
| Classify.NonViolated | Spark_job_Schedule.py:784-787 | none of the three; ClassesPartition and NonViolatedIffAllOnTime state what it means |
| Classify.Deviation | Spark_job_Schedule.py:751-752 | `(deadline - exec_time) / deadline`; DeviationNegativeIffLate states its sign |
| Classify.ClassesPartition | Spark_job_Schedule.py:760-787 | non-violated iff none of violated, unfeasible or scenario-violated; scenario-violated excludes the other two; exactly one of three classes holds |
| Classify.NonViolatedIffAllOnTime | Spark_job_Schedule.py:760-787 | on a disjoint state, non-violated iff every app of the list ended within its deadline |
| Classify.ComputeViolations | Spark_job_Schedule.py:760-765 | true iff some app of the list ended after its deadline |
| Classify.ComputeUnfeasibility | Spark_job_Schedule.py:767-773 | true iff some app of the list is absent, or running with `submit + duration > steps` |
| Classify.ComputeScenarioViolations | Spark_job_Schedule.py:775-782 | true iff neither violated nor unfeasible, and some app of the list is still running though `submit + duration <= steps` |
| Classify.ComputeNonViolations | Spark_job_Schedule.py:784-787 | true iff none of the three classes holds |
| Classify.DeviationNegativeIffLate | Spark_job_Schedule.py:751-753 | the deviation `(deadline - exec) / deadline` is negative iff the app ended late |
| Classify.Accumulate | Spark_job_Schedule.py:750-756 | the earliness and tardiness sums are non-negative |
| Classify.EndedKeys | Spark_job_Schedule.py:750 | the loop visits exactly the ended apps |
| Classify.Error | Spark_job_Schedule.py:747-758 | `eA, eD >= 0`, and `(0, 0)` for an empty list |
| Classify.AccumulateTardinessIff | Spark_job_Schedule.py:750-756 | the tardiness sum is positive iff some summed app ended late |
| Classify.TardinessIffViolated | Spark_job_Schedule.py:747-765 | when every ended app is in the non-empty list, `eD > 0` iff `computeViolations` holds |
| Classify.ComputeError | Spark_job_Schedule.py:747-758 | the imperative `error` equals `Error` |
| Classify.SumDeviations | Spark_job_Schedule.py:748-756 | the summing loop equals `Accumulate` over the ended apps |
| Metrics.Waiting | Spark_job_Schedule.py:825 | `max(0, turnaround - duration)` |
| Metrics.StateTally | Spark_job_Schedule.py:821-830 | per state, `0 <= on_time <= count`, at most the length of the list, and the waiting total is non-negative |
| Metrics.StateTallyAllEnded | Spark_job_Schedule.py:821-828 | every app is counted iff every app of the list has ended |
| Metrics.StateTallyAllOnTime | Spark_job_Schedule.py:829-830 | every app is on time iff every app of the list ended within its deadline |
| Metrics.NonViolatedIffTallyOnTime | Spark_job_Schedule.py:829-830 | on a disjoint state, non-violated iff every app of the list is counted as on time |
| Metrics.TallyState | Spark_job_Schedule.py:821-830 | the inner counter loop equals `StateTally` |
| Metrics.StateTotals | Spark_job_Schedule.py:820-842 | one state's contribution counts one state and respects the bounds below |
| Metrics.SumByRemove | Spark_job_Schedule.py:820 | the sum over the states does not depend on the order of the visit |
| Metrics.SumBounded | Spark_job_Schedule.py:820-842 | over n states the sums count n states; on-time apps are at most the ended apps; waiting and errors are non-negative; exclusive classes together count at most n |
| Metrics.SumCountsViolated | Spark_job_Schedule.py:839 | the violation count is the number of violated states |
| Metrics.SumCountsNonViolated | Spark_job_Schedule.py:842 | the non-violation count is the number of non-violated states |
| Metrics.PercentBounds | Spark_job_Schedule.py:834-842 | a count k out of n as a percentage lies in [0, 100], and is 100 iff k == n |
| Metrics.MetricsBounds | Spark_job_Schedule.py:814-857 | every category percentage and the adherence lie in [0, 100]; exclusive shares add up to at most 100; error percentages and average waiting are non-negative; `num_states` is the number of states |
| Metrics.MetricsFromBounds | Spark_job_Schedule.py:832-856 | the same bounds for any consistent sums |
| Metrics.AllNonViolatedIff | Spark_job_Schedule.py:842 | `non_violations_pct` is 100 iff every final state is non-violated |
| Metrics.MetricsFrom | Spark_job_Schedule.py:832-856 | the averages and percentages from the summed contributions; MetricsFromBounds states their ranges |
| Metrics.MetricsOf | Spark_job_Schedule.py:814-857 | `computeMetrics` of a non-empty set of states; MetricsBounds and AllNonViolatedIff state its properties, and ComputeMetrics is proved equal to it |
| Metrics.ComputeStateTotals | Spark_job_Schedule.py:820-842 | one state's contribution, with each classifier run by its loop, equals `StateTotals` |
| Metrics.SumStates | Spark_job_Schedule.py:820-842 | the loop over the states equals the order-independent sum `Sum` |
| Metrics.ComputeMetrics | Spark_job_Schedule.py:814-857 | the imperative `computeMetrics` equals `MetricsOf` |

## Left out

- The three `__main__` drivers: they only configure runs and print reports.
- The two earlier copies of the code in the same file. They are superseded by
  the last copy, which is the one in effect.
- `float(...)` in `error` and Python's float true division in
  `computeMetrics`. All ratios are exact reals.
- `__hash__` and `__repr__` of apps and states. Deduplication is equality of
  `State` values in a Dafny `set`.
- `App` equality by id alone. Apps are compared structurally. The model
  assumes the ids of the seeded apps and of the app list are distinct. A
  dictionary keyed by id then never holds two apps with the same id, and the
  tie-break order `Precedes` is by id first. If two apps share an id, the
  source keeps one entry for both and the model keeps two, so the two
  diverge.
- App construction with a non-positive duration or deadline (`Jobs.App`). A
  zero duration fails in `Fraction(1, duration)` and a zero deadline fails in
  `error`. The model excludes negative values too.
- Dictionary insertion order. Keys are enumerated by ascending id
  (`Jobs.InOrder`). This agrees with insertion order in the reachable states
  described above, when ids are distinct. It does not agree in arbitrary
  hand-built states or when ids repeat.
- The abstract `Scheduler` base class. Policies are a datatype (`Policies.Policy`).
- Sharing one RoundRobin or MultilevelFeedbackQueue object across all
  branches of `simulate`. This cross-branch side channel is not modelled. The
  engine (`Timeline.Tick`, `Explorer.Simulate`) runs the seven stateless
  policies, and the two stateful ones are standalone classes.
- The priority table's KeyError carries no payload. It is the single
  `MissingPriority` result, which aborts the whole simulation.
- `addProgress` mutates its `running` argument in place. Here every policy
  returns the new map (`Policies.AddProgress`, `Rotation.RoundRobin.AddProgress`,
  `Feedback.MultilevelFeedbackQueue.AddProgress`); aliasing with the caller's
  dictionary is not modelled.
- The `time` argument of RoundRobin and MultilevelFeedbackQueue
  `addProgress` is unused in the source and ignored here.
- `Feedback.MultilevelFeedbackQueue.constructor` requires at least one level
  and at least as many time slices as levels. The source accepts other
  arguments, and then fails with an IndexError only when a level without a
  time slice, or without a queue, is first used.
- `Feedback.MultilevelFeedbackQueue.Purge`: the source visits the tracked apps
  in insertion order; the loop here picks them in any order, which gives the
  same result.
- `Feedback.MultilevelFeedbackQueue.Purge`: the source removes an app only
  after checking that it is in its level. `RemoveFirst` of an absent app
  changes nothing, so that check is dropped.
- `Metrics.ComputeMetrics` requires a non-empty set of states: the source
  divides by `len(states)`. `Explorer.SimulateNonEmpty` shows `simulate` never
  returns an empty set.
- `Feedback.MultilevelFeedbackQueue.Serve`: its invariant guarantee is stated
  under the condition that every tracked app is running. `AddProgress`, which
  synchronises first, always meets that condition.
- Performance at large horizons, and the exponential number of states.
