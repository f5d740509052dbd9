# PrimeHub controller: a verified model

PrimeHub runs users' batch jobs (PhJobs) and model servers (PhDeployments) on Kubernetes. Three
actors share the job objects: the **reconciler** moves a job through its lifecycle and makes and
deletes its pod, the **scheduler** admits pending jobs against group and user quotas, and the
**cleaner** deletes finished ones. They run concurrently, each on snapshots that may be stale, and
all that keeps them apart is the version check on status writes. This project models that system
and the parts around it, and proves what it guarantees.

## What is here

| file | what it models |
|---|---|
| `prelude.dfy`, `lists.dfy`, `pods.dfy` | options and results, wrapping integers; compaction and sorting of a slice in place; pod phases |
| `escapism.dfy` | the label codec, on bytes: both loops, round trip, injectivity, alphabet |
| `quota.dfy` | quota arithmetic on shared `Quantity` cells, and usage counting |
| `jobs.dfy` | the PhJob object, stored and in memory |
| `admission.dfy` | the admission pass as heap code, refining a fold on values |
| `admission_laws.dfy` | conservation, solvency, strict order, monotonicity of the pass |
| `admission_crash.dfy` | when the pass dereferences nil, and what rules that out beforehand |
| `admission_exact.dfy` | which jobs the pass admits and where it ends, from the starting quotas alone |
| `tick.dfy`, `tick_laws.dfy` | a whole scheduler tick, crashed or not; order independence, soundness and liveness of validation; an interrupted tick as a run |
| `tick_exact.dfy` | which jobs a tick fails and which it admits, from what its lookups return |
| `usage_by_label.dfy` | whose pods a label counts |
| `quota_demand.dfy`, `quota_safety.dfy` | what jobs use or may come to use; quota safety over the runs of the state machine, with passes in them |
| `quota_limits.dfy` | four runs that overdraw, each for want of one assumption |
| `protocol.dfy` | the PhJob system as a state machine, one action for each call to the API server |
| `protocol_safety.dfy` | its inductive invariant, and the theorems about every interleaving |
| `pod_budget.dfy`, `requeue_wrap.dfy` | how many pods a job may cost; the runs in which the requeue count wraps |
| `outcomes.dfy` | what an undisturbed reconcile comes to: every case, and every field of the status |
| `protocol_effects.dfy` | its steps, of which the runs of `requeue_wrap.dfy` and `quota_limits.dfy` are built too |
| `reconciler.dfy` | the reconciler as imperative code, against an API server that others use too |
| `cleaner.dfy` | the cleaner: in-place expiry, the limit, and when it panics |
| `datasets.dfy` | merging dataset lists through a map |
| `deployment.dfy` | updating, scaling and re-applying a Deployment |

**How the code and the state machine meet.** `Reconciler.Cluster` is an API server whose every
action is logged, and whose state is always the state that the log leads to in `Protocol`. Before
each call other actors do anything they like. `PhJobReconciler` assigns the fields of its copy of
the job step by step, and its contracts say that the copy and the machine's flight agree between
any two calls. A call may fail, with its effect or without. A whole scheduler tick, interrupted
before every write, and some of whose writes may fail, is a run of the same machine
(`TickLaws.TickIsRun`), the cleaner's deletes are its steps (`Cleaner.DeletesAreSteps`), and the
quota theorems are about its runs with the real passes in them (`QuotaSafety.PlayIsRun`,
`QuotaSafety.TickPassIsEvent`). So each theorem about `Run(INITIAL, actions)` is a theorem about the
code.

**What is assumed.** One namespace and one reconcile in flight per job; the reconciler's own reads
are fresh; job names are never used twice and a new job has an empty status; the clock does not go
back; group and instance data do not change during a tick, nor do the pods, except that quota safety
lets them change between the passes and while a pass is sending its writes. Quota amounts are
integers and an absent limit is unlimited.

**What quota safety assumes besides.** All of it is in `QuotaSafety.Orderly` and `Regular`:

- only the pods of jobs count, and a pod gets the limits that were requested;
- group ids and names are one-to-one, names are valid UTF-8, and no request is negative;
- the group name in a job's spec, which its pod is labelled with
  (`ee/controllers/phjob_controller.go:150`), is the name of its group id, by which quotas are looked
  up;
- a pod that has ended does not become live again. `Live` is pending or running, as in the usage
  count, so a pod whose phase is Unknown has ended, and one that goes from Unknown back to Running is
  excluded (`RevivedPodsOverdraw` overdraws without this);
- a group gets a pass only when nothing is owed to its jobs: each of its jobs that is Preparing or
  Running, and not cancelled or past a limit, has its pod; and no reconcile that takes that pod for a
  live one, or has read that the job is cancelled, is about to delete it when it has ended
  (`LatePodsOverdraw` overdraws without this);
- nobody but the reconciler takes away a pod that has ended while its job may be given another: the
  reconcile would make one, with no admission in between (`LostPodsOverdraw` overdraws without this).
  A pod that is lost while it is live does no harm, since its job is charged all along, nor one whose
  job is cancelled, past a limit or final;
- the cancel of a job that is Preparing or Running, and not past a limit, is withdrawn only while the
  job has its pod, and not while a reconcile may be about to delete that pod although it has ended
  (`WithdrawnCancelsOverdraw` overdraws without this).

Nothing is assumed of the reconciler and the cleaner: each of their actions is regular, whatever it
finds. Writes of the scheduler may fail.

**Where the code falls short of what one would expect.** Each of these is a lemma with the exact
condition, or with an input that shows it:

- A user whose name starts with `escaped-` has none of his own pods counted (`OwnPodsCounted`).
- The requeue count is an int32 and wraps if the limit is missing or is the largest int32
  (`CountCanFall`), and then nothing bounds the number of pods that a job is given
  (`PodsUnbounded`).
- A job whose pod has ended and is removed before the job is final gets a new pod that no quota check
  has seen (`LostPodsOverdraw`); so does a job whose cancel is withdrawn after its pod has gone
  (`WithdrawnCancelsOverdraw`). A pod whose phase is Unknown is not counted, though it may be running
  (`RevivedPodsOverdraw`).
- The admission pass dereferences a nil cell when a limited dimension is missing from a request it
  grants, which ends the tick. Whether that can happen depends only on which dimensions are limited
  and which the requests have, and can be checked before the pass (`CrashFreeExactly`).
- The cleaner runs past the end of its list when the limit is negative (`PanicsExactly`).
- A change of nothing but where an environment variable's value comes from is recorded as applied
  but not rolled out (`RolledOutExactly`, `SourceNotRolledOut`).
- A PhDeployment spec with an empty list or map is written again on every reconcile
  (`RepeatCalls`).
- Labels may contain non-ASCII letters and digits (`LabelAlphabet`).

The comments in the code call "Succeeded, Failed, Unknown" the final phases; `inFinalPhase` also
has Cancelled, and the model follows it.

## Model

| member | source | states |
|---|---|---|
| `Escapism.EscapeChar` | pkg/escapism/escapism.go:14-23 | the loop writes an escape character and two lower-case hex digits for each byte |
| `Escapism.EscapeToDNSLabel` | pkg/escapism/escapism.go:25-35 | the range loop yields the recursive escaping of the string, ill-formed bytes included |
| `Escapism.UnescapeDNSLabel` | pkg/escapism/escapism.go:37-56 | the index loop yields the recursive decoding; a bad pair of digits gives the empty string, and a slice past the end a panic |
| `Escapism.RoundTrip` | pkg/escapism/escapism.go:25-64 | unescaping an escaped string never panics, and gives the string back exactly when it is valid UTF-8; likewise for the label wrappers |
| `Escapism.LabelsInjective` | pkg/escapism/escapism.go:58-60 | two labels are equal exactly when the range loop sees the same runes; for valid UTF-8, when the names are equal |
| `Escapism.LabelAlphabet` | pkg/escapism/escapism.go:25-35 | the escaped string has only a-z, 0-9 and dash exactly when it has no lower-case letter or digit beyond ASCII |
| `Escapism.LabelIsNotName` | pkg/escapism/escapism.go:58-60 | a label is longer than its name, so no name is its own label |
| `Escapism.KeptExactly` | pkg/escapism/escapism.go:25-35 | a string is its own escape exactly when every rune of it is a lower-case letter or a digit |
| `Escapism.PlainNameLabel` | pkg/escapism/escapism.go:58-60 | a name of a-z and 0-9 is labelled `escaped-` and itself |
| `Escapism.UnescapedExactly` | pkg/escapism/escapism.go:37-56 | what has no dash is itself; a dash stands for the byte whose hex digits follow, in either case; other bytes there give the empty string, and too few a panic |
| `Escapism.UnlabelledExactly` | pkg/escapism/escapism.go:62-64 | a label is unescaped from its ninth byte on; a shorter one is a panic |
| `Escapism.RuneIsUtf8` | pkg/escapism/escapism.go:26-33 | what the range loop reads as one rune is the UTF-8 encoding of a code point that is no surrogate |
| `Escapism.Utf8IsRune` | pkg/escapism/escapism.go:26-33 | and the encoding of each such code point is read as one rune, whatever follows |
| `Quota.Sub` | pkg/quota/resourceQuota.go:21-31 | debits, through the cells, each dimension that both sides have, and no other |
| `Quota.Add` | pkg/quota/resourceQuota.go:33-43 | leaves a quota from which Sub of the same amount gives the old one |
| `Quota.ValidateResource` | pkg/quota/resourceQuota.go:135-142 | true exactly when the request is at most the quota in each dimension that both have |
| `Quota.ConvertToResourceQuota` | pkg/quota/resourceQuota.go:108-133 | fresh and separate cells that hold the limits, nil exactly for a negative number or no memory text; an error exactly for a malformed one |
| `Quota.CurrentResourceUsage` | pkg/quota/resourceQuota.go:73-93 | the nested loops add up the limits of all containers of the pending and running pods, into fresh cells |
| `Quota.UseAdds` | pkg/quota/resourceQuota.go:73-93 | usage is a sum over pods, and over the containers of a pod that is pending or running; other pods use nothing |
| `Quota.DebitUsage` | pkg/quota/resourceQuota.go:158-167 | the guarded debits leave the limit minus what the pods use |
| `Quota.CalculateGroupRemainingResourceQuota` | pkg/quota/resourceQuota.go:144-168 | fresh cells holding the group's quota minus the usage of the pods with its label; an error exactly when a lookup fails or a memory text is malformed |
| `Quota.CalculateUserRemainingResourceQuota` | pkg/quota/resourceQuota.go:170-197 | the same for a user, whose name is taken for a label when it starts with escaped- |
| `Admission.UserTable.Insert` | ee/controllers/phjob_scheduler.go:131-139 | storing a new user's struct keeps all cells apart and every other user's amounts |
| `Admission.StillApart` | ee/controllers/phjob_scheduler.go:131-139 | the aliasing invariant survives a struct of new cells |
| `Admission.Debit` | ee/controllers/phjob_scheduler.go:152-160 | the three guarded debits through pointers; it crashes exactly when a cell of the quota is set and the request's is nil |
| `Admission.LoadUser` | ee/controllers/phjob_scheduler.go:131-139 | a user's quota is loaded when the user is new, and only then; a lookup error changes nothing |
| `Admission.DebitUser` | ee/controllers/phjob_scheduler.go:161-169 | debiting one user's struct leaves the amounts of every other user alone |
| `Admission.JudgeOnHeap` | ee/controllers/phjob_scheduler.go:141-169 | the verdict on one job, on the heap, is that of the fold: continue on the user's quota, break on the group's, else mark and debit both |
| `Admission.ScheduleByStrictOrder` | ee/controllers/phjob_scheduler.go:117-172 | the whole pass: exit, job phases and every remaining cell are those of the greedy fold, with lazy loading and all early exits |
| `Admission.FoldStuck` | ee/controllers/phjob_scheduler.go:121-171 | once the pass has left the loop, no later job and no quota is touched |
| `AdmissionLaws.Conservation` | ee/controllers/phjob_scheduler.go:121-171 | on every exit but a crash each limited dimension of the group and of each loaded user is what it was minus the admitted requests; users not loaded were never charged |
| `AdmissionLaws.DebitsAddUp` | ee/controllers/phjob_scheduler.go:152-169 | where both are limited, the debits of all users add up to the group's debit |
| `AdmissionLaws.NeverOverdrawn` | ee/controllers/phjob_scheduler.go:141-169 | whatever it starts from, a quota that was charged at all ends with no dimension below zero |
| `AdmissionLaws.StrictOrder` | ee/controllers/phjob_scheduler.go:110-149 | if a job is admitted, each earlier one that is not was refused at its turn, and on its own user's quota |
| `AdmissionLaws.UserQuotaShrinks` | ee/controllers/phjob_scheduler.go:161-169 | what a user has left never grows during a pass |
| `AdmissionLaws.SmallerEarlierAdmitted` | ee/controllers/phjob_scheduler.go:121-149 | of two jobs of a user, if the later is admitted and the earlier asks for no more, the earlier is admitted too |
| `AdmissionLaws.TwoRuns` | ee/controllers/phjob_scheduler.go:121-170 | two passes under a smaller and a larger group quota go in step until the smaller one stops |
| `AdmissionLaws.GroupMonotone` | ee/controllers/phjob_scheduler.go:121-170 | raising the group's quota, or lifting a limit, extends the list of admitted jobs and takes none out |
| `AdmissionExact.GreedyExactly` | ee/controllers/phjob_scheduler.go:121-170 | a job is admitted exactly when its turn comes, its lookups succeed, and with what was admitted before neither its user's nor the group's quota is exceeded; its turn comes unless an earlier one was over the group's quota and not its user's, failed a lookup, or crashed |
| `AdmissionExact.EndsExactly` | ee/controllers/phjob_scheduler.go:121-170 | the pass breaks, fails or crashes exactly when the turn of such a job comes |
| `AdmissionExact.RefusedTakesNothing` | ee/controllers/phjob_scheduler.go:143-145 | a job that is over its user's quota at its turn could as well not be in line: nobody else is admitted or left out for it, and the pass ends as it would |
| `AdmissionCrash.CrashExactly` | ee/controllers/phjob_scheduler.go:152-169 | the pass dereferences nil exactly at a job that it grants and whose request lacks a limited dimension |
| `AdmissionCrash.CoveredNeverCrashes` | ee/controllers/phjob_scheduler.go:117-172 | checked before the pass: if each request it may come to has every dimension in which the group or the user is limited, the pass does not crash, whatever the amounts |
| `AdmissionCrash.CrashFreeExactly` | ee/controllers/phjob_scheduler.go:117-172 | that check is exact: it holds if and only if no amounts, for the same limited dimensions, requests and lookups, make the pass crash |
| `AdmissionCrash.CoveredPass` | ee/controllers/phjob_scheduler.go:117-172 | a pass that passes the check balances for the group and every user, overdraws nothing and does not crash |
| `Lists.KeepNext` | ee/controllers/phjob_scheduler.go:61-66 | one turn of in-place compaction keeps the filled prefix a filter of what was gone through, and the rest untouched |
| `Lists.Keep` | ee/controllers/phjob_scheduler.go:59-69 | the compacted slice is the filter of the list, in order |
| `Lists.SortBy` | ee/controllers/phjob_scheduler.go:110-115 | sorted by the key, and the same elements |
| `Lists.SortedOnce` | ee/controllers/phjob_scheduler.go:110-115 | when the keys differ there is only one sorted order |
| `Tick.Validate` | ee/controllers/phjob_scheduler.go:72-89 | whether the request fits the whole quota of a user and of the group; an error when a memory text is malformed |
| `Tick.Examine` | ee/controllers/phjob_scheduler.go:188-224 | what becomes of a listed job: failed for a missing group, skipped for a failed lookup, failed over quota, or kept |
| `Tick.Winnow` | ee/controllers/phjob_scheduler.go:186-245 | the first loop leaves exactly the kept jobs at the front, and writes one failure for each rejected job, in order |
| `Tick.GroupJobs` | ee/controllers/phjob_scheduler.go:95-108 | the map holds, for each group that occurs, its jobs in order |
| `Tick.GroupPass` | ee/controllers/phjob_scheduler.go:254-281 | a group's jobs, sorted by creation, get the pass; the jobs it admits are written, also after an error, and none if it crashes |
| `Tick.PassEach` | ee/controllers/phjob_scheduler.go:254-282 | every group gets one pass, whatever order the map is gone through, up to a crash; what is written are the admissions of the groups that had theirs |
| `Tick.Schedule` | ee/controllers/phjob_scheduler.go:174-284 | the writes of a tick are the rejections and then the admissions of each group that had its pass; all had it, or the pass of one more crashes |
| `TickLaws.GroupingPartitions` | ee/controllers/phjob_scheduler.go:95-108 | a job is in its own group's list as often as it was listed, and in no other |
| `TickLaws.AdmissionsCommute` | ee/controllers/phjob_scheduler.go:254-282 | group passes commute: two orders of the groups admit the same jobs |
| `TickLaws.OrderIndependent` | ee/controllers/phjob_scheduler.go:174-284 | when creation times inside each group differ, of two ticks over the same list both crash or neither, and if they do not they do the same writes |
| `TickLaws.WrittenOnce` | ee/controllers/phjob_scheduler.go:174-284 | a tick, crashed or not, writes no job more often than it was listed |
| `TickLaws.ValidateSound` | ee/controllers/phjob_scheduler.go:72-89 | for any non-negative usage and any line, the pass never admits a job that validation fails |
| `TickLaws.FirstAdmitted` | ee/controllers/phjob_scheduler.go:121-150 | with no active pod in the group, a validated job that is first in line is admitted; and the pass does not crash if its requests are complete |
| `TickLaws.OldestAdmitted` | ee/controllers/phjob_scheduler.go:174-284 | a tick admits an oldest eligible job of every idle group |
| `TickLaws.TickRightful` | ee/controllers/phjob_scheduler.go:186-280 | a tick, crashed or not, writes only jobs it listed as Pending, and it fails them or makes them Preparing |
| `TickExact.FailedExactly` | ee/controllers/phjob_scheduler.go:186-245 | a tick writes a job Failed exactly when it is listed Pending and its group cannot be looked up, or all lookups succeed and its instance type exceeds the whole quota of the group or of one user; any other lookup error leaves it alone |
| `TickExact.LinedExactly` | ee/controllers/phjob_scheduler.go:186-256 | the jobs lined up are those listed Pending whose lookups succeed and who exceed neither; a tick that comes to its end lines up all their groups |
| `TickExact.AdmittedExactly` | ee/controllers/phjob_scheduler.go:254-281 | it writes a job Preparing, and changes nothing else of it, exactly when it is granted in the line of its group |
| `TickLaws.WritesAreSteps` | ee/controllers/phjob_scheduler.go:186-280 | each write of a tick is a scheduler step of the state machine, at any later moment |
| `TickLaws.TickIsRun` | ee/controllers/phjob_scheduler.go:174-284 | a whole tick, with any actions of others before each of its writes, of which any may fail, crashed or not, is a run of the state machine |
| `UsageByLabel.GroupUsageExact` | pkg/quota/resourceQuota.go:95-99 | usage by the group label is that of exactly the named group's pods |
| `UsageByLabel.UserUsageExact` | pkg/quota/resourceQuota.go:101-106 | usage by both labels is that of exactly the user's pods, if the name does not start with escaped- |
| `UsageByLabel.OwnPodsCounted` | pkg/quota/resourceQuota.go:174-181 | that condition is exact: for other names the own pods never count |
| `QuotaDemand.NoNewCharge` | ee/controllers/phjob_controller.go:455-499 | no action but an admission makes a job chargeable: whatever the reconciler does, a pod is made only for a job that is charged already |
| `QuotaDemand.DemandStays` | ee/controllers/phjob_controller.go:258-445 | so an action that admits nobody raises no group's and no user's demand, in any state of the machine |
| `QuotaDemand.AdmissionAdds` | ee/controllers/phjob_scheduler.go:268-280 | a scheduler's write, stale or not, raises demand by no more than the limits of that job's pod |
| `QuotaDemand.UsageWithinDemand` | pkg/quota/resourceQuota.go:73-93 | what the pods use is part of the demand, and all of it when nothing is owed to a job beyond its live pod |
| `QuotaSafety.PassKeeps` | ee/controllers/phjob_scheduler.go:254-281 | a pass over a settled group, on the pods as they are, leaves the demand and the promised admissions of every group and user within quota |
| `QuotaSafety.SendKeeps` | ee/controllers/phjob_scheduler.go:268-280 | so does sending one of its admissions, whatever has happened since |
| `QuotaSafety.LoseKeeps` | ee/controllers/phjob_scheduler.go:268-280 | and losing one, whose error is only logged |
| `QuotaSafety.StepKeeps` | ee/controllers/phjob_scheduler.go:254-281 | and every action of anyone else in between |
| `QuotaSafety.QuotasAreSafe` | ee/controllers/phjob_scheduler.go:254-281 | in every regular run of the state machine, with its passes, no group and no user is ever committed to more than the quota |
| `QuotaSafety.UsageWithinQuota` | pkg/quota/resourceQuota.go:144-197 | so the pods of a group, and those of each user whose pods are counted, never use more than their quota |
| `QuotaSafety.PlayIsRun` | ee/controllers/phjob_scheduler.go:254-281 | what the state machine does in such a run is a run of its own |
| `QuotaSafety.TickPassIsEvent` | ee/controllers/phjob_scheduler.go:254-281 | the pass that a tick gives a group is a pass of such a run, and promises what the tick writes for the group |
| `QuotaLimits.LatePodsOverdraw` | pkg/quota/resourceQuota.go:73-93 | since usage counts pods, a run that is regular but for one pass before an admitted job's pod is made uses the quota twice |
| `QuotaLimits.LostPodsOverdraw` | ee/controllers/phjob_controller.go:467-475 | since a missing pod is made again without a pass, a run that is regular but for one failed pod taken away too soon uses the quota twice |
| `QuotaLimits.RevivedPodsOverdraw` | pkg/quota/resourceQuota.go:73-93 | since usage counts only pending and running pods, a run that is regular but for one pod that was Unknown and is Running again uses the quota twice |
| `QuotaLimits.WithdrawnCancelsOverdraw` | ee/controllers/phjob_controller.go:333-354 | a run that is regular but for one cancel that is withdrawn when the pod is gone uses the quota twice |
| `Protocol.StoreOn` | ee/controllers/phjob_controller.go:625-636 | a status write changes the store exactly as a version-checked update does, and nothing else of any other job |
| `ProtocolSafety.StepKeeps` | ee/controllers/phjob_controller.go:258-445 | every action of every actor keeps the invariant |
| `ProtocolSafety.Reachable` | ee/controllers/phjob_controller.go:258-445 | the invariant holds after every run |
| `ProtocolSafety.StepMoves` | ee/controllers/phjob_scheduler.go:186-280 | every write, also of a whole status from a stale list, moves the stored status along an edge of the lifecycle |
| `ProtocolSafety.FinalPhasesStay` | ee/controllers/phjob_controller.go:323-376 | in every interleaving a final phase stays or becomes Cancelled, and Cancelled never changes |
| `ProtocolSafety.TimesAreConsistent` | ee/controllers/phjob_controller.go:646-657 | the finish time is set exactly in final phases, Running has a start time, start is not after finish nor finish in the future, and the branches for a missing finish time are unreachable |
| `ProtocolSafety.TimesAreWrittenOnce` | ee/controllers/phjob_controller.go:531-604 | start and finish times, once set, never change |
| `ProtocolSafety.TimesAreStamped` | ee/controllers/phjob_controller.go:531-604 | the finish time is the moment at which a reconcile finds the job at its end, and the start time the one at which it finds it running |
| `ProtocolSafety.FailuresAreStamped` | ee/controllers/phjob_scheduler.go:190-232 | a failure by the scheduler changes a job that was Pending, and is stamped with the moment it was examined |
| `ProtocolSafety.PodlessPhasesHaveNoPod` | ee/controllers/phjob_controller.go:333-353 | in every reachable state a job that is new, Pending or Cancelled has no pod |
| `ProtocolSafety.PodsForActiveJobs` | ee/controllers/phjob_controller.go:418-424 | pods appear only through the reconciler, and only for a job that is Preparing or Running |
| `ProtocolSafety.CleanerIsSafe` | ee/controllers/phjob_cleaner.go:21-57 | the cleaner never deletes a job that is not final at that moment, though its list may be old |
| `ProtocolSafety.RequeueCountBounded` | ee/controllers/phjob_controller.go:378-384 | for a limit below the largest int32 the count is between 0 and max(0, limit + 1) and never goes down |
| `Prelude.SecondsExactly` | ee/controllers/phjob_controller.go:696-699 | a number of seconds is that many nanoseconds as an int64, which is exact up to 9223372036 seconds |
| `RequeueWrap.CountCanFall` | ee/controllers/phjob_controller.go:516-529 | for every other limit, and for none, there is a run in which the count falls from the largest int32 to the smallest |
| `PodBudget.PodsWithinLimit` | ee/controllers/phjob_controller.go:378-416 | if the writes of the job's status take effect, its pod vanishes only through the reconciler, and no error comes back when it has done so, a job with a limit below the largest int32 gets at most max(0, limit + 1) pods; any other call may fail, and nothing is asked of other jobs |
| `RequeueWrap.PodsUnbounded` | ee/controllers/phjob_controller.go:516-529 | for every other limit, and for none, there are such runs with any number of pods made for the job |
| `Outcomes.CancelTakesEffect` | ee/controllers/phjob_controller.go:333-354 | a cancelled job: the pod is deleted, the status is Cancelled by the user, finished now unless before |
| `Outcomes.LimitsTakeEffect` | ee/controllers/phjob_controller.go:378-416 | requeued more often than its limit, or else active for its deadline of seconds or longer: the pod is deleted, the status is Failed for that reason |
| `Outcomes.TtlTakesEffect` | ee/controllers/phjob_controller.go:639-675 | a finished job's pod is deleted exactly when more than its time to live of seconds has passed since it finished |
| `Outcomes.PendingTakesEffect` | ee/controllers/phjob_controller.go:322-331 | a new or Pending job is or becomes Pending, and nothing happens to a pod |
| `Outcomes.MissingPodTakesEffect` | ee/controllers/phjob_controller.go:467-487 | a job that is Preparing or Running without a pod is given one, is requeued, or fails, as the creation is answered |
| `Outcomes.TimeoutTakesEffect` | ee/controllers/phjob_controller.go:488-529 | a pod that has been pending for 180 seconds or longer is deleted; the job is Pending and requeued once more |
| `Outcomes.PodTakesEffect` | ee/controllers/phjob_controller.go:541-604 | any other pod stays, however old, and each of its five phases has its status |
| `Reconciler.Cluster.Get` | ee/controllers/phjob_controller.go:275-285 | the job as stored, and a reconcile of it begun, or nothing |
| `Reconciler.Cluster.Update` | ee/controllers/phjob_controller.go:300-313 | refused when the stored job is no longer the one that was read; otherwise the spec in memory is what is stored, or an error came back, whether it was stored or not |
| `Reconciler.Cluster.UpdateStatus` | ee/controllers/phjob_controller.go:625-636 | refused when the stored job is no longer the one that was read; otherwise the status in memory is what is stored, or an error came back, whether it was stored or not |
| `Reconciler.Cluster.DeletePod` | ee/controllers/phjob_controller.go:721-736 | afterwards there is no pod, or an error came back, whether it was deleted or not |
| `Reconciler.Cluster.GetPod` | ee/controllers/phjob_controller.go:713-719 | the pod as it is, none, or an error |
| `Reconciler.Cluster.CreatePod` | ee/controllers/phjob_controller.go:470-487 | made, already there, rejected by the admission webhook, or broken, in which case the pod may exist all the same |
| `Reconciler.PhJobReconciler.Reconcile` | ee/controllers/phjob_controller.go:258-445 | with others acting before every call, it does one session of machine steps, or none exactly when the read finds no job; it drops out only after an error, and returns an error exactly when a call has failed |
| `Reconciler.PhJobReconciler.ReconcileFound` | ee/controllers/phjob_controller.go:287-431 | from the moment the job is read, the steps as written end the machine's reconcile |
| `Reconciler.PhJobReconciler.FillDefaults` | ee/controllers/phjob_controller.go:287-313 | the spec gets the group's deadline or else the default, and the default time to live, exactly where it has none, and is stored so |
| `Reconciler.PhJobReconciler.Choose` | ee/controllers/phjob_controller.go:333-424 | cancel, then final, then requeue limit, then deadline, then pending or the pod, on one reading of the clock |
| `Reconciler.PhJobReconciler.Branch` | ee/controllers/phjob_controller.go:333-431 | each branch, as written, ends the machine's reconcile |
| `Reconciler.PhJobReconciler.Cancel` | ee/controllers/phjob_controller.go:333-354 | the pod is deleted before the status says Cancelled; an earlier finish time stays |
| `Reconciler.PhJobReconciler.Limit` | ee/controllers/phjob_controller.go:396-416 | the same for Failed with the given reason |
| `Reconciler.PhJobReconciler.HandleTtl` | ee/controllers/phjob_controller.go:639-675 | the pod is deleted exactly when the time to live is over; a missing finish time is the start time |
| `Reconciler.PhJobReconciler.ReconcilePod` | ee/controllers/phjob_controller.go:455-505 | looks for the pod, makes or judges it, and stores the outcome, or returns the error |
| `Reconciler.PhJobReconciler.MakePod` | ee/controllers/phjob_controller.go:467-487 | the outcome of making a pod: its name, a requeue, or a failure |
| `Reconciler.PhJobReconciler.CheckTimeout` | ee/controllers/phjob_controller.go:488-499 | exactly a pod that is pending and 180 seconds old or older is deleted, and the job requeued |
| `Reconciler.PhJobReconciler.UpdateStatus` | ee/controllers/phjob_controller.go:508-622 | the assignments amount to a requeue, a creation failure or the pod's outcome, and are stored |
| `Reconciler.PhJobReconciler.Observe` | ee/controllers/phjob_controller.go:541-614 | the five cases of the pod's phase, assigned field by field, are those of the machine |
| `Reconciler.PhJobReconciler.WriteBack` | ee/controllers/phjob_controller.go:426-431 | the status is written unless it is the one that was read |
| `Cleaner.PHJobCleaner.DeletePhJob` | ee/controllers/phjob_cleaner.go:50-57 | one more call, and one more job gone unless it fails |
| `Cleaner.PHJobCleaner.Expire` | ee/controllers/phjob_cleaner.go:70-94 | Delete is called for exactly the overdue jobs, and the others with a finish time stay, in order |
| `Cleaner.PHJobCleaner.Trim` | ee/controllers/phjob_cleaner.go:96-108 | Delete is called for the oldest jobs above the limit, in int32 arithmetic, up to a panic |
| `Cleaner.PHJobCleaner.Clean` | ee/controllers/phjob_cleaner.go:59-111 | both together, over the final jobs |
| `Cleaner.PanicsExactly` | ee/controllers/phjob_cleaner.go:97-108 | the second loop panics exactly for a negative limit for which the surplus fits an int32, and then every remaining job has been deleted |
| `Cleaner.ExpiredExactly` | ee/controllers/phjob_cleaner.go:70-94 | Delete is called for exactly the final jobs that finished more than the time to live ago; the others remain, without those that have no finish time if there is a time to live |
| `Cleaner.TriedExactly` | ee/controllers/phjob_cleaner.go:96-107 | beyond those, Delete is called as often as there are jobs above the limit, and no more |
| `Cleaner.SurvivorsExactly` | ee/controllers/phjob_cleaner.go:96-107 | so without delete errors as many remaining jobs survive as a limit above zero allows |
| `Cleaner.FinalsPartition` | ee/controllers/phjob_cleaner.go:59-111 | without delete errors the final jobs are those deleted and those that survive, and no more than the limit survive |
| `Cleaner.NoSurvivorOverdue` | ee/controllers/phjob_cleaner.go:71-93 | no survivor was past its time to live |
| `Cleaner.OldestGo` | ee/controllers/phjob_cleaner.go:97-107 | each job deleted for the limit is no newer than each survivor |
| `Cleaner.DeletesAreSteps` | ee/controllers/phjob_cleaner.go:50-57 | each call to Delete is a cleaner step of the state machine, for a job that was final when it was listed |
| `Datasets.MergeDataset` | pkg/graphql/spawn.go:488-512 | strictly descending names, one entry for each input name: the last writable one, or else the first |
| `Datasets.MergedOnce` | pkg/graphql/spawn.go:503-511 | only one list is like that, so the order of map iteration does not matter |
| `Datasets.MergedExactly` | pkg/graphql/spawn.go:493-501 | the merged entries are exactly the writable inputs after which no writable one has their name, and the first of each name that has no writable one |
| `Datasets.WinnerWritable` | pkg/graphql/spawn.go:493-501 | the entry is one of the inputs, and writable exactly when some input of that name is |
| `Datasets.Sort` | pkg/graphql/spawn.go:508-510 | names do not increase, bytewise, and the elements are the same |
| `Datasets.LessExactly` | pkg/graphql/spawn.go:508-510 | the order of names is byte order: a proper prefix first, and else the first difference |
| `Deployments.CompareEnvVar` | ee/controllers/phdeployment_controller.go:319-334 | true exactly when names and values agree, in order |
| `Deployments.NeedUpdateDeployment` | ee/controllers/phdeployment_controller.go:336-360 | true exactly when there is no last-applied spec or a compared field differs |
| `Deployments.Deployment.SetLastApplied` | ee/controllers/phdeployment_controller.go:1697-1721 | GetLastApplied then gives the spec as JSON keeps it |
| `Deployments.CreateDeployment` | ee/controllers/phdeployment_controller.go:297-317 | stores what was built, with the annotation; a failed build stores nothing and is no error |
| `Deployments.UpdateDeployment` | ee/controllers/phdeployment_controller.go:367-417 | unless a write fails, what is stored is the object as edited in memory; a failed build edits nothing |
| `Deployments.ReconcileDeployment` | ee/controllers/phdeployment_controller.go:258-279 | creates or updates, with one call to the server or none |
| `Deployments.AlwaysCoherent` | ee/controllers/phdeployment_controller.go:367-417 | in every run, failed builds and writes included, there are no replicas if the last-applied spec is stopped, and else its number as an int32; image, pull secret, instance, URI and variables are those of that spec |
| `Deployments.Converges` | ee/controllers/phdeployment_controller.go:806-809 | when its calls succeed, a reconcile leaves all that of the given spec, and records the spec but for empty lists and maps |
| `Deployments.FailuresChangeNothing` | ee/controllers/phdeployment_controller.go:367-417 | without the group or with a failed write nothing changes, and without a build no template does, nor anything where one is needed |
| `Deployments.RepeatCalls` | ee/controllers/phdeployment_controller.go:396-413 | repeated, it changes nothing, and calls the server exactly when the spec has an empty list or map |
| `Deployments.RolledOutExactly` | ee/controllers/phdeployment_controller.go:340-360 | the pod template becomes the one the spec describes exactly when a compared field differs from the last-applied one or the variables are already those of the spec |
| `Deployments.SourceNotRolledOut` | ee/controllers/phdeployment_controller.go:319-334 | a changed source of a value is recorded as applied and not rolled out |

## Left out

- Texts: status messages, the explanations of pod failures, notifications and e-mail (which dereference a start time that may be nil), and logging.
- How long a reconcile asks to wait before the next one.
- Seconds: the API server cuts times to whole seconds; here times are integers.
- `getGpuFromLimits` and its two resource names, rounding of float32 limits, the parsing of quantities and `ConvertMemoryUnit`: amounts are integers from the start, and nothing is said of how a request and the pod's real limit compare, except as the assumption of quota safety.
- A pod that has failed but whose container status has no `Terminated` part, which the code dereferences.
- The state of the quota cells after a crash of the admission pass: the tick is over, and nothing reads them.
- The Get inside `deletePod` and its Delete are one call; so are `buildPod` and Create.
- The group's jobs are copied when the pass takes them, not when they are grouped; nobody else has a reference to them.
- `sort.Slice` and `sort.SliceStable` are insertion sorts here; only their results are used.
- Reconciler.Cluster.Update: the response's status is not copied back, since an accepted version has the status that was read.
- Tick.Schedule: in a tick that crashes, which groups have had their pass is left open, as map iteration leaves it open.
- TickLaws.OrderIndependent: nothing is said when two jobs of a group were created at the same time, because the sort is not stable.
- PodBudget.PodsWithinLimit: the bound needs the job's pod to vanish only through the reconciler, because a pod that others delete, or that was deleted with an error that ended the reconcile, is made again without a requeue.
- QuotaSafety.QuotasAreSafe: the pods are listed in the order of the roster; usage is a sum, in which the order does not matter.
- Cleaner.FinalsPartition: nothing is said of final jobs without a finish time; by ProtocolSafety.TimesAreConsistent there are none.
- Quota amounts that are changed by a user, new groups and instance types in the middle of a run of ticks.
- The scheduler's `filter`, which never filters.
- Deployments.UpdateDeployment: ends with the write; the Deployment is then read again and the PhDeployment's status updated, whose errors are not part of this model.
- PhDeployments with no predictor or several, the Service, Ingress and Secret beside the Deployment, its status and history, and the fields of the pod template that do not come from a compared field.
- `applyDatasets`, the rest of spawning, and everything that builds pods.
- Images, image specs, schedules, PhApplications and licenses; the GraphQL client and the cache, whose answers are parameters.
