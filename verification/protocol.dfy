/**
 * The PhJob system as a state machine: a store of jobs with resource versions, and four
 * actors that work on it concurrently - the reconciler (ee/controllers/phjob_controller.go),
 * the scheduler (phjob_scheduler.go), the cleaner (phjob_cleaner.go) and the environment.
 *
 * Every call to the API server is one action, so other actors may act between any two calls
 * of a reconcile; its local variables are the job's `Flight`. A status write goes through only
 * when the stored version is the one that was read. Deletes carry no version.
 */
module Protocol {
  import opened Prelude
  import opened Escapism
  import opened Jobs
  import opened Pods

  /** `conditions` and `containers`: the pod's status lists are not empty. */
  datatype KubePod = KubePod(phase: PodPhase, created: int, conditions: bool, containers: bool)

  /** DefaultJobPreparingTimeout: 180 seconds. */
  const PREPARING_TIMEOUT := 180_000_000_000

  // ---- what one reconcile computes from what it read ----

  /** A job seen for the first time becomes Pending, and its requeue count starts at zero. */
  function Normalised(s: Status): Status {
    var t := if s.phase == Fresh then s.(phase := Pending, reason := OverQuota) else s;
    if t.requeued.None? then t.(requeued := Some(0)) else t
  }

  function FinishedAt(s: Status, now: int): Status {
    if s.finishTime.None? then s.(finishTime := Some(now)) else s
  }

  function StartedAt(s: Status, now: int): Status {
    if s.startTime.None? then s.(startTime := Some(now)) else s
  }

  function AfterCancel(s: Status, now: int): Status {
    FinishedAt(s.(phase := Cancelled, reason := ByUser), now)
  }

  function AfterLimit(s: Status, reason: Reason, now: int): Status {
    FinishedAt(s.(phase := Failed, reason := reason), now)
  }

  /** Back to Pending; the count is an int32. */
  function AfterRequeue(s: Status, rejected: bool): Status
    requires s.requeued.Some?
  {
    var t := s.(requeued := Some(Wrap32(s.requeued.value + 1)), phase := Pending);
    if rejected then t.(reason := OverQuota) else t
  }

  /** A pod that could not be created: the finish time is overwritten, not kept. */
  function AfterCreateFailure(s: Status, now: int): Status {
    s.(phase := Failed, reason := PodCreationFailed, finishTime := Some(now))
  }

  /** What the pod's phase makes of the job. */
  function AfterLook(s: Status, pod: KubePod, now: int): Status {
    match pod.phase
    case KubeSucceeded => FinishedAt(s.(phase := Succeeded), now).(reason := PodSucceeded)
    case KubeFailed =>
      var t := FinishedAt(s.(phase := Failed), now);
      if pod.containers then t.(reason := PodFailed) else t
    case KubeUnknown =>
      var t := FinishedAt(s.(phase := Unknown), now);
      if pod.conditions then t.(reason := PodUnknown) else t
    case KubePending => if pod.conditions then s.(reason := PodPending) else s
    case KubeRunning => StartedAt(s.(phase := Running), now).(reason := PodRunning)
  }

  predicate RequeueExceeded(j: Job, s: Status)
    requires s.requeued.Some?
  {
    j.spec.requeueLimit.Some? && s.requeued.value > j.spec.requeueLimit.value
  }

  predicate DeadlinePassed(j: Job, s: Status, now: int)
    requires j.spec.activeDeadline.Some?
  {
    j.spec.activeDeadline.value != 0 && s.startTime.Some?
    && now - s.startTime.value >= Seconds(j.spec.activeDeadline.value)
  }

  predicate PodTimedOut(pod: KubePod, now: int) {
    pod.phase == KubePending && now - pod.created >= PREPARING_TIMEOUT
  }

  /** handleTTL fills in a missing finish time from the start time. */
  function TtlStatus(j: Job, s: Status): Status
    requires j.spec.ttl.Some?
  {
    if j.spec.ttl.value != 0 && s.finishTime.None? then s.(finishTime := s.startTime) else s
  }

  predicate TtlPassed(j: Job, s: Status, now: int)
    requires j.spec.ttl.Some?
  {
    j.spec.ttl.value != 0 && TtlStatus(j, s).finishTime.Some?
    && now > TtlStatus(j, s).finishTime.value + Seconds(j.spec.ttl.value)
  }

  /** The scheduler's rejection. */
  function FailedBy(s: Status, reason: Reason, now: int): Status {
    s.(phase := Failed, reason := reason, finishTime := Some(now))
  }

  // ---- states ----

  /** Why a reconcile is about to delete the pod. */
  datatype Why = Cancelling | Limiting(reason: Reason) | TimedOut | Expiring

  /** What the next status will say, once the pod is dealt with. */
  datatype Cause = Deleted(why: Why) | CreateFailed

  /** Where a reconcile stands between two API calls. */
  datatype Pc =
    | Opened
    | Removing(why: Why)
    | Stamping(cause: Cause)
    | Looking
    | Creating
    | Observing(pod: KubePod)
    | Storing(again: bool)

  /** A reconcile under way: the object it holds, the status it first read, and its own. */
  datatype Flight = Flight(base: Job, read: Status, cur: Status, pc: Pc)

  datatype World = World(
    jobs: map<Text, Job>, pods: map<Text, KubePod>, clock: int, nextVersion: int,
    used: set<Text>,                                // names are never used again
    listed: map<Text, Job>, listedAt: int,          // the scheduler's list, and when it was read
    doomed: map<Text, Job>,                         // the cleaner's list
    flights: map<Text, Flight>,                     // one reconcile per job at a time
    made: map<Text, nat>)                           // how many pods each job has had

  const INITIAL := World(map[], map[], 0, 0, {}, map[], 0, map[], map[], map[])

  /** How the API server answers the creation of a pod. `Broken` may have landed anyway. */
  datatype Answer = Created | Rejected | Broken(landed: bool)

  /** What a reconcile under way does next. */
  datatype Call =
    | FillDeadline(seconds: int)
    | FillTtl(seconds: int)
    | Decide
    | Remove
    | Stamp
    | Look
    | Create(answer: Answer)
    | Judge
    | Store
    | Drop

  datatype Action =
    // users, kubelets and time
    | Submit(name: Text, spec: Spec)
    | SetCancel(name: Text, cancel: bool)
    | UserDelete(name: Text)
    | PodMoves(name: Text, phase: PodPhase, conditions: bool, containers: bool)
    | PodVanishes(name: Text)
    | Pass(to: int)
    // the scheduler
    | SchedulerLists
    | SchedulerFails(name: Text, reason: Reason, now: int)
    | SchedulerAdmits(name: Text)
    // the cleaner
    | CleanerLists
    | CleanerDeletes(name: Text)
    // the reconciler
    | Open(name: Text)
    | Goes(name: Text, call: Call)

  // ---- one action ----

  /** Nothing but reconciles under way, and perhaps pods, differs. */
  predicate SameJobs(w: World, v: World) {
    v.jobs == w.jobs && v.used == w.used
  }

  /** The clock and the other actors' lists are as they were. */
  predicate SameElsewhere(w: World, v: World) {
    v.clock == w.clock && v.listed == w.listed && v.listedAt == w.listedAt && v.doomed == w.doomed
  }

  function MadeOf(w: World, n: Text): nat {
    if n in w.made then w.made[n] else 0
  }

  /** The two states tell the same story of job n. */
  predicate Agree(w: World, v: World, n: Text) {
    && (n in w.jobs <==> n in v.jobs) && (n in w.jobs ==> w.jobs[n] == v.jobs[n])
    && (n in w.pods <==> n in v.pods) && (n in w.pods ==> w.pods[n] == v.pods[n])
    && MadeOf(w, n) == MadeOf(v, n)
    && (n in w.flights <==> n in v.flights) && (n in w.flights ==> w.flights[n] == v.flights[n])
  }

  /** Only job n's story differs. */
  ghost predicate OnlyJob(w: World, v: World, n: Text) {
    forall m :: m != n ==> Agree(w, v, m)
  }

  /** A write of a job: it gets the next version. */
  function Put(w: World, n: Text, spec: Spec, status: Status): World
    requires n in w.jobs
  {
    w.(jobs := w.jobs[n := w.jobs[n].(version := w.nextVersion, spec := spec, status := status)],
       nextVersion := w.nextVersion + 1)
  }

  /** Does the stored job still have the version that was read? */
  predicate Current(w: World, n: Text, snapshot: Job) {
    n in w.jobs && w.jobs[n].version == snapshot.version
  }

  function UpdateStatus(w: World, n: Text, snapshot: Job, status: Status): World {
    if Current(w, n, snapshot) then Put(w, n, w.jobs[n].spec, status) else w
  }

  function With(w: World, n: Text, f: Flight): World {
    w.(flights := w.flights[n := f])
  }

  function Done(w: World, n: Text): World {
    w.(flights := w.flights - {n})
  }

  /** The end of a branch of Reconcile: write unless nothing has changed. */
  function Finish(w: World, n: Text, f: Flight): (v: World)
    ensures OnlyJob(w, v, n)
    ensures SameJobs(w, v) && v.pods == w.pods && v.made == w.made
    ensures SameElsewhere(w, v)
  {
    if f.cur == f.read then Done(w, n) else With(w, n, f.(pc := Storing(false)))
  }

  function Fill(w: World, n: Text, f: Flight, spec: Spec): (v: World)
    ensures OnlyJob(w, v, n)
    ensures v.used == w.used && v.pods == w.pods && v.made == w.made
    ensures SameElsewhere(w, v)
  {
    if Current(w, n, f.base) then
      var v := Put(w, n, spec, w.jobs[n].status);
      With(v, n, f.(base := v.jobs[n]))
    else Done(w, n)
  }

  /** The branch of Reconcile for a normalised status: what it holds, and where it stands. */
  function Chosen(j: Job, read: Status, s: Status, now: int): Option<(Status, Pc)>
    requires j.spec.activeDeadline.Some? && j.spec.ttl.Some? && s.requeued.Some?
  {
    if j.spec.cancel then Some((s, Removing(Cancelling)))
    else if Final(s.phase) then
      var t := TtlStatus(j, s);
      if TtlPassed(j, s, now) then Some((t, Removing(Expiring)))
      else if t == read then None
      else Some((t, Storing(false)))
    else if RequeueExceeded(j, s) then Some((s, Removing(Limiting(OverRequeueLimit))))
    else if DeadlinePassed(j, s, now) then Some((s, Removing(Limiting(OverActivateDeadline))))
    else if s.phase != Pending then Some((s, Looking))
    else if s == read then None
    else Some((s, Storing(false)))
  }

  /** The branches of Reconcile, up to its first call. */
  function DecideOn(w: World, n: Text, f: Flight): (v: World)
    requires f.base.spec.activeDeadline.Some? && f.base.spec.ttl.Some?
    ensures OnlyJob(w, v, n)
    ensures SameJobs(w, v) && v.pods == w.pods && v.made == w.made
    ensures SameElsewhere(w, v)
  {
    match Chosen(f.base, f.read, Normalised(f.cur), w.clock)
    case None => Done(w, n)
    case Some((cur, pc)) => With(w, n, f.(cur := cur, pc := pc))
  }

  function RemoveOn(w: World, n: Text, f: Flight, why: Why): (v: World)
    ensures OnlyJob(w, v, n) && SameJobs(w, v) && v.made == w.made && n !in v.pods
    ensures SameElsewhere(w, v)
  {
    With(w.(pods := w.pods - {n}), n, f.(pc := Stamping(Deleted(why))))
  }

  function LookOn(w: World, n: Text, f: Flight): (v: World)
    ensures OnlyJob(w, v, n) && SameJobs(w, v) && v.pods == w.pods && v.made == w.made
    ensures SameElsewhere(w, v)
  {
    With(w, n, f.(pc := if n in w.pods then Observing(w.pods[n]) else Creating))
  }

  function JudgeOn(w: World, n: Text, f: Flight, pod: KubePod): (v: World)
    ensures OnlyJob(w, v, n) && SameJobs(w, v) && v.pods == w.pods && v.made == w.made
    ensures SameElsewhere(w, v)
  {
    if PodTimedOut(pod, w.clock) then With(w, n, f.(pc := Removing(TimedOut)))
    else With(w, n, f.(cur := AfterLook(f.cur, pod, w.clock), pc := Storing(true)))
  }

  function StampOn(w: World, n: Text, f: Flight, cause: Cause): (v: World)
    ensures OnlyJob(w, v, n)
    ensures SameJobs(w, v) && v.pods == w.pods && v.made == w.made
    ensures SameElsewhere(w, v)
  {
    match cause
    case CreateFailed =>
      With(w, n, f.(cur := AfterCreateFailure(f.cur, w.clock), pc := Storing(true)))
    case Deleted(Cancelling) => Finish(w, n, f.(cur := AfterCancel(f.cur, w.clock)))
    case Deleted(Limiting(reason)) => Finish(w, n, f.(cur := AfterLimit(f.cur, reason, w.clock)))
    case Deleted(TimedOut) =>
      if f.cur.requeued.None? then Done(w, n)
      else With(w, n, f.(cur := AfterRequeue(f.cur, false), pc := Storing(true)))
    case Deleted(Expiring) => Finish(w, n, f)
  }

  /** A pod comes into being, unless one of that name is there. */
  function AddPod(w: World, n: Text): World {
    if n in w.pods then w
    else w.(pods := w.pods[n := KubePod(KubePending, w.clock, false, false)],
            made := w.made[n := MadeOf(w, n) + 1])
  }

  function CreateOn(w: World, n: Text, f: Flight, answer: Answer): (v: World)
    ensures OnlyJob(w, v, n)
    ensures SameJobs(w, v) && v.made.Keys <= w.made.Keys + {n}
    ensures SameElsewhere(w, v)
  {
    match answer
    case Created =>
      if n in w.pods then With(w, n, f.(pc := Storing(true)))
      else With(AddPod(w, n), n, f.(cur := f.cur.(podName := n), pc := Storing(true)))
    case Rejected =>
      if f.cur.requeued.None? then Done(w, n)
      else With(w, n, f.(cur := AfterRequeue(f.cur, true), pc := Storing(true)))
    case Broken(landed) =>
      With(if landed then AddPod(w, n) else w, n, f.(pc := Stamping(CreateFailed)))
  }

  /** The status write; updateStatus writes first and Reconcile compares once more. */
  function StoreOn(w: World, n: Text, f: Flight, again: bool): (v: World)
    ensures OnlyJob(w, v, n)
    ensures v.used == w.used && v.pods == w.pods && v.made == w.made
    ensures v.jobs == UpdateStatus(w, n, f.base, f.cur).jobs
    ensures SameElsewhere(w, v)
  {
    if !Current(w, n, f.base) then Done(w, n)
    else
      var v := UpdateStatus(w, n, f.base, f.cur);
      if again then Finish(v, n, f.(base := v.jobs[n])) else Done(v, n)
  }

  /** One step of the reconcile of job n. */
  function ReconcileStep(w: World, n: Text, c: Call): (v: World)
    requires n in w.flights
    ensures OnlyJob(w, v, n) && v.used == w.used && v.made.Keys <= w.made.Keys + {n}
    ensures !(c.FillDeadline? || c.FillTtl? || c.Store?) ==> v.jobs == w.jobs
    ensures !(c.Create? || c.Remove?) ==> v.pods == w.pods
    ensures SameElsewhere(w, v)
  {
    var f := w.flights[n];
    match c
    case FillDeadline(s) =>
      if f.pc.Opened? && f.base.spec.activeDeadline.None? then
        Fill(w, n, f, f.base.spec.(activeDeadline := Some(s)))
      else w
    case FillTtl(s) =>
      if f.pc.Opened? && f.base.spec.activeDeadline.Some? && f.base.spec.ttl.None? then
        Fill(w, n, f, f.base.spec.(ttl := Some(s)))
      else w
    case Decide =>
      if f.pc.Opened? && f.base.spec.activeDeadline.Some? && f.base.spec.ttl.Some? then
        DecideOn(w, n, f)
      else w
    case Remove => if f.pc.Removing? then RemoveOn(w, n, f, f.pc.why) else w
    case Stamp => if f.pc.Stamping? then StampOn(w, n, f, f.pc.cause) else w
    case Look => if f.pc.Looking? then LookOn(w, n, f) else w
    case Create(answer) => if f.pc.Creating? then CreateOn(w, n, f, answer) else w
    case Judge => if f.pc.Observing? then JudgeOn(w, n, f, f.pc.pod) else w
    case Store => if f.pc.Storing? then StoreOn(w, n, f, f.pc.again) else w
    case Drop => Done(w, n)
  }

  predicate WritesJobs(a: Action) {
    a.Submit? || a.SetCancel? || a.UserDelete? || a.SchedulerFails? || a.SchedulerAdmits?
    || a.CleanerDeletes? || (a.Goes? && (a.call.FillDeadline? || a.call.FillTtl? || a.call.Store?))
  }

  /** One action; an action that is not enabled changes nothing. */
  function Apply(w: World, a: Action): (v: World)
    ensures w.used <= v.used
    ensures !WritesJobs(a) ==> v.jobs == w.jobs
    ensures !(a.PodVanishes? || a.PodMoves? || a.Goes?) ==> v.pods == w.pods
    ensures !a.SchedulerLists? ==> v.listed == w.listed && v.listedAt == w.listedAt
  {
    match a
    case Submit(n, spec) =>
      if n in w.used then w
      else w.(jobs := w.jobs[n := Job(n, w.clock, w.nextVersion, spec, EMPTY_STATUS)],
              nextVersion := w.nextVersion + 1, used := w.used + {n})
    case SetCancel(n, c) =>
      if n in w.jobs then Put(w, n, w.jobs[n].spec.(cancel := c), w.jobs[n].status) else w
    case UserDelete(n) => w.(jobs := w.jobs - {n})
    case PodMoves(n, phase, conditions, containers) =>
      if n in w.pods then
        w.(pods := w.pods[n := KubePod(phase, w.pods[n].created, conditions, containers)])
      else w
    case PodVanishes(n) => w.(pods := w.pods - {n})
    case Pass(to) => if to > w.clock then w.(clock := to) else w
    case SchedulerLists =>
      w.(listed := map n | n in w.jobs && w.jobs[n].status.phase == Pending :: w.jobs[n],
         listedAt := w.clock)
    case SchedulerFails(n, reason, now) =>
      if n in w.listed && w.listedAt <= now <= w.clock then
        UpdateStatus(w, n, w.listed[n], FailedBy(w.listed[n].status, reason, now))
      else w
    case SchedulerAdmits(n) =>
      if n in w.listed then
        UpdateStatus(w, n, w.listed[n], w.listed[n].status.(phase := Preparing))
      else w
    case CleanerLists =>
      w.(doomed := map n | n in w.jobs && Final(w.jobs[n].status.phase) :: w.jobs[n])
    case CleanerDeletes(n) => if n in w.doomed then w.(jobs := w.jobs - {n}) else w
    case Open(n) =>
      if n in w.jobs && n !in w.flights then
        With(w, n, Flight(w.jobs[n], w.jobs[n].status, w.jobs[n].status, Opened))
      else w
    case Goes(n, c) => if n in w.flights then ReconcileStep(w, n, c) else w
  }

  /** A run: any actions of any actors, in any order. */
  function Run(w: World, actions: seq<Action>): World {
    if actions == [] then w
    else Apply(Run(w, actions[..|actions| - 1]), actions[|actions| - 1])
  }
}
