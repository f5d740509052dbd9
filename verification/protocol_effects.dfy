/** The steps of a reconcile that nobody disturbs, from which whole reconciles are put together. */
module ProtocolEffects {
  import opened Prelude
  import opened Escapism
  import opened Jobs
  import opened Pods
  import opened Protocol

  /** A job whose spec has been filled in, and that no reconcile holds. */
  predicate Ready(w: World, n: Text) {
    && n in w.jobs && n !in w.flights
    && w.jobs[n].spec.activeDeadline.Some? && w.jobs[n].spec.ttl.Some?
  }

  /** What the reconcile makes of the job's status before it looks at anything else. */
  function StatusOf(w: World, n: Text): Status
    requires n in w.jobs
  {
    Normalised(w.jobs[n].status)
  }

  /** The status is stored, and the reconcile is over. */
  predicate Ends(w: World, n: Text, status: Status) {
    n in w.jobs && w.jobs[n].status == status && n !in w.flights
  }

  /** The job is read, and its branch of Reconcile chosen. */
  function Begun(w: World, n: Text): World {
    Apply(Apply(w, Open(n)), Goes(n, Decide))
  }

  /** The flight has read the stored job, holds `cur`, and stands at `pc`. */
  predicate Holding(w: World, n: Text, cur: Status, pc: Pc) {
    && n in w.flights && n in w.jobs && w.jobs[n] == w.flights[n].base
    && w.flights[n] == Flight(w.jobs[n], w.jobs[n].status, cur, pc)
  }

  /** What is left to do is a write, if anything. */
  predicate Closing(w: World, n: Text, cur: Status) {
    && n in w.jobs
    && if n in w.flights then w.flights[n] == Flight(w.jobs[n], w.flights[n].read, cur, Storing(false))
       else w.jobs[n].status == cur
  }

  lemma Closes(w: World, n: Text, cur: Status)
    requires Closing(w, n, cur)
    ensures var v := Apply(w, Goes(n, Store));
            && Ends(v, n, cur) && v.pods == w.pods && v.made == w.made && v.clock == w.clock
            && v.jobs[n].spec == w.jobs[n].spec
  {
  }

  /** The branch that a reconcile of the job takes now, and the status that it goes on with. */
  predicate ChoosesWith(w: World, n: Text, cur: Status, pc: Pc)
    requires Ready(w, n)
  {
    Chosen(w.jobs[n], w.jobs[n].status, StatusOf(w, n), w.clock) == Some((cur, pc))
  }

  /** The same, with the status normalised. */
  predicate Chooses(w: World, n: Text, pc: Pc)
    requires Ready(w, n)
  {
    ChoosesWith(w, n, StatusOf(w, n), pc)
  }

  lemma DecidedWith(w: World, n: Text, cur: Status, pc: Pc)
    requires Ready(w, n) && ChoosesWith(w, n, cur, pc)
    ensures var v := Begun(w, n);
            && Holding(v, n, cur, pc) && SameElsewhere(w, v)
            && v.jobs == w.jobs && v.pods == w.pods && v.made == w.made
  {
  }

  lemma Decided(w: World, n: Text, pc: Pc)
    requires Ready(w, n) && Chooses(w, n, pc)
    ensures var v := Begun(w, n);
            && Holding(v, n, StatusOf(w, n), pc) && SameElsewhere(w, v)
            && v.jobs == w.jobs && v.pods == w.pods && v.made == w.made
  {
    DecidedWith(w, n, StatusOf(w, n), pc);
  }

  /** The first write of updateStatus, which Reconcile may follow with another. */
  lemma StoredOnce(v: World, n: Text, cur: Status)
    requires Holding(v, n, cur, Storing(true))
    ensures var u := Apply(v, Goes(n, Store));
            && Closing(u, n, cur) && n in u.jobs && u.jobs[n].spec == v.jobs[n].spec
            && u.pods == v.pods && u.made == v.made && u.clock == v.clock
  {
  }

  lemma StoredTwice(v: World, n: Text, cur: Status)
    requires Holding(v, n, cur, Storing(true))
    ensures var u := Apply(Apply(v, Goes(n, Store)), Goes(n, Store));
            && Ends(u, n, cur) && u.jobs[n].spec == v.jobs[n].spec
            && u.pods == v.pods && u.made == v.made && u.clock == v.clock
  {
    StoredOnce(v, n, cur);
    Closes(Apply(v, Goes(n, Store)), n, cur);
  }

  // ---- from a new job to its pod ----

  /** A spec without deadlines. */
  function Endless(limit: Option<int>): Spec {
    Spec([], [], [], [], false, limit, Some(0), Some(0))
  }

  /** Is the status that of a job that has not started, after k requeues? */
  predicate Unstarted(s: Status, phase: Phase, k: int) {
    s.phase == phase && s.requeued == Some(k) && s.startTime.None? && s.finishTime.None?
  }

  /** The job has such a status, and no reconcile. */
  predicate Idle(w: World, n: Text, limit: Option<int>, phase: Phase, k: int) {
    && n in w.jobs && n !in w.flights
    && w.jobs[n].spec == Endless(limit) && Unstarted(w.jobs[n].status, phase, k)
  }

  lemma SubmittedJob(w: World, n: Text, limit: Option<int>)
    requires n !in w.used && n !in w.flights && n !in w.pods && MadeOf(w, n) == 0
    ensures var v := Apply(w, Submit(n, Endless(limit)));
            && n in v.jobs && n !in v.flights && n !in v.pods && MadeOf(v, n) == 0
            && v.jobs[n].spec == Endless(limit) && v.jobs[n].status == EMPTY_STATUS
  {
  }

  /** The first reconcile of a new job. */
  lemma FirstReconcile(w: World, n: Text, limit: Option<int>)
    requires n in w.jobs && n !in w.flights && n !in w.pods && MadeOf(w, n) == 0
    requires w.jobs[n].spec == Endless(limit) && (limit.Some? ==> limit.value >= 0)
    requires w.jobs[n].status == EMPTY_STATUS
    ensures Holding(Begun(w, n), n, Normalised(EMPTY_STATUS), Storing(false))
    ensures var v := Apply(Begun(w, n), Goes(n, Store));
            Idle(v, n, limit, Pending, 0) && n !in v.pods && MadeOf(v, n) == 0
  {
    var s := Normalised(EMPTY_STATUS);
    var v := Begun(w, n);
    assert Holding(v, n, s, Storing(false)) && v.pods == w.pods && v.jobs == w.jobs && v.made == w.made;
    Closes(v, n, s);
  }

  lemma AdmittedJob(w: World, n: Text, limit: Option<int>, k: int)
    requires Idle(w, n, limit, Pending, k) && n !in w.pods
    ensures var v := Apply(Apply(w, SchedulerLists), SchedulerAdmits(n));
            && Idle(v, n, limit, Preparing, k) && n !in v.pods && MadeOf(v, n) == MadeOf(w, n)
            && v.jobs[n].status == w.jobs[n].status.(phase := Preparing)
  {
  }

  /** The reconcile of an admitted job without a pod makes one. */
  lemma MadeJob(v: World, n: Text, limit: Option<int>, k: int)
    requires Idle(v, n, limit, Preparing, k) && n !in v.pods && (limit.Some? ==> k <= limit.value)
    ensures var u := Apply(Apply(Begun(v, n), Goes(n, Look)), Goes(n, Create(Created)));
            && Holding(u, n, v.jobs[n].status.(podName := n), Storing(true))
            && u.jobs == v.jobs && MadeOf(u, n) == MadeOf(v, n) + 1
            && n in u.pods && u.pods[n].phase == KubePending && u.pods[n].created == u.clock
  {
    LookedForPod(v, n, limit, k);
    PodCreated(Apply(Begun(v, n), Goes(n, Look)), n, v.jobs[n].status);
  }

  lemma LookedForPod(v: World, n: Text, limit: Option<int>, k: int)
    requires Idle(v, n, limit, Preparing, k) && n !in v.pods && (limit.Some? ==> k <= limit.value)
    ensures var b := Apply(Begun(v, n), Goes(n, Look));
            && Holding(b, n, v.jobs[n].status, Creating)
            && b.pods == v.pods && b.jobs == v.jobs && b.made == v.made
  {
    Decided(v, n, Looking);
  }

  lemma PodCreated(b: World, n: Text, s: Status)
    requires Holding(b, n, s, Creating) && n !in b.pods
    ensures var u := Apply(b, Goes(n, Create(Created)));
            && Holding(u, n, s.(podName := n), Storing(true))
            && u.jobs == b.jobs && MadeOf(u, n) == MadeOf(b, n) + 1
            && n in u.pods && u.pods[n].phase == KubePending && u.pods[n].created == u.clock
  {
  }
}
