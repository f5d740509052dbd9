/**
 * How many pods a job may cost. In a run where the reconciler's writes of that job's status go
 * through and its pod vanishes only through the reconciler, a job with a requeue limit below
 * the top of int32 is given at most that limit plus one pods, and none if the limit is
 * negative. Nothing is asked of other jobs, and every other call may fail.
 */
module PodBudget {
  import opened Prelude
  import opened Escapism
  import opened Jobs
  import opened Protocol
  import opened ProtocolSafety

  /** The status in hand is still to be written. */
  predicate Unwritten(f: Flight) {
    f.pc.Storing? && f.cur != f.base.status
  }

  /**
   * Others do not take the job's pod, no write of its status comes too late or fails without
   * effect, and no error comes back when the pod has just been deleted.
   */
  predicate Smooth(w: World, a: Action, n: Text) {
    && a != PodVanishes(n)
    && (a.Goes? && a.name == n && n in w.flights ==>
          var f := w.flights[n];
          && (a.call.Drop? ==> !f.pc.Stamping? && !Unwritten(f))
          && (a.call.Store? && Unwritten(f) ==> Current(w, n, f.base)))
  }

  predicate SmoothRun(w: World, actions: seq<Action>, n: Text) {
    actions == []
    || (var front := actions[..|actions| - 1];
        SmoothRun(w, front, n) && Smooth(Run(w, front), actions[|actions| - 1], n))
  }

  function Count(s: Status): int {
    if s.requeued.Some? then s.requeued.value else 0
  }

  /** The reconcile has deleted the pod and the write that says so is still to come. */
  predicate RemovedBy(f: Flight) {
    && Podded(f.base.status.phase)
    && ((f.pc.Storing? && !Podded(f.cur.phase)) || (f.pc.Stamping? && f.pc.cause.Deleted?))
  }

  predicate Removed(w: World, n: Text) {
    n in w.flights && RemovedBy(w.flights[n])
  }

  /** The pod that the requeue count does not pay for: the present one, or one just removed. */
  function Spare(w: World, n: Text): int {
    if n in w.pods || Removed(w, n) then 1 else 0
  }

  /** One more than the requeue limit, and none when the limit is negative. */
  function Budget(spec: Spec): int
    requires Bounded(spec)
  {
    Most(0, spec.requeueLimit.value + 1)
  }

  predicate BudgetInv(w: World, n: Text)
    requires n in w.jobs
  {
    var j, made := w.jobs[n], MadeOf(w, n);
    && (n in w.flights ==> w.flights[n].base.spec.requeueLimit == j.spec.requeueLimit)
    && (Bounded(j.spec) ==>
          && made <= Budget(j.spec)
          && (j.status.phase == Fresh || j.status.phase == Pending ==> made <= Count(j.status))
          && (Podded(j.status.phase) ==> made <= Count(j.status) + Spare(w, n))
          && (n in w.flights && w.flights[n].pc.Storing? && w.flights[n].cur.phase == Pending
              && Current(w, n, w.flights[n].base)
              ==> made <= Count(w.flights[n].cur)))
  }

  ghost predicate WithinBudget(w: World, n: Text) {
    Inv(w) && w.made.Keys <= w.used && (n in w.jobs ==> BudgetInv(w, n))
  }

  // ---- the actions that concern job n ----

  lemma AgreeKeeps(w: World, v: World, n: Text)
    requires Agree(w, v, n) && n in v.jobs && BudgetInv(w, n)
    ensures BudgetInv(v, n)
  {
  }

  /** The actions that leave the job's reconcile alone. */
  lemma OthersKeepBudget(w: World, a: Action, n: Text)
    requires WithinBudget(w, n) && Smooth(w, a, n) && Concerns(a, n) && !a.Goes?
    requires n in Apply(w, a).jobs
    ensures BudgetInv(Apply(w, a), n)
  {
    if a.SchedulerFails? || a.SchedulerAdmits? {
      SchedulerKeepsBudget(w, a, n);
    } else if n in w.jobs {
      assert BudgetInv(w, n) && JobInv(w, n);
    } else {
      assert n !in w.used ==> MadeOf(w, n) == 0;
    }
  }

  lemma SchedulerKeepsBudget(w: World, a: Action, n: Text)
    requires WithinBudget(w, n) && (a.SchedulerFails? || a.SchedulerAdmits?) && a.name == n
    requires n in Apply(w, a).jobs
    ensures n in w.jobs && BudgetInv(Apply(w, a), n)
  {
    assert BudgetInv(w, n) && JobInv(w, n);
    if n in w.listed {
      assert ListedInv(w, n);
    }
  }

  /** A reconcile moves on without losing sight of a pod it removed. */
  lemma MoveKeepsBudget(w: World, n: Text, g: Flight)
    requires n in w.jobs && n in w.flights && BudgetInv(w, n) && g.base == w.flights[n].base
    requires Removed(w, n) && Podded(w.jobs[n].status.phase) ==> RemovedBy(g)
    requires g.pc.Storing? && g.cur.phase == Pending && Bounded(w.jobs[n].spec) && Current(w, n, g.base)
             ==> MadeOf(w, n) <= Count(g.cur)
    ensures BudgetInv(With(w, n, g), n)
  {
  }

  lemma FinishKeepsBudget(w: World, n: Text, g: Flight)
    requires n in w.jobs && n in w.flights && BudgetInv(w, n) && g.base == w.flights[n].base
    requires Removed(w, n) && Podded(w.jobs[n].status.phase) ==> !Podded(g.cur.phase)
    requires g.cur.phase == Pending && Bounded(w.jobs[n].spec) && Current(w, n, g.base)
             ==> MadeOf(w, n) <= Count(g.cur)
    requires g.cur == g.read && Removed(w, n) ==> !Podded(w.jobs[n].status.phase)
    ensures BudgetInv(Finish(w, n, g), n)
  {
    if g.cur != g.read {
      MoveKeepsBudget(w, n, g.(pc := Storing(false)));
    }
  }

  lemma DecideKeepsBudget(w: World, n: Text, f: Flight)
    requires WithinBudget(w, n) && n in w.jobs && n in w.flights && f == w.flights[n] && f.pc.Opened?
    requires f.base.spec.activeDeadline.Some? && f.base.spec.ttl.Some?
    ensures BudgetInv(DecideOn(w, n, f), n)
  {
    assert BudgetInv(w, n) && FlightInv(w, n, f);
    var g := f.(cur := Normalised(f.cur));
    var h := g.(cur := TtlStatus(g.base, g.cur));
    if g.base.spec.cancel {
      MoveKeepsBudget(w, n, g.(pc := Removing(Cancelling)));
    } else if Final(g.cur.phase) {
      if TtlPassed(g.base, g.cur, w.clock) {
        MoveKeepsBudget(w, n, h.(pc := Removing(Expiring)));
      } else {
        FinishKeepsBudget(w, n, h);
      }
    } else if RequeueExceeded(g.base, g.cur) {
      MoveKeepsBudget(w, n, g.(pc := Removing(Limiting(OverRequeueLimit))));
    } else if DeadlinePassed(g.base, g.cur, w.clock) {
      MoveKeepsBudget(w, n, g.(pc := Removing(Limiting(OverActivateDeadline))));
    } else if g.cur.phase == Pending {
      FinishKeepsBudget(w, n, g);
    } else {
      MoveKeepsBudget(w, n, g.(pc := Looking));
    }
  }

  lemma RemoveKeepsBudget(w: World, n: Text, f: Flight, why: Why)
    requires WithinBudget(w, n) && n in w.jobs && n in w.flights && f == w.flights[n]
    requires f.pc == Removing(why)
    ensures BudgetInv(RemoveOn(w, n, f, why), n)
  {
    assert BudgetInv(w, n);
  }

  lemma StampKeepsBudget(w: World, n: Text, f: Flight, cause: Cause)
    requires WithinBudget(w, n) && n in w.jobs && n in w.flights && f == w.flights[n]
    requires f.pc == Stamping(cause)
    ensures BudgetInv(StampOn(w, n, f, cause), n)
  {
    assert BudgetInv(w, n) && FlightInv(w, n, f);
    match cause
    case CreateFailed =>
      MoveKeepsBudget(w, n, f.(cur := AfterCreateFailure(f.cur, w.clock), pc := Storing(true)));
    case Deleted(Cancelling) => FinishKeepsBudget(w, n, f.(cur := AfterCancel(f.cur, w.clock)));
    case Deleted(Limiting(reason)) =>
      FinishKeepsBudget(w, n, f.(cur := AfterLimit(f.cur, reason, w.clock)));
    case Deleted(TimedOut) =>
      MoveKeepsBudget(w, n, f.(cur := AfterRequeue(f.cur, false), pc := Storing(true)));
    case Deleted(Expiring) => FinishKeepsBudget(w, n, f);
  }

  lemma LookKeepsBudget(w: World, n: Text, f: Flight)
    requires WithinBudget(w, n) && n in w.jobs && n in w.flights && f == w.flights[n] && f.pc.Looking?
    ensures BudgetInv(LookOn(w, n, f), n)
  {
    assert BudgetInv(w, n);
  }

  lemma JudgeKeepsBudget(w: World, n: Text, f: Flight, pod: KubePod)
    requires WithinBudget(w, n) && n in w.jobs && n in w.flights && f == w.flights[n]
    requires f.pc == Observing(pod)
    ensures BudgetInv(JudgeOn(w, n, f, pod), n)
  {
    assert BudgetInv(w, n) && FlightInv(w, n, f);
    if PodTimedOut(pod, w.clock) {
      MoveKeepsBudget(w, n, f.(pc := Removing(TimedOut)));
    } else {
      LookOk(f, pod, w.clock);
      MoveKeepsBudget(w, n, f.(cur := AfterLook(f.cur, pod, w.clock), pc := Storing(true)));
    }
  }

  /** A pod is made only below the limit, and only when the count has paid for all before it. */
  lemma CreateKeepsBudget(w: World, n: Text, f: Flight, answer: Answer)
    requires WithinBudget(w, n) && n in w.jobs && n in w.flights && f == w.flights[n] && f.pc.Creating?
    ensures BudgetInv(CreateOn(w, n, f, answer), n)
  {
    assert BudgetInv(w, n) && FlightInv(w, n, f) && JobInv(w, n);
  }

  lemma StoreKeepsBudget(w: World, n: Text, f: Flight, again: bool)
    requires WithinBudget(w, n) && n in w.jobs && n in w.flights && f == w.flights[n]
    requires f.pc == Storing(again) && (Unwritten(f) ==> Current(w, n, f.base))
    ensures BudgetInv(StoreOn(w, n, f, again), n)
  {
    assert BudgetInv(w, n) && FlightInv(w, n, f) && JobInv(w, n);
  }

  lemma FillKeepsBudget(w: World, n: Text, f: Flight, spec: Spec)
    requires WithinBudget(w, n) && n in w.jobs && n in w.flights && f == w.flights[n] && f.pc.Opened?
    requires spec.requeueLimit == f.base.spec.requeueLimit
    ensures BudgetInv(Fill(w, n, f, spec), n)
  {
    assert BudgetInv(w, n) && FlightInv(w, n, f) && JobInv(w, n);
  }

  lemma ReconcileKeepsBudget(w: World, n: Text, c: Call)
    requires WithinBudget(w, n) && n in w.jobs && n in w.flights && Smooth(w, Goes(n, c), n)
    ensures BudgetInv(ReconcileStep(w, n, c), n)
  {
    var f := w.flights[n];
    assert BudgetInv(w, n);
    match c
    case FillDeadline(s) =>
      if f.pc.Opened? { FillKeepsBudget(w, n, f, f.base.spec.(activeDeadline := Some(s))); }
    case FillTtl(s) =>
      if f.pc.Opened? { FillKeepsBudget(w, n, f, f.base.spec.(ttl := Some(s))); }
    case Decide =>
      if f.pc.Opened? && f.base.spec.activeDeadline.Some? && f.base.spec.ttl.Some? {
        DecideKeepsBudget(w, n, f);
      }
    case Remove => if f.pc.Removing? { RemoveKeepsBudget(w, n, f, f.pc.why); }
    case Stamp => if f.pc.Stamping? { StampKeepsBudget(w, n, f, f.pc.cause); }
    case Look => if f.pc.Looking? { LookKeepsBudget(w, n, f); }
    case Create(answer) => if f.pc.Creating? { CreateKeepsBudget(w, n, f, answer); }
    case Judge => if f.pc.Observing? { JudgeKeepsBudget(w, n, f, f.pc.pod); }
    case Store => if f.pc.Storing? { StoreKeepsBudget(w, n, f, f.pc.again); }
    case Drop =>
  }

  lemma MadeOnlyForUsed(w: World, a: Action)
    requires Inv(w) && w.made.Keys <= w.used
    ensures Apply(w, a).made.Keys <= Apply(w, a).used
  {
    if a.Goes? && a.name in w.flights {
      assert a.name in w.used;
    }
  }

  lemma JobKeepsBudget(w: World, a: Action, n: Text)
    requires WithinBudget(w, n) && Smooth(w, a, n) && n in Apply(w, a).jobs
    ensures BudgetInv(Apply(w, a), n)
  {
    if !Concerns(a, n) {
      ActionConcernsOneJob(w, a, n);
      AgreeKeeps(w, Apply(w, a), n);
    } else if !a.Goes? {
      OthersKeepBudget(w, a, n);
    } else if n in w.flights {
      if n !in w.jobs {
        assert n in w.used;
        NotRevived(w, a, n);
      }
      ReconcileKeepsBudget(w, n, a.call);
    } else {
      AgreeKeeps(w, w, n);
    }
  }

  lemma StepKeepsBudget(w: World, a: Action, n: Text)
    requires WithinBudget(w, n) && Smooth(w, a, n)
    ensures WithinBudget(Apply(w, a), n)
  {
    StepKeeps(w, a);
    MadeOnlyForUsed(w, a);
    if n in Apply(w, a).jobs {
      JobKeepsBudget(w, a, n);
    }
  }

  lemma {:induction false} SmoothRunsKeepBudget(actions: seq<Action>, n: Text)
    requires SmoothRun(INITIAL, actions, n)
    ensures WithinBudget(Run(INITIAL, actions), n)
  {
    if actions != [] {
      SmoothRunsKeepBudget(actions[..|actions| - 1], n);
      StepKeepsBudget(Run(INITIAL, actions[..|actions| - 1]), actions[|actions| - 1], n);
    }
  }

  /** No more pods are ever made for the job than its requeue limit plus one. */
  lemma PodsWithinLimit(actions: seq<Action>, n: Text)
    requires SmoothRun(INITIAL, actions, n) && n in Run(INITIAL, actions).jobs
    requires Bounded(Run(INITIAL, actions).jobs[n].spec)
    ensures MadeOf(Run(INITIAL, actions), n) <= Budget(Run(INITIAL, actions).jobs[n].spec)
  {
    SmoothRunsKeepBudget(actions, n);
  }
}
