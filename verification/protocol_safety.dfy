/**
 * What every interleaving of the PhJob actors keeps. `Inv` is inductive over `Apply`, so it
 * holds after every run; the theorems about runs are at the end.
 */
module ProtocolSafety {
  import opened Prelude
  import opened Escapism
  import opened Jobs
  import opened Protocol

  // ---- stored statuses ----

  /** The bound holds where the count cannot reach the top of int32. */
  predicate Bounded(spec: Spec) {
    spec.requeueLimit.Some? && spec.requeueLimit.value < MAX_INT32
  }

  function Most(a: int, b: int): int {
    if a < b then b else a
  }

  predicate RequeuedOk(s: Status, spec: Spec) {
    s.requeued.Some? ==>
      && s.requeued.value <= MAX_INT32
      && (Bounded(spec) ==> 0 <= s.requeued.value <= Most(0, spec.requeueLimit.value + 1))
  }

  /** What holds of a status written at time `now` or before. */
  predicate StatusOk(s: Status, spec: Spec, now: int) {
    && (Final(s.phase) <==> s.finishTime.Some?)
    && (s.phase == Running ==> s.startTime.Some?)
    && (s.startTime.Some? ==> s.startTime.value <= now)
    && (s.finishTime.Some? ==> s.finishTime.value <= now)
    && (s.startTime.Some? && s.finishTime.Some? ==> s.startTime.value <= s.finishTime.value)
    && (s.phase == Fresh <==> s.requeued.None?)
    && (s.phase == Fresh ==> s.startTime.None?)
    && RequeuedOk(s, spec)
  }

  /** A job in one of these phases has no pod. */
  predicate Podless(p: Phase) {
    p == Fresh || p == Pending || p == Cancelled
  }

  // ---- how a status may change ----

  /** From write to write, and so from any time to any later time. */
  predicate Allowed(a: Status, b: Status, spec: Spec) {
    && (Final(a.phase) ==> b.phase == a.phase || b.phase == Cancelled)
    && (a.phase == Cancelled ==> b.phase == Cancelled)
    && (b.phase == Fresh ==> a.phase == Fresh)
    && (a.startTime.Some? ==> b.startTime == a.startTime)
    && (a.finishTime.Some? ==> b.finishTime == a.finishTime)
    && (a.requeued.Some? ==> b.requeued.Some?)
    && (a.requeued.Some? && Bounded(spec) ==> a.requeued.value <= b.requeued.value)
  }

  /** The edges of the lifecycle; a write may also leave the phase alone. */
  predicate Edge(a: Phase, b: Phase) {
    match a
    case Fresh => b == Pending || b == Cancelled || b == Failed
    case Pending => b == Preparing || b == Cancelled || b == Failed
    case Preparing | Running =>
      b == Pending || b == Running || b == Succeeded || b == Unknown || b == Cancelled || b == Failed
    case Succeeded | Failed | Unknown => b == Cancelled
    case Cancelled => false
  }

  predicate Moves(a: Status, b: Status, spec: Spec) {
    Allowed(a, b, spec) && (b.phase == a.phase || Edge(a.phase, b.phase))
  }

  // ---- the invariant ----

  predicate JobInv(w: World, n: Text)
    requires n in w.jobs
  {
    var j := w.jobs[n];
    j.name == n && j.version < w.nextVersion && StatusOk(j.status, j.spec, w.clock)
    && (Podless(j.status.phase) ==> n !in w.pods)
  }

  /** A copy of job n: older than the stored job, or the same. */
  predicate CopyInv(w: World, n: Text, copy: Job) {
    copy.name == n && copy.version < w.nextVersion
    && (n in w.jobs ==> copy.version < w.jobs[n].version || copy == w.jobs[n])
  }

  predicate ListedInv(w: World, n: Text)
    requires n in w.listed
  {
    var j := w.listed[n];
    CopyInv(w, n, j) && j.status.phase == Pending && StatusOk(j.status, j.spec, w.listedAt)
  }

  predicate DoomedInv(w: World, n: Text)
    requires n in w.doomed
  {
    && Final(w.doomed[n].status.phase) && w.doomed[n].status.finishTime.Some?
    && (n in w.jobs ==> Final(w.jobs[n].status.phase))
  }

  /** Only these phases deal with the pod's state. */
  predicate Podded(p: Phase) {
    p == Preparing || p == Running
  }

  /** The requeue limit or the deadline is exceeded. */
  predicate PastLimit(j: Job, s: Status, now: int) {
    || (s.requeued.Some? && RequeueExceeded(j, s))
    || (j.spec.activeDeadline.Some? && DeadlinePassed(j, s, now))
  }

  /** The limits that a reconcile has read are still those of the stored job. */
  predicate LimitsStay(read: Spec, stored: Spec) {
    && stored.requeueLimit == read.requeueLimit
    && (read.activeDeadline.Some? ==> stored.activeDeadline == read.activeDeadline)
  }

  /** Past the requeue check: the count may go up once more. */
  predicate MayRequeue(f: Flight) {
    Podded(f.cur.phase) && f.cur.requeued.Some? && !RequeueExceeded(f.base, f.cur)
  }

  /**
   * What a reconcile knows at each point between its API calls. Other actors may have written
   * the job since, but its status only if that was Pending.
   */
  predicate FlightInv(w: World, n: Text, f: Flight) {
    && CopyInv(w, n, f.base)
    && (n in w.jobs && f.base.status.phase != Pending ==> w.jobs[n].status == f.base.status)
    && (n in w.jobs ==> LimitsStay(f.base.spec, w.jobs[n].spec))
    && StatusOk(f.base.status, f.base.spec, w.clock)
    && (Podless(f.base.status.phase) ==> n !in w.pods)
    && match f.pc
       case Opened => f.cur == f.base.status && f.read == f.base.status
       case Removing(why) =>
         Held(f) && WhyInv(f, why) && (why.Limiting? ==> PastLimit(f.base, f.cur, w.clock))
       case Stamping(Deleted(why)) =>
         Held(f) && WhyInv(f, why) && (why != Expiring ==> n !in w.pods)
       case Stamping(CreateFailed) => Held(f) && MayRequeue(f)
       case Looking => Held(f) && MayRequeue(f)
       case Creating => Held(f) && MayRequeue(f) && n !in w.pods
       case Observing(_) => Held(f) && MayRequeue(f)
       case Storing(_) =>
         && StatusOk(f.cur, f.base.spec, w.clock)
         && Moves(f.base.status, f.cur, f.base.spec)
         && (Podded(f.cur.phase) ==> Podded(f.base.status.phase))
         && (Podless(f.cur.phase) ==> n !in w.pods)
  }

  /** The status in hand is still the one that was read, normalised. */
  predicate Held(f: Flight) {
    f.cur == Normalised(f.base.status) && f.read == f.base.status
  }

  predicate WhyInv(f: Flight, why: Why) {
    match why
    case Cancelling => true
    case Expiring => Final(f.cur.phase)
    case Limiting(_) => !Final(f.cur.phase)
    case TimedOut => MayRequeue(f)
  }

  predicate NamesInv(w: World) {
    && w.jobs.Keys <= w.used && w.pods.Keys <= w.used && w.listed.Keys <= w.used
    && w.doomed.Keys <= w.used && w.flights.Keys <= w.used && w.listedAt <= w.clock
  }

  ghost predicate Inv(w: World) {
    && NamesInv(w)
    && (forall n :: n in w.jobs ==> JobInv(w, n))
    && (forall n :: n in w.listed ==> ListedInv(w, n))
    && (forall n :: n in w.doomed ==> DoomedInv(w, n))
    && (forall n :: n in w.flights ==> FlightInv(w, n, w.flights[n]))
  }

  // ---- writes ----

  /** A write of an acceptable status keeps the invariant: every copy is older than it. */
  lemma PutKeeps(w: World, n: Text, spec: Spec, status: Status)
    requires Inv(w) && n in w.jobs
    requires StatusOk(status, spec, w.clock) && (Podless(status.phase) ==> n !in w.pods)
    requires Final(w.jobs[n].status.phase) ==> Final(status.phase)
    requires n in w.flights && w.flights[n].base.status.phase != Pending
             ==> status == w.jobs[n].status
    requires LimitsStay(w.jobs[n].spec, spec)
    ensures Inv(Put(w, n, spec, status))
  {
    var v := Put(w, n, spec, status);
    forall m | m in v.listed ensures ListedInv(v, m) {
      assert ListedInv(w, m);
    }
    forall m | m in v.doomed ensures DoomedInv(v, m) {
      assert DoomedInv(w, m);
    }
    forall m | m in v.flights ensures FlightInv(v, m, v.flights[m]) {
      assert FlightInv(w, m, w.flights[m]);
    }
  }

  lemma WithKeeps(w: World, n: Text, f: Flight)
    requires Inv(w) && n in w.used && FlightInv(w, n, f)
    ensures Inv(With(w, n, f))
  {
    var v := With(w, n, f);
    forall m | m in v.flights ensures FlightInv(v, m, v.flights[m]) {
      assert m != n ==> FlightInv(w, m, w.flights[m]);
    }
  }

  lemma DoneKeeps(w: World, n: Text)
    requires Inv(w)
    ensures Inv(Done(w, n))
  {
    var v := Done(w, n);
    forall m | m in v.flights ensures FlightInv(v, m, v.flights[m]) {
      assert FlightInv(w, m, w.flights[m]);
    }
  }

  lemma FinishKeeps(w: World, n: Text, f: Flight)
    requires Inv(w) && n in w.used
    requires FlightInv(w, n, f.(pc := Storing(false)))
    ensures Inv(Finish(w, n, f))
  {
    if f.cur == f.read {
      DoneKeeps(w, n);
    } else {
      WithKeeps(w, n, f.(pc := Storing(false)));
    }
  }

  lemma PodGoneKeeps(w: World, n: Text)
    requires Inv(w)
    ensures Inv(w.(pods := w.pods - {n}))
  {
    var v := w.(pods := w.pods - {n});
    forall m | m in v.flights ensures FlightInv(v, m, v.flights[m]) {
      assert FlightInv(w, m, w.flights[m]);
    }
  }

  lemma JobGoneKeeps(w: World, n: Text)
    requires Inv(w)
    ensures Inv(w.(jobs := w.jobs - {n}))
  {
    var v := w.(jobs := w.jobs - {n});
    forall m | m in v.listed ensures ListedInv(v, m) {
      assert ListedInv(w, m);
    }
    forall m | m in v.flights ensures FlightInv(v, m, v.flights[m]) {
      assert FlightInv(w, m, w.flights[m]);
    }
  }

  /** A pod may appear for a job whose reconcile has just found none and gone on. */
  lemma PodAddedKeeps(w: World, n: Text, f: Flight)
    requires Inv(w) && n in w.flights && w.flights[n].pc == Creating
    requires FlightInv(AddPod(w, n), n, f)
    ensures Inv(With(AddPod(w, n), n, f))
  {
    var u := AddPod(Done(w, n), n);
    assert FlightInv(w, n, w.flights[n]);
    DoneKeeps(w, n);
    PodAppears(Done(w, n), n);
    WithKeeps(u, n, f);
    AddAfterDone(w, n, f);
  }

  lemma AddAfterDone(w: World, n: Text, f: Flight)
    ensures With(AddPod(Done(w, n), n), n, f) == With(AddPod(w, n), n, f)
  {
    assert (w.flights - {n})[n := f] == w.flights[n := f];
  }

  lemma PodAppears(w: World, n: Text)
    requires Inv(w) && n in w.used && n !in w.flights
    requires n in w.jobs ==> !Podless(w.jobs[n].status.phase)
    ensures Inv(AddPod(w, n))
  {
    var v := AddPod(w, n);
    forall m | m in v.jobs ensures JobInv(v, m) {
      assert JobInv(w, m);
    }
    forall m | m in v.listed ensures ListedInv(v, m) {
      assert ListedInv(w, m);
    }
    forall m | m in v.flights ensures FlightInv(v, m, v.flights[m]) {
      assert FlightInv(w, m, w.flights[m]);
    }
  }

  // ---- one action ----

  /** From the branches of Reconcile to its first call. */
  lemma DecideKeeps(w: World, n: Text, f: Flight)
    requires Inv(w) && n in w.flights && f == w.flights[n] && f.pc == Opened
    requires f.base.spec.activeDeadline.Some? && f.base.spec.ttl.Some?
    ensures Inv(DecideOn(w, n, f))
  {
    assert FlightInv(w, n, f);
    var g := f.(cur := Normalised(f.cur));
    var h := g.(cur := TtlStatus(g.base, g.cur));
    if g.base.spec.cancel {
      WithKeeps(w, n, g.(pc := Removing(Cancelling)));
    } else if Final(g.cur.phase) {
      assert h == g;
      if TtlPassed(g.base, g.cur, w.clock) {
        WithKeeps(w, n, h.(pc := Removing(Expiring)));
      } else {
        FinishKeeps(w, n, h);
      }
    } else if RequeueExceeded(g.base, g.cur) {
      WithKeeps(w, n, g.(pc := Removing(Limiting(OverRequeueLimit))));
    } else if DeadlinePassed(g.base, g.cur, w.clock) {
      WithKeeps(w, n, g.(pc := Removing(Limiting(OverActivateDeadline))));
    } else if g.cur.phase == Pending {
      FinishKeeps(w, n, g);
    } else {
      WithKeeps(w, n, g.(pc := Looking));
    }
  }

  /** What each computation of a new status keeps. */
  lemma StampOk(f: Flight, cause: Cause, now: int)
    requires Held(f) && StatusOk(f.base.status, f.base.spec, now)
    requires cause.Deleted? ==> WhyInv(f, cause.why)
    requires cause.CreateFailed? ==> MayRequeue(f)
    ensures var s := match cause
                     case CreateFailed => AfterCreateFailure(f.cur, now)
                     case Deleted(Cancelling) => AfterCancel(f.cur, now)
                     case Deleted(Limiting(reason)) => AfterLimit(f.cur, reason, now)
                     case Deleted(TimedOut) => AfterRequeue(f.cur, false)
                     case Deleted(Expiring) => f.cur;
            StatusOk(s, f.base.spec, now) && Moves(f.base.status, s, f.base.spec)
  {
  }

  lemma StampKeeps(w: World, n: Text, f: Flight, cause: Cause)
    requires Inv(w) && n in w.flights && f == w.flights[n] && f.pc == Stamping(cause)
    ensures Inv(StampOn(w, n, f, cause))
  {
    assert FlightInv(w, n, f);
    StampOk(f, cause, w.clock);
    match cause
    case CreateFailed =>
      WithKeeps(w, n, f.(cur := AfterCreateFailure(f.cur, w.clock), pc := Storing(true)));
    case Deleted(Cancelling) => FinishKeeps(w, n, f.(cur := AfterCancel(f.cur, w.clock)));
    case Deleted(Limiting(reason)) => FinishKeeps(w, n, f.(cur := AfterLimit(f.cur, reason, w.clock)));
    case Deleted(TimedOut) =>
      WithKeeps(w, n, f.(cur := AfterRequeue(f.cur, false), pc := Storing(true)));
    case Deleted(Expiring) => FinishKeeps(w, n, f);
  }

  lemma CreateKeeps(w: World, n: Text, f: Flight, answer: Answer)
    requires Inv(w) && n in w.flights && f == w.flights[n] && f.pc == Creating
    ensures Inv(CreateOn(w, n, f, answer))
  {
    assert FlightInv(w, n, f);
    match answer
    case Created =>
      PodAddedKeeps(w, n, f.(cur := f.cur.(podName := n), pc := Storing(true)));
    case Rejected =>
      WithKeeps(w, n, f.(cur := AfterRequeue(f.cur, true), pc := Storing(true)));
    case Broken(landed) =>
      if landed {
        PodAddedKeeps(w, n, f.(pc := Stamping(CreateFailed)));
      } else {
        WithKeeps(w, n, f.(pc := Stamping(CreateFailed)));
      }
  }

  /** The write itself, with the reconcile set aside. */
  lemma WriteKeeps(w: World, n: Text, f: Flight)
    requires Inv(w) && n in w.flights && f == w.flights[n] && f.pc.Storing?
    requires Current(w, n, f.base)
    ensures var v := Put(Done(w, n), n, w.jobs[n].spec, f.cur);
            Inv(v) && FlightInv(v, n, f.(base := v.jobs[n], pc := Storing(false)))
  {
    assert FlightInv(w, n, f);
    DoneKeeps(w, n);
    assert w.jobs[n] == f.base;
    PutKeeps(Done(w, n), n, w.jobs[n].spec, f.cur);
  }

  lemma FinishAfterDone(w: World, n: Text, f: Flight)
    ensures Finish(w, n, f) == Finish(Done(w, n), n, f)
  {
    var g := f.(pc := Storing(false));
    assert w.flights[n := g] == (w.flights - {n})[n := g];
    assert w.flights - {n} == w.flights - {n} - {n};
  }

  lemma StoreKeeps(w: World, n: Text, f: Flight, again: bool)
    requires Inv(w) && n in w.flights && f == w.flights[n] && f.pc == Storing(again)
    ensures Inv(StoreOn(w, n, f, again))
  {
    DoneKeeps(w, n);
    if Current(w, n, f.base) {
      WriteKeeps(w, n, f);
      var v := Put(w, n, w.jobs[n].spec, f.cur);
      var u := Put(Done(w, n), n, w.jobs[n].spec, f.cur);
      assert Done(v, n) == u;
      if again {
        var g := f.(base := v.jobs[n]);
        FinishKeeps(u, n, g);
        FinishAfterDone(v, n, g);
      }
    }
  }

  lemma FillKeeps(w: World, n: Text, f: Flight, spec: Spec)
    requires Inv(w) && n in w.flights && f == w.flights[n] && f.pc == Opened
    requires LimitsStay(f.base.spec, spec)
    ensures Inv(Fill(w, n, f, spec))
  {
    assert FlightInv(w, n, f);
    DoneKeeps(w, n);
    if Current(w, n, f.base) {
      assert JobInv(w, n);
      PutKeeps(w, n, spec, w.jobs[n].status);
      var v := Put(w, n, spec, w.jobs[n].status);
      WithKeeps(v, n, f.(base := v.jobs[n]));
    }
  }

  lemma FillStepKeeps(w: World, n: Text, c: Call)
    requires Inv(w) && n in w.flights && (c.FillDeadline? || c.FillTtl?)
    ensures Inv(ReconcileStep(w, n, c))
  {
    var f := w.flights[n];
    if f.pc.Opened? {
      if c.FillTtl? {
        FillKeeps(w, n, f, f.base.spec.(ttl := Some(c.seconds)));
      } else if f.base.spec.activeDeadline.None? {
        FillKeeps(w, n, f, f.base.spec.(activeDeadline := Some(c.seconds)));
      }
    }
  }

  lemma LookOk(f: Flight, pod: KubePod, now: int)
    requires Held(f) && MayRequeue(f) && StatusOk(f.base.status, f.base.spec, now)
    ensures var s := AfterLook(f.cur, pod, now);
            StatusOk(s, f.base.spec, now) && Moves(f.base.status, s, f.base.spec) && !Podless(s.phase)
  {
  }

  lemma LookKeeps(w: World, n: Text, f: Flight)
    requires Inv(w) && n in w.flights && f == w.flights[n] && f.pc == Looking
    ensures Inv(LookOn(w, n, f))
  {
    assert FlightInv(w, n, f);
    WithKeeps(w, n, f.(pc := if n in w.pods then Observing(w.pods[n]) else Creating));
  }

  lemma RemoveKeeps(w: World, n: Text, f: Flight, why: Why)
    requires Inv(w) && n in w.flights && f == w.flights[n] && f.pc == Removing(why)
    ensures Inv(RemoveOn(w, n, f, why))
  {
    assert FlightInv(w, n, f);
    PodGoneKeeps(w, n);
    WithKeeps(w.(pods := w.pods - {n}), n, f.(pc := Stamping(Deleted(why))));
  }

  lemma JudgeKeeps(w: World, n: Text, f: Flight, pod: KubePod)
    requires Inv(w) && n in w.flights && f == w.flights[n] && f.pc == Observing(pod)
    ensures Inv(JudgeOn(w, n, f, pod))
  {
    assert FlightInv(w, n, f);
    if PodTimedOut(pod, w.clock) {
      WithKeeps(w, n, f.(pc := Removing(TimedOut)));
    } else {
      LookOk(f, pod, w.clock);
      WithKeeps(w, n, f.(cur := AfterLook(f.cur, pod, w.clock), pc := Storing(true)));
    }
  }

  /** Every step of a reconcile keeps the invariant. */
  lemma ReconcileKeeps(w: World, n: Text, c: Call)
    requires Inv(w) && n in w.flights
    ensures Inv(ReconcileStep(w, n, c))
  {
    var f := w.flights[n];
    match c
    case FillDeadline(_) => FillStepKeeps(w, n, c);
    case FillTtl(_) => FillStepKeeps(w, n, c);
    case Decide =>
      if f.pc.Opened? && f.base.spec.activeDeadline.Some? && f.base.spec.ttl.Some? {
        DecideKeeps(w, n, f);
      }
    case Remove => if f.pc.Removing? { RemoveKeeps(w, n, f, f.pc.why); }
    case Stamp => if f.pc.Stamping? { StampKeeps(w, n, f, f.pc.cause); }
    case Look => if f.pc.Looking? { LookKeeps(w, n, f); }
    case Create(answer) => if f.pc.Creating? { CreateKeeps(w, n, f, answer); }
    case Judge => if f.pc.Observing? { JudgeKeeps(w, n, f, f.pc.pod); }
    case Store => if f.pc.Storing? { StoreKeeps(w, n, f, f.pc.again); }
    case Drop => DoneKeeps(w, n);
  }

  lemma PassKeeps(w: World, to: int)
    requires Inv(w) && to > w.clock
    ensures Inv(w.(clock := to))
  {
    var v := w.(clock := to);
    forall m | m in v.jobs ensures JobInv(v, m) {
      assert JobInv(w, m);
    }
    forall m | m in v.listed ensures ListedInv(v, m) {
      assert ListedInv(w, m);
    }
    forall m | m in v.flights ensures FlightInv(v, m, v.flights[m]) {
      assert FlightInv(w, m, w.flights[m]);
    }
  }

  lemma SubmitKeeps(w: World, n: Text, spec: Spec)
    requires Inv(w)
    ensures Inv(Apply(w, Submit(n, spec)))
  {
    if n !in w.used {
      var v := Apply(w, Submit(n, spec));
      forall m | m in v.jobs ensures JobInv(v, m) {
        assert m != n ==> JobInv(w, m);
      }
      forall m | m in v.listed ensures ListedInv(v, m) {
        assert ListedInv(w, m);
      }
      forall m | m in v.flights ensures FlightInv(v, m, v.flights[m]) {
        assert FlightInv(w, m, w.flights[m]);
      }
    }
  }

  /** A scheduler's write goes through only on a job that is still Pending. */
  lemma SchedulerKeeps(w: World, n: Text, status: Status)
    requires Inv(w) && n in w.listed
    requires StatusOk(status, w.listed[n].spec, w.clock) && !Podless(status.phase)
    ensures Inv(UpdateStatus(w, n, w.listed[n], status))
  {
    if Current(w, n, w.listed[n]) {
      assert ListedInv(w, n);
      assert w.jobs[n].status.phase == Pending;
      if n in w.flights {
        assert FlightInv(w, n, w.flights[n]);
      }
      PutKeeps(w, n, w.jobs[n].spec, status);
    }
  }

  lemma PodMovesKeeps(w: World, n: Text, pod: KubePod)
    requires Inv(w) && n in w.pods
    ensures Inv(w.(pods := w.pods[n := pod]))
  {
    var v := w.(pods := w.pods[n := pod]);
    forall m | m in v.jobs ensures JobInv(v, m) {
      assert JobInv(w, m);
    }
    forall m | m in v.flights ensures FlightInv(v, m, v.flights[m]) {
      assert FlightInv(w, m, w.flights[m]);
    }
  }

  lemma SchedulerListsKeeps(w: World)
    requires Inv(w)
    ensures Inv(Apply(w, SchedulerLists))
  {
    var v := Apply(w, SchedulerLists);
    forall m | m in v.listed ensures m in v.used && ListedInv(v, m) {
      assert m in w.jobs && JobInv(w, m);
    }
    forall m | m in v.flights ensures FlightInv(v, m, v.flights[m]) {
      assert FlightInv(w, m, w.flights[m]);
    }
  }

  lemma CleanerListsKeeps(w: World)
    requires Inv(w)
    ensures Inv(Apply(w, CleanerLists))
  {
    var v := Apply(w, CleanerLists);
    forall m | m in v.doomed ensures m in v.used && DoomedInv(v, m) {
      assert m in w.jobs && JobInv(w, m);
    }
    forall m | m in v.listed ensures ListedInv(v, m) {
      assert ListedInv(w, m);
    }
    forall m | m in v.flights ensures FlightInv(v, m, v.flights[m]) {
      assert FlightInv(w, m, w.flights[m]);
    }
  }

  lemma OpenKeeps(w: World, n: Text)
    requires Inv(w)
    ensures Inv(Apply(w, Open(n)))
  {
    if n in w.jobs && n !in w.flights {
      assert JobInv(w, n);
      WithKeeps(w, n, Flight(w.jobs[n], w.jobs[n].status, w.jobs[n].status, Opened));
    }
  }

  lemma SetCancelKeeps(w: World, n: Text, c: bool)
    requires Inv(w) && n in w.jobs
    ensures Inv(Apply(w, SetCancel(n, c)))
  {
    assert JobInv(w, n);
    PutKeeps(w, n, w.jobs[n].spec.(cancel := c), w.jobs[n].status);
  }

  lemma SchedulerStepKeeps(w: World, a: Action)
    requires Inv(w) && (a.SchedulerFails? || a.SchedulerAdmits?)
    ensures Inv(Apply(w, a))
  {
    if a.name in w.listed {
      assert ListedInv(w, a.name);
      var s := w.listed[a.name].status;
      if a.SchedulerAdmits? {
        SchedulerKeeps(w, a.name, s.(phase := Preparing));
      } else if w.listedAt <= a.now <= w.clock {
        SchedulerKeeps(w, a.name, FailedBy(s, a.reason, a.now));
      }
    }
  }

  /** The invariant is inductive: every action of every actor keeps it. */
  lemma StepKeeps(w: World, a: Action)
    requires Inv(w)
    ensures Inv(Apply(w, a))
  {
    match a
    case Submit(n, spec) => SubmitKeeps(w, n, spec);
    case SetCancel(n, c) => if n in w.jobs { SetCancelKeeps(w, n, c); }
    case UserDelete(n) => JobGoneKeeps(w, n);
    case PodMoves(n, phase, conditions, containers) =>
      if n in w.pods {
        PodMovesKeeps(w, n, KubePod(phase, w.pods[n].created, conditions, containers));
      }
    case PodVanishes(n) => PodGoneKeeps(w, n);
    case Pass(to) => if to > w.clock { PassKeeps(w, to); }
    case SchedulerLists => SchedulerListsKeeps(w);
    case SchedulerFails(_, _, _) => SchedulerStepKeeps(w, a);
    case SchedulerAdmits(_) => SchedulerStepKeeps(w, a);
    case CleanerLists => CleanerListsKeeps(w);
    case CleanerDeletes(n) => if n in w.doomed { JobGoneKeeps(w, n); }
    case Open(n) => OpenKeeps(w, n);
    case Goes(n, c) => if n in w.flights { ReconcileKeeps(w, n, c); }
  }

  /** The invariant holds after every run. */
  lemma {:induction false} Reachable(actions: seq<Action>)
    ensures Inv(Run(INITIAL, actions))
  {
    if actions != [] {
      Reachable(actions[..|actions| - 1]);
      StepKeeps(Run(INITIAL, actions[..|actions| - 1]), actions[|actions| - 1]);
    }
  }

  // ---- what one action may change ----

  predicate Concerns(a: Action, n: Text) {
    match a
    case Pass(_) => false
    case SchedulerLists => false
    case CleanerLists => false
    case _ => a.name == n
  }

  lemma ActionConcernsOneJob(w: World, a: Action, m: Text)
    requires !Concerns(a, m)
    ensures Agree(w, Apply(w, a), m)
  {
    if a.Goes? {
      if a.name in w.flights {
        assert OnlyJob(w, ReconcileStep(w, a.name, a.call), a.name);
      }
    } else if WritesJobs(a) {
      WriteConcernsOneJob(w, a, m);
    }
  }

  lemma WriteConcernsOneJob(w: World, a: Action, m: Text)
    requires !Concerns(a, m) && WritesJobs(a) && !a.Goes?
    ensures Agree(w, Apply(w, a), m)
  {
    match a
    case SchedulerFails(n, reason, now) =>
      if n in w.listed {
        UpdateConcernsOneJob(w, n, w.listed[n], FailedBy(w.listed[n].status, reason, now), m);
      }
    case SchedulerAdmits(n) =>
      if n in w.listed {
        UpdateConcernsOneJob(w, n, w.listed[n], w.listed[n].status.(phase := Preparing), m);
      }
    case _ =>
  }

  lemma UpdateConcernsOneJob(w: World, n: Text, snapshot: Job, status: Status, m: Text)
    requires m != n
    ensures Agree(w, UpdateStatus(w, n, snapshot, status), m)
  {
  }

  /** The statuses move along the lifecycle, and a job's requeue limit stays. */
  ghost predicate JobsMove(w: World, v: World) {
    forall n :: n in w.jobs && n in v.jobs ==>
      && Moves(w.jobs[n].status, v.jobs[n].status, w.jobs[n].spec)
      && v.jobs[n].spec.requeueLimit == w.jobs[n].spec.requeueLimit
  }

  lemma UpdateMoves(w: World, n: Text, snapshot: Job, status: Status)
    requires CopyInv(w, n, snapshot) && Moves(snapshot.status, status, snapshot.spec)
    ensures JobsMove(w, UpdateStatus(w, n, snapshot, status))
  {
  }

  lemma SchedulerMoves(w: World, a: Action)
    requires Inv(w) && (a.SchedulerFails? || a.SchedulerAdmits?)
    ensures JobsMove(w, Apply(w, a))
  {
    if a.name in w.listed {
      assert ListedInv(w, a.name);
      var s := w.listed[a.name].status;
      UpdateMoves(w, a.name, w.listed[a.name],
                  if a.SchedulerAdmits? then s.(phase := Preparing)
                  else FailedBy(s, a.reason, a.now));
    }
  }

  lemma StoreMoves(w: World, n: Text, f: Flight, again: bool)
    requires FlightInv(w, n, f) && f.pc.Storing?
    ensures JobsMove(w, StoreOn(w, n, f, again))
  {
    UpdateMoves(w, n, f.base, f.cur);
  }

  lemma FillMoves(w: World, n: Text, f: Flight, spec: Spec)
    requires CopyInv(w, n, f.base) && spec.requeueLimit == f.base.spec.requeueLimit
    ensures JobsMove(w, Fill(w, n, f, spec))
  {
  }

  lemma FillStepMoves(w: World, n: Text, c: Call)
    requires n in w.flights && CopyInv(w, n, w.flights[n].base) && (c.FillDeadline? || c.FillTtl?)
    ensures JobsMove(w, ReconcileStep(w, n, c))
  {
    var spec := w.flights[n].base.spec;
    FillMoves(w, n, w.flights[n],
              if c.FillTtl? then spec.(ttl := Some(c.seconds)) else spec.(activeDeadline := Some(c.seconds)));
  }

  lemma ReconcilerMoves(w: World, n: Text, c: Call)
    requires Inv(w) && n in w.flights
    ensures JobsMove(w, ReconcileStep(w, n, c))
  {
    var f := w.flights[n];
    assert FlightInv(w, n, f);
    match c
    case FillDeadline(_) => FillStepMoves(w, n, c);
    case FillTtl(_) => FillStepMoves(w, n, c);
    case Store => if f.pc.Storing? { StoreMoves(w, n, f, f.pc.again); }
    case _ => assert ReconcileStep(w, n, c).jobs == w.jobs;
  }

  lemma UserMoves(w: World, a: Action)
    requires NamesInv(w) && (a.Submit? || a.SetCancel? || a.UserDelete? || a.CleanerDeletes?)
    ensures JobsMove(w, Apply(w, a))
  {
    var v := Apply(w, a);
    forall n | n in w.jobs && n in v.jobs
      ensures v.jobs[n].status == w.jobs[n].status
              && v.jobs[n].spec.requeueLimit == w.jobs[n].spec.requeueLimit
    {
      assert n in w.used;
    }
  }

  /** Every write starts from the status it read, so it moves along the lifecycle. */
  lemma StepMoves(w: World, a: Action)
    requires Inv(w)
    ensures JobsMove(w, Apply(w, a))
  {
    if a.SchedulerFails? || a.SchedulerAdmits? {
      SchedulerMoves(w, a);
    } else if a.Goes? {
      if a.name in w.flights {
        ReconcilerMoves(w, a.name, a.call);
      }
    } else if WritesJobs(a) {
      UserMoves(w, a);
    }
  }

  lemma PodsComeFromCreate(w: World, a: Action, n: Text)
    requires n !in w.pods && n in Apply(w, a).pods
    ensures a.Goes? && a.name == n && a.call.Create? && n in w.flights && w.flights[n].pc.Creating?
  {
    if a.Goes? && a.name in w.flights {
      assert a.name != n ==> Agree(w, ReconcileStep(w, a.name, a.call), n);
    }
  }

  /**
   * Pods come from Create alone, and only for a job that is Preparing or Running when the pod
   * appears - unless a user has deleted the job meanwhile.
   */
  lemma PodsForActiveJobs(w: World, a: Action, n: Text)
    requires Inv(w) && n !in w.pods && n in Apply(w, a).pods
    ensures a.Goes? && a.name == n && a.call.Create?
    ensures n in w.flights && Podded(w.flights[n].base.status.phase)
    ensures n in Apply(w, a).jobs ==> Podded(Apply(w, a).jobs[n].status.phase)
  {
    PodsComeFromCreate(w, a, n);
    assert FlightInv(w, n, w.flights[n]);
    assert Apply(w, a).jobs == w.jobs;
  }

  /** The cleaner deletes from an old list and without a version, yet only finished jobs. */
  lemma CleanerDeletesOnlyFinal(w: World, n: Text)
    requires Inv(w) && n in w.jobs && n !in Apply(w, CleanerDeletes(n)).jobs
    ensures Final(w.jobs[n].status.phase)
  {
    assert DoomedInv(w, n);
  }

  // ---- runs ----

  /** A job name, once used, is never used for another job. */
  lemma NotRevived(w: World, a: Action, n: Text)
    requires n in w.used && n !in w.jobs
    ensures n !in Apply(w, a).jobs
  {
    if a.Goes? && a.name in w.flights {
      var f := w.flights[a.name];
      assert a.name != n ==> Agree(w, ReconcileStep(w, a.name, a.call), n);
      assert a.name == n ==> !Current(w, n, f.base);
    }
  }

  lemma {:induction false} UsedGrows(w: World, actions: seq<Action>)
    ensures w.used <= Run(w, actions).used
  {
    if actions != [] {
      UsedGrows(w, actions[..|actions| - 1]);
    }
  }

  lemma {:induction false} RunKeeps(w: World, actions: seq<Action>)
    requires Inv(w)
    ensures Inv(Run(w, actions))
  {
    if actions != [] {
      RunKeeps(w, actions[..|actions| - 1]);
      StepKeeps(Run(w, actions[..|actions| - 1]), actions[|actions| - 1]);
    }
  }

  lemma AllowedTransitive(a: Status, b: Status, c: Status, spec: Spec)
    requires Allowed(a, b, spec) && Allowed(b, c, spec)
    ensures Allowed(a, c, spec)
  {
  }

  /**
   * Between any two moments of any run: a job in a final phase stays in it or becomes
   * Cancelled, Cancelled stays, no job is Fresh again, start and finish times once set stay,
   * and the requeue count does not go down when its limit is below the top of int32.
   */
  lemma {:induction false} StatusesOnlyAdvance(w: World, actions: seq<Action>, n: Text)
    requires Inv(w) && n in w.jobs && n in Run(w, actions).jobs
    ensures Allowed(w.jobs[n].status, Run(w, actions).jobs[n].status, w.jobs[n].spec)
    ensures Run(w, actions).jobs[n].spec.requeueLimit == w.jobs[n].spec.requeueLimit
  {
    if actions != [] {
      var u := Run(w, actions[..|actions| - 1]);
      RunKeeps(w, actions[..|actions| - 1]);
      UsedGrows(w, actions[..|actions| - 1]);
      assert n in u.used;
      if n !in u.jobs {
        NotRevived(u, actions[|actions| - 1], n);
        assert false;
      }
      StatusesOnlyAdvance(w, actions[..|actions| - 1], n);
      StepMoves(u, actions[|actions| - 1]);
      var spec := w.jobs[n].spec;
      AllowedTransitive(w.jobs[n].status, u.jobs[n].status, Run(w, actions).jobs[n].status, spec);
    }
  }

  // ---- the theorems ----

  lemma {:induction false} RunConcat(w: World, a: seq<Action>, b: seq<Action>)
    ensures Run(Run(w, a), b) == Run(w, a + b)
  {
    if b == [] {
      assert a + b == a;
    } else {
      RunConcat(w, a, b[..|b| - 1]);
      assert (a + b)[..|a + b| - 1] == a + b[..|b| - 1];
    }
  }

  /**
   * In every interleaving: once a job is in a final phase it stays in that phase or becomes
   * Cancelled, and Cancelled never changes.
   */
  lemma FinalPhasesStay(before: seq<Action>, after: seq<Action>, n: Text)
    requires n in Run(INITIAL, before).jobs && n in Run(INITIAL, before + after).jobs
    ensures var a := Run(INITIAL, before).jobs[n].status.phase;
            var b := Run(INITIAL, before + after).jobs[n].status.phase;
            && (Final(a) ==> b == a || b == Cancelled)
            && (a == Cancelled ==> b == Cancelled)
  {
    Reachable(before);
    RunConcat(INITIAL, before, after);
    StatusesOnlyAdvance(Run(INITIAL, before), after, n);
  }

  /**
   * In every reachable state the finish time is set exactly in the final phases, a Running job
   * has a start time, and a job starts before it finishes and neither lies in the future. So
   * the branches of handleTTL and of the cleaner for a missing finish time are never taken.
   */
  lemma TimesAreConsistent(actions: seq<Action>, n: Text)
    requires n in Run(INITIAL, actions).jobs
    ensures var w := Run(INITIAL, actions);
            var j := w.jobs[n];
            && (Final(j.status.phase) <==> j.status.finishTime.Some?)
            && (j.status.phase == Running ==> j.status.startTime.Some?)
            && (j.status.startTime.Some? && j.status.finishTime.Some? ==>
                  j.status.startTime.value <= j.status.finishTime.value <= w.clock)
            && (j.spec.ttl.Some? && Final(j.status.phase) ==> TtlStatus(j, j.status) == j.status)
            && forall m :: m in w.doomed ==> w.doomed[m].status.finishTime.Some?
  {
    Reachable(actions);
    var w := Run(INITIAL, actions);
    assert JobInv(w, n);
    forall m | m in w.doomed ensures w.doomed[m].status.finishTime.Some? {
      assert DoomedInv(w, m);
    }
  }

  /** From s to t: the end is stamped with this moment, and so is the start, unless it was before. */
  predicate Stamped(s: Status, t: Status, now: int) {
    && (!Final(s.phase) && Final(t.phase) ==> t.finishTime == Some(now))
    && (s.phase != Running && t.phase == Running ==>
          t.startTime == if s.startTime.Some? then s.startTime else Some(now))
  }

  /** Until its status is ready to be written, a job that has not ended has no finish time. */
  lemma InHand(w: World, n: Text, f: Flight)
    requires Inv(w) && n in w.flights && f == w.flights[n] && !f.pc.Storing?
    ensures !Final(f.cur.phase) ==> f.cur.finishTime.None?
  {
    assert FlightInv(w, n, f);
  }

  lemma LookStamps(s: Status, pod: KubePod, now: int)
    requires !Final(s.phase) ==> s.finishTime.None?
    ensures Stamped(s, AfterLook(s, pod, now), now)
  {
  }

  lemma CauseStamps(f: Flight, cause: Cause, now: int)
    requires !Final(f.cur.phase) ==> f.cur.finishTime.None?
    ensures Stamped(f.cur, AfterCancel(f.cur, now), now)
    ensures cause.Deleted? && cause.why.Limiting? ==> Stamped(f.cur, AfterLimit(f.cur, cause.why.reason, now), now)
    ensures Stamped(f.cur, AfterCreateFailure(f.cur, now), now)
    ensures f.cur.requeued.Some? ==> Stamped(f.cur, AfterRequeue(f.cur, false), now)
  {
  }

  /** What a stamp leaves in hand. */
  lemma StampLeaves(w: World, n: Text, f: Flight, cause: Cause)
    requires n in w.flights && n in StampOn(w, n, f, cause).flights
    ensures var t := StampOn(w, n, f, cause).flights[n].cur;
            match cause
            case CreateFailed => t == AfterCreateFailure(f.cur, w.clock)
            case Deleted(Cancelling) => t == AfterCancel(f.cur, w.clock)
            case Deleted(Limiting(reason)) => t == AfterLimit(f.cur, reason, w.clock)
            case Deleted(TimedOut) => f.cur.requeued.Some? && t == AfterRequeue(f.cur, false)
            case Deleted(Expiring) => t == f.cur
  {
  }

  /** The other steps neither end nor start a job. */
  lemma OthersStamp(w: World, n: Text, c: Call)
    requires n in w.flights && !c.Stamp? && !c.Judge? && !c.Decide?
    requires n in ReconcileStep(w, n, c).flights
    ensures var s, t := w.flights[n].cur, ReconcileStep(w, n, c).flights[n].cur;
            t.phase == s.phase || t.phase == Pending
  {
  }

  lemma DecideStamps(w: World, n: Text)
    requires n in w.flights && n in ReconcileStep(w, n, Decide).flights
    ensures var s, t := w.flights[n].cur, ReconcileStep(w, n, Decide).flights[n].cur;
            t.phase == s.phase || t.phase == Pending
  {
  }

  /**
   * The finish time is the moment at which a reconcile finds that the job has come to its end,
   * and the start time the moment at which it finds that the job runs.
   */
  lemma TimesAreStamped(w: World, n: Text, c: Call)
    requires Inv(w) && n in w.flights && n in ReconcileStep(w, n, c).flights
    ensures Stamped(w.flights[n].cur, ReconcileStep(w, n, c).flights[n].cur, w.clock)
  {
    var f := w.flights[n];
    if !f.pc.Storing? {
      InHand(w, n, f);
    }
    match c
    case Stamp =>
      if f.pc.Stamping? {
        StampLeaves(w, n, f, f.pc.cause);
        CauseStamps(f, f.pc.cause, w.clock);
      }
    case Judge =>
      if f.pc.Observing? {
        LookStamps(f.cur, f.pc.pod, w.clock);
      }
    case Decide => DecideStamps(w, n);
    case _ => OthersStamp(w, n, c);
  }

  /** The scheduler's failures are stamped with the moment at which the job was examined. */
  lemma FailuresAreStamped(w: World, n: Text, reason: Reason, now: int)
    requires Inv(w) && n in w.jobs && n in Apply(w, SchedulerFails(n, reason, now)).jobs
    ensures var s, t := w.jobs[n].status, Apply(w, SchedulerFails(n, reason, now)).jobs[n].status;
            t != s ==> s.phase == Pending && w.listedAt <= now <= w.clock
                       && t == s.(phase := Failed, reason := reason, finishTime := Some(now))
  {
    if n in w.listed {
      assert ListedInv(w, n);
    }
  }

  /** Start and finish times are written at most once. */
  lemma TimesAreWrittenOnce(before: seq<Action>, after: seq<Action>, n: Text)
    requires n in Run(INITIAL, before).jobs && n in Run(INITIAL, before + after).jobs
    ensures var a := Run(INITIAL, before).jobs[n].status;
            var b := Run(INITIAL, before + after).jobs[n].status;
            && (a.startTime.Some? ==> b.startTime == a.startTime)
            && (a.finishTime.Some? ==> b.finishTime == a.finishTime)
  {
    Reachable(before);
    RunConcat(INITIAL, before, after);
    StatusesOnlyAdvance(Run(INITIAL, before), after, n);
  }

  /** In every reachable state a job that is new, Pending or Cancelled has no pod. */
  lemma PodlessPhasesHaveNoPod(actions: seq<Action>, n: Text)
    requires n in Run(INITIAL, actions).jobs
    requires Podless(Run(INITIAL, actions).jobs[n].status.phase)
    ensures n !in Run(INITIAL, actions).pods
  {
    Reachable(actions);
    assert JobInv(Run(INITIAL, actions), n);
  }

  /** The cleaner never deletes a job that is not final at that moment. */
  lemma CleanerIsSafe(actions: seq<Action>, n: Text)
    requires n in Run(INITIAL, actions).jobs
    requires n !in Run(INITIAL, actions + [CleanerDeletes(n)]).jobs
    ensures Final(Run(INITIAL, actions).jobs[n].status.phase)
  {
    Reachable(actions);
    assert (actions + [CleanerDeletes(n)])[..|actions|] == actions;
    CleanerDeletesOnlyFinal(Run(INITIAL, actions), n);
  }

  /**
   * For a requeue limit below the top of int32 the count never exceeds the limit by more than
   * one, is never negative, and never goes down.
   */
  lemma RequeueCountBounded(before: seq<Action>, after: seq<Action>, n: Text)
    requires n in Run(INITIAL, before).jobs && n in Run(INITIAL, before + after).jobs
    requires Bounded(Run(INITIAL, before).jobs[n].spec)
    requires Run(INITIAL, before).jobs[n].status.requeued.Some?
    ensures var a, b := Run(INITIAL, before).jobs[n], Run(INITIAL, before + after).jobs[n];
            b.status.requeued.Some?
            && 0 <= a.status.requeued.value <= b.status.requeued.value
               <= Most(0, a.spec.requeueLimit.value + 1)
  {
    Reachable(before);
    RunConcat(INITIAL, before, after);
    CountBetween(Run(INITIAL, before), after, n);
  }

  lemma CountBetween(w: World, actions: seq<Action>, n: Text)
    requires Inv(w) && n in w.jobs && n in Run(w, actions).jobs
    requires Bounded(w.jobs[n].spec) && w.jobs[n].status.requeued.Some?
    ensures var a, b := w.jobs[n], Run(w, actions).jobs[n];
            b.status.requeued.Some?
            && 0 <= a.status.requeued.value <= b.status.requeued.value
               <= Most(0, a.spec.requeueLimit.value + 1)
  {
    RunKeeps(w, actions);
    StatusesOnlyAdvance(w, actions, n);
    assert JobInv(w, n) && JobInv(Run(w, actions), n);
  }
}
