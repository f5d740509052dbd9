/**
 * What a reconcile comes to that nobody disturbs, in terms of the job and the pod that it finds
 * and of the clock: every case, and every field of the status.
 */
module Outcomes {
  import opened Prelude
  import opened Escapism
  import opened Jobs
  import opened Pods
  import opened Protocol
  import opened ProtocolEffects

  // ---- what the reconcile finds ----

  function RequeuesOf(s: Status): int {
    if s.requeued.Some? then s.requeued.value else 0
  }

  /** It was requeued more often than it may be. */
  predicate TooOften(j: Job) {
    j.spec.requeueLimit.Some? && RequeuesOf(j.status) > j.spec.requeueLimit.value
  }

  /** It has a deadline other than zero, and was started that long ago. */
  predicate TooLong(j: Job, now: int) {
    && j.spec.activeDeadline.Some? && j.spec.activeDeadline.value != 0 && j.status.startTime.Some?
    && now >= j.status.startTime.value + Seconds(j.spec.activeDeadline.value)
  }

  /** The finish time; when it is missing, the start time. */
  function FinishOf(s: Status): Option<int> {
    if s.finishTime.Some? then s.finishTime else s.startTime
  }

  /** It has a time to live other than zero, and finished longer ago than that. */
  predicate Outlived(j: Job, now: int) {
    && j.spec.ttl.Some? && j.spec.ttl.value != 0 && FinishOf(j.status).Some?
    && now > FinishOf(j.status).value + Seconds(j.spec.ttl.value)
  }

  predicate Finished(j: Job) {
    j.status.phase in {Succeeded, Failed, Unknown, Cancelled}
  }

  /** Nothing keeps the reconcile from looking after the pod of a job in that phase. */
  predicate GoesOn(w: World, n: Text, phases: set<Phase>)
    requires Ready(w, n)
  {
    var j := w.jobs[n];
    !j.spec.cancel && !TooOften(j) && !TooLong(j, w.clock) && j.status.phase in phases
  }

  /** Three minutes and more, in nanoseconds. */
  predicate PendingTooLong(pod: KubePod, now: int) {
    pod.phase == KubePending && now >= pod.created + 180_000_000_000
  }

  // ---- what it leaves ----

  /** The reconcile is over, and of job n nothing but the status has changed. */
  predicate Over(w: World, v: World, n: Text) {
    n in w.jobs && n in v.jobs && n !in v.flights && v.jobs[n].spec == w.jobs[n].spec
  }

  predicate SamePod(w: World, v: World, n: Text) {
    (n in v.pods <==> n in w.pods) && (n in v.pods ==> v.pods[n] == w.pods[n])
  }

  /** A reconcile that deletes the pod. */
  function Deletes(w: World, n: Text): World {
    Apply(Apply(Apply(Begun(w, n), Goes(n, Remove)), Goes(n, Stamp)), Goes(n, Store))
  }

  /** A reconcile that leaves the pod alone. */
  function Rests(w: World, n: Text): World {
    Apply(Begun(w, n), Goes(n, Store))
  }

  /** A reconcile that looks at a pod that is there. */
  function Looks(w: World, n: Text): World {
    Apply(Apply(Apply(Apply(Begun(w, n), Goes(n, Look)), Goes(n, Judge)), Goes(n, Store)), Goes(n, Store))
  }

  /** A reconcile that looks at a pod, and deletes it. */
  function Requeues(w: World, n: Text): World {
    var v := Apply(Apply(Apply(Begun(w, n), Goes(n, Look)), Goes(n, Judge)), Goes(n, Remove));
    Apply(Apply(Apply(v, Goes(n, Stamp)), Goes(n, Store)), Goes(n, Store))
  }

  /** A reconcile that finds no pod, and is answered so when it makes one. */
  function Makes(w: World, n: Text, answer: Answer): World {
    var v := Apply(Apply(Begun(w, n), Goes(n, Look)), Goes(n, Create(answer)));
    Apply(Apply(if answer.Broken? then Apply(v, Goes(n, Stamp)) else v, Goes(n, Store)), Goes(n, Store))
  }

  // ---- the steps ----

  lemma Removed(v: World, n: Text, cur: Status, why: Why)
    requires Holding(v, n, cur, Removing(why)) && !why.TimedOut?
    ensures var u := Apply(Apply(v, Goes(n, Remove)), Goes(n, Stamp));
            && n !in u.pods
            && Closing(u, n, match why
                             case Cancelling => AfterCancel(cur, v.clock)
                             case Limiting(reason) => AfterLimit(cur, reason, v.clock)
                             case _ => cur)
            && n in u.jobs && u.jobs[n].spec == v.jobs[n].spec
  {
    var x := Apply(v, Goes(n, Remove));
    assert Holding(x, n, cur, Stamping(Cause.Deleted(why))) && n !in x.pods && x.clock == v.clock && x.jobs == v.jobs;
  }

  lemma DeletedFor(w: World, n: Text, cur: Status, why: Why)
    requires Ready(w, n) && ChoosesWith(w, n, cur, Removing(why)) && !why.TimedOut?
    ensures var v := Deletes(w, n);
            && Over(w, v, n) && n !in v.pods
            && v.jobs[n].status == match why
                                   case Cancelling => AfterCancel(cur, w.clock)
                                   case Limiting(reason) => AfterLimit(cur, reason, w.clock)
                                   case _ => cur
  {
    DecidedWith(w, n, cur, Removing(why));
    var u := Apply(Apply(Begun(w, n), Goes(n, Remove)), Goes(n, Stamp));
    Removed(Begun(w, n), n, cur, why);
    Closes(u, n, match why
                 case Cancelling => AfterCancel(cur, w.clock)
                 case Limiting(reason) => AfterLimit(cur, reason, w.clock)
                 case _ => cur);
  }

  /** The status is written, or is what it was. */
  lemma Rested(w: World, n: Text, cur: Status)
    requires Ready(w, n)
    requires if cur == w.jobs[n].status then Chosen(w.jobs[n], w.jobs[n].status, StatusOf(w, n), w.clock) == None
             else ChoosesWith(w, n, cur, Storing(false))
    ensures var v := Rests(w, n); Over(w, v, n) && SamePod(w, v, n) && v.jobs[n].status == cur
  {
    if cur != w.jobs[n].status {
      DecidedWith(w, n, cur, Storing(false));
      Closes(Begun(w, n), n, cur);
    }
  }

  /** From a look at the pod to its judgement. */
  lemma Judged(w: World, n: Text)
    requires Ready(w, n) && Chooses(w, n, Looking) && n in w.pods
    ensures var v := Apply(Apply(Begun(w, n), Goes(n, Look)), Goes(n, Judge));
            && v.pods == w.pods && v.clock == w.clock && v.jobs == w.jobs
            && if PendingTooLong(w.pods[n], w.clock) then Holding(v, n, StatusOf(w, n), Removing(TimedOut))
               else Holding(v, n, AfterLook(StatusOf(w, n), w.pods[n], w.clock), Storing(true))
  {
    Decided(w, n, Looking);
    var b := Apply(Begun(w, n), Goes(n, Look));
    assert Holding(b, n, StatusOf(w, n), Observing(w.pods[n])) && b.pods == w.pods && b.clock == w.clock
           && b.jobs == w.jobs;
  }

  lemma RequeuedAfter(v: World, n: Text, cur: Status)
    requires Holding(v, n, cur, Removing(TimedOut)) && cur.requeued.Some?
    ensures var u := Apply(Apply(v, Goes(n, Remove)), Goes(n, Stamp));
            Holding(u, n, AfterRequeue(cur, false), Storing(true)) && n !in u.pods && u.jobs == v.jobs
  {
    var x := Apply(v, Goes(n, Remove));
    assert Holding(x, n, cur, Stamping(Cause.Deleted(TimedOut))) && n !in x.pods && x.jobs == v.jobs;
  }

  /** From a look that finds no pod to the answer of Create. */
  lemma Answered(w: World, n: Text, answer: Answer)
    requires Ready(w, n) && Chooses(w, n, Looking) && n !in w.pods
    ensures var v := Apply(Apply(Begun(w, n), Goes(n, Look)), Goes(n, Create(answer)));
            var s := StatusOf(w, n);
            && v.jobs == w.jobs && v.clock == w.clock
            && (n in v.pods <==> answer.Created? || (answer.Broken? && answer.landed))
            && (n in v.pods ==> v.pods[n].phase == KubePending && v.pods[n].created == w.clock)
            && match answer
               case Created => Holding(v, n, s.(podName := n), Storing(true))
               case Rejected => Holding(v, n, AfterRequeue(s, true), Storing(true))
               case Broken(_) => Holding(v, n, s, Stamping(CreateFailed))
  {
    Decided(w, n, Looking);
    var b := Apply(Begun(w, n), Goes(n, Look));
    assert Holding(b, n, StatusOf(w, n), Creating) && b.pods == w.pods && b.clock == w.clock && b.jobs == w.jobs;
  }

  // ---- the outcomes ----

  /** A cancelled job ends up Cancelled, whatever it was before, and its pod is deleted. */
  lemma CancelTakesEffect(w: World, n: Text)
    requires Ready(w, n) && w.jobs[n].spec.cancel
    ensures var v, s := Deletes(w, n), w.jobs[n].status;
            && Over(w, v, n) && n !in v.pods
            && v.jobs[n].status == Status(Cancelled, ByUser, s.podName, s.startTime,
                                          if s.finishTime.Some? then s.finishTime else Some(w.clock),
                                          Some(RequeuesOf(s)))
  {
    DeletedFor(w, n, StatusOf(w, n), Cancelling);
  }

  /** A job that was requeued too often, or has been active for too long, fails; its pod is deleted. */
  lemma LimitsTakeEffect(w: World, n: Text)
    requires Ready(w, n) && !w.jobs[n].spec.cancel && !Finished(w.jobs[n])
    requires TooOften(w.jobs[n]) || TooLong(w.jobs[n], w.clock)
    ensures var v, s := Deletes(w, n), w.jobs[n].status;
            var reason := if TooOften(w.jobs[n]) then OverRequeueLimit else OverActivateDeadline;
            && Over(w, v, n) && n !in v.pods
            && v.jobs[n].status == Status(Failed, reason, s.podName, s.startTime,
                                          if s.finishTime.Some? then s.finishTime else Some(w.clock),
                                          Some(RequeuesOf(s)))
  {
    DeletedFor(w, n, StatusOf(w, n),
               Limiting(if TooOften(w.jobs[n]) then OverRequeueLimit else OverActivateDeadline));
  }

  /** What a reconcile makes of the status of a finished job. */
  function Settled(j: Job): Status
    requires j.spec.ttl.Some?
  {
    j.status.(finishTime := if j.spec.ttl.value != 0 then FinishOf(j.status) else j.status.finishTime,
              requeued := Some(RequeuesOf(j.status)))
  }

  /** The pod of a finished job is deleted once its time to live is over, and not before. */
  lemma TtlTakesEffect(w: World, n: Text)
    requires Ready(w, n) && !w.jobs[n].spec.cancel && Finished(w.jobs[n])
    ensures var v := if Outlived(w.jobs[n], w.clock) then Deletes(w, n) else Rests(w, n);
            && Over(w, v, n) && v.jobs[n].status == Settled(w.jobs[n])
            && if Outlived(w.jobs[n], w.clock) then n !in v.pods else SamePod(w, v, n)
  {
    var j := w.jobs[n];
    if Outlived(j, w.clock) {
      DeletedFor(w, n, Settled(j), Expiring);
    } else {
      Rested(w, n, Settled(j));
    }
  }

  /** A job that is new or waits for admission stays so: only the scheduler lets it go on. */
  lemma PendingTakesEffect(w: World, n: Text)
    requires Ready(w, n) && GoesOn(w, n, {Fresh, Pending})
    ensures var v, s := Rests(w, n), w.jobs[n].status;
            && Over(w, v, n) && SamePod(w, v, n)
            && v.jobs[n].status == s.(phase := Pending, requeued := Some(RequeuesOf(s)),
                                      reason := if s.phase == Fresh then OverQuota else s.reason)
  {
    Rested(w, n, StatusOf(w, n));
  }

  /** An admitted job without a pod is given one; or it is requeued, or fails, as Create answers. */
  lemma MissingPodTakesEffect(w: World, n: Text, answer: Answer)
    requires Ready(w, n) && GoesOn(w, n, {Preparing, Running}) && n !in w.pods
    ensures var v, s := Makes(w, n, answer), w.jobs[n].status;
            && Over(w, v, n)
            && (n in v.pods <==> answer.Created? || (answer.Broken? && answer.landed))
            && (n in v.pods ==> v.pods[n].phase == KubePending && v.pods[n].created == w.clock)
            && v.jobs[n].status
               == match answer
                  case Created => s.(podName := n, requeued := Some(RequeuesOf(s)))
                  case Rejected =>
                    s.(phase := Pending, reason := OverQuota, requeued := Some(Wrap32(RequeuesOf(s) + 1)))
                  case Broken(_) =>
                    s.(phase := Failed, reason := PodCreationFailed, finishTime := Some(w.clock),
                       requeued := Some(RequeuesOf(s)))
  {
    Answered(w, n, answer);
    RequeueOf(w.jobs[n].status);
    Made(Apply(Apply(Begun(w, n), Goes(n, Look)), Goes(n, Create(answer))), n, StatusOf(w, n), answer);
  }

  /** From the answer of Create to the end. */
  lemma Made(v: World, n: Text, t: Status, answer: Answer)
    requires t.requeued.Some?
    requires match answer
             case Created => Holding(v, n, t.(podName := n), Storing(true))
             case Rejected => Holding(v, n, AfterRequeue(t, true), Storing(true))
             case Broken(_) => Holding(v, n, t, Stamping(CreateFailed))
    ensures var a := if answer.Broken? then Apply(v, Goes(n, Stamp)) else v;
            var u := Apply(Apply(a, Goes(n, Store)), Goes(n, Store));
            && Over(v, u, n) && u.pods == v.pods
            && u.jobs[n].status == match answer
                                   case Created => t.(podName := n)
                                   case Rejected => AfterRequeue(t, true)
                                   case Broken(_) => AfterCreateFailure(t, v.clock)
  {
    match answer
    case Created => StoredTwice(v, n, t.(podName := n));
    case Rejected => StoredTwice(v, n, AfterRequeue(t, true));
    case Broken(_) =>
      CreationFailed(v, n, t);
      StoredTwice(Apply(v, Goes(n, Stamp)), n, AfterCreateFailure(t, v.clock));
  }

  lemma CreationFailed(v: World, n: Text, cur: Status)
    requires Holding(v, n, cur, Stamping(CreateFailed))
    ensures var u := Apply(v, Goes(n, Stamp));
            Holding(u, n, AfterCreateFailure(cur, v.clock), Storing(true)) && u.jobs == v.jobs && u.pods == v.pods
  {
  }

  /** A pod that has been pending for three minutes is deleted, and its job waits for admission again. */
  lemma TimeoutTakesEffect(w: World, n: Text)
    requires Ready(w, n) && GoesOn(w, n, {Preparing, Running})
    requires n in w.pods && PendingTooLong(w.pods[n], w.clock)
    ensures var v, s := Requeues(w, n), w.jobs[n].status;
            && Over(w, v, n) && n !in v.pods
            && v.jobs[n].status == s.(phase := Pending, requeued := Some(Wrap32(RequeuesOf(s) + 1)))
  {
    Judged(w, n);
    RequeueOf(w.jobs[n].status);
    Requeued(Apply(Apply(Begun(w, n), Goes(n, Look)), Goes(n, Judge)), n, StatusOf(w, n));
  }

  lemma RequeueOf(s: Status)
    requires s.phase != Fresh
    ensures Normalised(s).requeued == Some(RequeuesOf(s))
    ensures AfterRequeue(Normalised(s), false) == s.(phase := Pending, requeued := Some(Wrap32(RequeuesOf(s) + 1)))
    ensures AfterRequeue(Normalised(s), true)
            == s.(phase := Pending, reason := OverQuota, requeued := Some(Wrap32(RequeuesOf(s) + 1)))
  {
  }

  /** From the judgement to the end. */
  lemma Requeued(a: World, n: Text, t: Status)
    requires Holding(a, n, t, Removing(TimedOut)) && t.requeued.Some?
    ensures var v := Apply(Apply(a, Goes(n, Remove)), Goes(n, Stamp));
            var u := Apply(Apply(v, Goes(n, Store)), Goes(n, Store));
            Over(a, u, n) && n !in u.pods && u.jobs[n].status == AfterRequeue(t, false)
  {
    RequeuedAfter(a, n, t);
    StoredTwice(Apply(Apply(a, Goes(n, Remove)), Goes(n, Stamp)), n, AfterRequeue(t, false));
  }

  /**
   * Any other pod stays, and the job takes its phase from it: a pod that has ended ends the
   * job now, and one that runs starts it now, unless it has ended or started before.
   */
  lemma PodTakesEffect(w: World, n: Text)
    requires Ready(w, n) && GoesOn(w, n, {Preparing, Running})
    requires n in w.pods && !PendingTooLong(w.pods[n], w.clock)
    ensures var v, s, pod := Looks(w, n), w.jobs[n].status, w.pods[n];
            var t, ends := s.(requeued := Some(RequeuesOf(s))),
                           if s.finishTime.Some? then s.finishTime else Some(w.clock);
            && Over(w, v, n) && SamePod(w, v, n)
            && v.jobs[n].status
               == match pod.phase
                  case KubeSucceeded => t.(phase := Succeeded, reason := PodSucceeded, finishTime := ends)
                  case KubeFailed =>
                    t.(phase := Failed, reason := if pod.containers then PodFailed else s.reason, finishTime := ends)
                  case KubeUnknown =>
                    t.(phase := Unknown, reason := if pod.conditions then PodUnknown else s.reason, finishTime := ends)
                  case KubePending => t.(reason := if pod.conditions then PodPending else s.reason)
                  case KubeRunning =>
                    t.(phase := Running, reason := PodRunning,
                       startTime := if s.startTime.Some? then s.startTime else Some(w.clock))
  {
    Judged(w, n);
    StoredTwice(Apply(Apply(Begun(w, n), Goes(n, Look)), Goes(n, Judge)), n,
                AfterLook(StatusOf(w, n), w.pods[n], w.clock));
  }
}
