/**
 * The requeue count is an int32, and nothing stops it at the top when the limit is missing, or
 * is itself the top. Then there is a run in which the count falls, and for any number there is
 * a run that makes that many pods.
 */
module RequeueWrap {
  import opened Prelude
  import opened Escapism
  import opened Jobs
  import opened Pods
  import opened Protocol
  import opened ProtocolEffects
  import opened ProtocolSafety
  import opened PodBudget

  /** The job waits for admission, after k requeues and as many pods as `made`. */
  predicate Waiting(w: World, limit: Option<int>, k: int, made: nat) {
    Idle(w, [], limit, Pending, k) && [] !in w.pods && MadeOf(w, []) == made
  }

  /** The job has a pod that is pending. */
  predicate Started(w: World, limit: Option<int>, k: int, made: nat) {
    && Idle(w, [], limit, Preparing, k) && MadeOf(w, []) == made
    && [] in w.pods && w.pods[[]].phase == KubePending && w.pods[[]].created <= w.clock
  }

  // ---- from the pod back to waiting ----

  lemma LookedJob(w: World, limit: Option<int>, k: int, made: nat)
    requires Started(w, limit, k, made) && (limit.Some? ==> k <= limit.value)
    ensures var b := Apply(Begun(w, []), Goes([], Look));
            && Holding(b, [], w.jobs[[]].status, Observing(w.pods[[]]))
            && b.jobs == w.jobs && b.clock == w.clock && b.made == w.made
  {
    Decided(w, [], Looking);
  }

  lemma JudgedJob(b: World, s: Status, pod: KubePod)
    requires Holding(b, [], s, Observing(pod)) && pod.phase == KubePending
    requires pod.created + PREPARING_TIMEOUT <= b.clock
    ensures var u := Apply(b, Goes([], Judge));
            Holding(u, [], s, Removing(TimedOut)) && u.jobs == b.jobs && u.made == b.made
  {
  }

  lemma TimedOutJob(w: World, limit: Option<int>, k: int, made: nat)
    requires Started(w, limit, k, made) && (limit.Some? ==> k <= limit.value)
    requires w.pods[[]].created + PREPARING_TIMEOUT <= w.clock
    ensures var u := Apply(Apply(Begun(w, []), Goes([], Look)), Goes([], Judge));
            && Holding(u, [], w.jobs[[]].status, Removing(TimedOut))
            && u.jobs[[]].spec == Endless(limit) && MadeOf(u, []) == made
  {
    LookedJob(w, limit, k, made);
    JudgedJob(Apply(Begun(w, []), Goes([], Look)), w.jobs[[]].status, w.pods[[]]);
  }

  lemma RequeuedJob(v: World, s: Status, k: int, next: int) returns (t: Status)
    requires Holding(v, [], s, Removing(TimedOut)) && Unstarted(s, Preparing, k) && next == Wrap32(k + 1)
    ensures Unstarted(t, Pending, next)
    ensures var u := Apply(Apply(v, Goes([], Remove)), Goes([], Stamp));
            && Holding(u, [], t, Storing(true)) && u.jobs == v.jobs && u.made == v.made && [] !in u.pods
  {
    t := AfterRequeue(s, false);
    var x := Apply(v, Goes([], Remove));
    assert Holding(x, [], s, Stamping(Cause.Deleted(TimedOut))) && [] !in x.pods && x.jobs == v.jobs;
  }

  // ---- as runs ----

  /** One more action, which keeps the run smooth. */
  lemma Next(actions: seq<Action>, a: Action) returns (more: seq<Action>)
    requires SmoothRun(INITIAL, actions, []) && Smooth(Run(INITIAL, actions), a, [])
    ensures more == actions + [a] && SmoothRun(INITIAL, more, [])
    ensures Run(INITIAL, more) == Apply(Run(INITIAL, actions), a)
  {
    more := actions + [a];
    assert more[..|more| - 1] == actions;
  }

  /** Such an action is smooth in every state. */
  predicate Calm(a: Action) {
    !a.PodVanishes? && (a.Goes? ==> !a.call.Drop? && !a.call.Store?)
  }

  lemma NextCalm(actions: seq<Action>, a: Action) returns (more: seq<Action>)
    requires SmoothRun(INITIAL, actions, []) && Calm(a)
    ensures more == actions + [a] && SmoothRun(INITIAL, more, [])
    ensures Run(INITIAL, more) == Apply(Run(INITIAL, actions), a)
  {
    more := Next(actions, a);
  }

  lemma NextTwo(before: seq<Action>, a: Action, b: Action) returns (more: seq<Action>)
    requires SmoothRun(INITIAL, before, []) && Calm(a) && Calm(b)
    ensures before <= more && SmoothRun(INITIAL, more, [])
    ensures Run(INITIAL, more) == Apply(Apply(Run(INITIAL, before), a), b)
  {
    more := NextCalm(before, a);
    more := NextCalm(more, b);
  }

  /** The two writes that end a reconcile. */
  lemma StoredRun(before: seq<Action>, cur: Status) returns (actions: seq<Action>)
    requires SmoothRun(INITIAL, before, []) && Holding(Run(INITIAL, before), [], cur, Storing(true))
    ensures before <= actions && SmoothRun(INITIAL, actions, [])
    ensures Run(INITIAL, actions)
            == Apply(Apply(Run(INITIAL, before), Goes([], Store)), Goes([], Store))
  {
    var w := Run(INITIAL, before);
    StoredOnce(w, [], cur);
    actions := Next(before, Goes([], Store));
    actions := Next(actions, Goes([], Store));
  }

  lemma AdmittedRun(before: seq<Action>, limit: Option<int>, k: int) returns (actions: seq<Action>)
    requires SmoothRun(INITIAL, before, []) && Waiting(Run(INITIAL, before), limit, k, MadeOf(Run(INITIAL, before), []))
    ensures before <= actions && SmoothRun(INITIAL, actions, [])
    ensures var w := Run(INITIAL, actions);
            && Idle(w, [], limit, Preparing, k) && [] !in w.pods
            && MadeOf(w, []) == MadeOf(Run(INITIAL, before), [])
  {
    AdmittedJob(Run(INITIAL, before), [], limit, k);
    actions := NextTwo(before, SchedulerLists, SchedulerAdmits([]));
  }

  lemma MadeRun(before: seq<Action>, limit: Option<int>, k: int) returns (actions: seq<Action>, s: Status)
    requires SmoothRun(INITIAL, before, []) && Idle(Run(INITIAL, before), [], limit, Preparing, k)
    requires [] !in Run(INITIAL, before).pods && (limit.Some? ==> k <= limit.value)
    ensures before <= actions && SmoothRun(INITIAL, actions, []) && Unstarted(s, Preparing, k)
    ensures var w := Run(INITIAL, actions);
            && Holding(w, [], s, Storing(true)) && w.jobs[[]].spec == Endless(limit)
            && MadeOf(w, []) == MadeOf(Run(INITIAL, before), []) + 1
            && [] in w.pods && w.pods[[]].phase == KubePending && w.pods[[]].created <= w.clock
  {
    var w := Run(INITIAL, before);
    s := w.jobs[[]].status.(podName := []);
    MadeJob(w, [], limit, k);
    actions := NextTwo(before, Open([]), Goes([], Decide));
    actions := NextTwo(actions, Goes([], Look), Goes([], Create(Created)));
  }

  lemma StartedRun(before: seq<Action>, limit: Option<int>, k: int, made: nat)
    returns (actions: seq<Action>)
    requires SmoothRun(INITIAL, before, []) && Waiting(Run(INITIAL, before), limit, k, made)
    requires limit.Some? ==> k <= limit.value
    ensures before <= actions && SmoothRun(INITIAL, actions, [])
    ensures Started(Run(INITIAL, actions), limit, k, made + 1)
  {
    var s;
    actions := AdmittedRun(before, limit, k);
    actions, s := MadeRun(actions, limit, k);
    StoredTwice(Run(INITIAL, actions), [], s);
    actions := StoredRun(actions, s);
  }

  lemma LateRun(before: seq<Action>, limit: Option<int>, k: int, made: nat) returns (actions: seq<Action>)
    requires SmoothRun(INITIAL, before, []) && Started(Run(INITIAL, before), limit, k, made)
    ensures before <= actions && SmoothRun(INITIAL, actions, [])
    ensures var w := Run(INITIAL, actions);
            Started(w, limit, k, made) && w.pods[[]].created + PREPARING_TIMEOUT <= w.clock
  {
    actions := NextCalm(before, Pass(Run(INITIAL, before).clock + PREPARING_TIMEOUT));
  }

  /** The reconcile finds that the pod has timed out. */
  lemma TimedOutRun(before: seq<Action>, limit: Option<int>, k: int, made: nat)
    returns (actions: seq<Action>, s: Status)
    requires SmoothRun(INITIAL, before, []) && Started(Run(INITIAL, before), limit, k, made)
    requires limit.Some? ==> k <= limit.value
    ensures before <= actions && SmoothRun(INITIAL, actions, []) && Unstarted(s, Preparing, k)
    ensures var u := Run(INITIAL, actions);
            && Holding(u, [], s, Removing(TimedOut))
            && u.jobs[[]].spec == Endless(limit) && MadeOf(u, []) == made
  {
    actions := LateRun(before, limit, k, made);
    s := Run(INITIAL, actions).jobs[[]].status;
    TimedOutJob(Run(INITIAL, actions), limit, k, made);
    actions := NextTwo(actions, Open([]), Goes([], Decide));
    actions := NextTwo(actions, Goes([], Look), Goes([], Judge));
  }

  /** The pod times out, and the job is back where it was. */
  lemma RequeuedRun(before: seq<Action>, limit: Option<int>, k: int, made: nat, next: int)
    returns (actions: seq<Action>)
    requires SmoothRun(INITIAL, before, []) && Started(Run(INITIAL, before), limit, k, made)
    requires (limit.Some? ==> k <= limit.value) && next == Wrap32(k + 1)
    ensures before <= actions && SmoothRun(INITIAL, actions, [])
    ensures Waiting(Run(INITIAL, actions), limit, next, made)
  {
    var s;
    actions, s := TimedOutRun(before, limit, k, made);
    var t := RequeuedJob(Run(INITIAL, actions), s, k, next);
    actions := NextTwo(actions, Goes([], Remove), Goes([], Stamp));
    StoredTwice(Run(INITIAL, actions), [], t);
    actions := StoredRun(actions, t);
  }

  /** One more pod, and one more requeue. */
  lemma CycleRun(before: seq<Action>, limit: Option<int>, k: int, made: nat, next: int)
    returns (actions: seq<Action>)
    requires SmoothRun(INITIAL, before, []) && Waiting(Run(INITIAL, before), limit, k, made)
    requires (limit.Some? ==> k <= limit.value) && next == Wrap32(k + 1)
    ensures before <= actions && SmoothRun(INITIAL, actions, [])
    ensures Waiting(Run(INITIAL, actions), limit, next, made + 1)
  {
    actions := StartedRun(before, limit, k, made);
    actions := RequeuedRun(actions, limit, k, made + 1, next);
  }

  lemma FirstSeen(limit: Option<int>) returns (actions: seq<Action>)
    requires limit.Some? ==> limit.value >= 0
    ensures SmoothRun(INITIAL, actions, []) && Waiting(Run(INITIAL, actions), limit, 0, 0)
  {
    SubmittedJob(INITIAL, [], limit);
    FirstReconcile(Apply(INITIAL, Submit([], Endless(limit))), [], limit);
    assert Run(INITIAL, []) == INITIAL;
    actions := NextCalm([], Submit([], Endless(limit)));
    actions := NextTwo(actions, Open([]), Goes([], Decide));
    actions := Next(actions, Goes([], Store));
  }

  /** The requeue count after k requeues. */
  function CountAfter(k: nat): (r: int)
    ensures r <= MAX_INT32
    ensures k <= MAX_INT32 ==> r == k
  {
    if k == 0 then 0 else Wrap32(CountAfter(k - 1) + 1)
  }

  /** Any number of requeues, each after a pod that timed out. */
  lemma {:induction false} ManyRequeues(limit: Option<int>, k: nat) returns (actions: seq<Action>)
    requires !Bounded(Endless(limit))
    ensures SmoothRun(INITIAL, actions, []) && Waiting(Run(INITIAL, actions), limit, CountAfter(k), k)
  {
    if k == 0 {
      actions := FirstSeen(limit);
    } else {
      actions := ManyRequeues(limit, k - 1);
      actions := CycleRun(actions, limit, CountAfter(k - 1), k - 1, CountAfter(k));
    }
  }

  /** While it has not wrapped, the count is the number of requeues. */
  lemma RequeuesToTop(limit: Option<int>, k: nat) returns (actions: seq<Action>)
    requires !Bounded(Endless(limit)) && k <= MAX_INT32
    ensures SmoothRun(INITIAL, actions, []) && Waiting(Run(INITIAL, actions), limit, k, k)
  {
    actions := ManyRequeues(limit, k);
  }

  /** From the top, one more requeue leads to the bottom. */
  lemma OverTheTop(before: seq<Action>, limit: Option<int>) returns (after: seq<Action>)
    requires SmoothRun(INITIAL, before, []) && !Bounded(Endless(limit))
    requires Waiting(Run(INITIAL, before), limit, MAX_INT32, MAX_INT32)
    ensures Waiting(Run(INITIAL, before + after), limit, -MAX_INT32 - 1, MAX_INT32 + 1)
  {
    var actions := CycleRun(before, limit, MAX_INT32, MAX_INT32, -MAX_INT32 - 1);
    after := actions[|before|..];
    assert before + after == actions;
  }

  /**
   * Without a limit below the top of int32 there is a run in which the count of a job falls,
   * from the top to the bottom. So RequeueCountBounded holds of exactly the limits it is
   * stated for.
   */
  lemma CountCanFall(limit: Option<int>) returns (before: seq<Action>, after: seq<Action>, n: Text)
    requires !Bounded(Endless(limit))
    ensures n in Run(INITIAL, before).jobs && n in Run(INITIAL, before + after).jobs
    ensures var a, b := Run(INITIAL, before).jobs[n], Run(INITIAL, before + after).jobs[n];
            && a.spec.requeueLimit == limit == b.spec.requeueLimit
            && a.status.requeued == Some(MAX_INT32) && b.status.requeued == Some(-MAX_INT32 - 1)
  {
    n := [];
    before := RequeuesToTop(limit, MAX_INT32);
    after := OverTheTop(before, limit);
  }

  /**
   * Without such a limit the requeue check never stops a job for good, and smooth runs make any
   * number of pods for it. So it is exactly the limits of PodsWithinLimit that bound the pods.
   */
  lemma PodsUnbounded(limit: Option<int>, made: nat) returns (actions: seq<Action>, n: Text)
    requires !Bounded(Endless(limit))
    ensures SmoothRun(INITIAL, actions, n) && n in Run(INITIAL, actions).jobs
    ensures Run(INITIAL, actions).jobs[n].spec.requeueLimit == limit
    ensures MadeOf(Run(INITIAL, actions), n) == made
  {
    n := [];
    actions := ManyRequeues(limit, made);
  }
}
