/**
 * PhJobReconciler in ee/controllers/phjob_controller.go, as written: it holds a copy of the
 * job, assigns its status field by field, and calls the API server in between.
 *
 * A `Cluster` is the server together with everyone else who uses it. Before each call others
 * act: `future` is what they will do, any actions at all, and whether the call will fail, with
 * its effect or without. The cluster logs every action, and its state is always the state that
 * the log leads to in the machine of module Protocol. So what is proved there of every run
 * holds of this code.
 */
module Reconciler {
  import opened Prelude
  import opened Escapism
  import opened Jobs
  import opened Pods
  import opened Protocol
  import opened ProtocolSafety

  /** Is this an action of the reconcile of job n? */
  predicate Mine(a: Action, n: Text) {
    a == Open(n) || (a.Goes? && a.name == n)
  }

  /** The actions of the reconcile of job n. */
  ghost function Own(log: seq<Action>, n: Text): seq<Action> {
    if log == [] then []
    else
      var last := log[|log| - 1];
      Own(log[..|log| - 1], n) + if Mine(last, n) then [last] else []
  }

  lemma OwnNext(log: seq<Action>, n: Text, a: Action)
    ensures Own(log + [a], n) == Own(log, n) + if Mine(a, n) then [a] else []
    ensures Run(INITIAL, log + [a]) == Apply(Run(INITIAL, log), a)
  {
    assert (log + [a])[..|log + [a]| - 1] == log;
  }

  /** Nobody else moves the reconcile of job n. */
  lemma OthersLeaveFlight(w: World, a: Action, n: Text)
    requires !Mine(a, n)
    ensures n in Apply(w, a).flights <==> n in w.flights
    ensures n in w.flights ==> Apply(w, a).flights[n] == w.flights[n]
  {
    if a.Goes? && a.name in w.flights {
      assert Agree(w, ReconcileStep(w, a.name, a.call), n);
    }
  }

  /**
   * What a finished reconcile of job n has added to the actions of the earlier ones: it reads
   * the job first, and then only goes on with it. It drops out at most once, as its last act.
   */
  predicate Session(done: seq<Action>, before: seq<Action>, n: Text, dropped: bool) {
    && |before| < |done| && done[..|before|] == before && done[|before|] == Open(n)
    && (forall i :: |before| < i < |done| ==>
          done[i].Goes? && done[i].name == n && (done[i].call.Drop? ==> dropped && i == |done| - 1))
  }

  lemma SessionGrows(done: seq<Action>, before: seq<Action>, n: Text, c: Call)
    requires Session(done, before, n, false)
    ensures Session(done + [Goes(n, c)], before, n, c.Drop?)
  {
    assert (done + [Goes(n, c)])[..|before|] == done[..|before|];
  }

  /** A copy of job n with this version is out of date: the stored job is newer, or gone. */
  predicate Stale(w: World, n: Text, version: int) {
    n in w.used && version < w.nextVersion && (n in w.jobs ==> version < w.jobs[n].version)
  }

  /** One job is written, with the next version, or none is. */
  predicate OneWrite(w: World, v: World, n: Text) {
    || (v.jobs == w.jobs && v.nextVersion == w.nextVersion)
    || (n in v.jobs && v.jobs == w.jobs[n := v.jobs[n]] && v.jobs[n].version == w.nextVersion
        && v.nextVersion == w.nextVersion + 1)
  }

  lemma ReconcileWritesOne(w: World, n: Text, c: Call)
    requires n in w.flights
    ensures OneWrite(w, ReconcileStep(w, n, c), n)
  {
    var f := w.flights[n];
    match c
    case FillDeadline(s) =>
      assert OneWrite(w, Fill(w, n, f, f.base.spec.(activeDeadline := Some(s))), n);
    case FillTtl(s) =>
      assert OneWrite(w, Fill(w, n, f, f.base.spec.(ttl := Some(s))), n);
    case Store => assert f.pc.Storing? ==> OneWrite(w, StoreOn(w, n, f, f.pc.again), n);
    case _ => NoVersion(w, n, c);
  }

  lemma NoVersion(w: World, n: Text, c: Call)
    requires n in w.flights && !(c.FillDeadline? || c.FillTtl? || c.Store?)
    ensures ReconcileStep(w, n, c).jobs == w.jobs && ReconcileStep(w, n, c).nextVersion == w.nextVersion
  {
  }

  lemma StaleStays(w: World, a: Action, n: Text, version: int)
    requires Inv(w) && Stale(w, n, version)
    ensures Stale(Apply(w, a), n, version)
  {
    if n !in w.jobs {
      NotRevived(w, a, n);
    }
    if a.Goes? {
      if a.name in w.flights {
        ReconcileWritesOne(w, a.name, a.call);
      }
    } else {
      OthersStaleStays(w, a, n, version);
    }
  }

  lemma OthersStaleStays(w: World, a: Action, n: Text, version: int)
    requires Inv(w) && Stale(w, n, version) && !a.Goes?
    ensures n in Apply(w, a).jobs && n in w.jobs ==> version < Apply(w, a).jobs[n].version
    ensures version < Apply(w, a).nextVersion
  {
  }

  /** What a reconcile holds is the stored job, or out of date. */
  lemma HeldOrStale(log: seq<Action>, n: Text)
    requires n in Run(INITIAL, log).flights
    ensures var w := Run(INITIAL, log);
            Current(w, n, w.flights[n].base) || Stale(w, n, w.flights[n].base.version)
  {
    Reachable(log);
    var w := Run(INITIAL, log);
    assert FlightInv(w, n, w.flights[n]);
  }

  /** What the machine makes of a status write. */
  lemma Stored(w: World, n: Text)
    requires n in w.flights && w.flights[n].pc.Storing?
    ensures var f, v := w.flights[n], ReconcileStep(w, n, Store);
            if !Current(w, n, f.base) then n !in v.flights
            else
              && n in v.jobs && v.jobs[n].status == f.cur
              && if f.pc.again && f.cur != f.read then
                   n in v.flights && v.flights[n] == f.(base := v.jobs[n], pc := Storing(false))
                 else n !in v.flights
  {
  }

  /** What the machine makes of a pod that has timed out, and is gone. */
  lemma Requeued(w: World, n: Text)
    requires n in w.flights && w.flights[n].pc == Stamping(Deleted(TimedOut))
    requires w.flights[n].cur.requeued.Some?
    ensures var f, v := w.flights[n], ReconcileStep(w, n, Stamp);
            n in v.flights
            && v.flights[n] == f.(cur := AfterRequeue(f.cur, false), pc := Storing(true))
  {
  }

  /**
   * What happens before a call, and how it goes: whether an error comes back, and whether the
   * call has taken effect all the same. `answer` is how the creation of a pod goes.
   */
  datatype Turn = Turn(others: seq<Action>, fails: bool, lands: bool, answer: Answer)

  /** How the creation of a pod ended, as the controller sees it. */
  datatype Creation = PodMade | PodExists | PodRejected | PodBroken

  /** The object of a pod just made: it carries no news for the job. */
  const FRESH_POD := KubePod(KubePending, 0, false, false)

  class Cluster {
    var world: World
    var future: seq<Turn>
    ghost var log: seq<Action>
    ghost var errors: nat                // how many calls have come back with an error
    ghost var misses: nat                // how many reads have found no job

    constructor (future: seq<Turn>)
      ensures Valid() && log == [] && errors == misses == 0 && this.future == future
    {
      world := INITIAL;
      this.future := future;
      log := [];
      errors, misses := 0, 0;
    }

    ghost predicate Valid()
      reads this
    {
      world == Run(INITIAL, log)
    }

    ghost function Done(n: Text): seq<Action>
      reads this
    {
      Own(log, n)
    }

    /** Between its calls: nothing but the reconcile of n has happened to its flight. */
    ghost predicate Under(n: Text, before: seq<Action>)
      reads this
    {
      Valid() && n in world.flights && Session(Done(n), before, n, false)
    }

    ghost predicate Over(n: Text, before: seq<Action>, dropped: bool)
      reads this
    {
      Valid() && n !in world.flights && Session(Done(n), before, n, dropped)
    }

    /** The flight of n is of the object in memory, stands at `pc`, and has the status `cur`. */
    ghost predicate Poised(n: Text, before: seq<Action>, job: PhJob, read: Status, cur: Status, pc: Pc)
      reads this, job
    {
      && Under(n, before)
      && world.flights[n].base.version == job.version && world.flights[n].base.spec == job.spec
      && world.flights[n] == Flight(world.flights[n].base, read, cur, pc)
    }

    /** The status in memory is that of the flight. */
    ghost predicate Holds(n: Text, before: seq<Action>, job: PhJob, read: Status, pc: Pc)
      reads this, job
    {
      Poised(n, before, job, read, job.status, pc)
    }

    /** All that is left is to write the status, if it differs from the one that was read. */
    ghost predicate Branched(n: Text, before: seq<Action>, job: PhJob, read: Status)
      reads this, job
    {
      if job.status == read then Over(n, before, false)
      else Holds(n, before, job, read, Storing(false))
    }

    method Act(a: Action)
      requires Valid()
      modifies `world, `log
      ensures Valid() && world == Apply(old(world), a) && log == old(log) + [a]
    {
      OwnNext(log, [], a);
      world := Apply(world, a);
      log := log + [a];
    }

    /** Others act; what they do to the stored job and to its pod is not held back. */
    method Others(n: Text, actions: seq<Action>)
      requires Valid()
      modifies `world, `log
      ensures Valid() && old(log) <= log && Done(n) == old(Done(n))
      ensures n in world.flights <==> n in old(world).flights
      ensures n in world.flights ==> world.flights[n] == old(world).flights[n]
      ensures forall version :: Stale(old(world), n, version) ==> Stale(world, n, version)
    {
      for i := 0 to |actions|
        invariant Valid() && old(log) <= log && Done(n) == old(Done(n))
        invariant n in world.flights <==> n in old(world).flights
        invariant n in world.flights ==> world.flights[n] == old(world).flights[n]
        invariant forall version :: Stale(old(world), n, version) ==> Stale(world, n, version)
      {
        if !Mine(actions[i], n) {
          Reachable(log);
          forall version | Stale(world, n, version) ensures Stale(Apply(world, actions[i]), n, version) {
            StaleStays(world, actions[i], n, version);
          }
          OthersLeaveFlight(world, actions[i], n);
          OwnNext(log, n, actions[i]);
          Act(actions[i]);
        }
      }
    }

    /** Time passes and others act, before the reconcile reads the clock or makes a call. */
    method Wait(n: Text) returns (turn: Turn)
      requires Valid()
      modifies `world, `log, `future
      ensures Valid() && old(log) <= log && Done(n) == old(Done(n))
      ensures n in world.flights <==> n in old(world).flights
      ensures n in world.flights ==> world.flights[n] == old(world).flights[n]
      ensures forall version :: Stale(old(world), n, version) ==> Stale(world, n, version)
      ensures old(future) == [] ==>
        unchanged(`world) && unchanged(`future) && turn == Turn([], false, false, Created)
    {
      turn := Turn([], false, false, Created);
      if future != [] {
        turn := future[0];
        future := future[1..];
        Others(n, turn.others);
      }
    }

    /** One step of the reconcile of n, now. */
    method Go(n: Text, c: Call, ghost before: seq<Action>)
      requires Under(n, before)
      modifies `world, `log
      ensures Valid() && old(log) <= log
      ensures Session(Done(n), before, n, c.Drop?)
      ensures world == ReconcileStep(old(world), n, c)
    {
      OwnNext(log, n, Goes(n, c));
      SessionGrows(Done(n), before, n, c);
      Act(Goes(n, c));
    }

    /** The reconcile reads the clock, and takes a step that needs nothing but that. */
    method Clock(n: Text, c: Call, ghost before: seq<Action>) returns (now: int, ghost seen: World)
      requires Under(n, before) && (c.Decide? || c.Stamp? || c.Judge?)
      modifies `world, `log, `future
      ensures Valid() && old(log) <= log && Session(Done(n), before, n, false)
      ensures n in seen.flights && seen.flights[n] == old(world).flights[n] && now == seen.clock
      ensures world == ReconcileStep(seen, n, c)
    {
      var turn := Wait(n);
      now, seen := world.clock, world;
      Go(n, c, before);
    }

    /** A call fails, perhaps after it has taken effect, and the reconcile returns the error. */
    method Fail(n: Text, c: Call, lands: bool, ghost before: seq<Action>)
      requires Under(n, before) && !c.Drop?
      modifies `world, `log, `errors
      ensures old(log) <= log && Over(n, before, true) && errors == old(errors) + 1
    {
      if lands {
        Go(n, c, before);
      }
      if n in world.flights {
        Go(n, Drop, before);
      }
      errors := errors + 1;
    }

    // ---- the calls to the API server ----

    /** A read that fails counts as one that finds nothing. */
    method Get(n: Text) returns (found: Option<Job>)
      requires Valid() && n !in world.flights
      modifies `world, `log, `future, `misses
      ensures Valid() && old(log) <= log
      ensures misses == old(misses) + if found.None? then 1 else 0
      ensures found.None? ==> n !in world.flights && Done(n) == old(Done(n))
      ensures found.Some? ==> Under(n, old(Done(n))) && n in world.jobs && world.jobs[n] == found.value
      ensures found.Some? ==>
        world.flights[n] == Flight(found.value, found.value.status, found.value.status, Opened)
      ensures old(future) == [] ==> (found.Some? <==> n in old(world).jobs)
    {
      var turn := Wait(n);
      found := None;
      if !turn.fails && n in world.jobs {
        found := Some(world.jobs[n]);
        OwnNext(log, n, Open(n));
        Act(Open(n));
      } else {
        misses := misses + 1;
      }
    }

    /**
     * Update: a stale version is refused, and otherwise the object gets its new version. An
     * error may come back although it was written.
     */
    method Update(n: Text, job: PhJob, c: Call, ghost before: seq<Action>, ghost read: Status)
      returns (ok: bool)
      requires Under(n, before) && world.flights[n].pc == Opened && world.flights[n].read == read
      requires world.flights[n].cur == job.status && world.flights[n].base.version == job.version
      requires var spec := world.flights[n].base.spec;
               || (c.FillDeadline? && spec.activeDeadline.None?
                   && job.spec == spec.(activeDeadline := Some(c.seconds)))
               || (c.FillTtl? && spec.activeDeadline.Some? && spec.ttl.None?
                   && job.spec == spec.(ttl := Some(c.seconds)))
      modifies `world, `log, `future, `errors, job`version
      ensures old(log) <= log
      ensures ok ==> Holds(n, before, job, read, Opened) && errors == old(errors)
      ensures ok ==> n in world.jobs && world.jobs[n].spec == job.spec
      ensures !ok ==> Over(n, before, true) && errors == old(errors) + 1
      ensures !Current(old(world), n, old(world).flights[n].base) ==> !ok
      ensures old(future) == [] && Current(old(world), n, old(world).flights[n].base) ==> ok
    {
      HeldOrStale(log, n);
      var turn := Wait(n);
      if turn.fails {
        Fail(n, c, turn.lands, before);
        ok := false;
      } else {
        ok := n in world.jobs && world.jobs[n].version == job.version;
        Go(n, c, before);
        if ok {
          job.version := world.jobs[n].version;
        } else {
          errors := errors + 1;
        }
      }
    }

    /** The status write, as the server takes it now. */
    method TakeStatus(n: Text, job: PhJob, again: bool, ghost before: seq<Action>, ghost read: Status)
      returns (ok: bool)
      requires Holds(n, before, job, read, Storing(again))
      modifies `world, `log, job`version, job`spec
      ensures old(log) <= log
      ensures ok <==> Current(old(world), n, old(world).flights[n].base)
      ensures !ok ==> Over(n, before, true)
      ensures ok ==> n in world.jobs && world.jobs[n].status == job.status
      ensures ok && again && job.status != read ==> Holds(n, before, job, read, Storing(false))
      ensures ok && !(again && job.status != read) ==> Over(n, before, false)
    {
      ok := n in world.jobs && world.jobs[n].version == job.version;
      Stored(world, n);
      Go(n, Store, before);
      if ok {
        job.version, job.spec := world.jobs[n].version, world.jobs[n].spec;
      }
    }

    /** Status().Update: likewise, for the status. */
    method UpdateStatus(n: Text, job: PhJob, again: bool, ghost before: seq<Action>, ghost read: Status)
      returns (ok: bool)
      requires Holds(n, before, job, read, Storing(again))
      modifies `world, `log, `future, `errors, job`version, job`spec
      ensures old(log) <= log
      ensures !ok ==> Over(n, before, true) && errors == old(errors) + 1
      ensures ok ==> errors == old(errors) && n in world.jobs && world.jobs[n].status == job.status
      ensures ok && again && job.status != read ==> Holds(n, before, job, read, Storing(false))
      ensures ok && !(again && job.status != read) ==> Over(n, before, false)
      ensures !Current(old(world), n, old(world).flights[n].base) ==> !ok
      ensures old(future) == [] && Current(old(world), n, old(world).flights[n].base) ==> ok
    {
      HeldOrStale(log, n);
      var turn := Wait(n);
      if turn.fails {
        Fail(n, Store, turn.lands, before);
        ok := false;
      } else {
        ok := TakeStatus(n, job, again, before, read);
        errors := errors + if ok then 0 else 1;
      }
    }

    /** deletePod: a pod that is not there is no error. An error may come back when it is gone. */
    method DeletePod(n: Text, job: PhJob, why: Why, ghost before: seq<Action>, ghost read: Status)
      returns (ok: bool)
      requires Holds(n, before, job, read, Removing(why))
      modifies `world, `log, `future, `errors
      ensures old(log) <= log
      ensures ok ==> Holds(n, before, job, read, Stamping(Deleted(why))) && errors == old(errors)
      ensures ok ==> n !in world.pods
      ensures old(future) == [] ==> ok
      ensures !ok ==> Over(n, before, true) && errors == old(errors) + 1
    {
      var turn := Wait(n);
      ok := !turn.fails;
      if ok {
        Go(n, Remove, before);
      } else {
        Fail(n, Remove, turn.lands, before);
      }
    }

    /** getPodForJob */
    method GetPod(n: Text, job: PhJob, ghost before: seq<Action>, ghost read: Status)
      returns (ok: bool, pod: Option<KubePod>)
      requires Holds(n, before, job, read, Looking)
      modifies `world, `log, `future, `errors
      ensures old(log) <= log
      ensures ok ==> errors == old(errors)
      ensures ok ==> Holds(n, before, job, read, if pod.Some? then Observing(pod.value) else Creating)
      ensures ok ==> if n in world.pods then pod == Some(world.pods[n]) else pod == None
      ensures old(future) == [] ==> ok
      ensures !ok ==> Over(n, before, true) && errors == old(errors) + 1
    {
      var turn := Wait(n);
      ok, pod := !turn.fails, None;
      if ok {
        if n in world.pods {
          pod := Some(world.pods[n]);
        }
        Go(n, Look, before);
      } else {
        Fail(n, Look, false, before);
      }
    }

    /** buildPod and Create. An error may come back although the pod was made. */
    method CreatePod(n: Text, job: PhJob, ghost before: seq<Action>, ghost read: Status)
      returns (how: Creation)
      requires Holds(n, before, job, read, Creating) && job.status.requeued.Some?
      modifies `world, `log, `future
      ensures old(log) <= log
      ensures Poised(n, before, job, read,
                     match how
                     case PodMade => job.status.(podName := n)
                     case PodRejected => AfterRequeue(job.status, true)
                     case _ => job.status,
                     if how.PodBroken? then Stamping(CreateFailed) else Storing(true))
      ensures how.PodMade? || how.PodExists? ==> n in world.pods
      ensures old(future) == [] ==> how == if n in old(world).pods then PodExists else PodMade
    {
      var turn := Wait(n);
      how := match turn.answer
             case Created => if n in world.pods then PodExists else PodMade
             case Rejected => PodRejected
             case Broken(_) => PodBroken;
      Go(n, Create(turn.answer), before);
    }
  }

  /** What updateStatus must make of the status, given how the pod was found. */
  function PodOutcome(s: Status, pod: KubePod, timedOut: bool, rejected: bool, createFailed: bool,
                      now: int): Status
    requires s.requeued.Some?
  {
    if timedOut || rejected then AfterRequeue(s, rejected)
    else if createFailed then AfterCreateFailure(s, now)
    else AfterLook(s, pod, now)
  }

  class PhJobReconciler {
    const cluster: Cluster
    const defaultDeadline: int                       // DefaultActiveDeadlineSeconds
    const defaultTtl: int                            // DefaultTTLSecondsAfterFinished
    const groupDeadline: Text -> Option<int>         // from the group, when it can be fetched

    constructor (cluster: Cluster, deadline: int, ttl: int, groupDeadline: Text -> Option<int>)
      ensures this.cluster == cluster
    {
      this.cluster, defaultDeadline, defaultTtl := cluster, deadline, ttl;
      this.groupDeadline := groupDeadline;
    }

    /** The reconcile of n is over, and `err` says whether a call has come back with an error. */
    ghost predicate Ended(n: Text, before: seq<Action>, err: bool, errors: nat)
      reads cluster
    {
      cluster.Over(n, before, err) && cluster.errors == errors + (if err then 1 else 0)
    }

    method Reconcile(n: Text) returns (err: bool)
      requires cluster.Valid() && n !in cluster.world.flights
      modifies cluster
      ensures cluster.Valid() && old(cluster.log) <= cluster.log && n !in cluster.world.flights
      ensures cluster.errors == old(cluster.errors) + if err then 1 else 0
      ensures if cluster.misses == old(cluster.misses) then
                Session(cluster.Done(n), old(cluster.Done(n)), n, err)
              else
                !err && cluster.misses == old(cluster.misses) + 1 && cluster.Done(n) == old(cluster.Done(n))
    {
      ghost var before := cluster.Done(n);
      var found := cluster.Get(n);
      if found.None? {
        return false;
      }
      var phJob := new PhJob(found.value);
      err := ReconcileFound(n, phJob, before);
    }

    /** From the defaults on. */
    method ReconcileFound(n: Text, phJob: PhJob, ghost before: seq<Action>) returns (err: bool)
      requires cluster.Holds(n, before, phJob, phJob.status, Opened)
      modifies cluster`world, cluster`log, cluster`future, cluster`errors, phJob
      ensures old(cluster.log) <= cluster.log
      ensures Ended(n, before, err, old(cluster.errors))
    {
      var filled := FillDefaults(n, phJob, before);
      if !filled {
        return true;
      }
      var oldStatus := phJob.status;
      if phJob.status.phase == Fresh {
        phJob.status := phJob.status.(phase := Pending);
        phJob.status := phJob.status.(reason := OverQuota);
      }
      if phJob.status.requeued.None? {
        phJob.status := phJob.status.(requeued := Some(0));
      }
      err := Branch(n, phJob, oldStatus, before);
    }

    /** The spec gets the group's deadline, or the defaults, where it has none of its own. */
    method FillDefaults(n: Text, phJob: PhJob, ghost before: seq<Action>) returns (ok: bool)
      requires cluster.Holds(n, before, phJob, phJob.status, Opened)
      modifies cluster`world, cluster`log, cluster`future, cluster`errors, phJob`spec, phJob`version
      ensures old(cluster.log) <= cluster.log
      ensures ok ==> cluster.Holds(n, before, phJob, phJob.status, Opened)
      ensures ok ==>
        var spec := old(phJob.spec);
        phJob.spec == spec.(
          activeDeadline := if spec.activeDeadline.Some? then spec.activeDeadline
                            else if groupDeadline(spec.groupId).Some? then groupDeadline(spec.groupId)
                            else Some(defaultDeadline),
          ttl := if spec.ttl.Some? then spec.ttl else Some(defaultTtl))
      ensures ok ==> cluster.errors == old(cluster.errors)
      ensures !ok ==> Ended(n, before, true, old(cluster.errors))
    {
      ok := true;
      if phJob.spec.activeDeadline.None? {
        var seconds := match groupDeadline(phJob.spec.groupId)
                       case Some(s) => s
                       case None => defaultDeadline;
        phJob.spec := phJob.spec.(activeDeadline := Some(seconds));
        ok := cluster.Update(n, phJob, FillDeadline(seconds), before, phJob.status);
      }
      if ok && phJob.spec.ttl.None? {
        phJob.spec := phJob.spec.(ttl := Some(defaultTtl));
        ok := cluster.Update(n, phJob, FillTtl(defaultTtl), before, phJob.status);
      }
    }

    /** The clock is read, and the branch of Reconcile is settled. */
    method Choose(n: Text, phJob: PhJob, read: Status, ghost before: seq<Action>) returns (now: int)
      requires cluster.Poised(n, before, phJob, read, read, Opened)
      requires phJob.spec.activeDeadline.Some? && phJob.spec.ttl.Some?
      requires phJob.status == Normalised(read)
      modifies cluster`world, cluster`log, cluster`future, cluster`errors
      ensures old(cluster.log) <= cluster.log && cluster.errors == old(cluster.errors)
      ensures match Chosen(phJob.Value(), read, phJob.status, now)
              case None => cluster.Over(n, before, false)
              case Some((cur, pc)) => cluster.Poised(n, before, phJob, read, cur, pc)
    {
      ghost var seen;
      now, seen := cluster.Clock(n, Decide, before);
    }

    /** The branches of Reconcile, on a normalised status; the clock is read at most once. */
    method Branch(n: Text, phJob: PhJob, read: Status, ghost before: seq<Action>) returns (err: bool)
      requires cluster.Poised(n, before, phJob, read, read, Opened)
      requires phJob.spec.activeDeadline.Some? && phJob.spec.ttl.Some?
      requires phJob.status == Normalised(read)
      modifies cluster`world, cluster`log, cluster`future, cluster`errors, phJob
      ensures old(cluster.log) <= cluster.log
      ensures Ended(n, before, err, old(cluster.errors))
    {
      var now := Choose(n, phJob, read, before);
      if phJob.spec.cancel {
        err := Cancel(n, phJob, read, before);
      } else if Final(phJob.status.phase) {
        err := HandleTtl(n, phJob, read, now, before);
        if !err {
          err := WriteBack(n, phJob, read, before);
        }
      } else {
        var exceeded := None;
        if phJob.spec.requeueLimit.Some? && phJob.status.requeued.value > phJob.spec.requeueLimit.value {
          exceeded := Some(OverRequeueLimit);
        } else if PastActiveDeadline(phJob, now) {
          exceeded := Some(OverActivateDeadline);
        }
        if exceeded.Some? {
          err := Limit(n, phJob, read, exceeded.value, before);
        } else {
          err := false;
          if phJob.status.phase != Pending {
            err := ReconcilePod(n, phJob, read, before);
          }
          if !err {
            err := WriteBack(n, phJob, read, before);
          }
        }
      }
    }

    predicate PastActiveDeadline(phJob: PhJob, now: int)
      requires phJob.spec.activeDeadline.Some?
      reads phJob
    {
      if phJob.spec.activeDeadline.value == 0 || phJob.status.startTime.None? then false
      else now - phJob.status.startTime.value >= Seconds(phJob.spec.activeDeadline.value)
    }

    method Cancel(n: Text, phJob: PhJob, read: Status, ghost before: seq<Action>) returns (err: bool)
      requires cluster.Holds(n, before, phJob, read, Removing(Cancelling))
      modifies cluster`world, cluster`log, cluster`future, cluster`errors, phJob
      ensures old(cluster.log) <= cluster.log
      ensures Ended(n, before, err, old(cluster.errors))
    {
      var ok := cluster.DeletePod(n, phJob, Cancelling, before, read);
      if !ok {
        return true;
      }
      phJob.status := phJob.status.(phase := Cancelled);
      phJob.status := phJob.status.(reason := ByUser);
      var now, seen := cluster.Clock(n, Stamp, before);
      if phJob.status.finishTime.None? {
        phJob.status := phJob.status.(finishTime := Some(now));
      }
      err := WriteBack(n, phJob, read, before);
    }

    /** The job exceeds its requeue limit or its active deadline. */
    method Limit(n: Text, phJob: PhJob, read: Status, reason: Reason, ghost before: seq<Action>)
      returns (err: bool)
      requires cluster.Holds(n, before, phJob, read, Removing(Limiting(reason)))
      modifies cluster`world, cluster`log, cluster`future, cluster`errors, phJob
      ensures old(cluster.log) <= cluster.log
      ensures Ended(n, before, err, old(cluster.errors))
    {
      var ok := cluster.DeletePod(n, phJob, Limiting(reason), before, read);
      if !ok {
        return true;
      }
      var now, seen := cluster.Clock(n, Stamp, before);
      if phJob.status.finishTime.None? {
        phJob.status := phJob.status.(finishTime := Some(now));
      }
      phJob.status := phJob.status.(phase := Failed);
      phJob.status := phJob.status.(reason := reason);
      err := WriteBack(n, phJob, read, before);
    }

    /** The pod of a finished job is deleted once its time to live is over. */
    method HandleTtl(n: Text, phJob: PhJob, read: Status, now: int, ghost before: seq<Action>)
      returns (err: bool)
      requires phJob.spec.ttl.Some?
      requires TtlPassed(phJob.Value(), phJob.status, now) ==>
        cluster.Poised(n, before, phJob, read, TtlStatus(phJob.Value(), phJob.status), Removing(Expiring))
      requires !TtlPassed(phJob.Value(), phJob.status, now) ==>
        if TtlStatus(phJob.Value(), phJob.status) == read then cluster.Over(n, before, false)
        else cluster.Poised(n, before, phJob, read, TtlStatus(phJob.Value(), phJob.status), Storing(false))
      modifies cluster`world, cluster`log, cluster`future, cluster`errors, phJob`status
      ensures old(cluster.log) <= cluster.log
      ensures !err ==> cluster.Branched(n, before, phJob, read) && cluster.errors == old(cluster.errors)
      ensures err ==> Ended(n, before, true, old(cluster.errors))
    {
      if phJob.spec.ttl.value == 0 {
        return false;
      }
      var ttlDuration := Seconds(phJob.spec.ttl.value);
      if phJob.status.startTime.None? && phJob.status.finishTime.None? {
        return false;
      }
      if phJob.status.finishTime.None? {
        phJob.status := phJob.status.(finishTime := phJob.status.startTime);
      }
      if now > phJob.status.finishTime.value + ttlDuration {
        err := ExpirePod(n, phJob, read, before);
        return;
      }
      err := false;
    }

    /** The pod of a job whose time to live is over is deleted. */
    method ExpirePod(n: Text, phJob: PhJob, read: Status, ghost before: seq<Action>) returns (err: bool)
      requires cluster.Holds(n, before, phJob, read, Removing(Expiring))
      modifies cluster`world, cluster`log, cluster`future, cluster`errors
      ensures old(cluster.log) <= cluster.log
      ensures !err ==> cluster.Branched(n, before, phJob, read) && cluster.errors == old(cluster.errors)
      ensures err ==> Ended(n, before, true, old(cluster.errors))
    {
      var ok := cluster.DeletePod(n, phJob, Expiring, before, read);
      err := !ok;
      if ok {
        cluster.Go(n, Stamp, before);
      }
    }

    method ReconcilePod(n: Text, phJob: PhJob, read: Status, ghost before: seq<Action>)
      returns (err: bool)
      requires cluster.Holds(n, before, phJob, read, Looking) && phJob.status.requeued.Some?
      modifies cluster`world, cluster`log, cluster`future, cluster`errors, phJob
      ensures old(cluster.log) <= cluster.log
      ensures !err ==> cluster.Branched(n, before, phJob, read) && cluster.errors == old(cluster.errors)
      ensures err ==> Ended(n, before, true, old(cluster.errors))
    {
      var ok, found := cluster.GetPod(n, phJob, before, read);
      if !ok {
        return true;
      }
      var pod, timedOut, rejected, createFailed, now := FRESH_POD, false, false, false, 0;
      if found.None? {
        rejected, createFailed, now := MakePod(n, phJob, read, before);
      } else {
        pod := found.value;
        err, timedOut, now := CheckTimeout(n, phJob, pod, read, before);
        if err {
          return;
        }
      }
      err := UpdateStatus(n, phJob, pod, timedOut, rejected, createFailed, now, read, before);
    }

    /** No pod was found, and one is created. */
    method MakePod(n: Text, phJob: PhJob, read: Status, ghost before: seq<Action>)
      returns (rejected: bool, createFailed: bool, now: int)
      requires cluster.Holds(n, before, phJob, read, Creating) && phJob.status.requeued.Some?
      modifies cluster`world, cluster`log, cluster`future, cluster`errors, phJob`status
      ensures old(cluster.log) <= cluster.log && cluster.errors == old(cluster.errors)
      ensures phJob.status.requeued.Some?
      ensures cluster.Poised(n, before, phJob, read,
                             PodOutcome(phJob.status, FRESH_POD, false, rejected, createFailed, now),
                             Storing(true))
    {
      rejected, createFailed, now := false, false, 0;
      var how := cluster.CreatePod(n, phJob, before, read);
      match how {
        case PodMade => phJob.status := phJob.status.(podName := n);
        case PodRejected => rejected := true;
        case PodBroken =>
          createFailed := true;
          ghost var seen;
          now, seen := cluster.Clock(n, Stamp, before);
        case PodExists =>
      }
    }

    /** The clock is read for a pod that was found. */
    method Judge(n: Text, phJob: PhJob, pod: KubePod, read: Status, ghost before: seq<Action>)
      returns (now: int)
      requires cluster.Holds(n, before, phJob, read, Observing(pod))
      modifies cluster`world, cluster`log, cluster`future, cluster`errors
      ensures old(cluster.log) <= cluster.log && cluster.errors == old(cluster.errors)
      ensures if PodTimedOut(pod, now) then cluster.Holds(n, before, phJob, read, Removing(TimedOut))
              else cluster.Poised(n, before, phJob, read, AfterLook(phJob.status, pod, now), Storing(true))
    {
      ghost var seen;
      now, seen := cluster.Clock(n, Protocol.Judge, before);
    }

    /** A pod was found, and is deleted when it has been pending for too long. */
    method CheckTimeout(n: Text, phJob: PhJob, pod: KubePod, read: Status, ghost before: seq<Action>)
      returns (err: bool, timedOut: bool, now: int)
      requires cluster.Holds(n, before, phJob, read, Observing(pod)) && phJob.status.requeued.Some?
      modifies cluster`world, cluster`log, cluster`future, cluster`errors
      ensures old(cluster.log) <= cluster.log
      ensures !err ==> cluster.errors == old(cluster.errors)
      ensures !err ==> (timedOut <==> pod.phase == KubePending && now - pod.created >= 180_000_000_000)
      ensures !err ==>
        cluster.Poised(n, before, phJob, read,
                       PodOutcome(phJob.status, pod, timedOut, false, false, now), Storing(true))
      ensures err ==> Ended(n, before, true, old(cluster.errors))
    {
      err, timedOut := false, false;
      now := Judge(n, phJob, pod, read, before);
      if pod.phase == KubePending && PreparingStateTimeout(pod, now) {
        timedOut := cluster.DeletePod(n, phJob, TimedOut, before, read);
        err := !timedOut;
        if timedOut {
          Requeued(cluster.world, n);
          cluster.Go(n, Stamp, before);
        }
      }
    }

    predicate PreparingStateTimeout(pod: KubePod, now: int) {
      now - pod.created >= PREPARING_TIMEOUT
    }

    /** updateStatus, with the clock as it was read. */
    method UpdateStatus(n: Text, phJob: PhJob, pod: KubePod, timedOut: bool, rejected: bool,
                        createFailed: bool, now: int, read: Status, ghost before: seq<Action>)
      returns (err: bool)
      requires phJob.status.requeued.Some?
      requires cluster.Poised(n, before, phJob, read,
                              PodOutcome(phJob.status, pod, timedOut, rejected, createFailed, now),
                              Storing(true))
      modifies cluster`world, cluster`log, cluster`future, cluster`errors, phJob
      ensures old(cluster.log) <= cluster.log
      ensures !err ==> cluster.Branched(n, before, phJob, read) && cluster.errors == old(cluster.errors)
      ensures err ==> Ended(n, before, true, old(cluster.errors))
    {
      if timedOut || rejected {
        phJob.status := phJob.status.(requeued := Some(Wrap32(phJob.status.requeued.value + 1)));
        phJob.status := phJob.status.(phase := Pending);
        if rejected {
          phJob.status := phJob.status.(reason := OverQuota);
        }
      } else if createFailed {
        phJob.status := phJob.status.(phase := Failed);
        phJob.status := phJob.status.(reason := PodCreationFailed);
        phJob.status := phJob.status.(finishTime := Some(now));
      } else {
        Observe(phJob, pod, now);
      }
      var ok := cluster.UpdateStatus(n, phJob, true, before, read);
      err := !ok;
    }

    /** The part of updateStatus that reads the pod's phase. */
    method Observe(phJob: PhJob, pod: KubePod, now: int)
      modifies phJob`status
      ensures phJob.status == AfterLook(old(phJob.status), pod, now)
    {
      if pod.phase == KubeSucceeded {
        phJob.status := phJob.status.(phase := Succeeded);
        if phJob.status.finishTime.None? {
          phJob.status := phJob.status.(finishTime := Some(now));
        }
        phJob.status := phJob.status.(reason := PodSucceeded);
      }
      if pod.phase == KubeFailed {
        phJob.status := phJob.status.(phase := Failed);
        if phJob.status.finishTime.None? {
          phJob.status := phJob.status.(finishTime := Some(now));
        }
        if pod.containers {
          phJob.status := phJob.status.(reason := PodFailed);
        }
      }
      if pod.phase == KubeUnknown {
        phJob.status := phJob.status.(phase := Unknown);
        if phJob.status.finishTime.None? {
          phJob.status := phJob.status.(finishTime := Some(now));
        }
        if pod.conditions {
          phJob.status := phJob.status.(reason := PodUnknown);
        }
      }
      if pod.phase == KubePending && pod.conditions {
        phJob.status := phJob.status.(reason := PodPending);
      }
      if pod.phase == KubeRunning {
        phJob.status := phJob.status.(phase := Running);
        if phJob.status.startTime.None? {
          phJob.status := phJob.status.(startTime := Some(now));
        }
        phJob.status := phJob.status.(reason := PodRunning);
      }
    }

    /** The status is written unless it is still the one that was read. */
    method WriteBack(n: Text, phJob: PhJob, read: Status, ghost before: seq<Action>)
      returns (err: bool)
      requires cluster.Branched(n, before, phJob, read)
      modifies cluster`world, cluster`log, cluster`future, cluster`errors, phJob
      ensures old(cluster.log) <= cluster.log
      ensures Ended(n, before, err, old(cluster.errors))
    {
      err := false;
      if phJob.status != read {
        var ok := cluster.UpdateStatus(n, phJob, false, before, read);
        err := !ok;
      }
    }
  }
}
