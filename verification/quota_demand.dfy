/**
 * What the jobs of the PhJob machine use of a quota, and what they may come to use without
 * being admitted again: a job that is Preparing or Running and has no pod will be given one.
 */
module QuotaDemand {
  import opened Prelude
  import opened Escapism
  import opened Jobs
  import opened Lists
  import opened Pods
  import opened Quota
  import opened UsageByLabel
  import opened Protocol
  import opened ProtocolSafety

  /**
   * What stays fixed in a run: instance types, groups and their quotas, the label alphabet,
   * and what the jobs ask for. `roster` has the names of all jobs that there will ever be.
   */
  datatype Site = Site(instances: Text -> Result<Limits>, groups: Text -> Result<Group>,
                       safe: Text -> bool, roster: seq<Text>, specs: Text -> Spec)

  function AmountOf(a: Option<int>): int {
    if a.Some? then a.value else 0
  }

  /** A pod gets the limits that were requested. */
  function ContainerOf(request: Result<Amounts>): Container {
    match request
    case Ok(a) => Container(AmountOf(a.cpu), AmountOf(a.gpu), AmountOf(a.memory))
    case Err => Container(0, 0, 0)
  }

  function RequestOf(site: Site, n: Text): Result<Amounts> {
    match site.instances(site.specs(n).instance)
    case Ok(l) => Converted(l)
    case Err => Err
  }

  function PodLimits(site: Site, n: Text): Container {
    ContainerOf(RequestOf(site, n))
  }

  /** The pod of job n, labelled after the group and the user in its spec. */
  function NamedPod(site: Site, n: Text, phase: PodPhase): Pod {
    Pod(site.specs(n).groupName, site.specs(n).user, phase, [PodLimits(site, n)])
  }

  /** The pods of these jobs that are there. */
  function NamedPods(site: Site, pods: map<Text, KubePod>, names: seq<Text>): seq<Pod> {
    if names == [] then []
    else
      var n := names[|names| - 1];
      NamedPods(site, pods, names[..|names| - 1])
      + if n in pods then [NamedPod(site, n, pods[n].phase)] else []
  }

  /** What a pass finds in this state. */
  function BookOf(site: Site, w: World): Book {
    Book(site.instances, site.groups, Ok(LabelledAll(NamedPods(site, w.pods, site.roster), site.safe)),
         s => PrimehubLabel(s, site.safe))
  }

  // ---- who is charged ----

  predicate HasLive(w: World, n: Text) {
    n in w.pods && Live(w.pods[n].phase)
  }

  /** The next reconcile that reads such a job deletes its pod, and makes no other. */
  predicate Stopped(j: Job, now: int) {
    j.spec.cancel || PastLimit(j, j.status, now)
  }

  /** A reconcile that may still make a pod. */
  predicate MakerOf(f: Flight, now: int) {
    Podded(f.base.status.phase) && (f.pc.Looking? || f.pc.Creating? || (f.pc.Opened? && !Stopped(f.base, now)))
  }

  /** Once it has no pod, the job may be given one without another admission. */
  predicate MayMake(w: World, n: Text) {
    || (n in w.jobs && Podded(w.jobs[n].status.phase) && !Stopped(w.jobs[n], w.clock))
    || (n in w.flights && MakerOf(w.flights[n], w.clock))
  }

  /** A reconcile that may be about to delete a pod that is live as far as it knows. */
  predicate RemoverOf(f: Flight) {
    match f.pc
    case Opened => f.base.spec.cancel
    case Observing(pod) => Live(pod.phase)
    case Removing(why) => why.Cancelling? || why.TimedOut?
    case _ => false
  }

  predicate Leaving(w: World, n: Text) {
    n in w.flights && RemoverOf(w.flights[n])
  }

  /** The job may come to use what no live pod of its own uses now. */
  predicate Owed(w: World, n: Text) {
    MayMake(w, n) && (n !in w.pods || Leaving(w, n))
  }

  predicate Charged(w: World, n: Text) {
    HasLive(w, n) || Owed(w, n)
  }

  /** But for its cancel, the job would be given pods. */
  predicate StoppedByCancel(w: World, n: Text) {
    && n in w.jobs && Podded(w.jobs[n].status.phase) && w.jobs[n].spec.cancel
    && !PastLimit(w.jobs[n], w.jobs[n].status, w.clock)
  }

  /**
   * Pods that have ended stay ended, and stay as long as their jobs might be given another; a
   * cancel is withdrawn only while the job has its pod, and no reconcile is deleting an ended
   * one. Nothing is asked of the controllers.
   */
  predicate PodsOrderly(w: World, a: Action) {
    match a
    case PodMoves(n, phase, _, _) => Live(phase) ==> HasLive(w, n)
    case PodVanishes(n) => MayMake(w, n) ==> Charged(w, n)
    case SetCancel(n, cancel) =>
      !cancel && StoppedByCancel(w, n) ==> HasLive(w, n) || (n in w.pods && !Leaving(w, n))
    case _ => true
  }

  // ---- no action but an admission charges a job ----

  /** What a reconcile does to its own job's charge. */
  lemma ReconcileCharge(w: World, n: Text, c: Call)
    requires Inv(w) && n in w.flights
    ensures Charged(ReconcileStep(w, n, c), n) ==> Charged(w, n)
  {
    var f := w.flights[n];
    match c
    case FillDeadline(s) => FillCharge(w, n, c);
    case FillTtl(s) => FillCharge(w, n, c);
    case Decide => DecideCharge(w, n);
    case Store => if f.pc.Storing? { StoreCharge(w, n, f, f.pc.again); }
    case Create(answer) => if f.pc.Creating? { CreateCharge(w, n, f); }
    case Remove => if f.pc.Removing? { RemoveCharge(w, n, f, f.pc.why); }
    case _ => QuietCharge(w, n, c);
  }

  lemma FillCharge(w: World, n: Text, c: Call)
    requires Inv(w) && n in w.flights && (c.FillDeadline? || c.FillTtl?)
    ensures Charged(ReconcileStep(w, n, c), n) ==> Charged(w, n)
  {
    assert FlightInv(w, n, w.flights[n]);
  }

  lemma DecideCharge(w: World, n: Text)
    requires Inv(w) && n in w.flights
    ensures Charged(ReconcileStep(w, n, Decide), n) ==> Charged(w, n)
  {
    assert FlightInv(w, n, w.flights[n]);
  }

  lemma StoreCharge(w: World, n: Text, f: Flight, again: bool)
    requires Inv(w) && n in w.flights && f == w.flights[n] && f.pc == Storing(again)
    ensures Charged(StoreOn(w, n, f, again), n) ==> Charged(w, n)
  {
    assert FlightInv(w, n, f);
  }

  lemma CreateCharge(w: World, n: Text, f: Flight)
    requires Inv(w) && n in w.flights && f == w.flights[n] && f.pc.Creating?
    ensures Charged(w, n)
  {
    assert FlightInv(w, n, f);
  }

  lemma RemoveCharge(w: World, n: Text, f: Flight, why: Why)
    requires Inv(w) && n in w.flights && f == w.flights[n] && f.pc == Removing(why)
    ensures Charged(RemoveOn(w, n, f, why), n) ==> Charged(w, n)
  {
    assert FlightInv(w, n, f);
  }

  /** The other steps of a reconcile touch neither the stored job nor its pod. */
  lemma QuietCharge(w: World, n: Text, c: Call)
    requires Inv(w) && n in w.flights && (c.Stamp? || c.Look? || c.Judge? || c.Drop?)
    ensures Charged(ReconcileStep(w, n, c), n) ==> Charged(w, n)
  {
    var v := ReconcileStep(w, n, c);
    assert v.jobs == w.jobs && v.pods == w.pods && v.clock == w.clock;
    assert FlightInv(w, n, w.flights[n]);
    if n in v.flights && v.flights[n] != w.flights[n] {
      QuietFlight(w, n, w.flights[n], c);
    }
  }

  /** The flight that such a step leaves is no more likely to make or to remove a pod. */
  lemma QuietFlight(w: World, n: Text, f: Flight, c: Call)
    requires n in w.flights && f == w.flights[n] && (c.Stamp? || c.Look? || c.Judge?)
    requires n in ReconcileStep(w, n, c).flights && ReconcileStep(w, n, c).flights[n] != f
    ensures var g := ReconcileStep(w, n, c).flights[n];
            && (MakerOf(g, w.clock) ==> MakerOf(f, w.clock) && n !in w.pods)
            && (RemoverOf(g) ==> RemoverOf(f) || HasLive(w, n))
  {
    if c.Stamp? && f.pc.Stamping? {
      StampedFlight(w, n, f, f.pc.cause);
    }
  }

  lemma StampedFlight(w: World, n: Text, f: Flight, cause: Cause)
    requires n in StampOn(w, n, f, cause).flights && n in w.flights
    ensures StampOn(w, n, f, cause).flights[n].pc.Storing?
  {
  }

  /** What everybody else does to it. */
  lemma OthersCharge(w: World, a: Action, n: Text)
    requires Inv(w) && PodsOrderly(w, a) && Concerns(a, n) && !a.Goes? && !a.SchedulerAdmits?
    requires Charged(Apply(w, a), n)
    ensures Charged(w, n)
  {
    if a.PodMoves? || a.PodVanishes? {
      PodCharge(w, a, n);
    } else if a.SchedulerFails? {
      FailCharge(w, a, n);
    } else if a.SetCancel? {
      CancelCharge(w, n, a.cancel);
    }
  }

  lemma PodCharge(w: World, a: Action, n: Text)
    requires PodsOrderly(w, a) && (a.PodMoves? || a.PodVanishes?) && a.name == n
    ensures Charged(Apply(w, a), n) ==> Charged(w, n)
  {
  }

  lemma FailCharge(w: World, a: Action, n: Text)
    requires Inv(w) && a.SchedulerFails? && a.name == n
    ensures Charged(Apply(w, a), n) ==> Charged(w, n)
  {
    if n in w.listed {
      assert ListedInv(w, n);
    }
  }

  lemma CancelCharge(w: World, n: Text, cancel: bool)
    requires Inv(w) && PodsOrderly(w, SetCancel(n, cancel)) && Charged(Apply(w, SetCancel(n, cancel)), n)
    ensures Charged(w, n)
  {
  }

  /** Time only stops jobs. */
  lemma AgreeCharge(w: World, v: World, n: Text)
    requires Agree(w, v, n) && w.clock <= v.clock && Charged(v, n)
    ensures Charged(w, n)
  {
  }

  /** Only an admission adds to the jobs that are charged. */
  lemma NoNewCharge(w: World, a: Action, n: Text)
    requires Inv(w) && PodsOrderly(w, a) && (a.SchedulerAdmits? ==> a.name != n)
    requires Charged(Apply(w, a), n)
    ensures Charged(w, n)
  {
    if !Concerns(a, n) {
      ActionConcernsOneJob(w, a, n);
      AgreeCharge(w, Apply(w, a), n);
    } else if !a.Goes? {
      OthersCharge(w, a, n);
    } else if n in w.flights {
      ReconcileCharge(w, n, a.call);
    }
  }

  // ---- sums over jobs ----

  /** The limits of the jobs that `pick` picks, added up. */
  function Total(site: Site, names: seq<Text>, pick: Text -> bool, d: Dim): int {
    if names == [] then 0
    else
      var n := names[|names| - 1];
      Total(site, names[..|names| - 1], pick, d) + if pick(n) then PodLimits(site, n).At(d) else 0
  }

  ghost predicate NonNegativeLimits(site: Site) {
    forall n, d: Dim :: PodLimits(site, n).At(d) >= 0
  }

  lemma {:induction false} TotalLess(site: Site, names: seq<Text>, few: Text -> bool, many: Text -> bool,
                                     d: Dim)
    requires NonNegativeLimits(site) && forall n :: n in names && few(n) ==> many(n)
    ensures Total(site, names, few, d) <= Total(site, names, many, d)
  {
    if names != [] {
      TotalLess(site, names[..|names| - 1], few, many, d);
    }
  }

  /** All but one of the picked jobs were picked before. */
  lemma {:induction false} TotalOneMore(site: Site, names: seq<Text>, few: Text -> bool,
                                        many: Text -> bool, one: Text, d: Dim)
    requires NonNegativeLimits(site) && NoRepeats(names)
    requires forall n :: n in names && n != one && many(n) ==> few(n)
    ensures Total(site, names, many, d)
            <= Total(site, names, few, d) + if one in names && many(one) then PodLimits(site, one).At(d) else 0
  {
    if names != [] {
      var k := |names| - 1;
      if names[k] == one {
        assert one !in names[..k];
        TotalLess(site, names[..k], many, few, d);
      } else {
        assert one in names <==> one in names[..k];
        TotalOneMore(site, names[..k], few, many, one, d);
      }
    }
  }

  // ---- demand ----

  /** Is the job one of the group, or of that user of the group? */
  predicate Belongs(site: Site, group: Text, user: Option<Text>, n: Text) {
    site.specs(n).groupName == group && (user.None? || site.specs(n).user == user.value)
  }

  function BelongsTo(site: Site, group: Text, user: Option<Text>): Text -> bool {
    n => Belongs(site, group, user, n)
  }

  function ChargedTo(site: Site, w: World, group: Text, user: Option<Text>): Text -> bool {
    n => Belongs(site, group, user, n) && Charged(w, n)
  }

  function UsedBy(site: Site, w: World, group: Text, user: Option<Text>): Text -> bool {
    n => Belongs(site, group, user, n) && HasLive(w, n)
  }

  /** What the jobs of a group, or of one of its users, use or may come to use. */
  function Demand(site: Site, w: World, group: Text, user: Option<Text>, d: Dim): int {
    Total(site, site.roster, ChargedTo(site, w, group, user), d)
  }

  /** What their pods use. */
  function PodUsage(site: Site, w: World, group: Text, user: Option<Text>, d: Dim): int {
    Total(site, site.roster, UsedBy(site, w, group, user), d)
  }

  lemma NamedPodUse(site: Site, n: Text, phase: PodPhase, d: Dim)
    ensures PodUse(NamedPod(site, n, phase), d) == if Live(phase) then PodLimits(site, n).At(d) else 0
  {
    var limits := [PodLimits(site, n)];
    assert limits[..0] == [];
    assert ContainersUse(limits, d) == ContainersUse(limits[..0], d) + limits[0].At(d);
  }

  lemma TakenNext(pods: seq<Pod>, p: Pod, mine: Pod -> bool, d: Dim)
    ensures Taken(pods + [p], mine, d) == Taken(pods, mine, d) + if mine(p) then PodUse(p, d) else 0
  {
    assert (pods + [p])[..|pods|] == pods;
  }

  /** One more job, which has a pod or has none. */
  function WithPod(site: Site, pods: map<Text, KubePod>, before: seq<Pod>, n: Text): seq<Pod> {
    if n in pods then before + [NamedPod(site, n, pods[n].phase)] else before
  }

  lemma NamedPodsNext(site: Site, pods: map<Text, KubePod>, names: seq<Text>)
    requires names != []
    ensures var k := |names| - 1;
            NamedPods(site, pods, names) == WithPod(site, pods, NamedPods(site, pods, names[..k]), names[k])
  {
  }

  lemma WithPodTaken(site: Site, w: World, before: seq<Pod>, n: Text, group: Text, user: Option<Text>, d: Dim)
    ensures Taken(WithPod(site, w.pods, before, n), Owned(group, user), d)
            == Taken(before, Owned(group, user), d)
               + if UsedBy(site, w, group, user)(n) then PodLimits(site, n).At(d) else 0
  {
    if n in w.pods {
      TakenNext(before, NamedPod(site, n, w.pods[n].phase), Owned(group, user), d);
      NamedPodUse(site, n, w.pods[n].phase, d);
    }
  }

  /** The pods that usage adds up are those of the jobs. */
  lemma {:induction false} PodUsageTaken(site: Site, w: World, names: seq<Text>, group: Text,
                                         user: Option<Text>, d: Dim)
    ensures Taken(NamedPods(site, w.pods, names), Owned(group, user), d)
            == Total(site, names, UsedBy(site, w, group, user), d)
  {
    if names != [] {
      var k := |names| - 1;
      PodUsageTaken(site, w, names[..k], group, user, d);
      NamedPodsNext(site, w.pods, names);
      WithPodTaken(site, w, NamedPods(site, w.pods, names[..k]), names[k], group, user, d);
    }
  }

  /** An action that admits nobody adds to nobody's demand. */
  lemma DemandStays(site: Site, w: World, a: Action, group: Text, user: Option<Text>, d: Dim)
    requires NonNegativeLimits(site) && Inv(w) && PodsOrderly(w, a) && !a.SchedulerAdmits?
    ensures Demand(site, Apply(w, a), group, user, d) <= Demand(site, w, group, user, d)
  {
    forall n | Charged(Apply(w, a), n) ensures Charged(w, n) {
      NoNewCharge(w, a, n);
    }
    TotalLess(site, site.roster, ChargedTo(site, Apply(w, a), group, user), ChargedTo(site, w, group, user), d);
  }

  /** An admission adds no more than the job's own limits. */
  lemma AdmissionAdds(site: Site, w: World, m: Text, group: Text, user: Option<Text>, d: Dim)
    requires NonNegativeLimits(site) && NoRepeats(site.roster) && Inv(w)
    ensures Demand(site, Apply(w, SchedulerAdmits(m)), group, user, d)
            <= Demand(site, w, group, user, d)
               + if Belongs(site, group, user, m) then PodLimits(site, m).At(d) else 0
  {
    var a := SchedulerAdmits(m);
    forall n | n != m && Charged(Apply(w, a), n) ensures Charged(w, n) {
      NoNewCharge(w, a, n);
    }
    TotalOneMore(site, site.roster, ChargedTo(site, w, group, user), ChargedTo(site, Apply(w, a), group, user), m, d);
  }

  /** What the pods use is part of the demand; it is all of it when no pod is owed. */
  lemma UsageWithinDemand(site: Site, w: World, group: Text, user: Option<Text>, d: Dim)
    requires NonNegativeLimits(site)
    ensures PodUsage(site, w, group, user, d) <= Demand(site, w, group, user, d)
    ensures (forall n :: n in site.roster && Belongs(site, group, user, n) && Owed(w, n) ==> HasLive(w, n))
            ==> PodUsage(site, w, group, user, d) == Demand(site, w, group, user, d)
  {
    var used, charged := UsedBy(site, w, group, user), ChargedTo(site, w, group, user);
    forall n | used(n) ensures charged(n) {}
    TotalLess(site, site.roster, used, charged, d);
    if forall n :: n in site.roster && Belongs(site, group, user, n) && Owed(w, n) ==> HasLive(w, n) {
      forall n | n in site.roster && charged(n) ensures used(n) {}
      TotalLess(site, site.roster, charged, used, d);
    }
  }
}
