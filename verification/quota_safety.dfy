/**
 * Quota safety over whole runs of the PhJob machine, with the scheduler's passes in them. A
 * pass reads the pods as they are, and then sends its admissions one by one; anything may
 * happen in between.
 *
 * Usage counts pods, so a job that will be given a pod is invisible to a pass while it has
 * none. Quotas are safe in every run in which a group gets a pass only when no pod is owed to
 * its jobs, in which a pod that has ended does not become live again, and is not taken away
 * by others as long as its job might be given another one, and in which cancels are withdrawn
 * while the pod is there. Module QuotaLimits has a run that overdraws without each of these.
 */
module QuotaSafety {
  import opened Prelude
  import opened Escapism
  import opened Jobs
  import opened Lists
  import opened Quota
  import opened Admission
  import opened AdmissionLaws
  import opened Tick
  import opened UsageByLabel
  import opened Protocol
  import opened ProtocolSafety
  import opened QuotaDemand
  import TickLaws

  /** The machine, and the admissions that the last pass has decided on and not sent yet. */
  datatype Scene = Scene(w: World, plan: seq<Write>)

  const START := Scene(INITIAL, [])

  /**
   * A pass over a line of listed jobs; the next of its writes, which arrives, or fails and is
   * logged; or an action of anyone else.
   */
  datatype Event = GroupPass(id: Text, line: seq<Job>) | Send | Lose | Others(a: Action)

  function OracleOf(book: Book): (o: Oracle)
    ensures Answers(book, o)
  {
    Oracle(i => book.Request(i), (g, u) => book.UserLeft(g, u))
  }

  /** The line has listed jobs of the group. */
  predicate InLine(w: World, id: Text, line: seq<Job>) {
    forall j :: j in line ==> j.name in w.listed && w.listed[j.name] == j && j.spec.groupId == id
  }

  /** There is one scheduler: it sends what a pass has decided before it goes on. */
  ghost function Step(site: Site, s: Scene, e: Event): Scene {
    match e
    case GroupPass(id, line) =>
      var book := BookOf(site, s.w);
      var r := GroupFold(book, OracleOf(book), id, line);
      if s.plan != [] || !InLine(s.w, id, line) || r.exit == Crashed then s
      else s.(plan := Admissions(line, r.flags))
    case Send =>
      if s.plan == [] then s
      else
        var x := s.plan[0];
        Scene(UpdateStatus(s.w, x.job.name, x.job, x.status), s.plan[1..])
    case Lose => if s.plan == [] then s else s.(plan := s.plan[1..])
    case Others(a) =>
      if a.SchedulerAdmits? || (a.SchedulerLists? && s.plan != []) then s
      else s.(w := Apply(s.w, a))
  }

  // ---- what is promised ----

  function NamesOf(plan: seq<Write>): seq<Text> {
    if plan == [] then [] else NamesOf(plan[..|plan| - 1]) + [plan[|plan| - 1].job.name]
  }

  /** What the admissions still to be sent will add. */
  function Promised(site: Site, plan: seq<Write>, group: Text, user: Option<Text>, d: Dim): int {
    Total(site, NamesOf(plan), BelongsTo(site, group, user), d)
  }

  function Committed(site: Site, s: Scene, group: Text, user: Option<Text>, d: Dim): int {
    Demand(site, s.w, group, user, d) + Promised(site, s.plan, group, user, d)
  }

  /** Nothing, or no more than the limit. */
  ghost predicate Within(limit: Amounts, site: Site, s: Scene, group: Text, user: Option<Text>) {
    forall d: Dim :: limit.At(d).Some? ==>
      var t := Committed(site, s, group, user, d);
      t <= 0 || t <= limit.At(d).value
  }

  /** The users whose quota is enforced: the pods of others are not counted. */
  ghost predicate Plain(user: Text) {
    ValidUtf8(user) && !(PREFIX <= user)
  }

  /** The group and each of its users are committed to no more than their quotas. */
  ghost predicate SafeGroup(site: Site, s: Scene, g: Group) {
    && (Converted(g.project).Ok? ==> Within(Converted(g.project).value, site, s, g.name, None))
    && (Converted(g.user).Ok? ==>
          forall u :: Plain(u) ==> Within(Converted(g.user).value, site, s, g.name, Some(u)))
  }

  predicate SameAsk(a: Spec, b: Spec) {
    a.groupId == b.groupId && a.groupName == b.groupName && a.user == b.user && a.instance == b.instance
  }

  /** Stored and listed jobs are those of the roster. */
  ghost predicate Faithful(site: Site, w: World) {
    && (forall n :: n in w.jobs ==> n in site.roster && SameAsk(w.jobs[n].spec, site.specs(n)))
    && (forall n :: n in w.listed ==> SameAsk(w.listed[n].spec, site.specs(n)))
  }

  /** What a pass has decided on is an admission of a job as it is listed. */
  ghost predicate PlanOk(s: Scene) {
    forall x :: x in s.plan ==>
      && x.job.name in s.w.listed && s.w.listed[x.job.name] == x.job
      && x.status == x.job.status.(phase := Preparing)
  }

  ghost predicate Safe(site: Site, s: Scene) {
    && Inv(s.w) && Faithful(site, s.w) && PlanOk(s)
    && forall id :: site.groups(id).Ok? ==> SafeGroup(site, s, site.groups(id).value)
  }

  // ---- what is assumed ----

  /**
   * Names are valid and no request is negative; group ids and names are one-to-one, and the
   * group name in a job's spec, which its pod is labelled with, is that of its group id.
   */
  ghost predicate Orderly(site: Site) {
    && Table(site.safe) && NoRepeats(site.roster)
    && (forall id :: site.groups(id).Ok? ==> ValidUtf8(site.groups(id).value.name))
    && (forall a, b ::
          (site.groups(a).Ok? && site.groups(b).Ok?
           && site.groups(a).value.name == site.groups(b).value.name) ==> a == b)
    && (forall n ::
          var s := site.specs(n);
          && ValidUtf8(s.groupName) && ValidUtf8(s.user)
          && (site.groups(s.groupId).Ok? ==> s.groupName == site.groups(s.groupId).value.name))
    && (forall i :: site.instances(i).Ok? && Converted(site.instances(i).value).Ok?
                    ==> NonNegative(Converted(site.instances(i).value).value))
  }

  /** Nothing is owed to the group's jobs beyond their live pods. */
  predicate Settled(site: Site, w: World, group: Text) {
    forall n :: n in site.roster && site.specs(n).groupName == group && Owed(w, n) ==> HasLive(w, n)
  }

  /**
   * The jobs submitted are those of the roster; pods end for good, and stay while their jobs
   * might be given another; and a group gets a pass only when it is settled. Every action of
   * the reconciler and of the cleaner is regular.
   */
  ghost predicate Regular(site: Site, s: Scene, e: Event) {
    match e
    case GroupPass(id, _) => site.groups(id).Ok? ==> Settled(site, s.w, site.groups(id).value.name)
    case Send => true
    case Lose => true
    case Others(a) =>
      && (a.Submit? ==> a.name in site.roster && SameAsk(a.spec, site.specs(a.name)))
      && PodsOrderly(s.w, a)
  }

  // ---- anyone else's action ----

  lemma LimitsNonNegative(site: Site)
    requires Orderly(site)
    ensures NonNegativeLimits(site)
  {
    forall n, d: Dim ensures PodLimits(site, n).At(d) >= 0 {
      var request := RequestOf(site, n);
      if request.Ok? {
        assert NonNegative(request.value);
        assert PodLimits(site, n).At(d) == AmountOf(request.value.At(d));
      }
    }
  }

  ghost predicate NoMore(site: Site, s: Scene, t: Scene) {
    forall group, user, d: Dim :: Committed(site, t, group, user, d) <= Committed(site, s, group, user, d)
  }

  lemma SafeWithLess(site: Site, s: Scene, t: Scene)
    requires Safe(site, s) && NoMore(site, s, t) && Inv(t.w) && Faithful(site, t.w) && PlanOk(t)
    ensures Safe(site, t)
  {
    forall id | site.groups(id).Ok? ensures SafeGroup(site, t, site.groups(id).value) {
      var g := site.groups(id).value;
      assert SafeGroup(site, s, g);
      if Converted(g.user).Ok? {
        forall u | Plain(u) ensures Within(Converted(g.user).value, site, t, g.name, Some(u)) {
          assert Within(Converted(g.user).value, site, s, g.name, Some(u));
        }
      }
    }
  }

  /** A reconcile changes nothing of what its job asks for. */
  lemma ReconcileFaithful(site: Site, w: World, n: Text, c: Call)
    requires Inv(w) && Faithful(site, w) && n in w.flights
    ensures Faithful(site, ReconcileStep(w, n, c))
  {
    var f, v := w.flights[n], ReconcileStep(w, n, c);
    assert FlightInv(w, n, f);
    forall m | m in v.jobs
      ensures m in site.roster && SameAsk(v.jobs[m].spec, site.specs(m))
    {
      if m != n {
        assert Agree(w, v, m);
      }
    }
  }

  lemma OthersFaithful(site: Site, w: World, a: Action)
    requires Inv(w) && Faithful(site, w) && !a.SchedulerAdmits?
    requires a.Submit? ==> a.name in site.roster && SameAsk(a.spec, site.specs(a.name))
    ensures Faithful(site, Apply(w, a))
  {
    if a.Goes? && a.name in w.flights {
      ReconcileFaithful(site, w, a.name, a.call);
    }
  }

  lemma OthersKeep(site: Site, s: Scene, a: Action)
    requires Orderly(site) && Safe(site, s) && Regular(site, s, Others(a))
    ensures Safe(site, Step(site, s, Others(a)))
  {
    var t := Step(site, s, Others(a));
    if t != s {
      LimitsNonNegative(site);
      ProtocolSafety.StepKeeps(s.w, a);
      OthersFaithful(site, s.w, a);
      forall group, user, d: Dim
        ensures Committed(site, t, group, user, d) <= Committed(site, s, group, user, d)
      {
        DemandStays(site, s.w, a, group, user, d);
      }
      SafeWithLess(site, s, t);
    }
  }

  // ---- an admission is sent ----

  lemma {:induction false} NamesOfRest(plan: seq<Write>)
    requires plan != []
    ensures NamesOf(plan) == [plan[0].job.name] + NamesOf(plan[1..])
  {
    var n := |plan| - 1;
    if n > 0 {
      NamesOfRest(plan[..n]);
      assert plan[..n][1..] == plan[1..][..n - 1] && plan[1..][n - 1] == plan[n];
    }
  }

  lemma {:induction false} TotalFirst(site: Site, names: seq<Text>, pick: Text -> bool, d: Dim)
    requires names != []
    ensures Total(site, names, pick, d)
            == (if pick(names[0]) then PodLimits(site, names[0]).At(d) else 0) + Total(site, names[1..], pick, d)
  {
    var n := |names| - 1;
    if n > 0 {
      TotalFirst(site, names[..n], pick, d);
      assert names[..n][1..] == names[1..][..n - 1] && names[1..][n - 1] == names[n];
    }
  }

  /** What is sent is promised no longer. */
  lemma PromiseKept(site: Site, plan: seq<Write>, group: Text, user: Option<Text>, d: Dim)
    requires plan != []
    ensures var n := plan[0].job.name;
            Promised(site, plan, group, user, d)
            == Promised(site, plan[1..], group, user, d)
               + if Belongs(site, group, user, n) then PodLimits(site, n).At(d) else 0
  {
    NamesOfRest(plan);
    TotalFirst(site, NamesOf(plan), BelongsTo(site, group, user), d);
    assert NamesOf(plan)[1..] == NamesOf(plan[1..]);
  }

  /** The write is the scheduler's step in the machine. */
  lemma SendIsStep(s: Scene)
    requires PlanOk(s) && s.plan != []
    ensures var x := s.plan[0];
            UpdateStatus(s.w, x.job.name, x.job, x.status) == Apply(s.w, SchedulerAdmits(x.job.name))
  {
    assert s.plan[0] in s.plan;
  }

  lemma SendFaithful(site: Site, w: World, m: Text)
    requires Faithful(site, w)
    ensures Faithful(site, Apply(w, SchedulerAdmits(m))) && Apply(w, SchedulerAdmits(m)).listed == w.listed
  {
  }

  lemma SendKeeps(site: Site, s: Scene)
    requires Orderly(site) && Safe(site, s) && s.plan != []
    ensures Safe(site, Step(site, s, Send))
  {
    var t, m := Step(site, s, Send), s.plan[0].job.name;
    LimitsNonNegative(site);
    SendIsStep(s);
    ProtocolSafety.StepKeeps(s.w, SchedulerAdmits(m));
    SendFaithful(site, s.w, m);
    assert PlanOk(t) by {
      forall x | x in t.plan ensures x in s.plan {}
    }
    forall group, user, d: Dim
      ensures Committed(site, t, group, user, d) <= Committed(site, s, group, user, d)
    {
      AdmissionAdds(site, s.w, m, group, user, d);
      PromiseKept(site, s.plan, group, user, d);
    }
    SafeWithLess(site, s, t);
  }

  /** An admission that does not arrive only takes something away. */
  lemma LoseKeeps(site: Site, s: Scene)
    requires Orderly(site) && Safe(site, s) && s.plan != []
    ensures Safe(site, Step(site, s, Lose))
  {
    var t := Step(site, s, Lose);
    LimitsNonNegative(site);
    assert PlanOk(t) by {
      forall x | x in t.plan ensures x in s.plan {}
    }
    forall group, user, d: Dim
      ensures Committed(site, t, group, user, d) <= Committed(site, s, group, user, d)
    {
      PromiseKept(site, s.plan, group, user, d);
    }
    SafeWithLess(site, s, t);
  }

  // ---- a pass ----

  /** The jobs of a line ask for what the roster says. */
  ghost predicate LineOk(site: Site, id: Text, line: seq<Job>) {
    forall j :: j in line ==> j.spec.groupId == id && SameAsk(j.spec, site.specs(j.name))
  }

  lemma LimitsAreNeeded(site: Site, o: Oracle, w: World, j: Job, d: Dim)
    requires o == OracleOf(BookOf(site, w)) && SameAsk(j.spec, site.specs(j.name))
    ensures PodLimits(site, j.name).At(d) == Need(o, AskOf(j.spec), d)
  {
    assert o.request(j.spec.instance) == RequestOf(site, j.name);
  }

  lemma NamesOfNext(plan: seq<Write>, x: Write)
    ensures NamesOf(plan + [x]) == NamesOf(plan) + [x.job.name]
  {
    assert (plan + [x])[..|plan|] == plan;
  }

  lemma TotalNext(site: Site, names: seq<Text>, n: Text, pick: Text -> bool, d: Dim)
    ensures Total(site, names + [n], pick, d)
            == Total(site, names, pick, d) + if pick(n) then PodLimits(site, n).At(d) else 0
  {
    assert (names + [n])[..|names|] == names;
  }

  lemma PromiseNext(site: Site, plan: seq<Write>, x: Write, group: Text, user: Option<Text>, d: Dim)
    ensures Promised(site, plan + [x], group, user, d)
            == Promised(site, plan, group, user, d)
               + if Belongs(site, group, user, x.job.name) then PodLimits(site, x.job.name).At(d) else 0
  {
    NamesOfNext(plan, x);
    TotalNext(site, NamesOf(plan), x.job.name, BelongsTo(site, group, user), d);
  }

  lemma ChargeNext(o: Oracle, line: seq<Job>, flags: seq<bool>, user: Option<Text>, d: Dim)
    requires |flags| == |line| > 0
    ensures var n := |line| - 1;
            Charge(o, AsksOf(line), flags, user, d)
            == Charge(o, AsksOf(line[..n]), flags[..n], user, d)
               + if flags[n] && (user.None? || user.value == line[n].spec.user) then Need(o, AskOf(line[n].spec), d)
                 else 0
  {
    var n := |line| - 1;
    assert AsksOf(line)[..n] == AsksOf(line[..n]) && AsksOf(line)[n] == AskOf(line[n].spec);
  }

  /** What a pass promises is what it charges. */
  lemma {:induction false} PromiseIsCharge(site: Site, o: Oracle, w: World, id: Text, line: seq<Job>,
                                           flags: seq<bool>, user: Option<Text>, d: Dim)
    requires Orderly(site) && o == OracleOf(BookOf(site, w)) && LineOk(site, id, line)
    requires |flags| == |line| && site.groups(id).Ok?
    ensures Promised(site, Admissions(line, flags), site.groups(id).value.name, user, d)
            == Charge(o, AsksOf(line), flags, user, d)
  {
    if line != [] {
      var n := |line| - 1;
      var j, group := line[n], site.groups(id).value.name;
      var before, x := Admissions(line[..n], flags[..n]), Write(j, j.status.(phase := Preparing));
      PromiseIsCharge(site, o, w, id, line[..n], flags[..n], user, d);
      TickLaws.AdmissionsNext(line, flags);
      ChargeNext(o, line, flags, user, d);
      PromiseNext(site, before, x, group, user, d);
      LimitsAreNeeded(site, o, w, j, d);
      assert Belongs(site, group, user, j.name) <==> user.None? || user.value == j.spec.user;
    }
  }

  /** Nothing is promised to another group. */
  lemma {:induction false} NothingPromised(site: Site, line: seq<Job>, flags: seq<bool>, group: Text,
                                           user: Option<Text>, d: Dim)
    requires |flags| == |line|
    requires forall j :: j in line ==> site.specs(j.name).groupName != group
    ensures Promised(site, Admissions(line, flags), group, user, d) == 0
  {
    if line != [] {
      var n := |line| - 1;
      var j, before := line[n], Admissions(line[..n], flags[..n]);
      NothingPromised(site, line[..n], flags[..n], group, user, d);
      TickLaws.AdmissionsNext(line, flags);
      PromiseNext(site, before, Write(j, j.status.(phase := Preparing)), group, user, d);
    }
  }

  lemma {:induction false} NoCharge(o: Oracle, asks: seq<Ask>, flags: seq<bool>, who: Option<Text>, d: Dim)
    requires |asks| == |flags|
    requires forall i :: 0 <= i < |asks| && flags[i] ==> who.Some? && who.value != asks[i].user
    ensures Charge(o, asks, flags, who, d) == 0
  {
    if asks != [] {
      NoCharge(o, asks[..|asks| - 1], flags[..|asks| - 1], who, d);
    }
  }

  /** What was left, less what was charged, is not negative: so the quota pays for both. */
  lemma PaidFor(limit: Amounts, pods: seq<Pod>, left: Amounts, charge: int, d: Dim)
    requires limit.At(d).Some? && left.At(d).Some? ==> left.At(d).value >= 0
    requires Remains(left.At(d), Left(limit, pods).At(d), charge)
    ensures limit.At(d).Some? ==> Use(pods, d) + charge <= limit.At(d).value
  {
    Dimensions(Usage(pods), limit);
  }

  lemma {:induction false} NamedPodsProper(site: Site, pods: map<Text, KubePod>, names: seq<Text>)
    requires Orderly(site)
    ensures ProperNames(NamedPods(site, pods, names))
  {
    if names != [] {
      NamedPodsProper(site, pods, names[..|names| - 1]);
    }
  }

  /** In a settled group, what the labels count is all that the group's jobs may use. */
  lemma SettledGroupUsage(site: Site, w: World, id: Text, d: Dim)
    requires Orderly(site) && site.groups(id).Ok? && Settled(site, w, site.groups(id).value.name)
    ensures var g := site.groups(id).value;
            Use(BookOf(site, w).GroupPods(g.name), d) == Demand(site, w, g.name, None, d)
  {
    var g, pods := site.groups(id).value, NamedPods(site, w.pods, site.roster);
    LimitsNonNegative(site);
    NamedPodsProper(site, w.pods, site.roster);
    GroupUsageExact(BookOf(site, w), pods, site.safe, g.name, d);
    PodUsageTaken(site, w, site.roster, g.name, None, d);
    UsageWithinDemand(site, w, g.name, None, d);
  }

  lemma SettledUserUsage(site: Site, w: World, id: Text, u: Text, d: Dim)
    requires Orderly(site) && site.groups(id).Ok? && Settled(site, w, site.groups(id).value.name) && Plain(u)
    ensures var g := site.groups(id).value;
            Use(BookOf(site, w).UserPods(g.name, u), d) == Demand(site, w, g.name, Some(u), d)
  {
    var g, pods := site.groups(id).value, NamedPods(site, w.pods, site.roster);
    LimitsNonNegative(site);
    NamedPodsProper(site, w.pods, site.roster);
    UserUsageExact(BookOf(site, w), pods, site.safe, g.name, u);
    PodUsageTaken(site, w, site.roster, g.name, Some(u), d);
    UsageWithinDemand(site, w, g.name, Some(u), d);
  }

  /** A pass that is made, and what it is made of. */
  ghost predicate Passes(site: Site, s: Scene, id: Text, line: seq<Job>, g: Group, r: Pass) {
    var book := BookOf(site, s.w);
    && s.plan == [] && InLine(s.w, id, line) && LineOk(site, id, line)
    && book.GroupLeft(id).Ok? && site.groups(id) == Ok(g) && Settled(site, s.w, g.name)
    && r == Fold(OracleOf(book), book.GroupLeft(id).value, map[], AsksOf(line)) && r.exit != Crashed
  }

  /** The group's commitment after a pass. */
  lemma GroupAfterPass(site: Site, s: Scene, id: Text, line: seq<Job>, g: Group, r: Pass)
    requires Orderly(site) && Safe(site, s) && Passes(site, s, id, line, g, r)
    ensures Within(Converted(g.project).value, site, s.(plan := Admissions(line, r.flags)), g.name, None)
  {
    var book, t := BookOf(site, s.w), s.(plan := Admissions(line, r.flags));
    var o, asks, limit, left := OracleOf(book), AsksOf(line), Converted(g.project).value, book.GroupLeft(id).value;
    Conservation(o, left, map[], asks, id);
    NeverOverdrawn(o, left, map[], asks);
    assert SafeGroup(site, s, g);
    forall d: Dim | limit.At(d).Some?
      ensures var c := Committed(site, t, g.name, None, d); c <= 0 || c <= limit.At(d).value
    {
      SettledGroupUsage(site, s.w, id, d);
      PromiseIsCharge(site, o, s.w, id, line, r.flags, None, d);
      if exists i :: 0 <= i < |asks| && r.flags[i] {
        PaidFor(limit, book.GroupPods(g.name), r.group, Charge(o, asks, r.flags, None, d), d);
      } else {
        NoCharge(o, asks, r.flags, None, d);
        assert Within(limit, site, s, g.name, None);
      }
    }
  }

  /** A user's commitment after a pass. */
  lemma UserAfterPass(site: Site, s: Scene, id: Text, line: seq<Job>, g: Group, r: Pass, u: Text)
    requires Orderly(site) && Safe(site, s) && Passes(site, s, id, line, g, r) && Plain(u)
    ensures Within(Converted(g.user).value, site, s.(plan := Admissions(line, r.flags)), g.name, Some(u))
  {
    var book, t := BookOf(site, s.w), s.(plan := Admissions(line, r.flags));
    var o, asks, limit, left := OracleOf(book), AsksOf(line), Converted(g.user).value, book.GroupLeft(id).value;
    Conservation(o, left, map[], asks, id);
    NeverOverdrawn(o, left, map[], asks);
    assert SafeGroup(site, s, g);
    assert UserBalanced(o, map[], asks, id, r, u);
    forall d: Dim | limit.At(d).Some?
      ensures var c := Committed(site, t, g.name, Some(u), d); c <= 0 || c <= limit.At(d).value
    {
      SettledUserUsage(site, s.w, id, u, d);
      PromiseIsCharge(site, o, s.w, id, line, r.flags, Some(u), d);
      if i :| 0 <= i < |asks| && r.flags[i] && asks[i].user == u {
        PaidFor(limit, book.UserPods(g.name, u), r.users[u], Charge(o, asks, r.flags, Some(u), d), d);
      } else {
        NoCharge(o, asks, r.flags, Some(u), d);
        assert Within(limit, site, s, g.name, Some(u));
      }
    }
  }

  /** Other groups see nothing of a pass. */
  lemma OthersAfterPass(site: Site, s: Scene, t: Scene, line: seq<Job>, flags: seq<bool>, g: Group)
    requires SafeGroup(site, s, g) && s.plan == [] && |flags| == |line|
    requires t == s.(plan := Admissions(line, flags))
    requires forall j :: j in line ==> site.specs(j.name).groupName != g.name
    ensures SafeGroup(site, t, g)
  {
    forall user, d: Dim ensures Committed(site, t, g.name, user, d) == Committed(site, s, g.name, user, d) {
      NothingPromised(site, line, flags, g.name, user, d);
    }
    if Converted(g.user).Ok? {
      forall u | Plain(u) ensures Within(Converted(g.user).value, site, t, g.name, Some(u)) {
        assert Within(Converted(g.user).value, site, s, g.name, Some(u));
      }
    }
  }

  lemma PassPlanOk(site: Site, s: Scene, id: Text, line: seq<Job>)
    requires PlanOk(s)
    ensures PlanOk(Step(site, s, GroupPass(id, line)))
  {
    var book, t := BookOf(site, s.w), Step(site, s, GroupPass(id, line));
    if t != s {
      forall x | x in t.plan
        ensures x.job.name in s.w.listed && s.w.listed[x.job.name] == x.job
        ensures x.status == x.job.status.(phase := Preparing)
      {
        TickLaws.AdmissionsRightful(line, GroupFold(book, OracleOf(book), id, line).flags, x);
      }
    }
  }

  lemma PassKeeps(site: Site, s: Scene, id: Text, line: seq<Job>)
    requires Orderly(site) && Safe(site, s) && Regular(site, s, GroupPass(id, line))
    ensures Safe(site, Step(site, s, GroupPass(id, line)))
  {
    var book, t := BookOf(site, s.w), Step(site, s, GroupPass(id, line));
    var r := GroupFold(book, OracleOf(book), id, line);
    if t != s {
      if book.GroupLeft(id).Err? {
        NoneAdmitted(line, r.flags);
        assert false;
      }
      var g := site.groups(id).value;
      assert Passes(site, s, id, line, g, r);
      PassPlanOk(site, s, id, line);
      GroupAfterPass(site, s, id, line, g, r);
      forall u | Plain(u) ensures Within(Converted(g.user).value, site, t, g.name, Some(u)) {
        UserAfterPass(site, s, id, line, g, r, u);
      }
      forall i | site.groups(i).Ok? && i != id ensures SafeGroup(site, t, site.groups(i).value) {
        assert SafeGroup(site, s, site.groups(i).value);
        OthersAfterPass(site, s, t, line, r.flags, site.groups(i).value);
      }
    }
  }

  // ---- whole runs ----

  lemma StepKeeps(site: Site, s: Scene, e: Event)
    requires Orderly(site) && Safe(site, s) && Regular(site, s, e)
    ensures Safe(site, Step(site, s, e))
  {
    match e
    case GroupPass(id, line) => PassKeeps(site, s, id, line);
    case Send => if s.plan != [] { SendKeeps(site, s); }
    case Lose => if s.plan != [] { LoseKeeps(site, s); }
    case Others(a) => OthersKeep(site, s, a);
  }

  ghost function Play(site: Site, events: seq<Event>): Scene {
    if events == [] then START
    else Step(site, Play(site, events[..|events| - 1]), events[|events| - 1])
  }

  /** Every step of the run is regular. */
  ghost predicate RegularRun(site: Site, events: seq<Event>) {
    events != [] ==>
      var n := |events| - 1;
      RegularRun(site, events[..n]) && Regular(site, Play(site, events[..n]), events[n])
  }

  lemma {:induction false} NothingAtStart(site: Site, names: seq<Text>, group: Text, user: Option<Text>, d: Dim)
    ensures Total(site, names, ChargedTo(site, INITIAL, group, user), d) == 0
  {
    if names != [] {
      NothingAtStart(site, names[..|names| - 1], group, user, d);
      assert !Charged(INITIAL, names[|names| - 1]);
    }
  }

  lemma StartIsSafe(site: Site)
    ensures Safe(site, START)
  {
    Reachable([]);
    forall group, user, d: Dim ensures Committed(site, START, group, user, d) == 0 {
      NothingAtStart(site, site.roster, group, user, d);
    }
  }

  /** In every regular run, no group and no user is ever committed to more than the quota. */
  lemma {:induction false} QuotasAreSafe(site: Site, events: seq<Event>)
    requires Orderly(site) && RegularRun(site, events)
    ensures Safe(site, Play(site, events))
  {
    if events == [] {
      StartIsSafe(site);
    } else {
      var n := |events| - 1;
      QuotasAreSafe(site, events[..n]);
      StepKeeps(site, Play(site, events[..n]), events[n]);
    }
  }

  /** The quota of a group, or of each of its users. */
  function QuotaOf(g: Group, user: Option<Text>): Result<Amounts> {
    Converted(if user.None? then g.project else g.user)
  }

  lemma {:induction false} TotalNonNegative(site: Site, names: seq<Text>, pick: Text -> bool, d: Dim)
    requires NonNegativeLimits(site)
    ensures Total(site, names, pick, d) >= 0
  {
    if names != [] {
      TotalNonNegative(site, names[..|names| - 1], pick, d);
    }
  }

  /**
   * So the pods of a group never use more than the group's quota, nor those of one of its
   * users more than the user's quota; a quota below zero lets nothing be used.
   */
  lemma UsageWithinQuota(site: Site, events: seq<Event>, id: Text, user: Option<Text>, d: Dim)
    requires Orderly(site) && RegularRun(site, events)
    requires site.groups(id).Ok? && (user.Some? ==> Plain(user.value))
    ensures var g := site.groups(id).value;
            QuotaOf(g, user).Ok? && QuotaOf(g, user).value.At(d).Some? ==>
              var used := PodUsage(site, Play(site, events).w, g.name, user, d);
              used == 0 || 0 < used <= QuotaOf(g, user).value.At(d).value
  {
    var g, s := site.groups(id).value, Play(site, events);
    LimitsNonNegative(site);
    QuotasAreSafe(site, events);
    assert SafeGroup(site, s, g);
    if user.Some? && Converted(g.user).Ok? {
      assert Within(Converted(g.user).value, site, s, g.name, Some(user.value));
    }
    UsageWithinCommitted(site, s, g.name, user, d);
  }

  lemma UsageWithinCommitted(site: Site, s: Scene, group: Text, user: Option<Text>, d: Dim)
    requires NonNegativeLimits(site)
    ensures 0 <= PodUsage(site, s.w, group, user, d) <= Committed(site, s, group, user, d)
  {
    UsageWithinDemand(site, s.w, group, user, d);
    TotalNonNegative(site, NamesOf(s.plan), BelongsTo(site, group, user), d);
    TotalNonNegative(site, site.roster, UsedBy(site, s.w, group, user), d);
  }

  // ---- how this meets the machine and the tick ----

  lemma PlanStaysOk(site: Site, s: Scene, e: Event)
    requires PlanOk(s)
    ensures PlanOk(Step(site, s, e))
  {
    match e
    case GroupPass(id, line) => PassPlanOk(site, s, id, line);
    case Send =>
      if s.plan != [] {
        forall x | x in Step(site, s, Send).plan ensures x in s.plan {}
      }
    case Lose =>
      if s.plan != [] {
        forall x | x in Step(site, s, Lose).plan ensures x in s.plan {}
      }
    case Others(a) =>
  }

  /** The machine in such a run does a run of its own: every theorem about those holds here. */
  lemma {:induction false} PlayIsRun(site: Site, events: seq<Event>) returns (actions: seq<Action>)
    ensures Run(INITIAL, actions) == Play(site, events).w && PlanOk(Play(site, events))
  {
    actions := [];
    if events != [] {
      var n := |events| - 1;
      var s, t := Play(site, events[..n]), Play(site, events);
      actions := PlayIsRun(site, events[..n]);
      PlanStaysOk(site, s, events[n]);
      if t.w != s.w {
        var a := if events[n].Send? then SchedulerAdmits(s.plan[0].job.name) else events[n].a;
        if events[n].Send? {
          SendIsStep(s);
        }
        assert (actions + [a])[..|actions|] == actions;
        actions := actions + [a];
      }
    }
  }

  lemma TickLineIsListed(site: Site, w: World, items: seq<Job>, id: Text, line: seq<Job>)
    requires LineOf(line, OfGroup(Eligible(BookOf(site, w), items), id))
    requires forall j :: j in items && IsPending(j) ==> j.name in w.listed && w.listed[j.name] == j
    ensures InLine(w, id, line)
  {
    forall j | j in line ensures j.name in w.listed && w.listed[j.name] == j && j.spec.groupId == id {
      assert j in multiset(line);
      assert j in OfGroup(Eligible(BookOf(site, w), items), id);
      assert j in Eligible(BookOf(site, w), items);
    }
  }

  /**
   * The pass that a tick gives a group is such an event, and what it promises is what the tick
   * writes for the group.
   */
  lemma TickPassIsEvent(site: Site, w: World, clock: Job -> int, items: seq<Job>, order: seq<Text>,
                        lines: map<Text, seq<Job>>, writes: seq<Write>, id: Text)
    requires Ticked(BookOf(site, w), OracleOf(BookOf(site, w)), clock, items, order, lines, writes)
    requires forall j :: j in items && IsPending(j) ==> j.name in w.listed && w.listed[j.name] == j
    requires id in lines
    ensures var book := BookOf(site, w);
            && InLine(w, id, lines[id])
            && Step(site, Scene(w, []), GroupPass(id, lines[id])).plan
               == TickLaws.GroupAdmissions(book, OracleOf(book), lines, id)
            && forall x :: x in TickLaws.GroupAdmissions(book, OracleOf(book), lines, id) ==> x in writes
  {
    var book := BookOf(site, w);
    var o, line := OracleOf(book), lines[id];
    TickLineIsListed(site, w, items, id, line);
    assert !Crashes(book, o, lines, id);
    forall x | x in TickLaws.GroupAdmissions(book, o, lines, id) ensures x in writes {
      TickLaws.GroupWritten(book, o, order, lines, id, x);
    }
  }
}
