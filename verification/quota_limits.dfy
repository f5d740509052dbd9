/**
 * Four runs that overdraw a quota of one processor, each regular but for one step: a group
 * gets a pass before the pod of an admitted job is made; a pod that has failed is taken away
 * before its job is seen to have failed; a pod that had ended is live again; and the cancel of
 * a job is withdrawn when its pod is gone.
 */
module QuotaLimits {
  import opened Prelude
  import opened Escapism
  import opened Jobs
  import opened Pods
  import opened Quota
  import opened Admission
  import opened AdmissionCrash
  import opened Tick
  import opened UsageByLabel
  import opened Protocol
  import opened ProtocolEffects
  import opened ProtocolSafety
  import opened QuotaDemand
  import opened QuotaSafety
  import TickLaws

  const A: Text := [0]
  const B: Text := [1]

  const ONE_PROCESSOR := Limits(1, -1, Unset)

  const GROUP := Group([], ONE_PROCESSOR, Limits(-1, -1, Unset))

  /** One group, of one processor, and two jobs that ask for all of it. */
  function SmallSite(safe: Text -> bool): Site {
    Site(_ => Ok(ONE_PROCESSOR), id => if id == [] then Ok(GROUP) else Err, safe, [A, B], _ => Endless(None))
  }

  lemma SmallIsOrderly(safe: Text -> bool)
    requires Table(safe)
    ensures Orderly(SmallSite(safe))
  {
    assert ValidUtf8([]);
  }

  // ---- runs with one irregular step ----

  /** All steps are regular, but for the one at index k, if any. */
  ghost predicate RegularBut(site: Site, events: seq<Event>, k: Option<nat>) {
    events != [] ==>
      var n := |events| - 1;
      RegularBut(site, events[..n], k) && (Regular(site, Play(site, events[..n]), events[n]) || k == Some(n))
  }

  lemma {:induction false} RegularSoFar(site: Site, events: seq<Event>, k: nat)
    requires RegularBut(site, events, None) && |events| <= k
    ensures RegularBut(site, events, Some(k))
  {
    if events != [] {
      RegularSoFar(site, events[..|events| - 1], k);
    }
  }

  lemma Next(site: Site, before: seq<Event>, e: Event, k: Option<nat>) returns (events: seq<Event>)
    requires RegularBut(site, before, k)
    requires Regular(site, Play(site, before), e) || k == Some(|before|)
    ensures events == before + [e] && RegularBut(site, events, k)
    ensures Play(site, events) == Step(site, Play(site, before), e)
  {
    events := before + [e];
    assert events[..|before|] == before;
  }

  /** Such an action is regular in every state. */
  predicate Harmless(a: Action) {
    && !a.Submit? && !a.PodMoves? && !a.PodVanishes? && !a.SchedulerLists? && !a.SchedulerAdmits?
    && !a.SetCancel?
  }

  lemma NextAct(site: Site, before: seq<Event>, a: Action, k: Option<nat>, other: Text)
    returns (events: seq<Event>)
    requires RegularBut(site, before, k) && Harmless(a) && !Concerns(a, other)
    ensures |events| == |before| + 1 && before <= events && RegularBut(site, events, k)
    ensures var s, t := Play(site, before), Play(site, events);
            t == s.(w := Apply(s.w, a)) && Agree(s.w, t.w, other)
  {
    events := Next(site, before, Others(a), k);
    ActionConcernsOneJob(Play(site, before).w, a, other);
  }

  lemma NextTwo(site: Site, before: seq<Event>, a: Action, b: Action, k: Option<nat>, other: Text)
    returns (events: seq<Event>)
    requires RegularBut(site, before, k)
    requires Harmless(a) && !Concerns(a, other) && Harmless(b) && !Concerns(b, other)
    ensures |events| == |before| + 2 && before <= events && RegularBut(site, events, k)
    ensures var s, t := Play(site, before), Play(site, events);
            t == s.(w := Apply(Apply(s.w, a), b)) && Agree(s.w, t.w, other)
  {
    events := NextAct(site, before, a, k, other);
    events := NextAct(site, events, b, k, other);
  }

  // ---- the stages of a job ----

  /** No such job has been yet. */
  predicate Unseen(w: World, n: Text) {
    n !in w.used && n !in w.flights && n !in w.pods && MadeOf(w, n) == 0
  }

  predicate IdleWithoutPod(w: World, n: Text, phase: Phase) {
    Idle(w, n, None, phase, 0) && n !in w.pods
  }

  lemma Submitted(safe: Text -> bool, before: seq<Event>, n: Text, other: Text) returns (events: seq<Event>)
    requires n in [A, B] && other != n && RegularBut(SmallSite(safe), before, None)
    requires Unseen(Play(SmallSite(safe), before).w, n)
    ensures RegularBut(SmallSite(safe), events, None)
    ensures var s, t := Play(SmallSite(safe), before), Play(SmallSite(safe), events);
            t == s.(w := Apply(s.w, Submit(n, Endless(None)))) && Agree(s.w, t.w, other)
  {
    var submit := Submit(n, Endless(None));
    ActionConcernsOneJob(Play(SmallSite(safe), before).w, submit, other);
    events := Next(SmallSite(safe), before, Others(submit), None);
  }

  /** The job is submitted, and reconciled for the first time. */
  lemma Seen(safe: Text -> bool, before: seq<Event>, n: Text, other: Text) returns (events: seq<Event>)
    requires n in [A, B] && other != n && RegularBut(SmallSite(safe), before, None)
    requires var s := Play(SmallSite(safe), before); s.plan == [] && Unseen(s.w, n)
    ensures RegularBut(SmallSite(safe), events, None)
    ensures var s, t := Play(SmallSite(safe), before), Play(SmallSite(safe), events);
            && t.plan == [] && IdleWithoutPod(t.w, n, Pending) && Agree(s.w, t.w, other)
            && (other in t.w.used ==> other in s.w.used)
  {
    var site, w := SmallSite(safe), Play(SmallSite(safe), before).w;
    SubmittedJob(w, n, None);
    FirstReconcile(Apply(w, Submit(n, Endless(None))), n, None);
    events := Submitted(safe, before, n, other);
    events := Reconciled(site, events, n, other);
  }

  lemma Reconciled(site: Site, before: seq<Event>, n: Text, other: Text) returns (events: seq<Event>)
    requires RegularBut(site, before, None) && other != n
    ensures RegularBut(site, events, None)
    ensures var s, t := Play(site, before), Play(site, events);
            && t == s.(w := Apply(Begun(s.w, n), Goes(n, Store))) && Agree(s.w, t.w, other)
            && t.w.used == s.w.used
  {
    events := NextTwo(site, before, Open(n), Goes(n, Decide), None, other);
    events := NextAct(site, events, Goes(n, Store), None, other);
    var w := Play(site, before).w;
    NamesStay(w, Open(n));
    NamesStay(Apply(w, Open(n)), Goes(n, Decide));
    NamesStay(Begun(w, n), Goes(n, Store));
  }

  lemma NamesStay(w: World, a: Action)
    requires a.Open? || a.Goes?
    ensures Apply(w, a).used == w.used
  {
  }

  predicate NoneLive(w: World) {
    !HasLive(w, A) && !HasLive(w, B)
  }

  lemma {:induction false} NamedPodsEnded(site: Site, pods: map<Text, KubePod>, names: seq<Text>)
    requires forall n :: n in names && n in pods ==> !Live(pods[n].phase)
    ensures forall p :: p in LabelledAll(NamedPods(site, pods, names), site.safe) ==> !Live(p.phase)
  {
    if names != [] {
      var k := |names| - 1;
      var before := NamedPods(site, pods, names[..k]);
      NamedPodsEnded(site, pods, names[..k]);
      NamedPodsNext(site, pods, names);
      if names[k] in pods {
        var p := NamedPod(site, names[k], pods[names[k]].phase);
        assert (before + [p])[..|before|] == before;
      }
    }
  }

  /** A pass over one job, with no live pod, admits it. */
  lemma PassAdmits(safe: Text -> bool, w: World, j: Job)
    requires NoneLive(w) && j.spec == Endless(None)
    ensures var book := BookOf(SmallSite(safe), w);
            var r := GroupFold(book, OracleOf(book), [], [j]);
            r.exit != Crashed && Admissions([j], r.flags) == [Write(j, j.status.(phase := Preparing))]
  {
    var site := SmallSite(safe);
    var book := BookOf(site, w);
    var o, line := OracleOf(book), [j];
    NamedPodsEnded(site, w.pods, site.roster);
    assert TickLaws.NothingUsed(book, []);
    assert VerdictOn(book, j.spec).Kept?;
    TickLaws.FirstAdmitted(book, o, [], line);
    assert Covered(o, book.GroupLeft([]).value, map[], [], AsksOf(line));
    var flags := GroupFold(book, o, [], line).flags;
    assert flags == [true] && line[..0] == [] && flags[..0] == [];
  }

  /** A list is made, which has the job. */
  lemma Listed(site: Site, before: seq<Event>, n: Text, k: Option<nat>) returns (events: seq<Event>)
    requires RegularBut(site, before, k) && IdleWithoutPod(Play(site, before).w, n, Pending)
    requires Play(site, before).plan == []
    ensures |events| == |before| + 1 && RegularBut(site, events, k)
    ensures var s, t := Play(site, before), Play(site, events);
            && t == s.(w := Apply(s.w, SchedulerLists))
            && n in t.w.listed && t.w.listed[n] == s.w.jobs[n] && s.w.jobs[n].name == n
  {
    events := Next(site, before, Others(SchedulerLists), k);
    var actions := PlayIsRun(site, before);
    Reachable(actions);
    assert JobInv(Play(site, before).w, n);
  }

  /** A pass is made over the job, and decides to admit it. */
  lemma Passed(safe: Text -> bool, before: seq<Event>, n: Text, k: Option<nat>) returns (events: seq<Event>)
    requires RegularBut(SmallSite(safe), before, k)
    requires var s := Play(SmallSite(safe), before);
             && s.plan == [] && n in s.w.listed && s.w.listed[n].name == n
             && s.w.listed[n].spec == Endless(None) && NoneLive(s.w)
             && (Settled(SmallSite(safe), s.w, []) || k == Some(|before|))
    ensures |events| == |before| + 1 && RegularBut(SmallSite(safe), events, k)
    ensures var s, t := Play(SmallSite(safe), before), Play(SmallSite(safe), events);
            var j := s.w.listed[n];
            t == s.(plan := [Write(j, j.status.(phase := Preparing))])
    ensures events[|before|].GroupPass?
  {
    var site := SmallSite(safe);
    var s := Play(site, before);
    PassAdmits(safe, s.w, s.w.listed[n]);
    events := Next(site, before, GroupPass([], [s.w.listed[n]]), k);
  }

  /** The admission is sent. */
  lemma Delivered(site: Site, before: seq<Event>, j: Job, k: Option<nat>) returns (events: seq<Event>)
    requires RegularBut(site, before, k)
    requires Play(site, before).plan == [Write(j, j.status.(phase := Preparing))]
    ensures |events| == |before| + 1 && RegularBut(site, events, k) && before <= events
    ensures Play(site, events) == Scene(Apply(Play(site, before).w, SchedulerAdmits(j.name)), [])
  {
    var actions := PlayIsRun(site, before);
    SendIsStep(Play(site, before));
    events := Next(site, before, Send, k);
  }

  /** All three. */
  lemma AdmittedBy(safe: Text -> bool, before: seq<Event>, n: Text, other: Text, k: Option<nat>)
    returns (events: seq<Event>)
    requires other != n && RegularBut(SmallSite(safe), before, k)
    requires var s := Play(SmallSite(safe), before);
             && s.plan == [] && IdleWithoutPod(s.w, n, Pending) && NoneLive(s.w)
             && (Settled(SmallSite(safe), s.w, []) || k == Some(|before| + 1))
    ensures RegularBut(SmallSite(safe), events, k) && |before| + 1 < |events|
    ensures events[|before| + 1].GroupPass?
    ensures var s, t := Play(SmallSite(safe), before), Play(SmallSite(safe), events);
            && t.plan == [] && IdleWithoutPod(t.w, n, Preparing) && Agree(s.w, t.w, other)
  {
    var site := SmallSite(safe);
    var w := Play(site, before).w;
    AdmittedJob(w, n, None, 0);
    ActionConcernsOneJob(w, SchedulerLists, other);
    ActionConcernsOneJob(Apply(w, SchedulerLists), SchedulerAdmits(n), other);
    events := Listed(site, before, n, k);
    assert NoneLive(Apply(w, SchedulerLists));
    events := Passed(safe, events, n, k);
    events := Delivered(site, events, w.jobs[n], k);
  }

  /** The job's reconcile makes its pod. */
  lemma Made(safe: Text -> bool, before: seq<Event>, n: Text, other: Text, k: Option<nat>)
    returns (events: seq<Event>)
    requires n in [A, B] && other != n && RegularBut(SmallSite(safe), before, k)
    requires IdleWithoutPod(Play(SmallSite(safe), before).w, n, Preparing)
    ensures RegularBut(SmallSite(safe), events, k) && before <= events
    ensures var s, t := Play(SmallSite(safe), before), Play(SmallSite(safe), events);
            && t.plan == s.plan && HasLive(t.w, n) && Agree(s.w, t.w, other)
            && Holding(t.w, n, s.w.jobs[n].status.(podName := n), Storing(true))
            && t.w.jobs[n].spec == Endless(None)
  {
    var site := SmallSite(safe);
    MadeJob(Play(site, before).w, n, None, 0);
    events := NextTwo(site, before, Open(n), Goes(n, Decide), k, other);
    events := NextTwo(site, events, Goes(n, Look), Goes(n, Create(Created)), k, other);
  }

  /** Two live pods use two processors. */
  lemma BothUse(safe: Text -> bool, w: World)
    requires HasLive(w, A) && HasLive(w, B)
    ensures PodUsage(SmallSite(safe), w, [], None, Cpu) == 2
  {
    var site := SmallSite(safe);
    var pick := UsedBy(site, w, [], None);
    assert [A, B][..1] == [A] && [A][..0] == [];
    assert pick(A) && pick(B);
    assert PodLimits(site, A).At(Cpu) == 1 && PodLimits(site, B).At(Cpu) == 1;
    assert Total(site, [A], pick, Cpu) == 1;
    assert Total(site, [A, B], pick, Cpu) == 2;
  }

  lemma BothSeen(safe: Text -> bool) returns (events: seq<Event>)
    ensures RegularBut(SmallSite(safe), events, None)
    ensures var s := Play(SmallSite(safe), events);
            s.plan == [] && IdleWithoutPod(s.w, A, Pending) && IdleWithoutPod(s.w, B, Pending)
  {
    events := Seen(safe, [], A, B);
    events := Seen(safe, events, B, A);
  }

  /** What a run that overdraws comes to, with a site that is as it should be. */
  ghost predicate Overdraws(safe: Text -> bool, events: seq<Event>) {
    && (Table(safe) ==> Orderly(SmallSite(safe)))
    && Converted(GROUP.project) == Ok(Amounts(Some(1), None, None))
    && PodUsage(SmallSite(safe), Play(SmallSite(safe), events).w, [], None, Cpu) == 2
  }

  /** Both jobs are there, and the first is admitted. */
  lemma FirstGoes(safe: Text -> bool) returns (events: seq<Event>)
    ensures RegularBut(SmallSite(safe), events, None)
    ensures var s := Play(SmallSite(safe), events);
            && s.plan == [] && IdleWithoutPod(s.w, A, Preparing) && IdleWithoutPod(s.w, B, Pending)
  {
    events := BothSeen(safe);
    var w := Play(SmallSite(safe), events).w;
    assert Settled(SmallSite(safe), w, []);
    events := AdmittedBy(safe, events, A, B, None);
  }

  lemma TwoLiveOverdraw(safe: Text -> bool, events: seq<Event>)
    requires HasLive(Play(SmallSite(safe), events).w, A) && HasLive(Play(SmallSite(safe), events).w, B)
    ensures Overdraws(safe, events)
  {
    BothUse(safe, Play(SmallSite(safe), events).w);
    if Table(safe) {
      SmallIsOrderly(safe);
    }
  }

  lemma BothMade(safe: Text -> bool, before: seq<Event>, k: Option<nat>) returns (events: seq<Event>)
    requires RegularBut(SmallSite(safe), before, k)
    requires var w := Play(SmallSite(safe), before).w;
             IdleWithoutPod(w, A, Preparing) && IdleWithoutPod(w, B, Preparing)
    ensures RegularBut(SmallSite(safe), events, k) && before <= events && Overdraws(safe, events)
  {
    events := Made(safe, before, A, B, k);
    events := Made(safe, events, B, A, k);
    TwoLiveOverdraw(safe, events);
  }

  /** The second pass comes before the first job's pod; all else is regular. */
  lemma LatePodsOverdraw(safe: Text -> bool) returns (events: seq<Event>, k: nat)
    ensures RegularBut(SmallSite(safe), events, Some(k)) && Overdraws(safe, events)
    ensures k < |events| && events[k].GroupPass?
  {
    events := FirstGoes(safe);
    k := |events| + 1;
    RegularSoFar(SmallSite(safe), events, k);
    events := AdmittedBy(safe, events, B, A, Some(k));
    events := BothMade(safe, events, Some(k));
  }

  /** The first job's pod is made, and the reconcile that made it is over. */
  lemma FirstMade(safe: Text -> bool) returns (events: seq<Event>)
    ensures RegularBut(SmallSite(safe), events, None)
    ensures var s := Play(SmallSite(safe), events);
            && s.plan == [] && Idle(s.w, A, None, Preparing, 0) && HasLive(s.w, A)
            && IdleWithoutPod(s.w, B, Pending)
  {
    var site := SmallSite(safe);
    events := FirstGoes(safe);
    var t := Play(site, events).w.jobs[A].status.(podName := A);
    events := Made(safe, events, A, B, None);
    StoredTwice(Play(site, events).w, A, t);
    events := NextTwo(site, events, Goes(A, Store), Goes(A, Store), None, B);
  }

  /** The first job's pod ends, and before that is seen the second job is admitted. */
  lemma FirstEnds(safe: Text -> bool, phase: PodPhase) returns (events: seq<Event>)
    requires !Live(phase)
    ensures RegularBut(SmallSite(safe), events, None)
    ensures var s := Play(SmallSite(safe), events);
            && s.plan == [] && Idle(s.w, A, None, Preparing, 0) && A in s.w.pods && s.w.pods[A].phase == phase
            && IdleWithoutPod(s.w, B, Preparing)
  {
    var site := SmallSite(safe);
    events := FirstMade(safe);
    var ends := PodMoves(A, phase, false, false);
    ActionConcernsOneJob(Play(site, events).w, ends, B);
    events := Next(site, events, Others(ends), None);
    var w := Play(site, events).w;
    assert NoneLive(w) && Settled(site, w, []);
    events := AdmittedBy(safe, events, B, A, None);
  }

  /** The failed pod is taken away before its job is seen to have failed; all else is regular. */
  lemma LostPodsOverdraw(safe: Text -> bool) returns (events: seq<Event>, k: nat)
    ensures RegularBut(SmallSite(safe), events, Some(k)) && Overdraws(safe, events)
    ensures k < |events| && events[k] == Others(PodVanishes(A))
  {
    var site := SmallSite(safe);
    events := FirstEnds(safe, KubeFailed);
    k := |events|;
    RegularSoFar(site, events, k);
    ActionConcernsOneJob(Play(site, events).w, PodVanishes(A), B);
    events := Next(site, events, Others(PodVanishes(A)), Some(k));
    events := BothMade(safe, events, Some(k));
  }

  lemma PodRevives(safe: Text -> bool, before: seq<Event>) returns (events: seq<Event>)
    requires RegularBut(SmallSite(safe), before, None)
    requires A in Play(SmallSite(safe), before).w.pods && IdleWithoutPod(Play(SmallSite(safe), before).w, B, Preparing)
    ensures RegularBut(SmallSite(safe), events, Some(|before|)) && Overdraws(safe, events)
    ensures |before| < |events| && events[..|before|] == before
    ensures events[|before|] == Others(PodMoves(A, KubeRunning, false, false))
  {
    var site, revives := SmallSite(safe), PodMoves(A, KubeRunning, false, false);
    RegularSoFar(site, before, |before|);
    ActionConcernsOneJob(Play(site, before).w, revives, B);
    events := Next(site, before, Others(revives), Some(|before|));
    var revived := events;
    events := Made(safe, revived, B, A, Some(|before|));
    assert events[..|before|] == revived[..|before|];
    TwoLiveOverdraw(safe, events);
  }

  /** A pod of unknown phase, which usage does not count, is found to be running after all. */
  lemma RevivedPodsOverdraw(safe: Text -> bool) returns (events: seq<Event>, k: nat)
    ensures RegularBut(SmallSite(safe), events, Some(k)) && Overdraws(safe, events)
    ensures k < |events| && events[k] == Others(PodMoves(A, KubeRunning, false, false))
    ensures A in Play(SmallSite(safe), events[..k]).w.pods
            && Play(SmallSite(safe), events[..k]).w.pods[A].phase == KubeUnknown
  {
    var before := FirstEnds(safe, KubeUnknown);
    k := |before|;
    events := PodRevives(safe, before);
  }

  /** The first job is cancelled, and its failed pod goes. */
  lemma FirstCancelled(safe: Text -> bool) returns (events: seq<Event>)
    ensures RegularBut(SmallSite(safe), events, None)
    ensures var s := Play(SmallSite(safe), events);
            && s.plan == [] && IdleWithoutPod(Apply(s.w, SetCancel(A, false)), A, Preparing)
            && IdleWithoutPod(s.w, B, Preparing)
  {
    var site := SmallSite(safe);
    events := FirstEnds(safe, KubeFailed);
    ActionConcernsOneJob(Play(site, events).w, SetCancel(A, true), B);
    events := Next(site, events, Others(SetCancel(A, true)), None);
    ActionConcernsOneJob(Play(site, events).w, PodVanishes(A), B);
    events := Next(site, events, Others(PodVanishes(A)), None);
  }

  /** The cancel is withdrawn when the pod is gone; all else is regular. */
  lemma WithdrawnCancelsOverdraw(safe: Text -> bool) returns (events: seq<Event>, k: nat)
    ensures RegularBut(SmallSite(safe), events, Some(k)) && Overdraws(safe, events)
    ensures k < |events| && events[k] == Others(SetCancel(A, false))
  {
    var site := SmallSite(safe);
    events := FirstCancelled(safe);
    k := |events|;
    RegularSoFar(site, events, k);
    ActionConcernsOneJob(Play(site, events).w, SetCancel(A, false), B);
    events := Next(site, events, Others(SetCancel(A, false)), Some(k));
    events := BothMade(safe, events, Some(k));
  }
}
