/**
 * Usage is counted by label (pkg/quota/resourceQuota.go), and the pods of jobs carry the
 * escaped names of their group and user (ee/controllers/phjob_controller.go). Whose pods are
 * counted, then?
 */
module UsageByLabel {
  import opened Prelude
  import opened Escapism
  import opened Pods
  import opened Quota

  /** A pod that is known by the names of its group and user, with the labels that they become. */
  function Labelled(p: Pod, safe: Text -> bool): Pod {
    p.(group := PrimehubLabel(p.group, safe), user := PrimehubLabel(p.user, safe))
  }

  function LabelledAll(pods: seq<Pod>, safe: Text -> bool): seq<Pod> {
    if pods == [] then []
    else LabelledAll(pods[..|pods| - 1], safe) + [Labelled(pods[|pods| - 1], safe)]
  }

  /** What the pods that `mine` picks use. */
  function Taken(pods: seq<Pod>, mine: Pod -> bool, d: Dim): int {
    if pods == [] then 0
    else
      var p := pods[|pods| - 1];
      Taken(pods[..|pods| - 1], mine, d) + if mine(p) then PodUse(p, d) else 0
  }

  /** The pods of a group, or of one of its users. */
  function Owned(group: Text, user: Option<Text>): Pod -> bool {
    (p: Pod) => p.group == group && (user.None? || p.user == user.value)
  }

  /** Names come from JSON, so they are valid UTF-8. */
  ghost predicate ProperNames(pods: seq<Pod>) {
    forall p :: p in pods ==> ValidUtf8(p.group) && ValidUtf8(p.user)
  }

  /** A lookup book that lists these pods, by the labels that their names become. */
  ghost predicate Shows(book: Book, pods: seq<Pod>, safe: Text -> bool) {
    book.pods == Ok(LabelledAll(pods, safe)) && forall s :: book.labelOf(s) == PrimehubLabel(s, safe)
  }

  /** Picking pods by label picks whatever owners have that label. */
  lemma {:induction false} UseOfPicked(pods: seq<Pod>, safe: Text -> bool, picked: Pod -> bool,
                                       mine: Pod -> bool, d: Dim)
    requires forall p :: p in pods ==> (picked(Labelled(p, safe)) <==> mine(p))
    ensures Use(Filter(LabelledAll(pods, safe), picked), d) == Taken(pods, mine, d)
  {
    if pods != [] {
      var n := |pods| - 1;
      var all, before := LabelledAll(pods, safe), LabelledAll(pods[..n], safe);
      var last := Labelled(pods[n], safe);
      UseOfPicked(pods[..n], safe, picked, mine, d);
      assert Filter(all, picked) == if picked(last) then Filter(before, picked) + [last]
                                    else Filter(before, picked) by {
        assert all[..|all| - 1] == before;
      }
      UseNext(Filter(before, picked), last, d);
    }
  }

  lemma UseNext(pods: seq<Pod>, p: Pod, d: Dim)
    ensures Use(pods + [p], d) == Use(pods, d) + PodUse(p, d)
  {
    assert (pods + [p])[..|pods|] == pods;
  }

  /** Usage by the group label is the usage of exactly the named group's pods. */
  lemma GroupUsageExact(book: Book, pods: seq<Pod>, safe: Text -> bool, group: Text, d: Dim)
    requires Table(safe) && Shows(book, pods, safe) && ProperNames(pods) && ValidUtf8(group)
    ensures Use(book.GroupPods(group), d) == Taken(pods, Owned(group, None), d)
  {
    var picked := (p: Pod) => p.group == book.labelOf(group);
    forall p | p in pods ensures picked(Labelled(p, safe)) <==> Owned(group, None)(p) {
      LabelsInjective(p.group, group, safe);
    }
    UseOfPicked(pods, safe, picked, Owned(group, None), d);
  }

  /** Whose pods the user's label picks: a name that looks like a label is taken for one. */
  function Counted(group: Text, user: Text, safe: Text -> bool): Pod -> bool {
    (p: Pod) =>
      p.group == group && if PREFIX <= user then PrimehubLabel(p.user, safe) == user else p.user == user
  }

  lemma PickedByLabels(book: Book, safe: Text -> bool, p: Pod, group: Text, user: Text)
    requires Table(safe) && book.labelOf(group) == PrimehubLabel(group, safe)
    requires book.labelOf(user) == PrimehubLabel(user, safe)
    requires ValidUtf8(group) && ValidUtf8(user) && ValidUtf8(p.group) && ValidUtf8(p.user)
    ensures var q := Labelled(p, safe);
            (q.group == book.labelOf(group) && q.user == book.UserLabel(user))
            <==> Counted(group, user, safe)(p)
  {
    LabelsInjective(p.group, group, safe);
    LabelsInjective(p.user, user, safe);
  }

  lemma UserUsage(book: Book, pods: seq<Pod>, safe: Text -> bool, group: Text, user: Text, d: Dim)
    requires Table(safe) && Shows(book, pods, safe) && ProperNames(pods)
    requires ValidUtf8(group) && ValidUtf8(user)
    ensures Use(book.UserPods(group, user), d) == Taken(pods, Counted(group, user, safe), d)
  {
    var picked := (p: Pod) => p.group == book.labelOf(group) && p.user == book.UserLabel(user);
    forall p | p in pods ensures picked(Labelled(p, safe)) <==> Counted(group, user, safe)(p) {
      PickedByLabels(book, safe, p, group, user);
    }
    UseOfPicked(pods, safe, picked, Counted(group, user, safe), d);
  }

  lemma {:induction false} SamePick(pods: seq<Pod>, a: Pod -> bool, b: Pod -> bool, d: Dim)
    requires forall p :: p in pods ==> a(p) == b(p)
    ensures Taken(pods, a, d) == Taken(pods, b, d)
  {
    if pods != [] {
      SamePick(pods[..|pods| - 1], a, b, d);
    }
  }

  /** The user's own pods, and no others, are counted. */
  ghost predicate CountsOwn(book: Book, pods: seq<Pod>, group: Text, user: Text)
    requires book.pods.Ok?
  {
    forall d: Dim :: Use(book.UserPods(group, user), d) == Taken(pods, Owned(group, Some(user)), d)
  }

  lemma UserUsageExact(book: Book, pods: seq<Pod>, safe: Text -> bool, group: Text, user: Text)
    requires Table(safe) && Shows(book, pods, safe) && ProperNames(pods)
    requires ValidUtf8(group) && ValidUtf8(user) && !(PREFIX <= user)
    ensures CountsOwn(book, pods, group, user)
  {
    forall d: Dim
      ensures Use(book.UserPods(group, user), d) == Taken(pods, Owned(group, Some(user)), d)
    {
      UserUsage(book, pods, safe, group, user, d);
      SamePick(pods, Counted(group, user, safe), Owned(group, Some(user)), d);
    }
  }

  /**
   * The usage of a user is that of the user's own pods, whatever pods there are, exactly when
   * the name does not start with "escaped-"; of a name that does, the own pods never count.
   */
  lemma OwnPodsCounted(book: Book, safe: Text -> bool, group: Text, user: Text)
    requires Table(safe) && ValidUtf8(group) && ValidUtf8(user)
    requires forall s :: book.labelOf(s) == PrimehubLabel(s, safe)
    ensures !(PREFIX <= user)
            <==> forall pods :: ProperNames(pods)
                                ==> CountsOwn(book.(pods := Ok(LabelledAll(pods, safe))), pods, group, user)
    ensures PREFIX <= user ==>
              forall p: Pod :: p.user == user ==> !Counted(group, user, safe)(p)
  {
    if PREFIX <= user {
      LabelIsNotName(user, safe);
      var p := Pod(group, user, KubeRunning, [Container(1, 0, 0)]);
      var shown := book.(pods := Ok(LabelledAll([p], safe)));
      UserUsage(shown, [p], safe, group, user, Cpu);
      assert [p][..0] == [];
      assert PodUse(p, Cpu) == 1 by {
        assert p.containers[..0] == [];
      }
      assert Taken([p], Owned(group, Some(user)), Cpu) == 1;
      assert !CountsOwn(shown, [p], group, user);
    } else {
      forall pods | ProperNames(pods)
        ensures CountsOwn(book.(pods := Ok(LabelledAll(pods, safe))), pods, group, user)
      {
        UserUsageExact(book.(pods := Ok(LabelledAll(pods, safe))), pods, safe, group, user);
      }
    }
  }
}
