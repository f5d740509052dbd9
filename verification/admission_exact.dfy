/**
 * The admission pass said without it: which jobs are admitted, and where the pass ends, from
 * the starting quotas and sums of requests alone.
 */
module AdmissionExact {
  import opened Prelude
  import opened Escapism
  import opened Quota
  import opened Admission
  import opened AdmissionLaws

  // ---- the rule ----

  /** What becomes of a job whose turn comes. */
  datatype Fate =
    | LookupFails                                    // the pass ends with an error
    | OverUser                                       // passed over, and the pass goes on
    | OverGroup                                      // the pass ends here
    | Unanswered                                     // granted; a limited dimension is missing: nil
    | Granted

  /** With what was admitted before, the request would exceed the limit in some dimension. */
  ghost predicate Exceeds(o: Oracle, limit: Amounts, before: seq<Ask>, flags: seq<bool>, who: Option<Text>,
                          request: Amounts)
    requires |before| == |flags|
  {
    exists d: Dim :: limit.At(d).Some? && request.At(d).Some?
                     && Charge(o, before, flags, who, d) + request.At(d).value > limit.At(d).value
  }

  /** A dimension is limited that the request leaves out. */
  ghost predicate LeavesOut(limit: Amounts, request: Amounts) {
    exists d: Dim :: limit.At(d).Some? && request.At(d).None?
  }

  /** The user's quota comes first, and then the group's. */
  ghost function FateOf(o: Oracle, group: Amounts, users: map<Text, Amounts>, groupId: Text,
                        before: seq<Ask>, flags: seq<bool>, ask: Ask): Fate
    requires |before| == |flags|
  {
    match (o.request(ask.instance), Start(o, users, groupId, ask.user))
    case (Ok(request), Ok(start)) =>
      if Exceeds(o, start, before, flags, Some(ask.user), request) then OverUser
      else if Exceeds(o, group, before, flags, None, request) then OverGroup
      else if LeavesOut(group, request) || LeavesOut(start, request) then Unanswered
      else Granted
    case _ => LookupFails
  }

  /** The fates of all jobs in line, each given the flags of those before it. */
  ghost function FatesOf(o: Oracle, group: Amounts, users: map<Text, Amounts>, groupId: Text,
                         asks: seq<Ask>, flags: seq<bool>): (fates: seq<Fate>)
    requires |asks| == |flags|
    ensures |fates| == |asks|
  {
    seq(|asks|, k requires 0 <= k < |asks| => FateOf(o, group, users, groupId, asks[..k], flags[..k], asks[k]))
  }

  function ExitOf(f: Fate): Exit {
    match f
    case LookupFails => Failing
    case OverUser => Going
    case OverGroup => Broke
    case Unanswered => Crashed
    case Granted => Going
  }

  /** The turn of job k comes: each job before it is granted, or over its own user's quota. */
  predicate Comes(fates: seq<Fate>, k: nat)
    requires k <= |fates|
  {
    forall i :: 0 <= i < k ==> fates[i].Granted? || fates[i].OverUser?
  }

  /** The rule for one job. */
  ghost predicate RuledAt(fates: seq<Fate>, flags: seq<bool>, exit: Exit, k: nat)
    requires k < |fates| == |flags|
  {
    && (flags[k] <==> Comes(fates, k) && (fates[k].Granted? || fates[k].Unanswered?))
    && (Comes(fates, k) && !(fates[k].Granted? || fates[k].OverUser?) ==> exit == ExitOf(fates[k]))
  }

  /** The jobs marked, and the end of the pass, are as the fates say. */
  ghost predicate Ruled(fates: seq<Fate>, flags: seq<bool>, exit: Exit)
    requires |fates| == |flags|
  {
    && (forall k :: 0 <= k < |fates| ==> RuledAt(fates, flags, exit, k))
    && (exit == Going <==> Comes(fates, |fates|))
  }

  // ---- one turn ----

  /** What is left is short exactly when the request and what was charged exceed the start. */
  lemma ShortExactly(o: Oracle, limit: Amounts, left: Amounts, before: seq<Ask>, flags: seq<bool>,
                     who: Option<Text>, request: Amounts)
    requires |before| == |flags|
    requires forall d: Dim :: Remains(left.At(d), limit.At(d), Charge(o, before, flags, who, d))
    ensures Fits(request, left) <==> !Exceeds(o, limit, before, flags, who, request)
    ensures Covers(request, left) <==> !LeavesOut(limit, request)
  {
    Dimensions(request, left);
    if !Fits(request, left) {
      var d: Dim :| !DimFits(request.At(d), left.At(d));
      assert limit.At(d).Some? && request.At(d).Some?
             && Charge(o, before, flags, who, d) + request.At(d).value > limit.At(d).value;
    }
    if !Covers(request, left) {
      var d: Dim :| left.At(d).Some? && request.At(d).None?;
      assert limit.At(d).Some?;
    }
  }

  /** What is left of both quotas is known from the books. */
  lemma BooksOf(o: Oracle, group: Amounts, users: map<Text, Amounts>, groupId: Text, before: seq<Ask>, ask: Ask)
    requires OneGroup(before, groupId) && ask.groupId == groupId
    requires Fold(o, group, users, before).exit == Going
    ensures var s := Fold(o, group, users, before);
            var left, start := UserQuota(o, s.users, ask), Start(o, users, groupId, ask.user);
            && (forall d: Dim :: Remains(s.group.At(d), group.At(d), Charge(o, before, s.flags, None, d)))
            && (left.Ok? <==> start.Ok?)
            && (left.Ok? ==> forall d: Dim ::
                  Remains(left.value.At(d), start.value.At(d), Charge(o, before, s.flags, Some(ask.user), d)))
  {
    Conservation(o, group, users, before, groupId);
    assert UserBalanced(o, users, before, groupId, Fold(o, group, users, before), ask.user);
  }

  /** A turn by its guards. */
  lemma TurnIs(o: Oracle, s: Pass, ask: Ask, request: Amounts, left: Amounts)
    requires s.exit == Going && o.request(ask.instance) == Ok(request) && UserQuota(o, s.users, ask) == Ok(left)
    ensures var r := Turn(o, s, ask);
            var fits, covered := Fits(request, left) && Fits(request, s.group),
                                 Covers(request, left) && Covers(request, s.group);
            && (r.flags[|s.flags|] <==> fits)
            && r.exit == if fits then (if covered then Going else Crashed)
                         else if Fits(request, left) then Broke else Going
  {
  }

  lemma ServedFate(o: Oracle, group: Amounts, users: map<Text, Amounts>, groupId: Text, before: seq<Ask>,
                   s: Pass, ask: Ask, request: Amounts, start: Amounts, left: Amounts)
    requires |s.flags| == |before| && o.request(ask.instance) == Ok(request)
    requires Start(o, users, groupId, ask.user) == Ok(start)
    requires forall d: Dim :: Remains(s.group.At(d), group.At(d), Charge(o, before, s.flags, None, d))
    requires forall d: Dim :: Remains(left.At(d), start.At(d), Charge(o, before, s.flags, Some(ask.user), d))
    ensures FateOf(o, group, users, groupId, before, s.flags, ask)
            == if !Fits(request, left) then OverUser
               else if !Fits(request, s.group) then OverGroup
               else if !Covers(request, s.group) || !Covers(request, left) then Unanswered
               else Granted
  {
    ShortExactly(o, group, s.group, before, s.flags, None, request);
    ShortExactly(o, start, left, before, s.flags, Some(ask.user), request);
  }

  lemma TurnFate(o: Oracle, group: Amounts, users: map<Text, Amounts>, groupId: Text, before: seq<Ask>,
                 ask: Ask)
    requires OneGroup(before, groupId) && ask.groupId == groupId
    requires Fold(o, group, users, before).exit == Going
    ensures var s := Fold(o, group, users, before);
            var f, r := FateOf(o, group, users, groupId, before, s.flags, ask), Turn(o, s, ask);
            && r.exit == ExitOf(f)
            && (r.flags[|before|] <==> f.Granted? || f.Unanswered?)
  {
    var s := Fold(o, group, users, before);
    BooksOf(o, group, users, groupId, before, ask);
    var left := UserQuota(o, s.users, ask);
    if o.request(ask.instance).Ok? && left.Ok? {
      var request := o.request(ask.instance).value;
      TurnIs(o, s, ask, request, left.value);
      ServedFate(o, group, users, groupId, before, s, ask, request, Start(o, users, groupId, ask.user).value,
                 left.value);
    }
  }

  // ---- the whole pass ----

  lemma ComesFront(fates: seq<Fate>, n: nat, k: nat)
    requires k <= n <= |fates|
    ensures Comes(fates[..n], k) <==> Comes(fates, k)
  {
    forall i | 0 <= i < n ensures fates[..n][i] == fates[i] {}
  }

  lemma OneMoreRuled(fates: seq<Fate>, flags: seq<bool>, before: Exit, exit: Exit)
    requires |fates| == |flags| > 0
    requires var n := |fates| - 1;
             && Ruled(fates[..n], flags[..n], before)
             && (before == Going ==>
                   exit == ExitOf(fates[n]) && (flags[n] <==> fates[n].Granted? || fates[n].Unanswered?))
             && (before != Going ==> exit == before && !flags[n])
    ensures Ruled(fates, flags, exit)
  {
    var n := |fates| - 1;
    ComesFront(fates, n, n);
    assert Comes(fates, n + 1) <==> Comes(fates, n) && (fates[n].Granted? || fates[n].OverUser?);
    forall k | 0 <= k < n ensures RuledAt(fates, flags, exit, k) {
      ComesFront(fates, n, k);
      assert RuledAt(fates[..n], flags[..n], before, k);
      if !(fates[k].Granted? || fates[k].OverUser?) {
        EarlierEnd(fates, n, k);
      }
    }
    assert RuledAt(fates, flags, exit, n);
  }

  lemma EarlierEnd(fates: seq<Fate>, n: nat, k: nat)
    requires k < n <= |fates| && !(fates[k].Granted? || fates[k].OverUser?)
    ensures !Comes(fates, n)
  {
  }

  /** The fates of the front of a line are not changed by the rest. */
  lemma FatesOfFront(o: Oracle, group: Amounts, users: map<Text, Amounts>, groupId: Text, asks: seq<Ask>,
                     flags: seq<bool>, n: nat)
    requires n <= |asks| == |flags|
    ensures FatesOf(o, group, users, groupId, asks[..n], flags[..n])
            == FatesOf(o, group, users, groupId, asks, flags)[..n]
  {
    forall k | 0 <= k < n ensures asks[..n][..k] == asks[..k] && flags[..n][..k] == flags[..k] {}
  }

  /**
   * The pass, exactly: a job is admitted if and only if its turn comes, its lookups succeed, and
   * with the requests admitted before it neither its user's starting quota nor the group's is
   * exceeded in any dimension. Its turn comes unless an earlier job has ended the pass, and a
   * job over its own user's quota never does, whatever the group has left.
   */
  lemma {:induction false} GreedyExactly(o: Oracle, group: Amounts, users: map<Text, Amounts>,
                                         asks: seq<Ask>, groupId: Text)
    requires OneGroup(asks, groupId)
    ensures var r := Fold(o, group, users, asks);
            Ruled(FatesOf(o, group, users, groupId, asks, r.flags), r.flags, r.exit)
  {
    if asks != [] {
      var n := |asks| - 1;
      var s, r := Fold(o, group, users, asks[..n]), Fold(o, group, users, asks);
      GreedyExactly(o, group, users, asks[..n], groupId);
      LastTurn(o, group, users, asks);
      assert r.flags[..n] == s.flags;
      FatesOfFront(o, group, users, groupId, asks, r.flags, n);
      if s.exit == Going {
        TurnFate(o, group, users, groupId, asks[..n], asks[n]);
      }
      OneMoreRuled(FatesOf(o, group, users, groupId, asks, r.flags), r.flags, s.exit, r.exit);
    }
  }

  lemma {:induction false} FirstEnd(fates: seq<Fate>) returns (k: nat)
    requires !Comes(fates, |fates|)
    ensures k < |fates| && Comes(fates, k) && !(fates[k].Granted? || fates[k].OverUser?)
  {
    var n := |fates| - 1;
    if Comes(fates, n) {
      k := n;
    } else {
      ComesFront(fates, n, n);
      k := FirstEnd(fates[..n]);
      ComesFront(fates, n, k);
    }
  }

  /** Where and how it ends: at the one job, if any, whose turn comes and whose fate ends it. */
  lemma EndsExactly(o: Oracle, group: Amounts, users: map<Text, Amounts>, asks: seq<Ask>, groupId: Text,
                    exit: Exit)
    requires OneGroup(asks, groupId) && exit != Going
    ensures var r := Fold(o, group, users, asks);
            var fates := FatesOf(o, group, users, groupId, asks, r.flags);
            r.exit == exit <==> exists k :: 0 <= k < |fates| && Comes(fates, k) && ExitOf(fates[k]) == exit
  {
    var r := Fold(o, group, users, asks);
    var fates := FatesOf(o, group, users, groupId, asks, r.flags);
    GreedyExactly(o, group, users, asks, groupId);
    if r.exit == exit {
      var k := FirstEnd(fates);
      assert RuledAt(fates, r.flags, r.exit, k);
    }
    if k :| 0 <= k < |fates| && Comes(fates, k) && ExitOf(fates[k]) == exit {
      assert RuledAt(fates, r.flags, r.exit, k);
    }
  }

  // ---- a job over its user's quota takes no part ----

  /** The two passes differ in nothing but in which users are loaded. */
  ghost predicate Same(o: Oracle, groupId: Text, s: Pass, t: Pass) {
    && s.group == t.group && s.exit == t.exit
    && forall a: Ask :: a.groupId == groupId ==> UserQuota(o, s.users, a) == UserQuota(o, t.users, a)
  }

  lemma TurnSame(o: Oracle, groupId: Text, s: Pass, t: Pass, ask: Ask)
    requires Same(o, groupId, s, t) && ask.groupId == groupId
    ensures Same(o, groupId, Turn(o, s, ask), Turn(o, t, ask))
    ensures Turn(o, s, ask).flags[|s.flags|] == Turn(o, t, ask).flags[|t.flags|]
  {
    var r, q := Turn(o, s, ask), Turn(o, t, ask);
    assert UserQuota(o, s.users, ask) == UserQuota(o, t.users, ask);
    forall a: Ask | a.groupId == groupId ensures UserQuota(o, r.users, a) == UserQuota(o, q.users, a) {
      assert UserQuota(o, s.users, a) == UserQuota(o, t.users, a);
    }
  }

  lemma RefusedIsBeside(o: Oracle, groupId: Text, s: Pass, ask: Ask)
    requires RefusedOnUser(o, s, ask) && ask.groupId == groupId
    ensures Beside(o, groupId, |s.flags|, Turn(o, s, ask), s)
  {
  }

  lemma FoldLast(o: Oracle, group: Amounts, users: map<Text, Amounts>, asks: seq<Ask>, ask: Ask)
    ensures Fold(o, group, users, asks + [ask]) == Turn(o, Fold(o, group, users, asks), ask)
  {
    assert (asks + [ask])[..|asks|] == asks;
  }

  /** The same, and the flags too, but for one more job at f, which is not admitted. */
  ghost predicate Beside(o: Oracle, groupId: Text, f: nat, s: Pass, t: Pass) {
    Same(o, groupId, s, t) && f <= |t.flags| && s.flags == t.flags[..f] + [false] + t.flags[f..]
  }

  lemma BesideTurn(o: Oracle, groupId: Text, f: nat, s: Pass, t: Pass, ask: Ask)
    requires Beside(o, groupId, f, s, t) && ask.groupId == groupId
    ensures Beside(o, groupId, f, Turn(o, s, ask), Turn(o, t, ask))
  {
    TurnSame(o, groupId, s, t, ask);
    FlagsGrow(s.flags, t.flags, Turn(o, s, ask).flags, Turn(o, t, ask).flags, f);
  }

  lemma FlagsGrow(s: seq<bool>, t: seq<bool>, r: seq<bool>, q: seq<bool>, f: nat)
    requires f <= |t| && s == t[..f] + [false] + t[f..]
    requires |r| == |s| + 1 && |q| == |t| + 1 && r[..|s|] == s && q[..|t|] == t && r[|s|] == q[|t|]
    ensures r == q[..f] + [false] + q[f..]
  {
    assert r == s + [r[|s|]] && q == t + [q[|t|]];
  }

  /** A pass that goes on with more jobs. */
  ghost function FoldOn(o: Oracle, s: Pass, tail: seq<Ask>): Pass {
    if tail == [] then s else Turn(o, FoldOn(o, s, tail[..|tail| - 1]), tail[|tail| - 1])
  }

  lemma {:induction false} FoldConcat(o: Oracle, group: Amounts, users: map<Text, Amounts>, front: seq<Ask>,
                                      tail: seq<Ask>)
    ensures Fold(o, group, users, front + tail) == FoldOn(o, Fold(o, group, users, front), tail)
  {
    if tail == [] {
      assert front + tail == front;
    } else {
      var all, n := front + tail, |tail| - 1;
      assert all[..|all| - 1] == front + tail[..n] && all[|all| - 1] == tail[n];
      FoldConcat(o, group, users, front, tail[..n]);
    }
  }

  lemma {:induction false} BesideOn(o: Oracle, groupId: Text, f: nat, s: Pass, t: Pass, tail: seq<Ask>)
    requires OneGroup(tail, groupId) && Beside(o, groupId, f, s, t)
    ensures Beside(o, groupId, f, FoldOn(o, s, tail), FoldOn(o, t, tail))
  {
    if tail != [] {
      var n := |tail| - 1;
      BesideOn(o, groupId, f, s, t, tail[..n]);
      BesideTurn(o, groupId, f, FoldOn(o, s, tail[..n]), FoldOn(o, t, tail[..n]), tail[n]);
    }
  }

  /**
   * A job that is over its user's quota at its turn could as well not be in line: the others
   * are admitted as they would be without it, and the pass ends as it would.
   */
  lemma {:induction false} RefusedTakesNothing(o: Oracle, group: Amounts, users: map<Text, Amounts>,
                                               front: seq<Ask>, ask: Ask, tail: seq<Ask>, groupId: Text)
    requires OneGroup(tail, groupId) && ask.groupId == groupId
    requires RefusedOnUser(o, Fold(o, group, users, front), ask)
    ensures Beside(o, groupId, |front|, Fold(o, group, users, front + [ask] + tail),
                   Fold(o, group, users, front + tail))
  {
    var s := Fold(o, group, users, front);
    FoldLast(o, group, users, front, ask);
    FoldConcat(o, group, users, front + [ask], tail);
    FoldConcat(o, group, users, front, tail);
    RefusedIsBeside(o, groupId, s, ask);
    BesideOn(o, groupId, |front|, Turn(o, s, ask), s, tail);
  }
}
