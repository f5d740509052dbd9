/**
 * When the admission pass dereferences nil: at which job, and what can be checked beforehand.
 * Which dimensions are limited, and which the requests have, decides whether it can.
 */
module AdmissionCrash {
  import opened Prelude
  import opened Escapism
  import opened Quota
  import opened Admission
  import opened AdmissionLaws

  /** The job at k was granted while its request lacks a dimension that is limited. */
  ghost predicate CrashesAt(o: Oracle, s: Pass, ask: Ask) {
    && s.exit == Going && o.request(ask.instance).Ok? && UserQuota(o, s.users, ask).Ok?
    && var request, left := o.request(ask.instance).value, UserQuota(o, s.users, ask).value;
       && Fits(request, left) && Fits(request, s.group)
       && (!Covers(request, s.group) || !Covers(request, left))
  }

  /** A crash ends the pass. */
  lemma CrashStops(o: Oracle, group: Amounts, users: map<Text, Amounts>, asks: seq<Ask>, k: nat)
    requires k < |asks| && CrashesAt(o, After(o, group, users, asks, k), asks[k])
    ensures Fold(o, group, users, asks).exit == Crashed
  {
    AfterNext(o, group, users, asks, k);
    FoldStuck(o, group, users, asks, k + 1);
  }

  lemma {:induction false} CrashHasCause(o: Oracle, group: Amounts, users: map<Text, Amounts>,
                                         asks: seq<Ask>)
    returns (k: nat)
    requires Fold(o, group, users, asks).exit == Crashed
    ensures k < |asks| && CrashesAt(o, After(o, group, users, asks, k), asks[k])
  {
    k := |asks| - 1;
    if Fold(o, group, users, asks[..k]).exit == Crashed {
      var n := k;
      k := CrashHasCause(o, group, users, asks[..n]);
      assert asks[..n][..k] == asks[..k];
    }
  }

  /** The pass crashes exactly when it grants a job whose request lacks a limited dimension. */
  lemma CrashExactly(o: Oracle, group: Amounts, users: map<Text, Amounts>, asks: seq<Ask>)
    ensures Fold(o, group, users, asks).exit == Crashed
            <==> exists k :: 0 <= k < |asks| && CrashesAt(o, After(o, group, users, asks, k), asks[k])
  {
    if Fold(o, group, users, asks).exit == Crashed {
      var k := CrashHasCause(o, group, users, asks);
    }
    if k :| 0 <= k < |asks| && CrashesAt(o, After(o, group, users, asks, k), asks[k]) {
      CrashStops(o, group, users, asks, k);
    }
  }

  // ---- a check before the pass ----

  /** The same dimensions are limited. */
  predicate SameShape(a: Amounts, b: Amounts) {
    (a.cpu.Some? <==> b.cpu.Some?) && (a.gpu.Some? <==> b.gpu.Some?) && (a.memory.Some? <==> b.memory.Some?)
  }

  /** The lookups of the first k + 1 jobs succeed. */
  ghost predicate Served(o: Oracle, users: map<Text, Amounts>, groupId: Text, asks: seq<Ask>, k: nat)
    requires k < |asks|
  {
    forall i :: 0 <= i <= k ==>
      o.request(asks[i].instance).Ok? && Start(o, users, groupId, asks[i].user).Ok?
  }

  /** The job's request has every dimension in which the group or the user is limited. */
  predicate Complete(o: Oracle, group: Amounts, users: map<Text, Amounts>, groupId: Text, ask: Ask)
    requires o.request(ask.instance).Ok? && Start(o, users, groupId, ask.user).Ok?
  {
    var request := o.request(ask.instance).value;
    Covers(request, group) && Covers(request, Start(o, users, groupId, ask.user).value)
  }

  /** So has every request that the pass may come to. Amounts play no part in this. */
  ghost predicate Covered(o: Oracle, group: Amounts, users: map<Text, Amounts>, groupId: Text,
                          asks: seq<Ask>) {
    forall k :: 0 <= k < |asks| && Served(o, users, groupId, asks, k)
                ==> Complete(o, group, users, groupId, asks[k])
  }

  /** The group and the loaded users are limited where they were. */
  ghost predicate Shaped(o: Oracle, group: Amounts, users: map<Text, Amounts>, groupId: Text, s: Pass) {
    && SameShape(s.group, group) && users.Keys <= s.users.Keys
    && forall u :: u in s.users ==>
         Start(o, users, groupId, u).Ok? && SameShape(s.users[u], Start(o, users, groupId, u).value)
  }

  lemma TurnKeepsShape(o: Oracle, group: Amounts, users: map<Text, Amounts>, groupId: Text, s: Pass,
                       ask: Ask)
    requires Shaped(o, group, users, groupId, s) && ask.groupId == groupId
    ensures Shaped(o, group, users, groupId, Turn(o, s, ask))
  {
    var r := Turn(o, s, ask);
    forall u | u in r.users
      ensures Start(o, users, groupId, u).Ok? && SameShape(r.users[u], Start(o, users, groupId, u).value)
    {
      assert u != ask.user ==> u in s.users;
    }
  }

  lemma {:induction false} ShapesStay(o: Oracle, group: Amounts, users: map<Text, Amounts>,
                                      asks: seq<Ask>, groupId: Text)
    requires OneGroup(asks, groupId)
    ensures Shaped(o, group, users, groupId, Fold(o, group, users, asks))
  {
    if asks == [] {
      assert Shaped(o, group, users, groupId, Pass(group, users, [], Going));
    } else {
      var n := |asks| - 1;
      ShapesStay(o, group, users, asks[..n], groupId);
      TurnKeepsShape(o, group, users, groupId, Fold(o, group, users, asks[..n]), asks[n]);
    }
  }

  /** While the pass goes on, its lookups have succeeded. */
  lemma {:induction false} GoingServed(o: Oracle, group: Amounts, users: map<Text, Amounts>,
                                       asks: seq<Ask>, groupId: Text)
    requires OneGroup(asks, groupId) && Fold(o, group, users, asks).exit == Going
    ensures forall i :: 0 <= i < |asks| ==>
              o.request(asks[i].instance).Ok? && Start(o, users, groupId, asks[i].user).Ok?
  {
    if asks != [] {
      var n := |asks| - 1;
      GoingServed(o, group, users, asks[..n], groupId);
      ShapesStay(o, group, users, asks[..n], groupId);
      forall i | 0 <= i < n
        ensures o.request(asks[i].instance).Ok? && Start(o, users, groupId, asks[i].user).Ok?
      {
        assert asks[..n][i] == asks[i];
      }
    }
  }

  lemma CompleteGoesOn(o: Oracle, group: Amounts, users: map<Text, Amounts>, groupId: Text, s: Pass,
                       ask: Ask)
    requires Shaped(o, group, users, groupId, s) && ask.groupId == groupId
    requires o.request(ask.instance).Ok? && Start(o, users, groupId, ask.user).Ok?
    requires Complete(o, group, users, groupId, ask)
    ensures !CrashesAt(o, s, ask)
  {
  }

  /** A job that makes the pass crash has been come to, with all lookups done. */
  lemma CrashServed(o: Oracle, group: Amounts, users: map<Text, Amounts>, asks: seq<Ask>,
                    groupId: Text, k: nat)
    requires OneGroup(asks, groupId) && k < |asks|
    requires CrashesAt(o, After(o, group, users, asks, k), asks[k])
    ensures Served(o, users, groupId, asks, k)
  {
    ShapesStay(o, group, users, asks[..k], groupId);
    GoingServed(o, group, users, asks[..k], groupId);
    forall i | 0 <= i <= k
      ensures o.request(asks[i].instance).Ok? && Start(o, users, groupId, asks[i].user).Ok?
    {
      assert i < k ==> asks[..k][i] == asks[i];
    }
  }

  /** A pass whose requests are complete does not crash, whatever the amounts. */
  lemma CoveredNeverCrashes(o: Oracle, group: Amounts, users: map<Text, Amounts>, asks: seq<Ask>,
                            groupId: Text)
    requires OneGroup(asks, groupId) && Covered(o, group, users, groupId, asks)
    ensures Fold(o, group, users, asks).exit != Crashed
  {
    if Fold(o, group, users, asks).exit == Crashed {
      var k := CrashHasCause(o, group, users, asks);
      CrashServed(o, group, users, asks, groupId, k);
      ShapesStay(o, group, users, asks[..k], groupId);
      CompleteGoesOn(o, group, users, groupId, After(o, group, users, asks, k), asks[k]);
      assert false;
    }
  }

  // ---- and it is no stricter than it has to be ----

  function Plus(a: int): nat {
    if a > 0 then a else 0
  }

  /** The same limits, but of this amount. */
  function Generous(a: Amounts, amount: int): Amounts {
    Amounts(if a.cpu.Some? then Some(amount) else None, if a.gpu.Some? then Some(amount) else None,
            if a.memory.Some? then Some(amount) else None)
  }

  /** Every limit is at least the amount. */
  ghost predicate NoneBelow(a: Amounts, amount: int) {
    forall d: Dim :: a.At(d).Some? ==> a.At(d).value >= amount
  }

  ghost predicate NoneAbove(request: Amounts, amount: int) {
    forall d: Dim :: request.At(d).Some? ==> request.At(d).value <= amount
  }

  ghost predicate Rich(s: Pass, amount: int) {
    s.exit == Going && NoneBelow(s.group, amount) && forall u :: u in s.users ==> NoneBelow(s.users[u], amount)
  }

  lemma RichFits(request: Amounts, left: Amounts, amount: int)
    requires NoneBelow(left, amount) && NoneAbove(request, amount)
    ensures Fits(request, left)
  {
    Dimensions(request, left);
  }

  lemma RichDebit(request: Amounts, left: Amounts, amount: int, spent: nat)
    requires NoneBelow(left, amount) && NoneAbove(request, spent)
    ensures NoneBelow(Minus(left, request), amount - spent)
  {
    Dimensions(request, left);
  }

  /** A generous quota admits a complete request, and stays generous. */
  lemma RichTurn(o: Oracle, s: Pass, ask: Ask, amount: int, spent: nat)
    requires Rich(s, amount) && spent <= amount
    requires o.request(ask.instance).Ok? && UserQuota(o, s.users, ask).Ok?
    requires NoneAbove(o.request(ask.instance).value, spent) && NoneBelow(UserQuota(o, s.users, ask).value, amount)
    requires !CrashesAt(o, s, ask)
    ensures Rich(Turn(o, s, ask), amount - spent)
  {
    var request, left := o.request(ask.instance).value, UserQuota(o, s.users, ask).value;
    RichFits(request, left, amount);
    RichFits(request, s.group, amount);
    RichDebit(request, left, amount, spent);
    RichDebit(request, s.group, amount, spent);
    var r := Turn(o, s, ask);
    forall u | u in r.users ensures NoneBelow(r.users[u], amount - spent) {
      assert u != ask.user ==> NoneBelow(s.users[u], amount);
    }
  }

  function Spent(o: Oracle, ask: Ask): nat {
    Plus(Need(o, ask, Cpu)) + Plus(Need(o, ask, Gpu)) + Plus(Need(o, ask, Memory))
  }

  /** An upper bound of what the jobs can take of any dimension. */
  function Worth(o: Oracle, asks: seq<Ask>): nat {
    if asks == [] then 0 else Worth(o, asks[..|asks| - 1]) + Spent(o, asks[|asks| - 1])
  }

  lemma {:induction false} WorthGrows(o: Oracle, asks: seq<Ask>, k: nat)
    requires k <= |asks|
    ensures Worth(o, asks[..k]) <= Worth(o, asks)
  {
    if k == |asks| {
      assert asks[..k] == asks;
    } else {
      WorthGrows(o, asks[..|asks| - 1], k);
      assert asks[..|asks| - 1][..k] == asks[..k];
    }
  }

  lemma SpentWithin(o: Oracle, ask: Ask)
    requires o.request(ask.instance).Ok?
    ensures NoneAbove(o.request(ask.instance).value, Spent(o, ask))
  {
    var request := o.request(ask.instance).value;
    forall d: Dim | request.At(d).Some? ensures request.At(d).value <= Spent(o, ask) {
      assert request.At(d).value == Need(o, ask, d);
    }
  }

  /** What the jobs before k can take leaves enough for job k. */
  lemma SpentLeft(o: Oracle, asks: seq<Ask>, k: nat)
    requires k < |asks| && o.request(asks[k].instance).Ok?
    ensures Worth(o, asks[..k]) + Spent(o, asks[k]) == Worth(o, asks[..k + 1]) <= Worth(o, asks)
    ensures NoneAbove(o.request(asks[k].instance).value, Worth(o, asks) - Worth(o, asks[..k]))
  {
    assert asks[..k + 1][..k] == asks[..k];
    WorthGrows(o, asks, k + 1);
    SpentWithin(o, asks[k]);
  }

  /** The situation with every limit raised to what all jobs can take. */
  datatype Raised = Raised(o: Oracle, group: Amounts, users: map<Text, Amounts>)

  function Raise(o: Oracle, group: Amounts, users: map<Text, Amounts>, amount: int): (r: Raised)
    ensures r.o.request == o.request
  {
    Raised(Oracle(o.request,
                  (g, u) => match o.start(g, u) case Ok(a) => Ok(Generous(a, amount)) case Err => Err),
           Generous(group, amount),
           map u | u in users :: Generous(users[u], amount))
  }

  lemma RaisedStart(o: Oracle, group: Amounts, users: map<Text, Amounts>, amount: int, groupId: Text,
                    u: Text)
    ensures var r := Raise(o, group, users, amount);
            var a, b := Start(o, users, groupId, u), Start(r.o, r.users, groupId, u);
            (a.Ok? <==> b.Ok?) && (a.Ok? ==> b.value == Generous(a.value, amount))
  {
  }

  /** In the raised situation, the pass comes to the first incomplete request. */
  lemma {:induction false} RaisedGoesOn(o: Oracle, group: Amounts, users: map<Text, Amounts>,
                                        asks: seq<Ask>, groupId: Text, k: nat)
    requires OneGroup(asks, groupId) && k < |asks| && Served(o, users, groupId, asks, k)
    requires forall i :: 0 <= i < k ==>
               o.request(asks[i].instance).Ok? && Start(o, users, groupId, asks[i].user).Ok?
               && Complete(o, group, users, groupId, asks[i])
    ensures var r := Raise(o, group, users, Worth(o, asks));
            Rich(After(r.o, r.group, r.users, asks, k), Worth(o, asks) - Worth(o, asks[..k]))
  {
    var top := Worth(o, asks);
    var r := Raise(o, group, users, top);
    if k == 0 {
      assert asks[..0] == [];
    } else {
      var i := k - 1;
      var s, left := After(r.o, r.group, r.users, asks, i), top - Worth(o, asks[..i]);
      RaisedGoesOn(o, group, users, asks, groupId, i);
      AfterNext(r.o, r.group, r.users, asks, i);
      ShapesStay(r.o, r.group, r.users, asks[..i], groupId);
      RaisedComplete(o, group, users, top, groupId, asks[i]);
      CompleteGoesOn(r.o, r.group, r.users, groupId, s, asks[i]);
      RaisedQuota(o, group, users, top, groupId, s, asks[i], left);
      SpentLeft(o, asks, i);
      SpentWithin(o, asks[i]);
      RichTurn(r.o, s, asks[i], left, Spent(o, asks[i]));
    }
  }

  lemma RaisedComplete(o: Oracle, group: Amounts, users: map<Text, Amounts>, amount: int, groupId: Text,
                       ask: Ask)
    requires o.request(ask.instance).Ok? && Start(o, users, groupId, ask.user).Ok?
    ensures var r := Raise(o, group, users, amount);
            && Start(r.o, r.users, groupId, ask.user).Ok?
            && (Complete(r.o, r.group, r.users, groupId, ask) <==> Complete(o, group, users, groupId, ask))
  {
    RaisedStart(o, group, users, amount, groupId, ask.user);
  }

  /** An incomplete request that is granted crashes the pass. */
  lemma IncompleteCrashes(o: Oracle, group: Amounts, users: map<Text, Amounts>, groupId: Text, s: Pass,
                          ask: Ask)
    requires Shaped(o, group, users, groupId, s) && s.exit == Going && ask.groupId == groupId
    requires o.request(ask.instance).Ok? && Start(o, users, groupId, ask.user).Ok?
    requires !Complete(o, group, users, groupId, ask)
    requires UserQuota(o, s.users, ask).Ok? && Fits(o.request(ask.instance).value, s.group)
    requires Fits(o.request(ask.instance).value, UserQuota(o, s.users, ask).value)
    ensures CrashesAt(o, s, ask)
  {
  }

  /** A user's quota in the raised situation, loaded or not. */
  lemma RaisedQuota(o: Oracle, group: Amounts, users: map<Text, Amounts>, amount: int, groupId: Text,
                    s: Pass, ask: Ask, left: int)
    requires var r := Raise(o, group, users, amount);
             Shaped(r.o, r.group, r.users, groupId, s) && Rich(s, left)
    requires ask.groupId == groupId && Start(o, users, groupId, ask.user).Ok? && left <= amount
    ensures var r := Raise(o, group, users, amount);
            UserQuota(r.o, s.users, ask).Ok? && NoneBelow(UserQuota(r.o, s.users, ask).value, left)
  {
    RaisedStart(o, group, users, amount, groupId, ask.user);
  }

  lemma RaisedCrashes(o: Oracle, group: Amounts, users: map<Text, Amounts>, asks: seq<Ask>,
                      groupId: Text, k: nat)
    requires OneGroup(asks, groupId) && k < |asks| && Served(o, users, groupId, asks, k)
    requires forall i :: 0 <= i < k ==>
               o.request(asks[i].instance).Ok? && Start(o, users, groupId, asks[i].user).Ok?
               && Complete(o, group, users, groupId, asks[i])
    requires !Complete(o, group, users, groupId, asks[k])
    ensures var r := Raise(o, group, users, Worth(o, asks));
            Fold(r.o, r.group, r.users, asks).exit == Crashed
  {
    var top, last := Worth(o, asks), asks[k];
    var r := Raise(o, group, users, top);
    var s, left := After(r.o, r.group, r.users, asks, k), top - Worth(o, asks[..k]);
    RaisedGoesOn(o, group, users, asks, groupId, k);
    ShapesStay(r.o, r.group, r.users, asks[..k], groupId);
    RaisedComplete(o, group, users, top, groupId, last);
    RaisedQuota(o, group, users, top, groupId, s, last, left);
    SpentLeft(o, asks, k);
    RichFits(o.request(last.instance).value, s.group, left);
    RichFits(o.request(last.instance).value, UserQuota(r.o, s.users, last).value, left);
    IncompleteCrashes(r.o, r.group, r.users, groupId, s, last);
    CrashStops(r.o, r.group, r.users, asks, k);
  }

  lemma LeastIncomplete(o: Oracle, group: Amounts, users: map<Text, Amounts>, asks: seq<Ask>,
                        groupId: Text, k: nat)
    returns (least: nat)
    requires k < |asks| && Served(o, users, groupId, asks, k)
    requires !Complete(o, group, users, groupId, asks[k])
    ensures least < |asks| && Served(o, users, groupId, asks, least)
    ensures !Complete(o, group, users, groupId, asks[least])
    ensures forall i :: 0 <= i < least ==>
              o.request(asks[i].instance).Ok? && Start(o, users, groupId, asks[i].user).Ok?
              && Complete(o, group, users, groupId, asks[i])
  {
    least := k;
    if i :| 0 <= i < k && !Complete(o, group, users, groupId, asks[i]) {
      least := LeastIncomplete(o, group, users, asks, groupId, i);
    }
  }

  /** r asks and looks up the same, and is limited in the same dimensions. */
  ghost predicate SameLimits(r: Raised, o: Oracle, group: Amounts, users: map<Text, Amounts>) {
    && r.o.request == o.request && SameShape(r.group, group) && r.users.Keys == users.Keys
    && (forall u :: u in users ==> SameShape(r.users[u], users[u]))
    && (forall g, u :: (r.o.start(g, u).Ok? <==> o.start(g, u).Ok?)
                       && (o.start(g, u).Ok? ==> SameShape(r.o.start(g, u).value, o.start(g, u).value)))
  }

  lemma CoveredByShape(r: Raised, o: Oracle, group: Amounts, users: map<Text, Amounts>, asks: seq<Ask>,
                       groupId: Text)
    requires SameLimits(r, o, group, users) && Covered(o, group, users, groupId, asks)
    ensures Covered(r.o, r.group, r.users, groupId, asks)
  {
    forall k | 0 <= k < |asks| && Served(r.o, r.users, groupId, asks, k)
      ensures Complete(r.o, r.group, r.users, groupId, asks[k])
    {
      assert Served(o, users, groupId, asks, k);
      assert Complete(o, group, users, groupId, asks[k]);
    }
  }

  /** A request that is not complete crashes the pass when the amounts are large enough. */
  lemma UncoveredCrashes(o: Oracle, group: Amounts, users: map<Text, Amounts>, asks: seq<Ask>, groupId: Text)
    returns (r: Raised)
    requires OneGroup(asks, groupId) && !Covered(o, group, users, groupId, asks)
    ensures SameLimits(r, o, group, users) && Fold(r.o, r.group, r.users, asks).exit == Crashed
  {
    var k :| 0 <= k < |asks| && Served(o, users, groupId, asks, k)
             && !Complete(o, group, users, groupId, asks[k]);
    var least := LeastIncomplete(o, group, users, asks, groupId, k);
    RaisedCrashes(o, group, users, asks, groupId, least);
    r := Raise(o, group, users, Worth(o, asks));
  }

  /**
   * Which dimensions are limited, and which requests have them, decides whether a pass can
   * crash: it is safe for all amounts exactly when every request it may come to is complete.
   */
  lemma CrashFreeExactly(o: Oracle, group: Amounts, users: map<Text, Amounts>, asks: seq<Ask>,
                         groupId: Text)
    requires OneGroup(asks, groupId)
    ensures Covered(o, group, users, groupId, asks)
            <==> forall r :: SameLimits(r, o, group, users) ==> Fold(r.o, r.group, r.users, asks).exit != Crashed
  {
    if Covered(o, group, users, groupId, asks) {
      forall r | SameLimits(r, o, group, users) ensures Fold(r.o, r.group, r.users, asks).exit != Crashed {
        CoveredByShape(r, o, group, users, asks, groupId);
        CoveredNeverCrashes(r.o, r.group, r.users, asks, groupId);
      }
    } else {
      var r := UncoveredCrashes(o, group, users, asks, groupId);
    }
  }

  /**
   * So for a pass that is covered the laws hold without a look at how it ends: it balances,
   * overdraws nothing, and does not crash.
   */
  lemma CoveredPass(o: Oracle, group: Amounts, users: map<Text, Amounts>, asks: seq<Ask>, groupId: Text)
    requires OneGroup(asks, groupId) && Covered(o, group, users, groupId, asks)
    ensures var r := Fold(o, group, users, asks);
            && r.exit != Crashed
            && Balanced(o, group, users, asks, groupId, r)
            && (NonNegative(group) || (exists i :: 0 <= i < |asks| && r.flags[i]) ==> NonNegative(r.group))
            && forall i :: 0 <= i < |asks| && r.flags[i] ==>
                 asks[i].user in r.users && NonNegative(r.users[asks[i].user])
  {
    CoveredNeverCrashes(o, group, users, asks, groupId);
    Conservation(o, group, users, asks, groupId);
    NeverOverdrawn(o, group, users, asks);
  }
}
