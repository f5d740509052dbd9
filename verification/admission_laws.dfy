/**
 * What the admission pass guarantees, for every list of jobs, every starting quota and every
 * answer the lookups may give.
 */
module AdmissionLaws {
  import opened Prelude
  import opened Escapism
  import opened Quota
  import opened Admission

  // ---- conservation ----

  /** What a job requests of dimension d; nothing when the request leaves it out. */
  function Need(o: Oracle, ask: Ask, d: Dim): int {
    match o.request(ask.instance)
    case Ok(a) => (if a.At(d).Some? then a.At(d).value else 0)
    case Err => 0
  }

  /** The requests of the admitted jobs, added up: of one user, or of everyone. */
  function Charge(o: Oracle, asks: seq<Ask>, flags: seq<bool>, who: Option<Text>, d: Dim): int
    requires |asks| == |flags|
  {
    if asks == [] then 0
    else
      var n := |asks| - 1;
      var last := asks[n];
      Charge(o, asks[..n], flags[..n], who, d)
      + if flags[n] && (who.None? || who.value == last.user) then Need(o, last, d) else 0
  }

  predicate OneGroup(asks: seq<Ask>, groupId: Text) {
    forall i :: 0 <= i < |asks| ==> asks[i].groupId == groupId
  }

  /** The quota a user starts with: from the table, or loaded. */
  function Start(o: Oracle, users: map<Text, Amounts>, groupId: Text, user: Text): Result<Amounts> {
    if user in users then Ok(users[user]) else o.start(groupId, user)
  }

  /** `left` is `start` minus `charge` where there is a limit, and has no limit elsewhere. */
  predicate Remains(left: Option<int>, start: Option<int>, charge: int) {
    left == DimMinus(start, Some(charge))
  }

  /** The books of one user balance: loaded, or never admitted. */
  ghost predicate UserBalanced(o: Oracle, users: map<Text, Amounts>, asks: seq<Ask>,
                               groupId: Text, r: Pass, u: Text)
    requires |r.flags| == |asks|
  {
    if u in r.users then
      var start := Start(o, users, groupId, u);
      start.Ok? && forall d: Dim ::
        Remains(r.users[u].At(d), start.value.At(d), Charge(o, asks, r.flags, Some(u), d))
    else
      u !in users && forall d: Dim :: Charge(o, asks, r.flags, Some(u), d) == 0
  }

  ghost predicate Balanced(o: Oracle, group: Amounts, users: map<Text, Amounts>, asks: seq<Ask>,
                           groupId: Text, r: Pass)
    requires |r.flags| == |asks|
  {
    && (forall d: Dim :: Remains(r.group.At(d), group.At(d), Charge(o, asks, r.flags, None, d)))
    && (forall u :: UserBalanced(o, users, asks, groupId, r, u))
  }

  lemma ChargeStep(o: Oracle, asks: seq<Ask>, flags: seq<bool>, last: Ask, flag: bool,
                   who: Option<Text>, d: Dim)
    requires |asks| == |flags|
    ensures Charge(o, asks + [last], flags + [flag], who, d)
            == Charge(o, asks, flags, who, d)
               + if flag && (who.None? || who.value == last.user) then Need(o, last, d) else 0
  {
    var all, both := asks + [last], flags + [flag];
    assert all[..|all| - 1] == asks && both[..|all| - 1] == flags;
  }

  /** One job's turn, as it bears on one user's books. */
  lemma UserTurn(o: Oracle, users: map<Text, Amounts>, asks: seq<Ask>, groupId: Text, s: Pass,
                 last: Ask, u: Text)
    requires |s.flags| == |asks| && last.groupId == groupId
    requires UserBalanced(o, users, asks, groupId, s, u)
    requires Turn(o, s, last).exit != Crashed
    ensures UserBalanced(o, users, asks + [last], groupId, Turn(o, s, last), u)
  {
    var r := Turn(o, s, last);
    var flag := r.flags[|asks|];
    assert r.flags == s.flags + [flag];
    forall d: Dim {
      ChargeStep(o, asks, s.flags, last, flag, Some(u), d);
    }
    if flag && u == last.user {
      Dimensions(o.request(last.instance).value, UserQuota(o, s.users, last).value);
    }
  }

  /** One job's turn, as it bears on the group's books. */
  lemma GroupTurn(o: Oracle, group: Amounts, asks: seq<Ask>, s: Pass, last: Ask)
    requires |s.flags| == |asks|
    requires forall d: Dim :: Remains(s.group.At(d), group.At(d), Charge(o, asks, s.flags, None, d))
    requires Turn(o, s, last).exit != Crashed
    ensures var r := Turn(o, s, last);
            forall d: Dim :: Remains(r.group.At(d), group.At(d),
                                     Charge(o, asks + [last], r.flags, None, d))
  {
    var r := Turn(o, s, last);
    var flag := r.flags[|asks|];
    assert r.flags == s.flags + [flag];
    forall d: Dim {
      ChargeStep(o, asks, s.flags, last, flag, None, d);
    }
    if flag {
      Dimensions(o.request(last.instance).value, s.group);
    }
  }

  /**
   * On every exit but a crash, also after a lookup error, each limited dimension of the group
   * and of every loaded user is what it was minus what the pass admitted, and a dimension
   * without a limit stays without one; users not loaded were never charged.
   */
  lemma {:induction false} Conservation(o: Oracle, group: Amounts, users: map<Text, Amounts>,
                                        asks: seq<Ask>, groupId: Text)
    requires OneGroup(asks, groupId)
    requires Fold(o, group, users, asks).exit != Crashed
    ensures Balanced(o, group, users, asks, groupId, Fold(o, group, users, asks))
  {
    if asks == [] {
      forall u ensures UserBalanced(o, users, asks, groupId, Pass(group, users, [], Going), u) {}
    } else {
      var n := |asks| - 1;
      var s := Fold(o, group, users, asks[..n]);
      Conservation(o, group, users, asks[..n], groupId);
      assert asks[..n] + [asks[n]] == asks;
      GroupTurn(o, group, asks[..n], s, asks[n]);
      forall u {
        UserTurn(o, users, asks[..n], groupId, s, asks[n], u);
      }
    }
  }

  // ---- the users' debits add up to the group's ----

  /** The charges of a set of users, added up. */
  ghost function ChargeOf(o: Oracle, asks: seq<Ask>, flags: seq<bool>, who: set<Text>, d: Dim): int
    requires |asks| == |flags|
    decreases who
  {
    if who == {} then 0
    else
      var u :| u in who;
      Charge(o, asks, flags, Some(u), d) + ChargeOf(o, asks, flags, who - {u}, d)
  }

  /** Taking any one user out of the set takes out that user's charge. */
  lemma {:induction false} ChargeOfWithout(o: Oracle, asks: seq<Ask>, flags: seq<bool>,
                                           who: set<Text>, u: Text, d: Dim)
    requires |asks| == |flags| && u in who
    ensures ChargeOf(o, asks, flags, who, d)
            == Charge(o, asks, flags, Some(u), d) + ChargeOf(o, asks, flags, who - {u}, d)
    decreases who
  {
    var v :| v in who && ChargeOf(o, asks, flags, who, d)
             == Charge(o, asks, flags, Some(v), d) + ChargeOf(o, asks, flags, who - {v}, d);
    if v != u {
      ChargeOfWithout(o, asks, flags, who - {v}, u, d);
      ChargeOfWithout(o, asks, flags, who - {u}, v, d);
      assert who - {v} - {u} == who - {u} - {v};
    }
  }

  lemma {:induction false} ChargeOfNobody(o: Oracle, who: set<Text>, d: Dim)
    ensures ChargeOf(o, [], [], who, d) == 0
    decreases who
  {
    if who != {} {
      var u :| u in who;
      ChargeOfNobody(o, who - {u}, d);
      ChargeOfWithout(o, [], [], who, u, d);
    }
  }

  lemma {:induction false} ChargeOfStep(o: Oracle, asks: seq<Ask>, flags: seq<bool>, last: Ask,
                                        flag: bool, who: set<Text>, d: Dim)
    requires |asks| == |flags|
    ensures ChargeOf(o, asks + [last], flags + [flag], who, d)
            == ChargeOf(o, asks, flags, who, d)
               + if flag && last.user in who then Need(o, last, d) else 0
    decreases who
  {
    if who != {} {
      var u :| u in who;
      ChargeOfStep(o, asks, flags, last, flag, who - {u}, d);
      ChargeStep(o, asks, flags, last, flag, Some(u), d);
      ChargeOfWithout(o, asks, flags, who, u, d);
      ChargeOfWithout(o, asks + [last], flags + [flag], who, u, d);
    }
  }

  /** Whoever else is counted, the users who were admitted carry the whole charge. */
  lemma {:induction false} ChargesAddUp(o: Oracle, asks: seq<Ask>, flags: seq<bool>,
                                        who: set<Text>, d: Dim)
    requires |asks| == |flags|
    requires forall i :: 0 <= i < |asks| && flags[i] ==> asks[i].user in who
    ensures ChargeOf(o, asks, flags, who, d) == Charge(o, asks, flags, None, d)
  {
    if asks == [] {
      ChargeOfNobody(o, who, d);
    } else {
      var n := |asks| - 1;
      ChargesAddUp(o, asks[..n], flags[..n], who, d);
      assert asks[..n] + [asks[n]] == asks && flags[..n] + [flags[n]] == flags;
      ChargeOfStep(o, asks[..n], flags[..n], asks[n], flags[n], who, d);
      ChargeStep(o, asks[..n], flags[..n], asks[n], flags[n], None, d);
    }
  }

  /** Where both are limited, the users' debits add up to the group's debit. */
  lemma DebitsAddUp(o: Oracle, group: Amounts, users: map<Text, Amounts>, asks: seq<Ask>,
                    groupId: Text, d: Dim)
    requires OneGroup(asks, groupId)
    requires var r := Fold(o, group, users, asks);
             r.exit != Crashed && group.At(d).Some?
             && forall u :: u in r.users && Start(o, users, groupId, u).Ok?
                            ==> Start(o, users, groupId, u).value.At(d).Some?
    ensures var r := Fold(o, group, users, asks);
            && r.group.At(d).Some?
            && (forall u :: u in r.users ==>
                  var start := Start(o, users, groupId, u);
                  start.Ok? && r.users[u].At(d).Some?
                  && start.value.At(d).value - r.users[u].At(d).value
                     == Charge(o, asks, r.flags, Some(u), d))
            && group.At(d).value - r.group.At(d).value
               == ChargeOf(o, asks, r.flags, r.users.Keys, d)
  {
    var r := Fold(o, group, users, asks);
    Conservation(o, group, users, asks, groupId);
    forall u | u in r.users ensures UserBalanced(o, users, asks, groupId, r, u) {}
    AdmittedLoaded(o, group, users, asks);
    ChargesAddUp(o, asks, r.flags, r.users.Keys, d);
  }

  /** The last turn leaves the earlier flags alone. */
  lemma LastTurn(o: Oracle, group: Amounts, users: map<Text, Amounts>, asks: seq<Ask>)
    requires asks != []
    ensures var n := |asks| - 1;
            var s, r := Fold(o, group, users, asks[..n]), Fold(o, group, users, asks);
            r == Turn(o, s, asks[n]) && forall i :: 0 <= i < n ==> r.flags[i] == s.flags[i]
  {
    var n := |asks| - 1;
    var s, r := Fold(o, group, users, asks[..n]), Fold(o, group, users, asks);
    assert forall i :: 0 <= i < n ==> r.flags[i] == r.flags[..n][i];
  }

  lemma TurnLoads(o: Oracle, s: Pass, ask: Ask)
    ensures var r := Turn(o, s, ask);
            s.users.Keys <= r.users.Keys && (r.flags[|s.flags|] ==> ask.user in r.users)
  {
  }

  /** Users stay loaded, and every admitted job's user is loaded. */
  lemma {:induction false} AdmittedLoaded(o: Oracle, group: Amounts, users: map<Text, Amounts>,
                                          asks: seq<Ask>)
    ensures var r := Fold(o, group, users, asks);
            && users.Keys <= r.users.Keys
            && forall i :: 0 <= i < |asks| && r.flags[i] ==> asks[i].user in r.users
  {
    if asks != [] {
      var n := |asks| - 1;
      AdmittedLoaded(o, group, users, asks[..n]);
      LastTurn(o, group, users, asks);
      TurnLoads(o, Fold(o, group, users, asks[..n]), asks[n]);
    }
  }

  // ---- no quota is overdrawn ----

  /** A debit that fits and is covered leaves nothing below zero. */
  lemma SolventDebit(limit: Amounts, request: Amounts)
    requires Fits(request, limit) && Covers(request, limit)
    ensures NonNegative(Minus(limit, request))
  {
    Dimensions(request, limit);
  }

  /** Whatever it starts from, a quota that was charged at all ends above zero. */
  lemma {:induction false} NeverOverdrawn(o: Oracle, group: Amounts, users: map<Text, Amounts>,
                                          asks: seq<Ask>)
    requires Fold(o, group, users, asks).exit != Crashed
    ensures var r := Fold(o, group, users, asks);
            && (NonNegative(group) || (exists i :: 0 <= i < |asks| && r.flags[i]) ==> NonNegative(r.group))
            && forall i :: 0 <= i < |asks| && r.flags[i] ==>
                             asks[i].user in r.users && NonNegative(r.users[asks[i].user])
  {
    if asks != [] {
      var n := |asks| - 1;
      NeverOverdrawn(o, group, users, asks[..n]);
      var s, r := Fold(o, group, users, asks[..n]), Fold(o, group, users, asks);
      var last := asks[n];
      LastTurn(o, group, users, asks);
      if r.flags[n] {
        var request := o.request(last.instance).value;
        SolventDebit(s.group, request);
        SolventDebit(UserQuota(o, s.users, last).value, request);
      }
    }
  }

  // ---- strict order ----

  /** A job's turn ended in a refusal on its own user's quota, with the pass still going. */
  ghost predicate RefusedOnUser(o: Oracle, s: Pass, ask: Ask) {
    && s.exit == Going && o.request(ask.instance).Ok? && UserQuota(o, s.users, ask).Ok?
    && !Fits(o.request(ask.instance).value, UserQuota(o, s.users, ask).value)
  }

  /** The pass once the first k jobs have had their turn. */
  ghost function After(o: Oracle, group: Amounts, users: map<Text, Amounts>, asks: seq<Ask>,
                       k: nat): Pass
    requires k <= |asks|
  {
    Fold(o, group, users, asks[..k])
  }

  lemma AfterNext(o: Oracle, group: Amounts, users: map<Text, Amounts>, asks: seq<Ask>, k: nat)
    requires k < |asks|
    ensures After(o, group, users, asks, k + 1) == Turn(o, After(o, group, users, asks, k), asks[k])
    ensures After(o, group, users, asks, |asks|) == Fold(o, group, users, asks)
    ensures Fold(o, group, users, asks).flags[k] == After(o, group, users, asks, k + 1).flags[k]
  {
    assert asks[..k + 1][..k] == asks[..k];
    assert asks[..|asks|] == asks;
    FoldStuck(o, group, users, asks, k + 1);
    var r := Fold(o, group, users, asks);
    assert r.flags[k] == r.flags[..k + 1][k];
  }

  /** Once the pass has stopped, it admits nothing. */
  lemma StoppedAdmitsNone(o: Oracle, group: Amounts, users: map<Text, Amounts>, asks: seq<Ask>,
                          k: nat, j: nat)
    requires k <= j < |asks| && After(o, group, users, asks, k).exit != Going
    ensures !Fold(o, group, users, asks).flags[j]
    ensures After(o, group, users, asks, j).exit != Going
  {
    FoldStuck(o, group, users, asks, k);
    FoldStuck(o, group, users, asks[..j], k);
    assert asks[..j][..k] == asks[..k];
  }

  /**
   * Strict order: if a job is admitted, every earlier job that is not was refused at its turn,
   * and on its own user's quota.
   */
  lemma StrictOrder(o: Oracle, group: Amounts, users: map<Text, Amounts>, asks: seq<Ask>,
                    i: nat, j: nat)
    requires i < j < |asks|
    requires Fold(o, group, users, asks).flags[j] && !Fold(o, group, users, asks).flags[i]
    ensures RefusedOnUser(o, After(o, group, users, asks, i), asks[i])
  {
    AfterNext(o, group, users, asks, i);
    var s := After(o, group, users, asks, i);
    if After(o, group, users, asks, i + 1).exit != Going {
      StoppedAdmitsNone(o, group, users, asks, i + 1, j);
    }
  }

  // ---- a smaller request of the same user is not passed over ----

  predicate DimAtMost(a: Option<int>, b: Option<int>) {
    a.Some? ==> b.Some? && a.value <= b.value
  }

  /** a asks for no more than b in any dimension. */
  ghost predicate AtMost(a: Amounts, b: Amounts) {
    forall d: Dim :: DimAtMost(a.At(d), b.At(d))
  }

  ghost predicate NonNegativeRequests(o: Oracle) {
    forall i :: o.request(i).Ok? ==> NonNegative(o.request(i).value)
  }

  /** b is a with no dimension raised; a limit stays a limit. */
  ghost predicate Shrunk(a: Amounts, b: Amounts) {
    forall d: Dim ::
      a.At(d).Some? ==> b.At(d).Some? && b.At(d).value <= a.At(d).value
  }

  lemma TurnShrinks(o: Oracle, s: Pass, last: Ask, ask: Ask)
    requires NonNegativeRequests(o) && last.groupId == ask.groupId
    requires Turn(o, s, last).exit == Going && UserQuota(o, s.users, ask).Ok?
    ensures var b := UserQuota(o, Turn(o, s, last).users, ask);
            b.Ok? && Shrunk(UserQuota(o, s.users, ask).value, b.value)
  {
    if last.user == ask.user {
      var request := o.request(last.instance).value;
      Dimensions(request, UserQuota(o, s.users, last).value);
    }
  }

  /** Each pass but the first is the one before it with one more turn. */
  ghost predicate Turns(o: Oracle, passes: seq<Pass>, asks: seq<Ask>) {
    |passes| == |asks| + 1 && forall k :: 0 <= k < |asks| ==> passes[k + 1] == Turn(o, passes[k], asks[k])
  }

  /** All the passes that a line goes through. */
  lemma PassesOf(o: Oracle, group: Amounts, users: map<Text, Amounts>, asks: seq<Ask>)
    returns (passes: seq<Pass>)
    ensures Turns(o, passes, asks)
    ensures forall k :: 0 <= k <= |asks| ==> passes[k] == After(o, group, users, asks, k)
  {
    passes := seq(|asks| + 1, k requires 0 <= k <= |asks| => After(o, group, users, asks, k));
    forall k | 0 <= k < |asks| ensures passes[k + 1] == Turn(o, passes[k], asks[k]) {
      AfterNext(o, group, users, asks, k);
    }
  }

  lemma TurnGoing(o: Oracle, s: Pass, ask: Ask)
    requires Turn(o, s, ask).exit == Going
    ensures s.exit == Going
  {
  }

  lemma {:induction false} PassesShrink(o: Oracle, passes: seq<Pass>, asks: seq<Ask>, ask: Ask, i: nat, j: nat)
    requires NonNegativeRequests(o) && OneGroup(asks, ask.groupId) && Turns(o, passes, asks)
    requires i <= j <= |asks| && passes[j].exit == Going && UserQuota(o, passes[i].users, ask).Ok?
    ensures var a, b := UserQuota(o, passes[i].users, ask), UserQuota(o, passes[j].users, ask);
            b.Ok? && Shrunk(a.value, b.value)
  {
    if i < j {
      TurnGoing(o, passes[j - 1], asks[j - 1]);
      PassesShrink(o, passes, asks, ask, i, j - 1);
      TurnShrinks(o, passes[j - 1], asks[j - 1], ask);
    }
  }

  /** What a user has left never grows during the pass. */
  lemma UserQuotaShrinks(o: Oracle, group: Amounts, users: map<Text, Amounts>, asks: seq<Ask>,
                         ask: Ask, i: nat, j: nat)
    requires NonNegativeRequests(o) && OneGroup(asks, ask.groupId) && i <= j <= |asks|
    requires After(o, group, users, asks, j).exit == Going
    requires UserQuota(o, After(o, group, users, asks, i).users, ask).Ok?
    ensures var a := UserQuota(o, After(o, group, users, asks, i).users, ask);
            var b := UserQuota(o, After(o, group, users, asks, j).users, ask);
            b.Ok? && Shrunk(a.value, b.value)
  {
    var passes := PassesOf(o, group, users, asks);
    PassesShrink(o, passes, asks, ask, i, j);
  }

  /**
   * Of two jobs of one user, if the later one is admitted and the earlier one asks for no more
   * in any dimension, the earlier one is admitted too.
   */
  lemma SmallerEarlierAdmitted(o: Oracle, group: Amounts, users: map<Text, Amounts>,
                               asks: seq<Ask>, groupId: Text, i: nat, j: nat)
    requires NonNegativeRequests(o) && OneGroup(asks, groupId) && i < j < |asks|
    requires asks[i].user == asks[j].user
    requires o.request(asks[i].instance).Ok? && o.request(asks[j].instance).Ok?
    requires AtMost(o.request(asks[i].instance).value, o.request(asks[j].instance).value)
    requires Fold(o, group, users, asks).flags[j]
    ensures Fold(o, group, users, asks).flags[i]
  {
    if !Fold(o, group, users, asks).flags[i] {
      StrictOrder(o, group, users, asks, i, j);
      AfterNext(o, group, users, asks, j);
      var s, t := After(o, group, users, asks, i), After(o, group, users, asks, j);
      UserQuotaShrinks(o, group, users, asks, asks[i], i, j);
      var small, large := o.request(asks[i].instance).value, o.request(asks[j].instance).value;
      Dimensions(small, UserQuota(o, s.users, asks[i]).value);
      Dimensions(large, UserQuota(o, t.users, asks[j]).value);
      assert false;
    }
  }

  // ---- raising the group's quota ----

  predicate DimNoTighter(a: Option<int>, b: Option<int>) {
    b.Some? ==> a.Some? && a.value <= b.value
  }

  /** b allows at least what a allows in every dimension. */
  ghost predicate NoTighter(a: Amounts, b: Amounts) {
    forall d: Dim :: DimNoTighter(a.At(d), b.At(d))
  }

  /** The two runs agree as long as the one with the smaller quota goes on. */
  ghost predicate InStep(s: Pass, t: Pass) {
    s.flags == t.flags && s.users == t.users && t.exit == Going && NoTighter(s.group, t.group)
  }

  lemma InStepTurn(o: Oracle, s: Pass, t: Pass, ask: Ask)
    requires s.exit == Going && InStep(s, t)
    ensures var r, q := Turn(o, s, ask), Turn(o, t, ask);
            && (r.exit == Going ==> InStep(r, q))
            && (r.exit != Crashed ==> r.flags[|s.flags|] ==> q.flags[|s.flags|])
            && (r.exit == Crashed ==> q.flags == r.flags)
  {
    if o.request(ask.instance).Ok? && UserQuota(o, s.users, ask).Ok? {
      var request := o.request(ask.instance).value;
      Dimensions(request, s.group);
      Dimensions(request, t.group);
      Dimensions(request, UserQuota(o, s.users, ask).value);
    }
  }

  /** While the smaller run goes on the larger is in step; and it admits whatever the smaller does. */
  lemma {:induction false} TwoRuns(o: Oracle, small: Amounts, large: Amounts,
                                   users: map<Text, Amounts>, asks: seq<Ask>)
    requires NoTighter(small, large)
    ensures var s, t := Fold(o, small, users, asks), Fold(o, large, users, asks);
            && (s.exit == Going ==> InStep(s, t))
            && (forall i :: 0 <= i < |asks| && s.flags[i] ==> t.flags[i])
            && (forall i, j :: 0 <= i < j < |asks| && s.flags[j] && t.flags[i] ==> s.flags[i])
  {
    if asks != [] {
      var n := |asks| - 1;
      TwoRuns(o, small, large, users, asks[..n]);
      var s, t := Fold(o, small, users, asks[..n]), Fold(o, large, users, asks[..n]);
      var r, q := Fold(o, small, users, asks), Fold(o, large, users, asks);
      LastTurn(o, small, users, asks);
      LastTurn(o, large, users, asks);
      if s.exit == Going {
        InStepTurn(o, s, t, asks[n]);
      }
    }
  }

  /** The admitted jobs, in order. */
  function Admitted(asks: seq<Ask>, flags: seq<bool>): seq<Ask>
    requires |asks| == |flags|
  {
    if asks == [] then []
    else
      var n := |asks| - 1;
      Admitted(asks[..n], flags[..n]) + if flags[n] then [asks[n]] else []
  }

  /** Flags that only add later admissions extend the admitted list. */
  lemma {:induction false} AdmittedPrefix(asks: seq<Ask>, few: seq<bool>, many: seq<bool>)
    requires |asks| == |few| == |many|
    requires forall i :: 0 <= i < |asks| && few[i] ==> many[i]
    requires forall i, j :: 0 <= i < j < |asks| && few[j] && many[i] ==> few[i]
    ensures Admitted(asks, few) <= Admitted(asks, many)
    ensures few == many ==> Admitted(asks, few) == Admitted(asks, many)
  {
    if asks != [] {
      var n := |asks| - 1;
      AdmittedPrefix(asks[..n], few[..n], many[..n]);
      if few[n] {
        assert few[..n] == many[..n];
      }
    }
  }

  /**
   * Raising the group's remaining quota, or lifting a limit, never un-admits a job: the list
   * admitted under the smaller quota is a prefix of the list admitted under the larger.
   */
  lemma GroupMonotone(o: Oracle, small: Amounts, large: Amounts, users: map<Text, Amounts>,
                      asks: seq<Ask>)
    requires NoTighter(small, large)
    ensures Admitted(asks, Fold(o, small, users, asks).flags)
            <= Admitted(asks, Fold(o, large, users, asks).flags)
  {
    TwoRuns(o, small, large, users, asks);
    AdmittedPrefix(asks, Fold(o, small, users, asks).flags, Fold(o, large, users, asks).flags);
  }
}
