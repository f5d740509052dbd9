/**
 * scheduleByStrictOrder in ee/controllers/phjob_scheduler.go: the greedy admission pass.
 *
 * `Fold` is the pass on values. The method is the pass as written: it debits Quantity cells
 * through pointers that a map of structs shares, loads a user's quota at the user's first
 * job, and leaves early. It is proved to compute the fold.
 */
module Admission {
  import opened Prelude
  import opened Escapism
  import opened Quota
  import opened Jobs

  /** What the pass reads of a job. */
  datatype Ask = Ask(groupId: Text, user: Text, instance: Text)

  function AskOf(s: Spec): Ask {
    Ask(s.groupId, s.user, s.instance)
  }

  /**
   * How the pass stands: still going; left because the group was short; left with a lookup
   * error; or crashed on a nil cell, when a limited dimension is missing from the request.
   */
  datatype Exit = Going | Broke | Failing | Crashed

  /** The remaining quotas, and one flag for each job seen: was it admitted? */
  datatype Pass = Pass(group: Amounts, users: map<Text, Amounts>, flags: seq<bool>, exit: Exit)

  /**
   * The answers the pass gets, the same all along: what an instance type requests, and what a
   * user may still take in a group.
   */
  datatype Oracle = Oracle(request: Text -> Result<Amounts>, start: (Text, Text) -> Result<Amounts>)

  ghost predicate Answers(book: Book, o: Oracle) {
    && (forall i :: o.request(i) == book.Request(i))
    && (forall g, u :: o.start(g, u) == book.UserLeft(g, u))
  }

  /** The user's remaining quota, loaded when the user is new. */
  function UserQuota(o: Oracle, users: map<Text, Amounts>, ask: Ask): Result<Amounts> {
    if ask.user in users then Ok(users[ask.user]) else o.start(ask.groupId, ask.user)
  }

  /** The verdict on a request: refused on the user's quota, on the group's, or admitted. */
  ghost function Judge(s: Pass, user: Text, request: Amounts): (r: Pass)
    requires user in s.users
    ensures |r.flags| == |s.flags| + 1 && r.flags[..|s.flags|] == s.flags
  {
    var left := s.users[user];
    if !Fits(request, left) then s.(flags := s.flags + [false])
    else if !Fits(request, s.group) then s.(flags := s.flags + [false], exit := Broke)
    else if !Covers(request, s.group) || !Covers(request, left) then
      s.(flags := s.flags + [true], exit := Crashed)
    else
      Pass(Minus(s.group, request), s.users[user := Minus(left, request)], s.flags + [true], s.exit)
  }

  /** One job's turn. */
  ghost function Turn(o: Oracle, s: Pass, ask: Ask): (r: Pass)
    ensures |r.flags| == |s.flags| + 1 && r.flags[..|s.flags|] == s.flags
  {
    if s.exit != Going then s.(flags := s.flags + [false])
    else
      match (o.request(ask.instance), UserQuota(o, s.users, ask))
      case (Ok(request), Ok(left)) =>
        Judge(s.(users := s.users[ask.user := left]), ask.user, request)
      case _ => s.(flags := s.flags + [false], exit := Failing)
  }

  /** The whole pass, from the quotas `group` and `users`. */
  ghost function Fold(o: Oracle, group: Amounts, users: map<Text, Amounts>, asks: seq<Ask>): (r: Pass)
    ensures |r.flags| == |asks|
  {
    if asks == [] then Pass(group, users, [], Going)
    else Turn(o, Fold(o, group, users, asks[..|asks| - 1]), asks[|asks| - 1])
  }

  /**
   * The aliasing invariant: all cells of the group and of all users are different. `cells`
   * holds those of the users.
   */
  ghost predicate AllApart(group: ResourceQuota, quotas: map<Text, ResourceQuota>, cells: set<Quantity>) {
    && group.Distinct() && group.Outside(cells)
    && (forall u :: u in quotas ==> quotas[u].Distinct() && quotas[u].Within(cells))
    && (forall u, v :: u in quotas && v in quotas && u != v ==> quotas[u].Apart(quotas[v]))
  }

  /** A struct whose cells are new joins the table. */
  lemma StillApart(group: ResourceQuota, quotas: map<Text, ResourceQuota>, cells: set<Quantity>,
                   user: Text, q: ResourceQuota)
    requires AllApart(group, quotas, cells)
    requires user !in quotas && q.Distinct() && q.Outside(cells) && q.Apart(group)
    ensures AllApart(group, quotas[user := q], cells + q.Cells())
  {
    assert group.Outside(cells + q.Cells());
    forall u | u in quotas ensures quotas[u].Apart(q) && q.Apart(quotas[u]) {
      assert quotas[u].Within(cells);
    }
  }

  /** The map of structs that usersRemainingQuotaRef points to. */
  class UserTable {
    var quotas: map<Text, ResourceQuota>
    ghost var cells: set<Quantity>

    constructor ()
      ensures quotas == map[] && cells == {}
    {
      quotas := map[];
      cells := {};
    }

    ghost predicate Separate(group: ResourceQuota)
      reads this
    {
      AllApart(group, quotas, cells)
    }

    ghost predicate Holds(user: Text, amounts: Amounts)
      reads this, cells
    {
      user in quotas && quotas[user].Within(cells) && quotas[user].Value() == amounts
    }

    /** The values that the table denotes. */
    ghost predicate Denotes(users: map<Text, Amounts>)
      reads this, cells
    {
      quotas.Keys == users.Keys && forall u :: u in users ==> Holds(u, users[u])
    }

    method Insert(user: Text, q: ResourceQuota, group: ResourceQuota,
                  ghost users: map<Text, Amounts>)
      requires user !in quotas && Separate(group) && Denotes(users)
      requires q.Distinct() && q.Outside(cells) && q.Apart(group)
      modifies this
      ensures quotas == old(quotas)[user := q] && cells == old(cells) + q.Cells()
      ensures Separate(group)
      ensures Denotes(users[user := q.Value()])
    {
      StillApart(group, quotas, cells, user, q);
      quotas := quotas[user := q];
      cells := cells + q.Cells();
      assert Holds(user, q.Value());
      forall u | u in users ensures u != user && Holds(u, users[u]) {
        assert old(Holds(u, users[u]));
      }
    }
  }

  /** The three guarded debits: the guard looks at the quota's cell, not at the request's. */
  method Debit(quota: ResourceQuota, request: ResourceQuota) returns (crashed: bool)
    requires quota.Distinct() && quota.Apart(request)
    modifies quota.cpu, quota.gpu, quota.memory
    ensures crashed <==> !Covers(old(request.Value()), old(quota.Value()))
    ensures !crashed ==> quota.Value() == Minus(old(quota.Value()), old(request.Value()))
  {
    if quota.cpu != null {
      if request.cpu == null {
        return true;
      }
      quota.cpu.Sub(request.cpu.value);
    }
    if quota.gpu != null {
      if request.gpu == null {
        return true;
      }
      quota.gpu.Sub(request.gpu.value);
    }
    if quota.memory != null {
      if request.memory == null {
        return true;
      }
      quota.memory.Sub(request.memory.value);
    }
    crashed := false;
  }

  method InstanceTypeRequestedQuota(book: Book, instance: Text, ghost o: Oracle)
    returns (r: Result<ResourceQuota>)
    requires Answers(book, o)
    ensures r.Ok? <==> o.request(instance).Ok?
    ensures r.Ok? ==> r.value.Distinct() && fresh(r.value.Cells())
                      && o.request(instance) == Ok(r.value.Value())
  {
    match book.instances(instance)
    case Ok(l) => r := ConvertToResourceQuota(l);
    case Err => r := Err;
  }

  /** The user's struct, loaded into the table when the user is new. */
  method LoadUser(book: Book, ask: Ask, table: UserTable, group: ResourceQuota,
                  ghost users: map<Text, Amounts>, ghost o: Oracle)
    returns (r: Result<ResourceQuota>)
    requires Answers(book, o) && table.Separate(group) && table.Denotes(users)
    modifies table
    ensures table.Separate(group) && fresh(table.cells - old(table.cells))
    ensures r.Ok? <==> UserQuota(o, users, ask).Ok?
    ensures r.Err? ==> table.Denotes(users)
    ensures r.Ok? ==> ask.user in table.quotas && table.quotas[ask.user] == r.value
                      && table.Denotes(users[ask.user := UserQuota(o, users, ask).value])
  {
    if ask.user !in table.quotas {
      var left := CalculateUserRemainingResourceQuota(book, ask.groupId, ask.user);
      if left.Err? {
        return Err;
      }
      table.Insert(ask.user, left.value, group, users);
    }
    r := Ok(table.quotas[ask.user]);
  }

  /** The debit of one user's struct leaves every other user's quota alone. */
  method DebitUser(table: UserTable, group: ResourceQuota, user: Text, request: ResourceQuota,
                   ghost users: map<Text, Amounts>)
    returns (crashed: bool)
    requires table.Separate(group) && table.Denotes(users) && user in table.quotas
    requires request.Outside(table.cells)
    modifies table.cells
    ensures crashed <==> !Covers(old(request.Value()), users[user])
    ensures !crashed ==> table.Denotes(users[user := Minus(users[user], old(request.Value()))])
  {
    var mine := table.quotas[user];
    assert table.Holds(user, users[user]);
    crashed := Debit(mine, request);
    if !crashed {
      forall u | u in users && u != user ensures table.Holds(u, users[u]) {
        assert table.quotas[u].Apart(mine);
        assert old(table.Holds(u, users[u]));
      }
    }
  }

  /** Both debits of an admitted job. */
  method DebitBoth(table: UserTable, group: ResourceQuota, user: Text, request: ResourceQuota,
                   ghost users: map<Text, Amounts>)
    returns (crashed: bool)
    requires table.Separate(group) && table.Denotes(users) && user in table.quotas
    requires request.Outside(table.cells) && group.Apart(request)
    modifies group.cpu, group.gpu, group.memory, table.cells
    ensures crashed <==> !Covers(old(request.Value()), old(group.Value()))
                         || !Covers(old(request.Value()), users[user])
    ensures !crashed ==> group.Value() == Minus(old(group.Value()), old(request.Value()))
                         && table.Denotes(users[user := Minus(users[user], old(request.Value()))])
  {
    crashed := Debit(group, request);
    if crashed {
      return;
    }
    forall u | u in users ensures table.Holds(u, users[u]) {
      assert old(table.Holds(u, users[u]));
    }
    crashed := DebitUser(table, group, user, request, users);
  }

  /** The status that the pass leaves a job with. */
  function Marked(s: Status, admitted: bool): Status {
    if admitted then s.(phase := Preparing) else s
  }

  /** The verdict on the heap. */
  method JudgeOnHeap(job: PhJob, table: UserTable, group: ResourceQuota, request: ResourceQuota,
                     ghost s: Pass)
    returns (exit: Exit)
    requires s.exit == Going && table.Separate(group)
    requires s.group == group.Value() && table.Denotes(s.users)
    requires job.spec.user in table.quotas
    requires request.Outside(table.cells) && group.Apart(request)
    modifies job`status, group.cpu, group.gpu, group.memory, table.cells
    ensures var r := Judge(s, job.spec.user, old(request.Value()));
            && exit == r.exit
            && job.status == Marked(old(job.status), r.flags[|s.flags|])
            && (exit != Crashed ==> r.group == group.Value() && table.Denotes(r.users))
  {
    ghost var r := Judge(s, job.spec.user, request.Value());
    ghost var left := s.users[job.spec.user];
    assert table.Holds(job.spec.user, left);
    var userValid := ValidateResource(request, table.quotas[job.spec.user]);
    var groupValid := ValidateResource(request, group);
    if !userValid {
      assert r == s.(flags := s.flags + [false]);
      return Going;
    }
    if !groupValid {
      assert r == s.(flags := s.flags + [false], exit := Broke);
      return Broke;
    }
    assert r.flags[|s.flags|];
    job.status := job.status.(phase := Preparing);
    var crashed := DebitBoth(table, group, job.spec.user, request, s.users);
    assert crashed <==> r.exit == Crashed;
    exit := if crashed then Crashed else Going;
  }

  /** The pass once the user's quota is loaded. */
  function Loaded(o: Oracle, s: Pass, ask: Ask): Pass
    requires UserQuota(o, s.users, ask).Ok?
  {
    s.(users := s.users[ask.user := UserQuota(o, s.users, ask).value])
  }

  /** Both lookups of a turn: the request, and the user's quota in the table. */
  method LookUp(book: Book, ask: Ask, table: UserTable, group: ResourceQuota, ghost s: Pass,
                ghost o: Oracle)
    returns (request: Result<ResourceQuota>)
    requires Answers(book, o) && table.Separate(group) && table.Denotes(s.users)
    modifies table
    ensures table.Separate(group) && fresh(table.cells - old(table.cells))
    ensures request.Ok? <==> o.request(ask.instance).Ok? && UserQuota(o, s.users, ask).Ok?
    ensures request.Err? ==> table.Denotes(s.users)
    ensures request.Ok? ==> table.Denotes(Loaded(o, s, ask).users)
                            && o.request(ask.instance) == Ok(request.value.Value())
                            && fresh(request.value.Cells()) && request.value.Outside(table.cells)
  {
    request := InstanceTypeRequestedQuota(book, ask.instance, o);
    if request.Ok? {
      var loaded := LoadUser(book, ask, table, group, s.users, o);
      if loaded.Err? {
        request := Err;
      }
    }
  }

  /** One job's turn on the heap. */
  method TakeTurn(book: Book, job: PhJob, table: UserTable, group: ResourceQuota, ghost s: Pass,
                  ghost ask: Ask, ghost o: Oracle)
    returns (exit: Exit, ghost t: Pass)
    requires Answers(book, o) && s.exit == Going && table.Separate(group) && ask == AskOf(job.spec)
    requires s.group == group.Value() && table.Denotes(s.users)
    modifies job`status, table, table.cells, group.cpu, group.gpu, group.memory
    ensures table.Separate(group) && fresh(table.cells - old(table.cells))
    ensures t == Turn(o, s, ask) && exit == t.exit
    ensures job.status == Marked(old(job.status), t.flags[|s.flags|])
    ensures exit != Crashed ==> t.group == group.Value() && table.Denotes(t.users)
  {
    var request := LookUp(book, AskOf(job.spec), table, group, s, o);
    t := Turn(o, s, ask);
    if request.Err? {
      return Failing, t;
    }
    assert t == Judge(Loaded(o, s, ask), ask.user, request.value.Value());
    exit := JudgeOnHeap(job, table, group, request.value, Loaded(o, s, ask));
  }

  /** r goes on from s; once the loop is left nothing changes any more, and nobody is admitted. */
  ghost predicate Stuck(s: Pass, r: Pass) {
    && s.flags <= r.flags
    && (s.exit != Going ==>
          && r.group == s.group && r.users == s.users && r.exit == s.exit
          && forall i :: |s.flags| <= i < |r.flags| ==> !r.flags[i])
  }

  lemma TurnStuck(o: Oracle, s: Pass, r: Pass, ask: Ask)
    requires Stuck(s, r)
    ensures Stuck(s, Turn(o, r, ask))
  {
    var t := Turn(o, r, ask);
    assert t.flags == r.flags + [t.flags[|r.flags|]];
  }

  lemma {:induction false} FoldStuck(o: Oracle, group: Amounts, users: map<Text, Amounts>,
                                     asks: seq<Ask>, k: nat)
    requires k <= |asks|
    ensures Stuck(Fold(o, group, users, asks[..k]), Fold(o, group, users, asks))
  {
    if k == |asks| {
      assert asks[..k] == asks;
    } else {
      var n := |asks| - 1;
      FoldStuck(o, group, users, asks[..n], k);
      assert asks[..n][..k] == asks[..k];
      TurnStuck(o, Fold(o, group, users, asks[..k]), Fold(o, group, users, asks[..n]), asks[n]);
    }
  }

  lemma FoldNext(o: Oracle, group: Amounts, users: map<Text, Amounts>, asks: seq<Ask>, n: nat)
    requires n < |asks|
    ensures Fold(o, group, users, asks[..n + 1]) == Turn(o, Fold(o, group, users, asks[..n]), asks[n])
  {
    assert asks[..n + 1][..n] == asks[..n];
  }

  /** Where the loop ends, the pass is over. */
  lemma Finished(o: Oracle, group: Amounts, users: map<Text, Amounts>, asks: seq<Ask>, k: nat)
    requires k <= |asks|
    requires k < |asks| ==> Fold(o, group, users, asks[..k]).exit != Going
    ensures var r, s := Fold(o, group, users, asks), Fold(o, group, users, asks[..k]);
            && r.group == s.group && r.users == s.users && r.exit == s.exit
            && forall i :: 0 <= i < |asks| ==> r.flags[i] == (i < k && s.flags[i])
  {
    FoldStuck(o, group, users, asks, k);
    var r, s := Fold(o, group, users, asks), Fold(o, group, users, asks[..k]);
    assert k == |asks| ==> asks[..k] == asks;
    assert forall i :: 0 <= i < k ==> r.flags[i] == r.flags[..k][i];
  }

  /** What the jobs ask for, in order. */
  ghost predicate Asking(jobs: seq<PhJob>, asks: seq<Ask>)
    reads jobs
  {
    |asks| == |jobs| && forall i :: 0 <= i < |jobs| ==> AskOf(jobs[i].spec) == asks[i]
  }

  /** The jobs that `flags` covers are marked as it says; the others are as before. */
  ghost predicate MarkedTo(jobs: seq<PhJob>, before: seq<Status>, flags: seq<bool>)
    reads jobs
  {
    && |flags| <= |jobs| == |before|
    && forall i :: 0 <= i < |jobs| ==>
         jobs[i].status == Marked(before[i], i < |flags| && flags[i])
  }

  /** One turn of the loop. */
  method Round(book: Book, jobs: seq<PhJob>, n: nat, table: UserTable, group: ResourceQuota,
               ghost s: Pass, ghost ask: Ask, ghost o: Oracle, ghost before: seq<Status>)
    returns (exit: Exit, ghost t: Pass)
    requires forall i, j :: 0 <= i < j < |jobs| ==> jobs[i] != jobs[j]
    requires |s.flags| == n < |jobs| && MarkedTo(jobs, before, s.flags)
    requires Answers(book, o) && s.exit == Going && table.Separate(group)
    requires ask == AskOf(jobs[n].spec) && s.group == group.Value() && table.Denotes(s.users)
    modifies {jobs[n]}`status, table, table.cells, group.cpu, group.gpu, group.memory
    ensures table.Separate(group) && fresh(table.cells - old(table.cells))
    ensures t == Turn(o, s, ask) && exit == t.exit
    ensures exit != Crashed ==> t.group == group.Value() && table.Denotes(t.users)
    ensures MarkedTo(jobs, before, t.flags)
  {
    exit, t := TakeTurn(book, jobs[n], table, group, s, ask, o);
    forall i | 0 <= i < |jobs|
      ensures jobs[i].status == Marked(before[i], i < |t.flags| && t.flags[i])
    {
      assert i < n ==> t.flags[i] == t.flags[..n][i];
    }
  }

  /** The heap shows what the pass has come to. */
  ghost predicate Abreast(jobs: seq<PhJob>, table: UserTable, group: ResourceQuota,
                          before: seq<Status>, s: Pass)
    reads jobs, table, table.cells, group.cpu, group.gpu, group.memory
  {
    && table.Separate(group) && MarkedTo(jobs, before, s.flags)
    && (s.exit != Crashed ==> s.group == group.Value() && table.Denotes(s.users))
  }

  lemma MarkedAtEnd(jobs: seq<PhJob>, before: seq<Status>, flags: seq<bool>, all: seq<bool>)
    requires MarkedTo(jobs, before, flags) && |all| == |jobs|
    requires forall i :: 0 <= i < |all| ==> all[i] == (i < |flags| && flags[i])
    ensures MarkedTo(jobs, before, all)
  {
  }

  /** The same, as a step of the fold. */
  method NextRound(book: Book, jobs: seq<PhJob>, n: nat, table: UserTable, group: ResourceQuota,
                   ghost s: Pass, ghost start: Amounts, ghost users: map<Text, Amounts>,
                   ghost asks: seq<Ask>, ghost o: Oracle, ghost before: seq<Status>)
    returns (exit: Exit, ghost t: Pass)
    requires forall i, j :: 0 <= i < j < |jobs| ==> jobs[i] != jobs[j]
    requires n < |jobs| && Asking(jobs, asks) && Abreast(jobs, table, group, before, s)
    requires s == Fold(o, start, users, asks[..n]) && s.exit == Going && Answers(book, o)
    modifies jobs`status, table, table.cells, group.cpu, group.gpu, group.memory
    ensures fresh(table.cells - old(table.cells)) && Abreast(jobs, table, group, before, t)
    ensures t == Fold(o, start, users, asks[..n + 1]) && exit == t.exit
  {
    FoldNext(o, start, users, asks, n);
    exit, t := Round(book, jobs, n, table, group, s, asks[n], o, before);
  }

  /**
   * The pass. Its jobs are distinct objects and its cells are separate, as `group` and the
   * Calculate functions make them; `users` is what the table denotes, and
   * `before` what the statuses are.
   */
  method ScheduleByStrictOrder(book: Book, jobs: seq<PhJob>, table: UserTable, group: ResourceQuota,
                               ghost users: map<Text, Amounts>, ghost asks: seq<Ask>,
                               ghost o: Oracle, ghost before: seq<Status>)
    returns (exit: Exit)
    requires forall i, j :: 0 <= i < j < |jobs| ==> jobs[i] != jobs[j]
    requires MarkedTo(jobs, before, [])
    requires Answers(book, o) && Asking(jobs, asks) && table.Separate(group) && table.Denotes(users)
    modifies jobs`status, table, table.cells, group.cpu, group.gpu, group.memory
    ensures var r := Fold(o, old(group.Value()), users, asks);
            && exit == r.exit
            && MarkedTo(jobs, before, r.flags)
            && (exit != Crashed ==> r.group == group.Value() && table.Denotes(r.users))
  {
    ghost var start := group.Value();
    ghost var s := Fold(o, start, users, []);
    exit := Going;
    var n := 0;
    while n < |jobs| && exit == Going
      invariant n <= |jobs| && s == Fold(o, start, users, asks[..n]) && exit == s.exit
      invariant fresh(table.cells - old(table.cells)) && Abreast(jobs, table, group, before, s)
    {
      exit, s := NextRound(book, jobs, n, table, group, s, start, users, asks, o, before);
      n := n + 1;
    }
    Finished(o, start, users, asks, n);
    MarkedAtEnd(jobs, before, s.flags, Fold(o, start, users, asks).flags);
  }
}
