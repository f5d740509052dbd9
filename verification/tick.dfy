/**
 * One tick of PHJobScheduler in ee/controllers/phjob_scheduler.go: list, validate, group,
 * sort, and one admission pass for each group.
 */
module Tick {
  import opened Prelude
  import opened Escapism
  import opened Quota
  import opened Jobs
  import opened Admission
  import opened Lists
  import opened Protocol

  predicate IsPending(j: Job) {
    j.status.phase == Pending
  }

  /** A status write of the tick: the whole status, on the object as it was listed. */
  datatype Write = Write(job: Job, status: Status)

  // ---- validation ----

  /** What becomes of a listed job: it goes on to its group's pass, is left for the next tick, or fails. */
  datatype Verdict = Kept | Skipped | Invalid(reason: Reason)

  function VerdictOn(book: Book, s: Spec): Verdict {
    match book.groups(s.groupId)
    case Err => Invalid(PodCreationFailed)
    case Ok(g) =>
      match (book.Request(s.instance), Converted(g.project), Converted(g.user))
      case (Ok(request), Ok(project), Ok(user)) =>
        if Fits(request, user) && Fits(request, project) then Kept else Invalid(OverQuota)
      case _ => Skipped
  }

  /** Does the request fit the whole quota of the group and of one user, used or not? */
  method Validate(request: ResourceQuota, g: Group) returns (r: Result<bool>)
    ensures r == match (Converted(g.project), Converted(g.user))
                 case (Ok(p), Ok(u)) => Ok(Fits(request.Value(), u) && Fits(request.Value(), p))
                 case _ => Err
  {
    var groupQuota := ConvertToResourceQuota(g.project);
    if groupQuota.Err? {
      return Err;
    }
    var userQuota := ConvertToResourceQuota(g.user);
    if userQuota.Err? {
      return Err;
    }
    var userValid := ValidateResource(request, userQuota.value);
    var groupValid := ValidateResource(request, groupQuota.value);
    r := Ok(userValid && groupValid);
  }

  method Examine(book: Book, job: Job, ghost o: Oracle) returns (v: Verdict)
    requires Answers(book, o)
    ensures v == VerdictOn(book, job.spec)
  {
    var group := book.groups(job.spec.groupId);
    if group.Err? {
      return Invalid(PodCreationFailed);
    }
    var request := InstanceTypeRequestedQuota(book, job.spec.instance, o);
    if request.Err? {
      return Skipped;
    }
    var valid := Validate(request.value, group.value);
    match valid {
      case Err => v := Skipped;
      case Ok(b) => v := if b then Kept else Invalid(OverQuota);
    }
  }

  /** The failure writes for the jobs, in their order; `clock` is the time at which a job is examined. */
  function Rejections(book: Book, clock: Job -> int, jobs: seq<Job>): seq<Write> {
    if jobs == [] then []
    else
      var j := jobs[|jobs| - 1];
      Rejections(book, clock, jobs[..|jobs| - 1])
      + match VerdictOn(book, j.spec)
        case Invalid(reason) => [Write(j, FailedBy(j.status, reason, clock(j)))]
        case _ => []
  }

  /** One turn of the first loop of Schedule: the job is kept, skipped, or failed. */
  method ExamineNext(book: Book, job: Job, clock: Job -> int, before: seq<Write>,
                     ghost was: seq<Job>, ghost n: nat, ghost o: Oracle)
    returns (stay: bool, writes: seq<Write>)
    requires Answers(book, o) && n < |was| && was[n] == job
    requires before == Rejections(book, clock, was[..n])
    ensures stay == VerdictOn(book, job.spec).Kept?
    ensures writes == Rejections(book, clock, was[..n + 1])
  {
    assert was[..n + 1][..n] == was[..n];
    var verdict := Examine(book, job, o);
    stay, writes := verdict.Kept?, before;
    if verdict.Invalid? {
      writes := writes + [Write(job, FailedBy(job.status, verdict.reason, clock(job)))];
    }
  }

  /** The first loop of Schedule, over the first `len` items: the jobs to be grouped end up at the front. */
  method Winnow(book: Book, items: array<Job>, len: nat, clock: Job -> int, ghost o: Oracle)
    returns (kept: nat, writes: seq<Write>)
    requires Answers(book, o) && len <= items.Length
    modifies items
    ensures kept <= len
    ensures items[..kept] == Filter(old(items[..len]), (j: Job) => VerdictOn(book, j.spec).Kept?)
    ensures writes == Rejections(book, clock, old(items[..len]))
  {
    ghost var was := items[..len];
    ghost var p := (j: Job) => VerdictOn(book, j.spec).Kept?;
    kept, writes := 0, [];
    for n := 0 to len
      invariant Compacted(items, was, kept, n, p)
      invariant writes == Rejections(book, clock, was[..n])
    {
      var job := items[n];
      var stay;
      stay, writes := ExamineNext(book, job, clock, writes, was, n, o);
      kept := KeepNext(items, was, kept, n, p, stay);
    }
    assert was[..len] == was;
  }

  // ---- grouping ----

  function OfGroup(jobs: seq<Job>, id: Text): seq<Job> {
    Filter(jobs, (j: Job) => j.spec.groupId == id)
  }

  /** Every job is in the list of its group, in the old order, and nowhere else. */
  ghost predicate Grouped(jobs: seq<Job>, groups: map<Text, seq<Job>>) {
    && (forall id :: id in groups <==> OfGroup(jobs, id) != [])
    && (forall id :: id in groups ==> groups[id] == OfGroup(jobs, id))
  }

  method GroupJobs(jobs: seq<Job>) returns (groups: map<Text, seq<Job>>)
    ensures Grouped(jobs, groups)
  {
    groups := map[];
    for n := 0 to |jobs|
      invariant Grouped(jobs[..n], groups)
    {
      var id := jobs[n].spec.groupId;
      forall i {
        FilterNext(jobs, n, (j: Job) => j.spec.groupId == i);
      }
      if id !in groups {
        groups := groups[id := []];
      }
      groups := groups[id := groups[id] + [jobs[n]]];
    }
    assert jobs[..|jobs|] == jobs;
  }

  // ---- one group's pass ----

  function AsksOf(line: seq<Job>): (asks: seq<Ask>)
    ensures |asks| == |line|
  {
    seq(|line|, i requires 0 <= i < |line| => AskOf(line[i].spec))
  }

  /** The pass over a group's line; without the group's remaining quota there is none. */
  ghost function GroupFold(book: Book, o: Oracle, id: Text, line: seq<Job>): (r: Pass)
    ensures |r.flags| == |line|
  {
    match book.GroupLeft(id)
    case Ok(left) => Fold(o, left, map[], AsksOf(line))
    case Err => Admission.Pass(Amounts(None, None, None), map[], seq(|line|, _ => false), Failing)
  }

  /** The writes for the jobs that were admitted, in line. */
  function Admissions(line: seq<Job>, flags: seq<bool>): seq<Write>
    requires |line| == |flags|
  {
    if line == [] then []
    else
      var n := |line| - 1;
      Admissions(line[..n], flags[..n])
      + if flags[n] then [Write(line[n], line[n].status.(phase := Preparing))] else []
  }

  /** The jobs in line for admission: their group's jobs, sorted by creation. */
  predicate LineOf(line: seq<Job>, jobs: seq<Job>) {
    Sorted(line, CreatedAt) && multiset(line) == multiset(jobs)
  }

  /** The copies that the pass will mark. */
  method Copies(line: seq<Job>) returns (copies: seq<PhJob>)
    ensures |copies| == |line| && fresh(set c | c in copies)
    ensures forall i :: 0 <= i < |line| ==> copies[i].Value() == line[i]
    ensures forall i, j :: 0 <= i < j < |line| ==> copies[i] != copies[j]
  {
    copies := [];
    for n := 0 to |line|
      invariant |copies| == n && fresh(set c | c in copies)
      invariant forall i :: 0 <= i < n ==> copies[i].Value() == line[i]
      invariant forall i, j :: 0 <= i < j < n ==> copies[i] != copies[j]
    {
      var copy := new PhJob(line[n]);
      copies := copies + [copy];
    }
  }

  /** The statuses of the jobs that have been marked are written. */
  method Commit(line: seq<Job>, copies: seq<PhJob>, ghost flags: seq<bool>)
    returns (writes: seq<Write>)
    requires |copies| == |line| == |flags| && forall i :: 0 <= i < |line| ==> IsPending(line[i])
    requires forall i :: 0 <= i < |line| ==> copies[i].status == Marked(line[i].status, flags[i])
    ensures writes == Admissions(line, flags)
  {
    writes := [];
    for n := 0 to |line|
      invariant writes == Admissions(line[..n], flags[..n])
    {
      assert line[..n + 1][..n] == line[..n] && flags[..n + 1][..n] == flags[..n];
      if copies[n].status.phase == Preparing {
        writes := writes + [Write(line[n], copies[n].status)];
      }
    }
    assert line[..|line|] == line && flags[..|line|] == flags;
  }

  method GroupPass(book: Book, jobs: seq<Job>, id: Text, ghost o: Oracle)
    returns (line: seq<Job>, writes: seq<Write>, crashed: bool)
    requires Answers(book, o) && jobs != []
    requires forall j :: j in jobs ==> IsPending(j) && j.spec.groupId == id
    ensures LineOf(line, jobs)
    ensures crashed <==> GroupFold(book, o, id, line).exit == Crashed
    ensures writes == if crashed then [] else Admissions(line, GroupFold(book, o, id, line).flags)
  {
    var sorted := new Job[|jobs|](i requires 0 <= i < |jobs| => jobs[i]);
    assert sorted[..] == jobs;
    SortBy(sorted, CreatedAt);
    line := sorted[..];
    assert forall j :: j in line ==> j in multiset(line);
    assert forall j :: j in line ==> j in jobs;
    assert |multiset(line)| == |multiset(jobs)|;
    writes, crashed := PassOver(book, line, id, o);
  }

  /** The pass proper, over copies of the jobs. */
  method PassOverCopies(book: Book, ghost line: seq<Job>, copies: seq<PhJob>, left: ResourceQuota,
                        ghost o: Oracle, ghost r: Pass)
    returns (crashed: bool)
    requires Answers(book, o) && left.Distinct() && |copies| == |line|
    requires forall i :: 0 <= i < |copies| ==> copies[i].Value() == line[i]
    requires forall i, j :: 0 <= i < j < |copies| ==> copies[i] != copies[j]
    requires r == Fold(o, left.Value(), map[], AsksOf(line))
    modifies copies`status, left.cpu, left.gpu, left.memory
    ensures crashed <==> r.exit == Crashed
    ensures forall i :: 0 <= i < |line| ==> copies[i].status == Marked(line[i].status, r.flags[i])
  {
    var table := new UserTable();
    ghost var before := seq(|line|, i requires 0 <= i < |line| => line[i].status);
    var exit := ScheduleByStrictOrder(book, copies, table, left, map[], AsksOf(line), o, before);
    crashed := exit == Crashed;
  }

  method PassOver(book: Book, line: seq<Job>, id: Text, ghost o: Oracle)
    returns (writes: seq<Write>, crashed: bool)
    requires Answers(book, o) && line != []
    requires forall j :: j in line ==> IsPending(j) && j.spec.groupId == id
    ensures crashed <==> GroupFold(book, o, id, line).exit == Crashed
    ensures writes == if crashed then [] else Admissions(line, GroupFold(book, o, id, line).flags)
  {
    writes, crashed := [], false;
    var left := CalculateGroupRemainingResourceQuota(book, line[0].spec.groupId);
    if left.Err? {
      NoneAdmitted(line, GroupFold(book, o, id, line).flags);
      return;
    }
    ghost var r := GroupFold(book, o, id, line);
    var copies := Copies(line);
    crashed := PassOverCopies(book, line, copies, left.value, o, r);
    if !crashed {
      writes := Commit(line, copies, r.flags);
    }
  }

  /** A pass that cannot look up the group's quota admits nobody. */
  lemma {:induction false} NoneAdmitted(line: seq<Job>, flags: seq<bool>)
    requires |flags| == |line| && forall i :: 0 <= i < |flags| ==> !flags[i]
    ensures Admissions(line, flags) == []
  {
    if line != [] {
      NoneAdmitted(line[..|line| - 1], flags[..|line| - 1]);
    }
  }

  // ---- the tick ----

  /** The jobs that a tick groups. */
  function Eligible(book: Book, items: seq<Job>): seq<Job> {
    Filter(Filter(items, IsPending), (j: Job) => VerdictOn(book, j.spec).Kept?)
  }

  /** The admissions of the groups in `order`. */
  ghost function AllAdmissions(book: Book, o: Oracle, order: seq<Text>, lines: map<Text, seq<Job>>): seq<Write>
    requires forall id :: id in order ==> id in lines
  {
    if order == [] then []
    else
      var id := order[|order| - 1];
      AllAdmissions(book, o, order[..|order| - 1], lines)
      + Admissions(lines[id], GroupFold(book, o, id, lines[id]).flags)
  }

  /** The groups in `order` have been lined up, each once. */
  ghost predicate Lined(jobs: seq<Job>, order: seq<Text>, lines: map<Text, seq<Job>>) {
    && NoRepeats(order)
    && (forall id :: id in order <==> id in lines)
    && (forall id :: id in lines ==> OfGroup(jobs, id) != [] && LineOf(lines[id], OfGroup(jobs, id)))
  }

  ghost predicate Crashes(book: Book, o: Oracle, lines: map<Text, seq<Job>>, id: Text) {
    id in lines && GroupFold(book, o, id, lines[id]).exit == Crashed
  }

  ghost predicate NoneCrashes(book: Book, o: Oracle, lines: map<Text, seq<Job>>) {
    forall id :: !Crashes(book, o, lines, id)
  }

  /** The pass of one more group, lined up so, crashes the tick. */
  ghost predicate StoppedAt(book: Book, o: Oracle, jobs: seq<Job>, lines: map<Text, seq<Job>>,
                            id: Text, line: seq<Job>) {
    && id !in lines && OfGroup(jobs, id) != [] && LineOf(line, OfGroup(jobs, id))
    && GroupFold(book, o, id, line).exit == Crashed
  }

  ghost predicate Stopped(book: Book, o: Oracle, jobs: seq<Job>, lines: map<Text, seq<Job>>) {
    exists id, line :: StoppedAt(book, o, jobs, lines, id, line)
  }

  /** Every group has had its pass. */
  ghost predicate Whole(book: Book, items: seq<Job>, lines: map<Text, seq<Job>>) {
    forall id :: OfGroup(Eligible(book, items), id) != [] ==> id in lines
  }

  /** What a tick has written, once the groups in `order` have had their passes. */
  ghost predicate Ticked(book: Book, o: Oracle, clock: Job -> int, items: seq<Job>,
                         order: seq<Text>, lines: map<Text, seq<Job>>, writes: seq<Write>) {
    var jobs := Eligible(book, items);
    && Lined(jobs, order, lines) && NoneCrashes(book, o, lines)
    && writes == Rejections(book, clock, Filter(items, IsPending)) + AllAdmissions(book, o, order, lines)
  }

  lemma AllAdmissionsNext(book: Book, o: Oracle, order: seq<Text>, lines: map<Text, seq<Job>>,
                          id: Text, line: seq<Job>)
    requires id !in lines && id !in order && forall i :: i in order ==> i in lines
    ensures AllAdmissions(book, o, order + [id], lines[id := line])
            == AllAdmissions(book, o, order, lines) + Admissions(line, GroupFold(book, o, id, line).flags)
  {
    assert (order + [id])[..|order|] == order;
    SameAdmissions(book, o, order, lines, lines[id := line]);
  }

  lemma {:induction false} SameAdmissions(book: Book, o: Oracle, order: seq<Text>,
                                          lines: map<Text, seq<Job>>, more: map<Text, seq<Job>>)
    requires forall i :: i in order ==> i in lines && i in more && lines[i] == more[i]
    ensures AllAdmissions(book, o, order, lines) == AllAdmissions(book, o, order, more)
  {
    if order != [] {
      SameAdmissions(book, o, order[..|order| - 1], lines, more);
    }
  }

  /** Go's map iteration takes the groups in any order. */
  method Schedule(book: Book, items: array<Job>, clock: Job -> int, ghost o: Oracle)
    returns (writes: seq<Write>, crashed: bool, ghost order: seq<Text>, ghost lines: map<Text, seq<Job>>)
    requires Answers(book, o)
    modifies items
    ensures Ticked(book, o, clock, old(items[..]), order, lines, writes)
    ensures if crashed then Stopped(book, o, Eligible(book, old(items[..])), lines)
            else Whole(book, old(items[..]), lines)
  {
    var len := Keep(items, IsPending);
    var rejections, kept;
    kept, rejections := Winnow(book, items, len, clock, o);
    var jobs := items[..kept];
    assert jobs == Eligible(book, old(items[..]));
    var groups := GroupJobs(jobs);
    var admissions;
    admissions, crashed, order, lines := PassEach(book, jobs, groups, o);
    writes := rejections + admissions;
  }

  /** One more group has had its pass. */
  lemma PassedNext(book: Book, o: Oracle, jobs: seq<Job>, order: seq<Text>, lines: map<Text, seq<Job>>,
                   id: Text, line: seq<Job>)
    requires Lined(jobs, order, lines) && id !in lines
    requires OfGroup(jobs, id) != [] && LineOf(line, OfGroup(jobs, id))
    requires GroupFold(book, o, id, line).exit != Crashed && NoneCrashes(book, o, lines)
    ensures Lined(jobs, order + [id], lines[id := line]) && NoneCrashes(book, o, lines[id := line])
  {
    var more := lines[id := line];
    forall i ensures !Crashes(book, o, more, i) {
      assert !Crashes(book, o, lines, i);
    }
  }

  method PassEach(book: Book, ghost jobs: seq<Job>, groups: map<Text, seq<Job>>, ghost o: Oracle)
    returns (writes: seq<Write>, crashed: bool, ghost order: seq<Text>, ghost lines: map<Text, seq<Job>>)
    requires Answers(book, o) && Grouped(jobs, groups)
    requires forall j :: j in jobs ==> IsPending(j)
    ensures Lined(jobs, order, lines) && NoneCrashes(book, o, lines)
    ensures writes == AllAdmissions(book, o, order, lines)
    ensures if crashed then Stopped(book, o, jobs, lines)
            else forall id :: id in groups ==> id in lines
  {
    writes, crashed, order, lines := [], false, [], map[];
    var ids := groups.Keys;
    while ids != {}
      invariant forall id :: id in ids ==> id in groups && id !in lines
      invariant forall id :: id in groups ==> id in ids || id in lines
      invariant Lined(jobs, order, lines) && NoneCrashes(book, o, lines)
      invariant !crashed && writes == AllAdmissions(book, o, order, lines)
      decreases |ids|
    {
      var id :| id in ids;
      ids := ids - {id};
      var line, more;
      line, more, crashed := GroupPass(book, groups[id], id, o);
      if crashed {
        assert StoppedAt(book, o, jobs, lines, id, line);
        return;
      }
      PassedNext(book, o, jobs, order, lines, id, line);
      AllAdmissionsNext(book, o, order, lines, id, line);
      order, lines := order + [id], lines[id := line];
      writes := writes + more;
    }
  }
}
