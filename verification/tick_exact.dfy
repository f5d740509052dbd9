/**
 * What a tick writes, exactly: which jobs it fails and with what status, and which it admits, in
 * terms of what its lookups return.
 */
module TickExact {
  import opened Prelude
  import opened Escapism
  import opened Quota
  import opened Jobs
  import opened Admission
  import opened AdmissionExact
  import opened Lists
  import opened Tick
  import TickLaws

  // ---- what the lookups say of a job ----

  /** All lookups and conversions that validation makes succeed. */
  predicate Answered(book: Book, s: Spec) {
    && book.groups(s.groupId).Ok? && book.instances(s.instance).Ok?
    && !book.instances(s.instance).value.memory.Malformed?
    && !book.groups(s.groupId).value.project.memory.Malformed?
    && !book.groups(s.groupId).value.user.memory.Malformed?
  }

  /** More is asked than is allowed; a negative number is no number. */
  predicate NumberOver(request: int, limit: int) {
    request >= 0 && limit >= 0 && request > limit
  }

  predicate LimitsOver(request: Limits, limit: Limits) {
    || NumberOver(request.cpu, limit.cpu) || NumberOver(request.gpu, limit.gpu)
    || (request.memory.Parsed? && limit.memory.Parsed? && request.memory.quantity > limit.memory.quantity)
  }

  /** The instance type asks for more than the whole quota of the group, or of one of its users. */
  predicate TooBig(book: Book, s: Spec)
    requires Answered(book, s)
  {
    var request, g := book.instances(s.instance).value, book.groups(s.groupId).value;
    LimitsOver(request, g.project) || LimitsOver(request, g.user)
  }

  lemma FitsConverted(request: Limits, limit: Limits)
    requires !request.memory.Malformed? && !limit.memory.Malformed?
    ensures Converted(request).Ok? && Converted(limit).Ok?
    ensures Fits(Converted(request).value, Converted(limit).value) <==> !LimitsOver(request, limit)
  {
  }

  /** The verdict, from the lookups: only a job that could never run is failed. */
  lemma VerdictExactly(book: Book, s: Spec)
    ensures VerdictOn(book, s) == Invalid(PodCreationFailed) <==> book.groups(s.groupId).Err?
    ensures VerdictOn(book, s) == Invalid(OverQuota) <==> Answered(book, s) && TooBig(book, s)
    ensures VerdictOn(book, s) == Kept <==> Answered(book, s) && !TooBig(book, s)
    ensures VerdictOn(book, s).Invalid? ==> VerdictOn(book, s).reason in {PodCreationFailed, OverQuota}
  {
    if Answered(book, s) {
      var request, g := book.instances(s.instance).value, book.groups(s.groupId).value;
      FitsConverted(request, g.project);
      FitsConverted(request, g.user);
    }
  }

  // ---- which jobs are failed ----

  /** The job fails at that time, for that reason. */
  predicate FailsWith(x: Write, reason: Reason, now: int) {
    && x.status.phase == Failed && x.status.reason == reason && x.status.finishTime == Some(now)
    && x.status.startTime == x.job.status.startTime && x.status.podName == x.job.status.podName
    && x.status.requeued == x.job.status.requeued
  }

  lemma {:induction false} RejectionsExactly(book: Book, clock: Job -> int, jobs: seq<Job>, x: Write)
    ensures x in Rejections(book, clock, jobs)
            <==> x.job in jobs && VerdictOn(book, x.job.spec).Invalid?
                 && FailsWith(x, VerdictOn(book, x.job.spec).reason, clock(x.job))
  {
    if jobs != [] {
      var n := |jobs| - 1;
      RejectionsExactly(book, clock, jobs[..n], x);
      assert x.job in jobs <==> x.job in jobs[..n] || x.job == jobs[n] by {
        assert jobs == jobs[..n] + [jobs[n]];
      }
    }
  }

  lemma AdmissionsNotFailed(book: Book, o: Oracle, jobs: seq<Job>, order: seq<Text>,
                            lines: map<Text, seq<Job>>, x: Write)
    requires Lined(jobs, order, lines) && x in AllAdmissions(book, o, order, lines)
    ensures x.status.phase == Preparing
  {
    TickLaws.AllRightful(book, o, jobs, order, lines, x);
  }

  /**
   * A tick writes a job Failed exactly when it is listed, Pending, and either its group cannot
   * be looked up, or all its lookups succeed and its instance type is too big for the whole
   * quota of the group or of one user. Any other lookup error leaves the job as it is.
   */
  lemma FailedExactly(book: Book, o: Oracle, clock: Job -> int, items: seq<Job>, order: seq<Text>,
                      lines: map<Text, seq<Job>>, writes: seq<Write>, x: Write)
    requires Ticked(book, o, clock, items, order, lines, writes)
    ensures x in writes && x.status.phase == Failed
            <==> && x.job in items && x.job.status.phase == Pending
                 && ((book.groups(x.job.spec.groupId).Err? && FailsWith(x, PodCreationFailed, clock(x.job)))
                     || (Answered(book, x.job.spec) && TooBig(book, x.job.spec)
                         && FailsWith(x, OverQuota, clock(x.job))))
  {
    VerdictExactly(book, x.job.spec);
    RejectionsExactly(book, clock, Filter(items, IsPending), x);
    if x in AllAdmissions(book, o, order, lines) {
      AdmissionsNotFailed(book, o, Eligible(book, items), order, lines, x);
    }
  }

  // ---- which jobs are admitted ----

  lemma {:induction false} AdmissionsExactly(line: seq<Job>, flags: seq<bool>, x: Write)
    requires |line| == |flags|
    ensures x in Admissions(line, flags)
            <==> x.status == x.job.status.(phase := Preparing)
                 && exists k :: 0 <= k < |line| && line[k] == x.job && flags[k]
  {
    if line != [] {
      var n := |line| - 1;
      AdmissionsExactly(line[..n], flags[..n], x);
      TickLaws.AdmissionsNext(line, flags);
      if k :| 0 <= k < |line| && line[k] == x.job && flags[k] {
        assert k < n ==> line[..n][k] == x.job && flags[..n][k];
      }
      if k :| 0 <= k < n && line[..n][k] == x.job && flags[..n][k] {
        assert line[k] == x.job && flags[k];
      }
    }
  }

  /** The group that an admission comes from. */
  lemma {:induction false} GroupOf(book: Book, o: Oracle, order: seq<Text>, lines: map<Text, seq<Job>>, x: Write)
    returns (id: Text)
    requires forall i :: i in order ==> i in lines
    requires x in AllAdmissions(book, o, order, lines)
    ensures id in order && x in TickLaws.GroupAdmissions(book, o, lines, id)
  {
    var n := |order| - 1;
    id := order[n];
    if x in AllAdmissions(book, o, order[..n], lines) {
      id := GroupOf(book, o, order[..n], lines, x);
    }
  }

  /** The fates of a group's line, from what the group and its users may still take. */
  ghost function FatesIn(book: Book, o: Oracle, id: Text, line: seq<Job>): (fates: seq<Fate>)
    requires book.GroupLeft(id).Ok?
    ensures |fates| == |line|
  {
    FatesOf(o, book.GroupLeft(id).value, map[], id, AsksOf(line), GroupFold(book, o, id, line).flags)
  }

  lemma LineOfOne(book: Book, items: seq<Job>, id: Text, line: seq<Job>)
    requires LineOf(line, OfGroup(Eligible(book, items), id))
    ensures forall j :: j in line ==> j.spec.groupId == id
    ensures forall i :: 0 <= i < |AsksOf(line)| ==> AsksOf(line)[i].groupId == id
  {
    forall j | j in line ensures j.spec.groupId == id {
      assert j in multiset(line);
      assert j in OfGroup(Eligible(book, items), id);
    }
    forall i | 0 <= i < |line| ensures AsksOf(line)[i].groupId == id {
      assert line[i] in line;
    }
  }

  lemma PassExactly(book: Book, o: Oracle, items: seq<Job>, id: Text, line: seq<Job>, k: nat)
    requires LineOf(line, OfGroup(Eligible(book, items), id)) && k < |line|
    requires GroupFold(book, o, id, line).exit != Crashed
    ensures GroupFold(book, o, id, line).flags[k]
            <==> book.GroupLeft(id).Ok? && Comes(FatesIn(book, o, id, line), k)
                 && FatesIn(book, o, id, line)[k].Granted?
  {
    if book.GroupLeft(id).Ok? {
      var left, asks, r := book.GroupLeft(id).value, AsksOf(line), GroupFold(book, o, id, line);
      LineOfOne(book, items, id, line);
      GreedyExactly(o, left, map[], asks, id);
      assert RuledAt(FatesOf(o, left, map[], id, asks, r.flags), r.flags, r.exit, k);
    }
  }

  /** The job is in that line, its turn comes, and it is granted. */
  ghost predicate GrantedIn(book: Book, o: Oracle, lines: map<Text, seq<Job>>, id: Text, j: Job) {
    && id in lines && book.GroupLeft(id).Ok?
    && exists k :: 0 <= k < |lines[id]| && lines[id][k] == j && Comes(FatesIn(book, o, id, lines[id]), k)
                   && FatesIn(book, o, id, lines[id])[k].Granted?
  }

  lemma GroupExactly(book: Book, o: Oracle, items: seq<Job>, id: Text, lines: map<Text, seq<Job>>, x: Write)
    requires id in lines && LineOf(lines[id], OfGroup(Eligible(book, items), id))
    requires GroupFold(book, o, id, lines[id]).exit != Crashed
    ensures x in TickLaws.GroupAdmissions(book, o, lines, id)
            <==> x.status == x.job.status.(phase := Preparing) && GrantedIn(book, o, lines, id, x.job)
    ensures x in TickLaws.GroupAdmissions(book, o, lines, id) ==> x.job.spec.groupId == id
  {
    var line := lines[id];
    AdmissionsExactly(line, GroupFold(book, o, id, line).flags, x);
    LineOfOne(book, items, id, line);
    forall k | 0 <= k < |line|
      ensures GroupFold(book, o, id, line).flags[k]
              <==> book.GroupLeft(id).Ok? && Comes(FatesIn(book, o, id, line), k)
                   && FatesIn(book, o, id, line)[k].Granted?
    {
      PassExactly(book, o, items, id, line, k);
    }
  }

  lemma AllExactly(book: Book, o: Oracle, items: seq<Job>, order: seq<Text>, lines: map<Text, seq<Job>>,
                      x: Write)
    requires Lined(Eligible(book, items), order, lines) && NoneCrashes(book, o, lines)
    ensures x in AllAdmissions(book, o, order, lines)
            <==> x.status == x.job.status.(phase := Preparing)
                 && GrantedIn(book, o, lines, x.job.spec.groupId, x.job)
  {
    var mine := x.job.spec.groupId;
    if x in AllAdmissions(book, o, order, lines) {
      var id := GroupOf(book, o, order, lines, x);
      assert !Crashes(book, o, lines, id);
      GroupExactly(book, o, items, id, lines, x);
    }
    if mine in lines {
      assert !Crashes(book, o, lines, mine);
      GroupExactly(book, o, items, mine, lines, x);
      if x in TickLaws.GroupAdmissions(book, o, lines, mine) {
        TickLaws.GroupWritten(book, o, order, lines, mine, x);
      }
    }
  }

  /**
   * A tick writes a job Preparing exactly when it is in the line of its group, its turn comes
   * there, and it is granted.
   */
  lemma AdmittedExactly(book: Book, o: Oracle, clock: Job -> int, items: seq<Job>, order: seq<Text>,
                        lines: map<Text, seq<Job>>, writes: seq<Write>, x: Write)
    requires Ticked(book, o, clock, items, order, lines, writes)
    ensures x in writes && x.status.phase == Preparing
            <==> x.status == x.job.status.(phase := Preparing)
                 && GrantedIn(book, o, lines, x.job.spec.groupId, x.job)
  {
    RejectionsExactly(book, clock, Filter(items, IsPending), x);
    AllExactly(book, o, items, order, lines, x);
  }

  /**
   * The jobs that are lined up are those listed Pending whose lookups succeed and who are not
   * too big; a tick that comes to its end lines up the groups of all of them.
   */
  lemma LinedExactly(book: Book, o: Oracle, clock: Job -> int, items: seq<Job>, order: seq<Text>,
                     lines: map<Text, seq<Job>>, writes: seq<Write>, j: Job)
    requires Ticked(book, o, clock, items, order, lines, writes)
    ensures var id := j.spec.groupId;
            var listed := j in items && j.status.phase == Pending && Answered(book, j.spec) && !TooBig(book, j.spec);
            && (id in lines ==> (j in lines[id] <==> listed))
            && (listed && Whole(book, items, lines) ==> id in lines)
  {
    var id := j.spec.groupId;
    VerdictExactly(book, j.spec);
    var mine := OfGroup(Eligible(book, items), id);
    assert j in mine <==> j in multiset(mine);
    if id in lines {
      assert j in lines[id] <==> j in multiset(lines[id]);
    }
  }
}
