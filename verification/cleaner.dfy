/**
 * PHJobCleaner in ee/controllers/phjob_cleaner.go: deletes final jobs that are past their time
 * to live, and then the oldest ones above a limit.
 */
module Cleaner {
  import opened Prelude
  import opened Jobs
  import opened Lists
  import opened Protocol

  predicate IsFinal(j: Job) {
    Final(j.status.phase)
  }

  /** How the Delete call for a job goes, and when the loop looks at the job. */
  datatype Luck = Luck(fails: Job -> bool, clock: Job -> int)

  predicate Overdue(j: Job, ttl: int, luck: Luck) {
    j.status.finishTime.Some? && luck.clock(j) > j.status.finishTime.value + Seconds(ttl)
  }

  /** The first loop keeps a job that is not overdue; one without a finish time is dropped. */
  predicate Stays(j: Job, ttl: int, luck: Luck) {
    j.status.finishTime.Some? && !Overdue(j, ttl, luck)
  }

  function OverdueBy(ttl: int, luck: Luck): Job -> bool {
    (j: Job) => Overdue(j, ttl, luck)
  }

  function StaysBy(ttl: int, luck: Luck): Job -> bool {
    (j: Job) => Stays(j, ttl, luck)
  }

  /** The jobs for which Delete is called by the first loop. */
  function Expired(finals: seq<Job>, ttl: int, luck: Luck): seq<Job> {
    if ttl == 0 then [] else Filter(finals, OverdueBy(ttl, luck))
  }

  /** The jobs that the limit is applied to. */
  function Remaining(finals: seq<Job>, ttl: int, luck: Luck): seq<Job> {
    if ttl == 0 then finals else Filter(finals, StaysBy(ttl, luck))
  }

  /** How many jobs the second loop sets out to delete, in int32 arithmetic. */
  function Surplus(len: nat, limit: int): int {
    if limit != 0 && Wrap32(len) > limit then Wrap32(Wrap32(len) - limit) else 0
  }

  /**
   * What a run has done: `line` are the remaining jobs, oldest first if there were too many;
   * Delete was called for the expired jobs and then for the first of the line. The loop runs
   * past the end of the line, and panics, if the limit is below zero.
   */
  ghost predicate Cleaned(items: seq<Job>, ttl: int, limit: int, luck: Luck, line: seq<Job>,
                          tried: seq<Job>, panicked: bool) {
    var finals := Filter(items, IsFinal);
    var surplus := Surplus(|line|, limit);
    && multiset(line) == multiset(Remaining(finals, ttl, luck))
    && (surplus > 0 ==> Sorted(line, CreatedAt))
    && (panicked <==> surplus > |line|)
    && tried == Expired(finals, ttl, luck)
                + line[..if surplus < 0 then 0 else if panicked then |line| else surplus]
  }

  /** The calls that go through, among those made. */
  function GoneThrough(tried: seq<Job>, luck: Luck): seq<Job> {
    if tried == [] then []
    else
      var n := |tried| - 1;
      GoneThrough(tried[..n], luck) + if luck.fails(tried[n]) then [] else [tried[n]]
  }

  class PHJobCleaner {
    const jobTtlSeconds: int
    const jobLimit: int                  // an int32
    var deleted: seq<Job>
    ghost var tried: seq<Job>            // the calls to Delete

    constructor (ttl: int, limit: int)
      ensures jobTtlSeconds == ttl && jobLimit == limit && deleted == tried == []
    {
      jobTtlSeconds, jobLimit, deleted, tried := ttl, limit, [], [];
    }

    ghost predicate Valid(luck: Luck)
      reads this
    {
      deleted == GoneThrough(tried, luck)
    }

    method DeletePhJob(phJob: Job, luck: Luck) returns (err: bool)
      requires Valid(luck)
      modifies this
      ensures Valid(luck) && tried == old(tried) + [phJob] && err == luck.fails(phJob)
    {
      tried := tried + [phJob];
      assert tried[..|tried| - 1] == old(tried);
      err := luck.fails(phJob);
      if !err {
        deleted := deleted + [phJob];
      }
    }

    /** A turn of the first loop: the job is ignored, deleted or kept. */
    method Judge(phJob: Job, luck: Luck, ghost was: seq<Job>, ghost n: nat) returns (stay: bool)
      requires Valid(luck) && n < |was| && phJob == was[n]
      requires tried == Filter(was[..n], OverdueBy(jobTtlSeconds, luck))
      modifies this
      ensures Valid(luck) && stay == Stays(phJob, jobTtlSeconds, luck)
      ensures tried == Filter(was[..n + 1], OverdueBy(jobTtlSeconds, luck))
    {
      FilterNext(was, n, OverdueBy(jobTtlSeconds, luck));
      stay := false;
      if phJob.status.finishTime.Some? {
        if luck.clock(phJob) > phJob.status.finishTime.value + Seconds(jobTtlSeconds) {
          var err := DeletePhJob(phJob, luck);
        } else {
          stay := true;
        }
      }
    }

    /** A turn of the first loop, in place. */
    method ExpireNext(items: array<Job>, ghost was: seq<Job>, kept: nat, n: nat, luck: Luck) returns (next: nat)
      requires Valid(luck) && n < |was| && Compacted(items, was, kept, n, StaysBy(jobTtlSeconds, luck))
      requires tried == Filter(was[..n], OverdueBy(jobTtlSeconds, luck))
      modifies this, items
      ensures Valid(luck) && Compacted(items, was, next, n + 1, StaysBy(jobTtlSeconds, luck))
      ensures tried == Filter(was[..n + 1], OverdueBy(jobTtlSeconds, luck))
    {
      var stay := Judge(items[n], luck, was, n);
      next := KeepNext(items, was, kept, n, StaysBy(jobTtlSeconds, luck), stay);
    }

    /** The first loop, over the first `len` items. */
    method Expire(items: array<Job>, len: nat, luck: Luck) returns (kept: nat)
      requires len <= items.Length && jobTtlSeconds != 0 && Valid(luck) && tried == []
      modifies this, items
      ensures Valid(luck) && kept <= len
      ensures items[..kept] == Remaining(old(items[..len]), jobTtlSeconds, luck)
      ensures tried == Expired(old(items[..len]), jobTtlSeconds, luck)
    {
      ghost var was := items[..len];
      ghost var stays := StaysBy(jobTtlSeconds, luck);
      kept := 0;
      for n := 0 to len
        invariant Valid(luck) && Compacted(items, was, kept, n, stays)
        invariant tried == Filter(was[..n], OverdueBy(jobTtlSeconds, luck))
      {
        kept := ExpireNext(items, was, kept, n, luck);
      }
      assert was[..len] == was;
    }

    method Clean(items: array<Job>, luck: Luck) returns (panicked: bool, ghost line: seq<Job>)
      requires deleted == tried == []
      modifies this, items
      ensures Valid(luck)
      ensures Cleaned(old(items[..]), jobTtlSeconds, jobLimit, luck, line, tried, panicked)
    {
      var len := Keep(items, IsFinal);
      if jobTtlSeconds != 0 {
        len := Expire(items, len, luck);
      }
      panicked, line := Trim(items[..len], luck);
    }

    /** The second part: the oldest jobs above the limit. */
    method Trim(phJobs: seq<Job>, luck: Luck) returns (panicked: bool, ghost line: seq<Job>)
      requires Valid(luck)
      modifies this
      ensures Valid(luck) && multiset(line) == multiset(phJobs)
      ensures var surplus := Surplus(|line|, jobLimit);
              && (surplus > 0 ==> Sorted(line, CreatedAt))
              && (panicked <==> surplus > |line|)
              && tried == old(tried)
                          + line[..if surplus < 0 then 0 else if panicked then |line| else surplus]
    {
      panicked, line := false, phJobs;
      if jobLimit != 0 && Wrap32(|phJobs|) > jobLimit {
        var sorted := new Job[|phJobs|](i requires 0 <= i < |phJobs| => phJobs[i]);
        assert sorted[..] == phJobs;
        SortBy(sorted, CreatedAt);
        line := sorted[..];
        panicked := DeleteFirst(sorted, Wrap32(Wrap32(|phJobs|) - jobLimit), luck);
      }
    }

    /** The second loop: it deletes the first jobs of the list, and panics past its end. */
    method DeleteFirst(sorted: array<Job>, countOfDelete: int, luck: Luck) returns (panicked: bool)
      requires Valid(luck)
      modifies this
      ensures Valid(luck) && (panicked <==> countOfDelete > sorted.Length)
      ensures tried == old(tried)
                        + sorted[..if countOfDelete < 0 then 0
                                   else if panicked then sorted.Length else countOfDelete]
    {
      panicked := false;
      var i := 0;
      while i < countOfDelete && !panicked
        invariant 0 <= i <= sorted.Length && tried == old(tried) + sorted[..i]
        invariant Valid(luck) && (i <= countOfDelete || i == 0)
        invariant panicked ==> i == sorted.Length && i < countOfDelete
        decreases countOfDelete - i, !panicked
      {
        if i < sorted.Length {
          var err := DeletePhJob(sorted[i], luck);
          i := i + 1;
        } else {
          panicked := true;
        }
      }
    }
  }

  // ---- what a run guarantees ----

  /** No final job lacks its finish time: so it is in every reachable state. */
  predicate Timed(finals: seq<Job>) {
    forall j :: j in finals ==> j.status.finishTime.Some?
  }

  lemma TtlPartition(finals: seq<Job>, ttl: int, luck: Luck)
    requires Timed(finals)
    ensures multiset(finals) == multiset(Expired(finals, ttl, luck)) + multiset(Remaining(finals, ttl, luck))
  {
    if ttl != 0 {
      var p, q := OverdueBy(ttl, luck), StaysBy(ttl, luck);
      forall x ensures multiset(finals)[x] == multiset(Filter(finals, p))[x] + multiset(Filter(finals, q))[x] {
        FilterCount(finals, p, x);
        FilterCount(finals, q, x);
        assert x in multiset(finals) ==> x in finals;
      }
    }
  }

  /**
   * The second loop panics exactly when the limit is negative and len - limit fits an int32;
   * by then every remaining job has been deleted. Below that, it deletes nothing.
   */
  lemma PanicsExactly(items: seq<Job>, ttl: int, limit: int, luck: Luck, line: seq<Job>,
                      tried: seq<Job>, panicked: bool)
    requires Cleaned(items, ttl, limit, luck, line, tried, panicked)
    requires |line| <= MAX_INT32 && -MAX_INT32 - 1 <= limit <= MAX_INT32
    ensures panicked <==> limit < 0 && |line| - limit <= MAX_INT32
    ensures limit < 0 ==>
              tried == Expired(Filter(items, IsFinal), ttl, luck) + if panicked then line else []
  {
    SurplusPanics(|line|, limit);
    assert line[..|line|] == line && line[..0] == [];
  }

  lemma SurplusPanics(len: nat, limit: int)
    requires len <= MAX_INT32 && -MAX_INT32 - 1 <= limit <= MAX_INT32
    ensures Surplus(len, limit) > len <==> limit < 0 && len - limit <= MAX_INT32
    ensures limit < 0 && Surplus(len, limit) <= len ==> Surplus(len, limit) <= 0
  {
  }

  /** The jobs that are left of the final ones. */
  ghost function Survivors(items: seq<Job>, deleted: seq<Job>): multiset<Job> {
    multiset(Filter(items, IsFinal)) - multiset(deleted)
  }

  /** Where a sorted line is cut, nothing before the cut is newer than anything after it. */
  lemma CutLine(line: seq<Job>, n: nat)
    requires n <= |line| && (n > 0 ==> Sorted(line, CreatedAt))
    ensures multiset(line) == multiset(line[..n]) + multiset(line[n..])
    ensures forall i, j :: 0 <= i < n && j in multiset(line[n..]) ==> line[i].created <= j.created
  {
    assert line == line[..n] + line[n..];
    forall i, j | 0 <= i < n && j in multiset(line[n..]) ensures line[i].created <= j.created {
      var k :| 0 <= k < |line[n..]| && line[n..][k] == j;
      assert CreatedAt(line[i]) <= CreatedAt(line[n + k]);
    }
  }

  lemma RemainingNotOverdue(finals: seq<Job>, ttl: int, luck: Luck, line: seq<Job>, j: Job)
    requires multiset(line) == multiset(Remaining(finals, ttl, luck)) && j in multiset(line)
    ensures j in finals && (ttl != 0 ==> !Overdue(j, ttl, luck))
  {
    assert j in multiset(Remaining(finals, ttl, luck));
    assert j in Remaining(finals, ttl, luck);
  }

  lemma {:induction false} AllWork(tried: seq<Job>, luck: Luck)
    requires forall j :: j in tried ==> !luck.fails(j)
    ensures GoneThrough(tried, luck) == tried
  {
    if tried != [] {
      var n := |tried| - 1;
      assert tried[n] in tried;
      AllWork(tried[..n], luck);
      assert tried == tried[..n] + [tried[n]];
    }
  }

  lemma SurvivorsAre(items: seq<Job>, ttl: int, limit: int, luck: Luck, line: seq<Job>,
                     tried: seq<Job>, panicked: bool)
    requires Cleaned(items, ttl, limit, luck, line, tried, panicked)
    requires |line| <= MAX_INT32 && 0 <= limit <= MAX_INT32
    requires Timed(Filter(items, IsFinal))
    ensures var n := Surplus(|line|, limit);
            && 0 <= n <= |line| && (limit != 0 ==> |line| - n <= limit)
            && tried == Expired(Filter(items, IsFinal), ttl, luck) + line[..n]
            && Survivors(items, tried) == multiset(line[n..])
            && multiset(Filter(items, IsFinal)) == multiset(tried) + multiset(line[n..])
  {
    var n, finals := Surplus(|line|, limit), Filter(items, IsFinal);
    SurplusFits(|line|, limit);
    var expired := Expired(finals, ttl, luck);
    assert tried == expired + line[..n];
    TtlPartition(finals, ttl, luck);
    CutLine(line, n);
    Regroup(multiset(finals), multiset(expired), multiset(line[..n]), multiset(line[n..]));
  }

  lemma SurplusFits(len: nat, limit: int)
    requires len <= MAX_INT32 && 0 <= limit <= MAX_INT32
    ensures 0 <= Surplus(len, limit) <= len && (limit != 0 ==> len - Surplus(len, limit) <= limit)
  {
  }

  lemma Regroup(all: multiset<Job>, a: multiset<Job>, b: multiset<Job>, c: multiset<Job>)
    requires all == a + (b + c)
    ensures all == a + b + c && all - (a + b) == c
  {
  }

  /** A run without delete errors, with a limit that is not negative. */
  ghost predicate NoneFails(items: seq<Job>, ttl: int, limit: int, luck: Luck, line: seq<Job>,
                         tried: seq<Job>, panicked: bool, deleted: seq<Job>) {
    && Cleaned(items, ttl, limit, luck, line, tried, panicked)
    && deleted == GoneThrough(tried, luck) && (forall j :: j in tried ==> !luck.fails(j))
    && |line| <= MAX_INT32 && 0 <= limit <= MAX_INT32 && Timed(Filter(items, IsFinal))
  }

  lemma SurvivorsWhenNoneFails(items: seq<Job>, ttl: int, limit: int, luck: Luck, line: seq<Job>,
                        tried: seq<Job>, panicked: bool, deleted: seq<Job>)
    requires NoneFails(items, ttl, limit, luck, line, tried, panicked, deleted)
    ensures deleted == tried
    ensures Survivors(items, deleted) == multiset(line[Surplus(|line|, limit)..])
  {
    SurvivorsAre(items, ttl, limit, luck, line, tried, panicked);
    AllWork(tried, luck);
  }

  /**
   * The final jobs are those deleted and those that survive; and no more than the limit
   * survive, unless it is zero, in which case only expired jobs are deleted.
   */
  lemma FinalsPartition(items: seq<Job>, ttl: int, limit: int, luck: Luck, line: seq<Job>,
                        tried: seq<Job>, panicked: bool, deleted: seq<Job>)
    requires NoneFails(items, ttl, limit, luck, line, tried, panicked, deleted)
    ensures !panicked
    ensures multiset(Filter(items, IsFinal)) == multiset(deleted) + Survivors(items, deleted)
    ensures if limit == 0 then deleted == Expired(Filter(items, IsFinal), ttl, luck)
            else |Survivors(items, deleted)| <= limit
  {
    SurvivorsAre(items, ttl, limit, luck, line, tried, panicked);
    SurvivorsWhenNoneFails(items, ttl, limit, luck, line, tried, panicked, deleted);
  }

  /**
   * How many: beyond the expired jobs, Delete is called for those above the limit and for no
   * other, failures or not.
   */
  lemma TriedExactly(items: seq<Job>, ttl: int, limit: int, luck: Luck, line: seq<Job>,
                     tried: seq<Job>, panicked: bool)
    requires Cleaned(items, ttl, limit, luck, line, tried, panicked)
    requires |line| <= MAX_INT32 && 0 <= limit <= MAX_INT32
    ensures |tried| == |Expired(Filter(items, IsFinal), ttl, luck)|
                       + if limit > 0 && |line| > limit then |line| - limit else 0
    ensures |line| == |Remaining(Filter(items, IsFinal), ttl, luck)|
  {
    SameSize(line, Remaining(Filter(items, IsFinal), ttl, luck));
  }

  lemma SameSize(a: seq<Job>, b: seq<Job>)
    requires multiset(a) == multiset(b)
    ensures |a| == |b|
  {
    assert |multiset(a)| == |multiset(b)|;
  }

  /** So with a limit above zero, as many jobs survive as the limit allows. */
  lemma SurvivorsExactly(items: seq<Job>, ttl: int, limit: int, luck: Luck, line: seq<Job>,
                         tried: seq<Job>, panicked: bool, deleted: seq<Job>)
    requires NoneFails(items, ttl, limit, luck, line, tried, panicked, deleted)
    ensures var rest := |Remaining(Filter(items, IsFinal), ttl, luck)|;
            |Survivors(items, deleted)| == if limit > 0 && rest > limit then limit else rest
  {
    TriedExactly(items, ttl, limit, luck, line, tried, panicked);
    SurvivorsAre(items, ttl, limit, luck, line, tried, panicked);
    SurvivorsWhenNoneFails(items, ttl, limit, luck, line, tried, panicked, deleted);
  }

  /** It is final, and finished longer ago than the time to live, in seconds. */
  predicate PastTtl(j: Job, ttl: int, now: int) {
    && j.status.phase in {Succeeded, Failed, Unknown, Cancelled} && ttl != 0 && j.status.finishTime.Some?
    && now > j.status.finishTime.value + Seconds(ttl)
  }

  /**
   * The expired jobs are exactly the final ones that are past their time to live; what remains
   * are the other final ones, less those without a finish time if there is a time to live.
   */
  lemma ExpiredExactly(items: seq<Job>, ttl: int, luck: Luck, j: Job)
    ensures var past := PastTtl(j, ttl, luck.clock(j));
            var rests := j.status.phase in {Succeeded, Failed, Unknown, Cancelled} && !past
                         && (ttl == 0 || j.status.finishTime.Some?);
            && multiset(Expired(Filter(items, IsFinal), ttl, luck))[j] == (if past then multiset(items)[j] else 0)
            && multiset(Remaining(Filter(items, IsFinal), ttl, luck))[j] == (if rests then multiset(items)[j] else 0)
  {
    FilterCount(items, IsFinal, j);
    if ttl != 0 {
      FilterCount(Filter(items, IsFinal), OverdueBy(ttl, luck), j);
      FilterCount(Filter(items, IsFinal), StaysBy(ttl, luck), j);
    }
  }

  /** Unless the time to live is zero, no survivor was past it when it was looked at. */
  lemma NoSurvivorOverdue(items: seq<Job>, ttl: int, limit: int, luck: Luck, line: seq<Job>,
                          tried: seq<Job>, panicked: bool, deleted: seq<Job>)
    requires NoneFails(items, ttl, limit, luck, line, tried, panicked, deleted) && ttl != 0
    ensures forall j :: j in Survivors(items, deleted) ==> !Overdue(j, ttl, luck)
  {
    SurvivorsWhenNoneFails(items, ttl, limit, luck, line, tried, panicked, deleted);
    var n := Surplus(|line|, limit);
    forall j | j in multiset(line[n..]) ensures !Overdue(j, ttl, luck) {
      assert j in line[n..];
      RemainingNotOverdue(Filter(items, IsFinal), ttl, luck, line, j);
    }
  }

  /** Each job deleted for the limit is no newer than each survivor. */
  lemma OldestGo(items: seq<Job>, ttl: int, limit: int, luck: Luck, line: seq<Job>,
                 tried: seq<Job>, panicked: bool, deleted: seq<Job>, k: nat, j: Job)
    requires NoneFails(items, ttl, limit, luck, line, tried, panicked, deleted)
    requires |Expired(Filter(items, IsFinal), ttl, luck)| <= k < |deleted|
    requires j in Survivors(items, deleted)
    ensures deleted[k].created <= j.created
  {
    SurvivorsAre(items, ttl, limit, luck, line, tried, panicked);
    SurvivorsWhenNoneFails(items, ttl, limit, luck, line, tried, panicked, deleted);
    var expired, n := Expired(Filter(items, IsFinal), ttl, luck), Surplus(|line|, limit);
    CutLine(line, n);
    assert deleted == expired + line[..n];
    assert deleted[k] == line[..n][k - |expired|];
  }

  /** Every call to Delete is one of the cleaner's steps in the PhJob machine. */
  lemma DeletesAreSteps(world: World, items: seq<Job>, ttl: int, limit: int, luck: Luck,
                        line: seq<Job>, tried: seq<Job>, panicked: bool, j: Job)
    requires Cleaned(items, ttl, limit, luck, line, tried, panicked) && j in tried
    requires forall k :: k in items && IsFinal(k) ==> k.name in world.doomed && world.doomed[k.name] == k
    ensures j in items && IsFinal(j)
    ensures Apply(world, CleanerDeletes(j.name)) == world.(jobs := world.jobs - {j.name})
  {
    var finals := Filter(items, IsFinal);
    if j !in Expired(finals, ttl, luck) {
      assert j in line;
      RemainingNotOverdue(finals, ttl, luck, line, j);
    }
  }
}
