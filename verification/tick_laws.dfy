/** What a tick of the scheduler guarantees, whatever order the groups are taken in. */
module TickLaws {
  import opened Prelude
  import opened Escapism
  import opened Pods
  import opened Quota
  import opened Jobs
  import opened Admission
  import opened AdmissionCrash
  import opened AdmissionLaws
  import opened Lists
  import opened Tick
  import opened Protocol
  import opened ProtocolSafety

  // ---- grouping is a partition ----

  /** A job is in its own group's list as often as it was listed, and in no other. */
  lemma GroupingPartitions(jobs: seq<Job>, groups: map<Text, seq<Job>>, j: Job)
    requires Grouped(jobs, groups)
    ensures j in jobs ==> j.spec.groupId in groups
    ensures forall id :: id in groups ==>
              multiset(groups[id])[j] == if id == j.spec.groupId then multiset(jobs)[j] else 0
  {
    forall id | id in groups
      ensures multiset(groups[id])[j] == if id == j.spec.groupId then multiset(jobs)[j] else 0
    {
      FilterCount(jobs, (k: Job) => k.spec.groupId == id, j);
    }
    if j in jobs {
      assert j in OfGroup(jobs, j.spec.groupId);
    }
  }

  // ---- the order of the groups does not matter ----

  /** What one group is admitted. */
  ghost function GroupAdmissions(book: Book, o: Oracle, lines: map<Text, seq<Job>>, id: Text): seq<Write>
    requires id in lines
  {
    Admissions(lines[id], GroupFold(book, o, id, lines[id]).flags)
  }

  /** The same as a multiset; nothing for a group that has had no pass. */
  ghost function TallyOf(book: Book, o: Oracle, lines: map<Text, seq<Job>>): Text -> multiset<Write> {
    id => if id in lines then multiset(GroupAdmissions(book, o, lines, id)) else multiset{}
  }

  /** What the groups in `order` come to. */
  ghost function Tally(one: Text -> multiset<Write>, order: seq<Text>): multiset<Write> {
    if order == [] then multiset{}
    else Tally(one, order[..|order| - 1]) + one(order[|order| - 1])
  }

  lemma {:induction false} Tallied(book: Book, o: Oracle, order: seq<Text>, lines: map<Text, seq<Job>>)
    requires forall id :: id in order ==> id in lines
    ensures multiset(AllAdmissions(book, o, order, lines)) == Tally(TallyOf(book, o, lines), order)
  {
    if order != [] {
      Tallied(book, o, order[..|order| - 1], lines);
    }
  }

  lemma TallyNext(one: Text -> multiset<Write>, order: seq<Text>, id: Text)
    ensures Tally(one, order + [id]) == Tally(one, order) + one(id)
  {
    assert (order + [id])[..|order|] == order;
  }

  lemma {:induction false} TakenOut(one: Text -> multiset<Write>, order: seq<Text>, k: nat)
    requires k < |order|
    ensures Tally(one, order) == Tally(one, Without(order, k)) + one(order[k])
  {
    var n := |order| - 1;
    WithoutFront(order, k);
    if k < n {
      TakenOut(one, order[..n], k);
      TallyNext(one, Without(order[..n], k), order[n]);
    }
  }

  lemma BothEmpty(a: seq<Text>, b: seq<Text>)
    requires forall id :: id in a <==> id in b
    ensures a == [] <==> b == []
  {
    if a != [] {
      assert a[0] in b;
    }
    if b != [] {
      assert b[0] in a;
    }
  }

  lemma {:induction false} TalliesCommute(one: Text -> multiset<Write>, a: seq<Text>, b: seq<Text>)
    requires NoRepeats(a) && NoRepeats(b)
    requires forall id :: id in a <==> id in b
    ensures Tally(one, a) == Tally(one, b)
  {
    if a == [] {
      BothEmpty(a, b);
    } else {
      var n := |a| - 1;
      assert a[n] in a;
      var k :| 0 <= k < |b| && b[k] == a[n];
      TakenOut(one, b, k);
      SameRest(a, b, k);
      TalliesCommute(one, a[..n], Without(b, k));
    }
  }

  /** Group passes commute: two orders of the groups admit the same jobs. */
  lemma AdmissionsCommute(book: Book, o: Oracle, lines: map<Text, seq<Job>>, a: seq<Text>, b: seq<Text>)
    requires NoRepeats(a) && NoRepeats(b)
    requires forall id :: id in a <==> id in b
    requires forall id :: id in a ==> id in lines
    ensures multiset(AllAdmissions(book, o, a, lines)) == multiset(AllAdmissions(book, o, b, lines))
  {
    Tallied(book, o, a, lines);
    Tallied(book, o, b, lines);
    TalliesCommute(TallyOf(book, o, lines), a, b);
  }

  lemma SameRest(a: seq<Text>, b: seq<Text>, k: nat)
    requires NoRepeats(a) && NoRepeats(b) && a != [] && k < |b| && b[k] == a[|a| - 1]
    requires forall id :: id in a <==> id in b
    ensures var rest := Without(b, k);
            NoRepeats(rest) && forall id :: id in a[..|a| - 1] <==> id in rest
  {
    var n, rest := |a| - 1, Without(b, k);
    forall id | id in a[..n] ensures id in rest {
      assert id in b;
      var i :| 0 <= i < |b| && b[i] == id;
      assert i != k;
      assert if i < k then rest[i] == id else rest[i - 1] == id;
    }
    forall id | id in rest ensures id in a[..n] {
      assert id in b && id != a[n];
      assert id in a;
      var i :| 0 <= i < |a| && a[i] == id;
      assert a[..n][i] == id;
    }
  }

  /** In each group, no two jobs were created at the same time. */
  ghost predicate TimesDiffer(jobs: seq<Job>) {
    forall id :: KeysDiffer(OfGroup(jobs, id), CreatedAt)
  }

  lemma OneLine(a: seq<Job>, b: seq<Job>, jobs: seq<Job>)
    requires LineOf(a, jobs) && LineOf(b, jobs) && KeysDiffer(jobs, CreatedAt)
    ensures a == b
  {
    forall x | x in a ensures x in jobs {
      assert x in multiset(a);
    }
    SortedOnce(a, b, CreatedAt);
  }

  /** What one order finishes, no order crashes on. */
  lemma WholeExcludesStopped(book: Book, o: Oracle, items: seq<Job>, a: seq<Text>, aLines: map<Text, seq<Job>>,
                             bLines: map<Text, seq<Job>>)
    requires TimesDiffer(Eligible(book, items)) && Lined(Eligible(book, items), a, aLines)
    requires NoneCrashes(book, o, aLines) && Whole(book, items, aLines)
    ensures !Stopped(book, o, Eligible(book, items), bLines)
  {
    var jobs := Eligible(book, items);
    forall id, line ensures !StoppedAt(book, o, jobs, bLines, id, line) {
      assert !Crashes(book, o, aLines, id);
      if id in aLines && LineOf(line, OfGroup(jobs, id)) {
        OneLine(aLines[id], line, OfGroup(jobs, id));
      }
    }
  }

  /** How a tick ended, after the passes in `lines`. */
  ghost predicate Ended(book: Book, o: Oracle, items: seq<Job>, lines: map<Text, seq<Job>>, crashed: bool) {
    if crashed then Stopped(book, o, Eligible(book, items), lines) else Whole(book, items, lines)
  }

  /**
   * With fixed pods, and distinct creation times inside each group: of two ticks over the same
   * list, both crash or neither does, in whatever order each goes through the map of groups,
   * and if they do not they do the same writes.
   */
  lemma OrderIndependent(book: Book, o: Oracle, clock: Job -> int, items: seq<Job>,
                         a: seq<Text>, aLines: map<Text, seq<Job>>, aWrites: seq<Write>, aCrashed: bool,
                         b: seq<Text>, bLines: map<Text, seq<Job>>, bWrites: seq<Write>, bCrashed: bool)
    requires TimesDiffer(Eligible(book, items))
    requires Ticked(book, o, clock, items, a, aLines, aWrites) && Ended(book, o, items, aLines, aCrashed)
    requires Ticked(book, o, clock, items, b, bLines, bWrites) && Ended(book, o, items, bLines, bCrashed)
    ensures aCrashed == bCrashed
    ensures !aCrashed ==> multiset(aWrites) == multiset(bWrites)
  {
    if !aCrashed {
      WholeExcludesStopped(book, o, items, a, aLines, bLines);
      SameLines(book, items, a, aLines, b, bLines);
      AdmissionsCommute(book, o, aLines, a, b);
    } else if !bCrashed {
      WholeExcludesStopped(book, o, items, b, bLines, aLines);
    }
  }

  lemma SameLines(book: Book, items: seq<Job>, a: seq<Text>, aLines: map<Text, seq<Job>>,
                  b: seq<Text>, bLines: map<Text, seq<Job>>)
    requires TimesDiffer(Eligible(book, items)) && Whole(book, items, aLines) && Whole(book, items, bLines)
    requires Lined(Eligible(book, items), a, aLines) && Lined(Eligible(book, items), b, bLines)
    ensures aLines == bLines
  {
    var jobs := Eligible(book, items);
    forall id | id in aLines ensures id in bLines && aLines[id] == bLines[id] {
      OneLine(aLines[id], bLines[id], OfGroup(jobs, id));
    }
  }

  // ---- no job is written twice ----

  function Written(writes: seq<Write>): seq<Job> {
    if writes == [] then [] else Written(writes[..|writes| - 1]) + [writes[|writes| - 1].job]
  }

  lemma {:induction false} WrittenConcat(a: seq<Write>, b: seq<Write>)
    ensures Written(a + b) == Written(a) + Written(b)
  {
    if b == [] {
      assert a + b == a;
    } else {
      var n := |b| - 1;
      WrittenConcat(a, b[..n]);
      assert (a + b)[..|a + b| - 1] == a + b[..n];
    }
  }

  lemma WrittenNext(writes: seq<Write>, w: Write)
    ensures Written(writes + [w]) == Written(writes) + [w.job]
  {
    assert (writes + [w])[..|writes|] == writes;
  }

  lemma CountLast<T>(s: seq<T>, y: T)
    requires s != []
    ensures var n := |s| - 1; multiset(s)[y] == multiset(s[..n])[y] + if s[n] == y then 1 else 0
  {
    assert s == s[..|s| - 1] + [s[|s| - 1]];
  }

  lemma CountNext<T>(s: seq<T>, x: T, y: T)
    ensures multiset(s + [x])[y] == multiset(s)[y] + if x == y then 1 else 0
  {
  }

  lemma {:induction false} RejectedJobs(book: Book, clock: Job -> int, jobs: seq<Job>)
    ensures Written(Rejections(book, clock, jobs))
            == Filter(jobs, (j: Job) => VerdictOn(book, j.spec).Invalid?)
  {
    var p := (j: Job) => VerdictOn(book, j.spec).Invalid?;
    if jobs != [] {
      var n := |jobs| - 1;
      var last := jobs[n];
      var verdict := VerdictOn(book, last.spec);
      RejectedJobs(book, clock, jobs[..n]);
      assert Filter(jobs, p) == Filter(jobs[..n], p) + if verdict.Invalid? then [last] else [];
      if verdict.Invalid? {
        WrittenNext(Rejections(book, clock, jobs[..n]),
                    Write(last, FailedBy(last.status, verdict.reason, clock(last))));
      } else {
        assert Rejections(book, clock, jobs) == Rejections(book, clock, jobs[..n]);
      }
    }
  }

  /** One more job in line. */
  lemma AdmissionsNext(line: seq<Job>, flags: seq<bool>)
    requires |flags| == |line| > 0
    ensures var n := |line| - 1;
            var before := Admissions(line[..n], flags[..n]);
            Admissions(line, flags)
            == if flags[n] then before + [Write(line[n], line[n].status.(phase := Preparing))] else before
  {
  }

  lemma {:induction false} AdmissionsCount(line: seq<Job>, flags: seq<bool>, j: Job)
    requires |line| == |flags|
    ensures multiset(Written(Admissions(line, flags)))[j] <= multiset(line)[j]
  {
    if line != [] {
      var n := |line| - 1;
      AdmissionsCount(line[..n], flags[..n], j);
      AdmissionsNext(line, flags);
      CountLast(line, j);
      OneMoreWritten(Admissions(line[..n], flags[..n]), Write(line[n], line[n].status.(phase := Preparing)), j);
    }
  }

  lemma OneMoreWritten(before: seq<Write>, w: Write, j: Job)
    ensures multiset(Written(before + [w]))[j] == multiset(Written(before))[j] + if w.job == j then 1 else 0
  {
    WrittenNext(before, w);
    CountNext(Written(before), w.job, j);
  }

  /** Only its own group admits a job, and no more often than it was listed. */
  lemma GroupCount(book: Book, o: Oracle, jobs: seq<Job>, lines: map<Text, seq<Job>>, id: Text, j: Job)
    requires id in lines && LineOf(lines[id], OfGroup(jobs, id))
    ensures multiset(Written(GroupAdmissions(book, o, lines, id)))[j]
            <= if j.spec.groupId == id then multiset(jobs)[j] else 0
  {
    AdmissionsCount(lines[id], GroupFold(book, o, id, lines[id]).flags, j);
    FilterCount(jobs, (k: Job) => k.spec.groupId == id, j);
  }

  lemma WrittenLast(book: Book, o: Oracle, order: seq<Text>, lines: map<Text, seq<Job>>)
    requires order != [] && forall id :: id in order ==> id in lines
    ensures var n := |order| - 1;
            multiset(Written(AllAdmissions(book, o, order, lines)))
            == multiset(Written(AllAdmissions(book, o, order[..n], lines)))
               + multiset(Written(GroupAdmissions(book, o, lines, order[n])))
  {
    var n := |order| - 1;
    WrittenConcat(AllAdmissions(book, o, order[..n], lines), GroupAdmissions(book, o, lines, order[n]));
  }

  lemma {:induction false} AllAdmissionsCount(book: Book, o: Oracle, jobs: seq<Job>, order: seq<Text>,
                                              lines: map<Text, seq<Job>>, j: Job)
    requires NoRepeats(order) && forall id :: id in order ==> id in lines
    requires forall id :: id in order ==> LineOf(lines[id], OfGroup(jobs, id))
    ensures multiset(Written(AllAdmissions(book, o, order, lines)))[j]
            <= if j.spec.groupId in order then multiset(jobs)[j] else 0
  {
    if order != [] {
      var n := |order| - 1;
      assert order == order[..n] + [order[n]];
      AllAdmissionsCount(book, o, jobs, order[..n], lines, j);
      GroupCount(book, o, jobs, lines, order[n], j);
      WrittenLast(book, o, order, lines);
    }
  }

  /** A tick writes a job at most as often as it was listed: each listed job at most once. */
  lemma WrittenOnce(book: Book, o: Oracle, clock: Job -> int, items: seq<Job>,
                    order: seq<Text>, lines: map<Text, seq<Job>>, writes: seq<Write>)
    requires Ticked(book, o, clock, items, order, lines, writes)
    ensures multiset(Written(writes)) <= multiset(items)
  {
    var pending, jobs := Filter(items, IsPending), Eligible(book, items);
    forall j ensures multiset(Written(writes))[j] <= multiset(items)[j] {
      WrittenConcat(Rejections(book, clock, pending), AllAdmissions(book, o, order, lines));
      RejectedJobs(book, clock, pending);
      FilterCount(pending, (k: Job) => VerdictOn(book, k.spec).Invalid?, j);
      AllAdmissionsCount(book, o, jobs, order, lines, j);
      FilterCount(pending, (k: Job) => VerdictOn(book, k.spec).Kept?, j);
      FilterCount(items, IsPending, j);
    }
  }

  // ---- validation is sound, and live ----

  ghost predicate NonNegativePods(pods: seq<Pod>) {
    forall p, c, d: Dim :: p in pods && c in p.containers ==> c.At(d) >= 0
  }

  lemma {:induction false} UseNonNegative(pods: seq<Pod>, d: Dim)
    requires NonNegativePods(pods)
    ensures Use(pods, d) >= 0
  {
    if pods != [] {
      var p := pods[|pods| - 1];
      UseNonNegative(pods[..|pods| - 1], d);
      ContainersNonNegative(p.containers, d);
    }
  }

  /** What is left is no more than the quota itself. */
  lemma LeftShrinks(limit: Amounts, pods: seq<Pod>)
    requires NonNegativePods(pods)
    ensures Shrunk(limit, Left(limit, pods))
  {
    Dimensions(Usage(pods), limit);
    forall d: Dim ensures Usage(pods).At(d).value >= 0 {
      UseNonNegative(pods, d);
    }
  }

  lemma FitsLarger(request: Amounts, large: Amounts, small: Amounts)
    requires Fits(request, small) && Shrunk(large, small)
    ensures Fits(request, large)
  {
    Dimensions(request, small);
    Dimensions(request, large);
    assert forall d: Dim :: DimFits(request.At(d), small.At(d));
  }

  lemma GroupTurnShrinks(o: Oracle, s: Pass, ask: Ask)
    requires NonNegativeRequests(o) && Turn(o, s, ask).exit == Going
    ensures Shrunk(s.group, Turn(o, s, ask).group)
  {
    if o.request(ask.instance).Ok? {
      Dimensions(o.request(ask.instance).value, s.group);
    }
  }

  lemma {:induction false} GroupsShrink(o: Oracle, passes: seq<Pass>, asks: seq<Ask>, k: nat)
    requires NonNegativeRequests(o) && Turns(o, passes, asks) && k <= |asks| && passes[k].exit == Going
    ensures Shrunk(passes[0].group, passes[k].group)
  {
    if k > 0 {
      TurnGoing(o, passes[k - 1], asks[k - 1]);
      GroupsShrink(o, passes, asks, k - 1);
      GroupTurnShrinks(o, passes[k - 1], asks[k - 1]);
    }
  }

  lemma GroupShrinks(o: Oracle, group: Amounts, users: map<Text, Amounts>, asks: seq<Ask>, k: nat)
    requires NonNegativeRequests(o) && k <= |asks| && After(o, group, users, asks, k).exit == Going
    ensures Shrunk(group, After(o, group, users, asks, k).group)
  {
    var passes := PassesOf(o, group, users, asks);
    GroupsShrink(o, passes, asks, k);
  }

  /** An admitted job fits what was left at its turn. */
  lemma AdmittedFits(o: Oracle, group: Amounts, users: map<Text, Amounts>, asks: seq<Ask>, k: nat)
    requires k < |asks| && Fold(o, group, users, asks).flags[k]
    ensures var s := After(o, group, users, asks, k);
            && s.exit == Going && o.request(asks[k].instance).Ok? && UserQuota(o, s.users, asks[k]).Ok?
            && Fits(o.request(asks[k].instance).value, s.group)
            && Fits(o.request(asks[k].instance).value, UserQuota(o, s.users, asks[k]).value)
  {
    AfterNext(o, group, users, asks, k);
  }

  /**
   * Soundness: whatever non-negative amounts the pods use, and whoever else is in line, the
   * admission pass never admits a job that validation fails.
   */
  lemma ValidateSound(book: Book, o: Oracle, id: Text, line: seq<Job>, k: nat)
    requires Answers(book, o) && NonNegativeRequests(o)
    requires book.pods.Ok? ==> NonNegativePods(book.pods.value)
    requires k < |line| && forall j :: j in line ==> j.spec.groupId == id
    requires VerdictOn(book, line[k].spec).Invalid?
    ensures !GroupFold(book, o, id, line).flags[k]
  {
    if GroupFold(book, o, id, line).flags[k] {
      var asks, left, g := AsksOf(line), book.GroupLeft(id).value, book.groups(id).value;
      AdmittedFits(o, left, map[], asks, k);
      var request := o.request(asks[k].instance).value;
      var s := After(o, left, map[], asks, k);
      GroupShrinks(o, left, map[], asks, k);
      FitsLarger(request, left, s.group);
      LeftShrinks(Converted(g.project).value, book.GroupPods(g.name));
      FitsLarger(request, Converted(g.project).value, left);
      var mine := book.UserLeft(id, asks[k].user).value;
      UserQuotaShrinks(o, left, map[], asks, asks[k], 0, k);
      FitsLarger(request, mine, UserQuota(o, s.users, asks[k]).value);
      LeftShrinks(Converted(g.user).value, book.UserPods(g.name, asks[k].user));
      FitsLarger(request, Converted(g.user).value, mine);
      assert false;
    }
  }

  lemma {:induction false} IdleUsesNothing(pods: seq<Pod>, d: Dim)
    requires forall p :: p in pods ==> !Live(p.phase)
    ensures Use(pods, d) == 0
  {
    if pods != [] {
      IdleUsesNothing(pods[..|pods| - 1], d);
    }
  }

  lemma IdleLeavesAll(limit: Amounts, pods: seq<Pod>)
    requires forall p :: p in pods ==> !Live(p.phase)
    ensures Left(limit, pods) == limit
  {
    IdleUsesNothing(pods, Cpu);
    IdleUsesNothing(pods, Gpu);
    IdleUsesNothing(pods, Memory);
  }

  /** No pod of the group is pending or running. */
  ghost predicate NothingUsed(book: Book, id: Text) {
    && book.groups(id).Ok? && book.pods.Ok?
    && forall p :: p in book.GroupPods(book.groups(id).value.name) ==> !Live(p.phase)
  }

  /**
   * In an idle group, the pass admits a validated job that is first in line; and it comes to
   * an end if the requests have every dimension that is limited.
   */
  lemma FirstAdmitted(book: Book, o: Oracle, id: Text, line: seq<Job>)
    requires Answers(book, o) && NothingUsed(book, id)
    requires line != [] && OneGroup(AsksOf(line), id) && VerdictOn(book, line[0].spec).Kept?
    ensures GroupFold(book, o, id, line).flags[0] && book.GroupLeft(id).Ok?
    ensures Covered(o, book.GroupLeft(id).value, map[], id, AsksOf(line))
            ==> GroupFold(book, o, id, line).exit != Crashed
  {
    var asks := AsksOf(line);
    assert line[0].spec.groupId == id by {
      assert asks[0] == AskOf(line[0].spec);
    }
    var g, left := book.groups(id).value, book.GroupLeft(id).value;
    IdleLeavesAll(Converted(g.project).value, book.GroupPods(g.name));
    IdleLeavesAll(Converted(g.user).value, book.UserPods(g.name, asks[0].user));
    AfterNext(o, left, map[], asks, 0);
    assert After(o, left, map[], asks, 0) == Admission.Pass(left, map[], [], Going);
    if Covered(o, left, map[], id, asks) {
      CoveredNeverCrashes(o, left, map[], asks, id);
    }
  }

  lemma {:induction false} AdmissionWritten(line: seq<Job>, flags: seq<bool>, k: nat)
    requires k < |line| == |flags| && flags[k]
    ensures Write(line[k], line[k].status.(phase := Preparing)) in Admissions(line, flags)
  {
    var n := |line| - 1;
    if k < n {
      AdmissionWritten(line[..n], flags[..n], k);
    }
  }

  lemma {:induction false} GroupWritten(book: Book, o: Oracle, order: seq<Text>,
                                        lines: map<Text, seq<Job>>, id: Text, w: Write)
    requires id in order && forall i :: i in order ==> i in lines
    requires w in Admissions(lines[id], GroupFold(book, o, id, lines[id]).flags)
    ensures w in AllAdmissions(book, o, order, lines)
  {
    var n := |order| - 1;
    if order[n] != id {
      assert id in order[..n];
      GroupWritten(book, o, order[..n], lines, id, w);
    }
  }

  /** The first in line is one of the oldest jobs of its group. */
  lemma OldestFirst(line: seq<Job>, jobs: seq<Job>)
    requires LineOf(line, jobs) && jobs != []
    ensures line != [] && line[0] in jobs
    ensures forall j :: j in jobs ==> line[0].created <= j.created
  {
    assert jobs[0] in multiset(line);
    assert line[0] in multiset(jobs);
    forall j | j in jobs ensures line[0].created <= j.created {
      assert j in multiset(line);
      var k :| 0 <= k < |line| && line[k] == j;
      assert CreatedAt(line[0]) <= CreatedAt(line[k]);
    }
  }

  /** Liveness: a tick admits the oldest eligible job of every idle group. */
  lemma OldestAdmitted(book: Book, o: Oracle, clock: Job -> int, items: seq<Job>,
                       order: seq<Text>, lines: map<Text, seq<Job>>, writes: seq<Write>, id: Text)
    returns (oldest: Job)
    requires Answers(book, o) && Ticked(book, o, clock, items, order, lines, writes)
    requires OfGroup(Eligible(book, items), id) != [] && NothingUsed(book, id) && Whole(book, items, lines)
    ensures oldest in OfGroup(Eligible(book, items), id)
    ensures forall j :: j in OfGroup(Eligible(book, items), id) ==> oldest.created <= j.created
    ensures Write(oldest, oldest.status.(phase := Preparing)) in writes
  {
    var jobs, line := OfGroup(Eligible(book, items), id), lines[id];
    OldestFirst(line, jobs);
    oldest := line[0];
    assert oldest in Eligible(book, items);
    forall i | 0 <= i < |line| ensures line[i].spec.groupId == id {
      assert line[i] in multiset(line);
      assert line[i] in jobs;
    }
    FirstAdmitted(book, o, id, line);
    AdmissionWritten(line, GroupFold(book, o, id, line).flags, 0);
    GroupWritten(book, o, order, lines, id, Write(oldest, oldest.status.(phase := Preparing)));
  }

  // ---- the writes are the scheduler's steps in the PhJob machine ----

  /** What a tick may write of a job: it fails it, or admits it. */
  ghost predicate Rightful(w: Write, clock: Job -> int) {
    && IsPending(w.job)
    && (w.status == w.job.status.(phase := Preparing)
        || w.status == FailedBy(w.job.status, w.status.reason, clock(w.job)))
  }

  lemma {:induction false} RejectionsRightful(book: Book, clock: Job -> int, jobs: seq<Job>, w: Write)
    requires w in Rejections(book, clock, jobs) && forall j :: j in jobs ==> IsPending(j)
    ensures w.job in jobs && Rightful(w, clock)
  {
    var n := |jobs| - 1;
    if w in Rejections(book, clock, jobs[..n]) {
      RejectionsRightful(book, clock, jobs[..n], w);
    }
  }

  lemma {:induction false} AdmissionsRightful(line: seq<Job>, flags: seq<bool>, w: Write)
    requires |line| == |flags| && w in Admissions(line, flags)
    ensures w.job in line && w.status == w.job.status.(phase := Preparing)
  {
    var n := |line| - 1;
    if w in Admissions(line[..n], flags[..n]) {
      AdmissionsRightful(line[..n], flags[..n], w);
    }
  }

  lemma {:induction false} AllRightful(book: Book, o: Oracle, jobs: seq<Job>, order: seq<Text>,
                                       lines: map<Text, seq<Job>>, w: Write)
    requires forall id :: id in order ==> id in lines && LineOf(lines[id], OfGroup(jobs, id))
    requires w in AllAdmissions(book, o, order, lines)
    ensures w.job in jobs && w.status == w.job.status.(phase := Preparing)
  {
    var n := |order| - 1;
    var id := order[n];
    if w in AllAdmissions(book, o, order[..n], lines) {
      AllRightful(book, o, jobs, order[..n], lines, w);
    } else {
      AdmissionsRightful(lines[id], GroupFold(book, o, id, lines[id]).flags, w);
      assert w.job in multiset(lines[id]);
    }
  }

  /** A tick writes only jobs that it listed as Pending, and it fails them or admits them. */
  lemma TickRightful(book: Book, o: Oracle, clock: Job -> int, items: seq<Job>,
                     order: seq<Text>, lines: map<Text, seq<Job>>, writes: seq<Write>, w: Write)
    requires Ticked(book, o, clock, items, order, lines, writes) && w in writes
    ensures w.job in items && Rightful(w, clock)
  {
    var pending := Filter(items, IsPending);
    if w in Rejections(book, clock, pending) {
      RejectionsRightful(book, clock, pending, w);
    } else {
      AllRightful(book, o, Eligible(book, items), order, lines, w);
    }
  }

  /** The step of the machine that a write is. */
  function StepOf(w: Write): Action {
    if w.status.phase == Preparing then SchedulerAdmits(w.job.name)
    else SchedulerFails(w.job.name, w.status.reason,
                        if w.status.finishTime.Some? then w.status.finishTime.value else 0)
  }

  lemma RightfulStep(world: World, clock: Job -> int, w: Write)
    requires Rightful(w, clock) && w.job.name in world.listed && world.listed[w.job.name] == w.job
    requires world.listedAt <= clock(w.job) <= world.clock
    ensures Apply(world, StepOf(w)) == UpdateStatus(world, w.job.name, w.job, w.status)
  {
  }

  /**
   * Over the list that the machine holds, each write of a tick is one of the scheduler's
   * actions, at any later moment: so what is proved of every run holds of a tick that others
   * interrupt.
   */
  lemma WritesAreSteps(world: World, book: Book, o: Oracle, clock: Job -> int, items: seq<Job>,
                       order: seq<Text>, lines: map<Text, seq<Job>>, writes: seq<Write>, w: Write)
    requires Ticked(book, o, clock, items, order, lines, writes) && w in writes
    requires forall j :: j in items && IsPending(j) ==> j.name in world.listed && world.listed[j.name] == j
    requires forall j :: j in items ==> world.listedAt <= clock(j) <= world.clock
    ensures Apply(world, StepOf(w)) == UpdateStatus(world, w.job.name, w.job, w.status)
  {
    TickRightful(book, o, clock, items, order, lines, writes, w);
    RightfulStep(world, clock, w);
  }

  // ---- a whole tick, interrupted ----

  /** A write arrives, or fails; the scheduler logs the error and goes on. */
  function StepsOf(w: Write, arrives: bool): seq<Action> {
    if arrives then [StepOf(w)] else []
  }

  /** The actions of a tick that sends these writes, with those of others before each of them. */
  function Interrupted(between: seq<seq<Action>>, writes: seq<Write>, arrives: seq<bool>): seq<Action>
    requires |between| == |writes| == |arrives|
  {
    if writes == [] then []
    else
      var n := |writes| - 1;
      Interrupted(between[..n], writes[..n], arrives[..n]) + (between[n] + StepsOf(writes[n], arrives[n]))
  }

  function Received(w: World, x: Write, arrives: bool): World {
    if arrives then UpdateStatus(w, x.job.name, x.job, x.status) else w
  }

  /** The state that a tick leaves: others act, and then the API server may take the next write. */
  function Sent(w: World, between: seq<seq<Action>>, writes: seq<Write>, arrives: seq<bool>): World
    requires |between| == |writes| == |arrives|
  {
    if writes == [] then w
    else
      var n := |writes| - 1;
      Received(Run(Sent(w, between[..n], writes[..n], arrives[..n]), between[n]), writes[n], arrives[n])
  }

  /** Each job was examined after it was listed, and before it was written. */
  ghost predicate OnTime(w: World, between: seq<seq<Action>>, writes: seq<Write>, arrives: seq<bool>,
                         clock: Job -> int)
    requires |between| == |writes| == |arrives|
  {
    writes != [] ==>
      var n := |writes| - 1;
      && OnTime(w, between[..n], writes[..n], arrives[..n], clock)
      && w.listedAt <= clock(writes[n].job)
         <= Run(Sent(w, between[..n], writes[..n], arrives[..n]), between[n]).clock
  }

  /** There is one scheduler, so nobody else makes a list. */
  predicate NoLists(between: seq<seq<Action>>) {
    forall i, a :: 0 <= i < |between| && a in between[i] ==> !a.SchedulerLists?
  }

  lemma {:induction false} ListStays(w: World, actions: seq<Action>)
    requires forall a :: a in actions ==> !a.SchedulerLists?
    ensures Run(w, actions).listed == w.listed && Run(w, actions).listedAt == w.listedAt
  {
    if actions != [] {
      var n := |actions| - 1;
      ListStays(w, actions[..n]);
      assert actions[n] in actions;
      OneListStays(Run(w, actions[..n]), actions[n]);
    }
  }

  lemma OneListStays(w: World, a: Action)
    requires !a.SchedulerLists?
    ensures Apply(w, a).listed == w.listed && Apply(w, a).listedAt == w.listedAt
  {
  }

  /** One more write of the tick, with what others do before it. */
  lemma NextWriteIsRun(u: World, clock: Job -> int, acts: seq<Action>, x: Write, arrives: bool)
    requires forall a :: a in acts ==> !a.SchedulerLists?
    requires Rightful(x, clock) && x.job.name in u.listed && u.listed[x.job.name] == x.job
    requires u.listedAt <= clock(x.job) <= Run(u, acts).clock
    ensures var v := Received(Run(u, acts), x, arrives);
            v == Run(u, acts + StepsOf(x, arrives)) && v.listed == u.listed && v.listedAt == u.listedAt
  {
    ListStays(u, acts);
    if arrives {
      RightfulStep(Run(u, acts), clock, x);
      assert (acts + [StepOf(x)])[..|acts|] == acts;
    } else {
      assert acts + [] == acts;
    }
  }

  lemma {:induction false} WritesAreRun(w: World, clock: Job -> int, between: seq<seq<Action>>,
                                        writes: seq<Write>, arrives: seq<bool>)
    requires |between| == |writes| == |arrives| && NoLists(between)
    requires OnTime(w, between, writes, arrives, clock)
    requires forall x :: x in writes ==>
               Rightful(x, clock) && x.job.name in w.listed && w.listed[x.job.name] == x.job
    ensures var v := Sent(w, between, writes, arrives);
            && v == Run(w, Interrupted(between, writes, arrives))
            && v.listed == w.listed && v.listedAt == w.listedAt
  {
    if writes != [] {
      var n := |writes| - 1;
      var before := Interrupted(between[..n], writes[..n], arrives[..n]);
      WritesAreRun(w, clock, between[..n], writes[..n], arrives[..n]);
      NextWriteIsRun(Run(w, before), clock, between[n], writes[n], arrives[n]);
      RunConcat(w, before, between[n] + StepsOf(writes[n], arrives[n]));
    }
  }

  /**
   * A tick that others interrupt before every write, crashed or not, and any of whose writes
   * may fail, is a run of the machine: so what is proved of every run holds of it.
   */
  lemma TickIsRun(w: World, book: Book, o: Oracle, clock: Job -> int, items: seq<Job>,
                  order: seq<Text>, lines: map<Text, seq<Job>>, writes: seq<Write>,
                  between: seq<seq<Action>>, arrives: seq<bool>)
    requires Ticked(book, o, clock, items, order, lines, writes)
    requires forall j :: j in items && IsPending(j) ==> j.name in w.listed && w.listed[j.name] == j
    requires |between| == |writes| == |arrives| && NoLists(between)
    requires OnTime(w, between, writes, arrives, clock)
    ensures Sent(w, between, writes, arrives) == Run(w, Interrupted(between, writes, arrives))
  {
    forall x | x in writes
      ensures Rightful(x, clock) && x.job.name in w.listed && w.listed[x.job.name] == x.job
    {
      TickRightful(book, o, clock, items, order, lines, writes, x);
    }
    WritesAreRun(w, clock, between, writes, arrives);
  }
}
