/** src/operations.ts: what the page knows of a job, and the newest-first list its followers keep. */
module Jobs {
  import opened Wrappers
  import opened Sorting

  type Id = string

  datatype JobStep = JobStep(name: string, state: string)

  /** A staged parameter: a string, or anything else. */
  datatype Value = Str(text: string) | NotAString

  /**
   * `rank` is where `createdAt ?? ""` falls in the order `localeCompare` gives; `at` is its
   * `Date.parse`, none where that is not a number.
   */
  datatype Job = Job(
    id: Id, kind: string, title: string, state: string, steps: seq<JobStep>,
    parameters: map<string, Value>, retryOf: Option<Id>, rerunOf: Option<Id>,
    rank: int, at: Option<int>)

  const LIMIT := 50

  predicate Newer(a: Job, b: Job) { a.rank > b.rank }

  function Sorted50(jobs: seq<Job>): seq<Job> {
    var sorted := Sort(jobs, Newer);
    if |sorted| <= LIMIT then sorted else sorted[..LIMIT]
  }

  predicate Knows(jobs: seq<Job>, id: Id) { exists i :: 0 <= i < |jobs| && jobs[i].id == id }

  function Replace(jobs: seq<Job>, job: Job): seq<Job> {
    if jobs == [] then [] else [if jobs[0].id == job.id then job else jobs[0]] + Replace(jobs[1..], job)
  }

  /** The feed's own fold, ActivityDrawer's `upsert` and facts' `upsertJob`: one function, written three times. */
  function Upsert(jobs: seq<Job>, job: Job): seq<Job> {
    Sorted50(if Knows(jobs, job.id) then Replace(jobs, job) else [job] + jobs)
  }

  ghost predicate Unique(jobs: seq<Job>) {
    forall i, j | 0 <= i < j < |jobs| :: jobs[i].id != jobs[j].id
  }

  /** Every record of one job carries the `createdAt` the job was created with. */
  ghost predicate Born(jobs: seq<Job>, birth: Id -> int) {
    forall job <- jobs :: job.rank == birth(job.id)
  }

  /** Newest first, by creation. */
  ghost predicate NewestFirst(jobs: seq<Job>) { forall i, j | 0 <= i < j < |jobs| :: jobs[i].rank >= jobs[j].rank }

  /** How a list of jobs is shown: newest first, each job once, at most fifty. */
  ghost predicate Tidy(jobs: seq<Job>) {
    NewestFirst(jobs) && Unique(jobs) && |jobs| <= 50
  }

  lemma NewerIsStrictWeak()
    ensures StrictWeak(Newer)
  {
  }

  lemma {:induction false} InsertKeepsUnique(job: Job, jobs: seq<Job>)
    requires Unique(jobs) && forall other <- jobs :: other.id != job.id
    ensures Unique(Insert(job, jobs, Newer))
  {
    if jobs != [] && Newer(jobs[0], job) {
      var rest := Insert(job, jobs[1..], Newer);
      InsertKeepsUnique(job, jobs[1..]);
      InsertKeepsElements(job, jobs[1..], Newer);
      forall k | 0 <= k < |rest| ensures rest[k].id != jobs[0].id {
        assert rest[k] in multiset(rest);
        assert rest[k] == job || rest[k] in jobs[1..];
      }
    }
  }

  lemma {:induction false} SortKeepsUnique(jobs: seq<Job>)
    requires Unique(jobs)
    ensures Unique(Sort(jobs, Newer))
  {
    if jobs != [] {
      var rest := Sort(jobs[1..], Newer);
      SortKeepsUnique(jobs[1..]);
      SortKeepsElements(jobs[1..], Newer);
      forall other <- rest ensures other.id != jobs[0].id {
        assert other in jobs[1..];
      }
      InsertKeepsUnique(jobs[0], rest);
    }
  }

  lemma {:induction false} ReplaceByIndex(jobs: seq<Job>, job: Job)
    ensures |Replace(jobs, job)| == |jobs|
    ensures forall i | 0 <= i < |jobs| :: Replace(jobs, job)[i] == if jobs[i].id == job.id then job else jobs[i]
  {
    if jobs != [] { ReplaceByIndex(jobs[1..], job); }
  }

  lemma Sorted50IsTidy(jobs: seq<Job>, birth: Id -> int)
    requires Unique(jobs) && Born(jobs, birth)
    ensures Tidy(Sorted50(jobs)) && Born(Sorted50(jobs), birth)
  {
    NewerIsStrictWeak();
    SortSorts(jobs, Newer);
    SortKeepsUnique(jobs);
    SortKeepsElements(jobs, Newer);
  }

  lemma UpsertIsTidy(jobs: seq<Job>, job: Job, birth: Id -> int)
    requires Unique(jobs) && Born(jobs, birth) && job.rank == birth(job.id)
    ensures Tidy(Upsert(jobs, job)) && Born(Upsert(jobs, job), birth)
  {
    if Knows(jobs, job.id) {
      ReplaceByIndex(jobs, job);
      Sorted50IsTidy(Replace(jobs, job), birth);
    } else {
      Sorted50IsTidy([job] + jobs, birth);
    }
  }

  /** Replacing a job's record by another with the same creation leaves it where it stood. */
  lemma {:induction false} InsertThenReplace(x: Job, jobs: seq<Job>, job: Job)
    requires forall y <- [x] + jobs :: y.id == job.id ==> y.rank == job.rank
    ensures Replace(Insert(x, jobs, Newer), job)
         == Insert(if x.id == job.id then job else x, Replace(jobs, job), Newer)
  {
    assert x in [x] + jobs && forall y <- jobs :: y in [x] + jobs;
    if jobs != [] && Newer(jobs[0], x) {
      InsertThenReplace(x, jobs[1..], job);
      assert Insert(x, jobs, Newer)[1..] == Insert(x, jobs[1..], Newer);
    } else {
      assert ([x] + jobs)[1..] == jobs;
    }
  }

  lemma {:induction false} SortThenReplace(jobs: seq<Job>, job: Job)
    requires forall y <- jobs :: y.id == job.id ==> y.rank == job.rank
    ensures Replace(Sort(jobs, Newer), job) == Sort(Replace(jobs, job), Newer)
  {
    if jobs != [] {
      SortThenReplace(jobs[1..], job);
      SortKeepsElements(jobs[1..], Newer);
      InsertThenReplace(jobs[0], Sort(jobs[1..], Newer), job);
      assert Replace(jobs, job)[1..] == Replace(jobs[1..], job);
    }
  }

  /** Whether a job's event reaches the list as it was handed over or as a follower sorted it, the same list results. */
  lemma UpsertForgetsOrder(jobs: seq<Job>, job: Job, birth: Id -> int)
    requires |jobs| <= LIMIT && Born(jobs, birth) && job.rank == birth(job.id)
    ensures Upsert(Sorted50(jobs), job) == Upsert(jobs, job)
  {
    var sorted := Sort(jobs, Newer);
    NewerIsStrictWeak();
    SortKeepsElements(jobs, Newer);
    SortSorts(jobs, Newer);
    assert sorted == Sorted50(jobs);
    assert Knows(sorted, job.id) <==> Knows(jobs, job.id) by {
      if Knows(sorted, job.id) { var i :| 0 <= i < |sorted| && sorted[i].id == job.id; assert sorted[i] in jobs; }
      if Knows(jobs, job.id) { var i :| 0 <= i < |jobs| && jobs[i].id == job.id; assert jobs[i] in sorted; }
    }
    if Knows(jobs, job.id) {
      SortThenReplace(jobs, job);
      SortSorts(Replace(jobs, job), Newer);
      SortedIsFixed(Sort(Replace(jobs, job), Newer), Newer);
    } else {
      SortedIsFixed(sorted, Newer);
      assert ([job] + sorted)[1..] == sorted && ([job] + jobs)[1..] == jobs;
    }
  }

  // --- What the list holds ---

  lemma {:induction false} InsertedStands(x: Job, s: seq<Job>) returns (k: nat)
    ensures k < |Insert(x, s, Newer)| && Insert(x, s, Newer)[k] == x
    ensures forall i | 0 <= i < k :: Newer(Insert(x, s, Newer)[i], x)
  {
    k := 0;
    if s != [] && Newer(s[0], x) {
      k := InsertedStands(x, s[1..]);
      k := k + 1;
    }
  }

  /** Fifty jobs fill the list, none of them older than this one. */
  predicate FilledNoOlder(list: seq<Job>, job: Job) { |list| == 50 && forall kept <- list :: kept.rank >= job.rank }

  /** Fifty jobs fill the list, each newer than this one. */
  predicate FilledNewer(list: seq<Job>, job: Job) { |list| == 50 && forall kept <- list :: kept.rank > job.rank }

  /** The fifty kept are the newest: what is left out is no newer than anything kept, and fifty are kept. */
  lemma TheNewestAreKept(jobs: seq<Job>, job: Job)
    requires job in jobs
    ensures job in Sorted50(jobs) || FilledNoOlder(Sorted50(jobs), job)
  {
    NewerIsStrictWeak();
    SortSorts(jobs, Newer);
    SortKeepsElements(jobs, Newer);
    var sorted := Sort(jobs, Newer);
    assert job in sorted;
    var k :| 0 <= k < |sorted| && sorted[k] == job;
    if k < |Sorted50(jobs)| { assert Sorted50(jobs)[k] == job; }
  }

  lemma NothingIsMadeUp(jobs: seq<Job>)
    ensures forall kept <- Sorted50(jobs) :: kept in jobs
  {
    SortKeepsElements(jobs, Newer);
  }

  /** A job not known before heads those it ties with, so only fifty strictly newer ones keep it out. */
  lemma NewcomerIsKept(jobs: seq<Job>, job: Job)
    ensures job in Sorted50([job] + jobs) || FilledNewer(Sorted50([job] + jobs), job)
  {
    assert ([job] + jobs)[1..] == jobs;
    var k := InsertedStands(job, Sort(jobs, Newer));
    if k < |Sorted50([job] + jobs)| { assert Sorted50([job] + jobs)[k] == job; }
  }

  /**
   * After a job's event the list holds its new record, unless fifty newer jobs fill it; no other record
   * of it; and every other job it held, but one that the fifty kept are all as new as.
   */
  lemma UpsertHolds(jobs: seq<Job>, job: Job)
    requires Unique(jobs) && |jobs| <= 50
    ensures job in Upsert(jobs, job) || FilledNewer(Upsert(jobs, job), job)
    ensures forall kept <- Upsert(jobs, job) :: kept == job || (kept in jobs && kept.id != job.id)
    ensures forall other <- jobs | other.id != job.id ::
      other in Upsert(jobs, job) || FilledNoOlder(Upsert(jobs, job), other)
  {
    if Knows(jobs, job.id) { KnownIsReplaced(jobs, job); } else { NewIsAdded(jobs, job); }
  }

  lemma KnownIsReplaced(jobs: seq<Job>, job: Job)
    requires Unique(jobs) && |jobs| <= 50 && Knows(jobs, job.id)
    ensures job in Upsert(jobs, job)
    ensures forall kept <- Upsert(jobs, job) :: kept == job || (kept in jobs && kept.id != job.id)
    ensures forall other <- jobs | other.id != job.id :: other in Upsert(jobs, job)
  {
    ReplaceByIndex(jobs, job);
    SortKeepsElements(Replace(jobs, job), Newer);
    ReplacedHolds(jobs, job);
  }

  lemma ReplacedHolds(jobs: seq<Job>, job: Job)
    requires Knows(jobs, job.id)
    ensures job in Replace(jobs, job)
    ensures forall kept <- Replace(jobs, job) :: kept == job || (kept in jobs && kept.id != job.id)
    ensures forall other <- jobs | other.id != job.id :: other in Replace(jobs, job)
  {
    var replaced := Replace(jobs, job);
    ReplaceByIndex(jobs, job);
    var i :| 0 <= i < |jobs| && jobs[i].id == job.id;
    assert replaced[i] == job;
    forall k | 0 <= k < |jobs| && jobs[k].id != job.id ensures jobs[k] in replaced { assert replaced[k] == jobs[k]; }
  }

  lemma NewIsAdded(jobs: seq<Job>, job: Job)
    requires !Knows(jobs, job.id)
    ensures job in Upsert(jobs, job) || FilledNewer(Upsert(jobs, job), job)
    ensures forall kept <- Upsert(jobs, job) :: kept == job || (kept in jobs && kept.id != job.id)
    ensures forall other <- jobs | other.id != job.id ::
      other in Upsert(jobs, job) || FilledNoOlder(Upsert(jobs, job), other)
  {
    var all := [job] + jobs;
    NewcomerIsKept(jobs, job);
    NothingIsMadeUp(all);
    forall kept | kept in jobs ensures kept.id != job.id {
      var k :| 0 <= k < |jobs| && jobs[k] == kept;
    }
    forall other | other in jobs ensures other in Sorted50(all) || FilledNoOlder(Sorted50(all), other) {
      assert other in all;
      TheNewestAreKept(all, other);
    }
  }

  /** A list already as followers show it is shown as it is. */
  lemma TidyIsFixed(jobs: seq<Job>)
    requires Tidy(jobs)
    ensures Sorted50(jobs) == jobs && Sort(jobs, Newer) == jobs
  {
    SortedIsFixed(jobs, Newer);
  }
}
