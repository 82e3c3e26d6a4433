/** src/jobStatus.ts and src/shell/approvalsWaiting.ts: which failures still need the owner. */
module JobStatus {
  import opened Wrappers
  import opened Sorting
  import opened Jobs

  predicate HasStep(job: Job, name: string, state: string) {
    exists i :: 0 <= i < |job.steps| && job.steps[i] == JobStep(name, state)
  }

  /** A restart cut it off and BoxPilot ran it again by itself. */
  predicate RanAgain(job: Job) { job.state == "failed" && HasStep(job, "rerun", "started") }

  predicate Dismissed(job: Job) { job.state == "failed" && HasStep(job, "dismissed", "completed") }

  const SUBJECT_KEYS := ["id", "name", "unit", "target", "device", "mountpoint", "tag"]

  function SubjectFrom(parameters: map<string, Value>, keys: seq<string>): string {
    if keys == [] then ""
    else if keys[0] in parameters && parameters[keys[0]].Str? && parameters[keys[0]].text != ""
    then keys[0] + ":" + parameters[keys[0]].text
    else SubjectFrom(parameters, keys[1..])
  }

  /** What a job acted on, as far as its parameters say. */
  function Subject(job: Job): string { SubjectFrom(job.parameters, SUBJECT_KEYS) }

  /** Which parameter says what a job acted on, and what it says: the first of these that is a text not empty. */
  datatype Named = Nothing | Named(place: nat, text: string)

  predicate IsSaid(parameters: map<string, Value>, key: string) {
    key in parameters && parameters[key].Str? && parameters[key].text != ""
  }

  predicate NamedBy(parameters: map<string, Value>, keys: seq<string>, named: Named) {
    match named
    case Nothing => forall i | 0 <= i < |keys| :: !IsSaid(parameters, keys[i])
    case Named(place, text) =>
      && place < |keys| && IsSaid(parameters, keys[place]) && parameters[keys[place]].text == text
      && forall i | 0 <= i < place :: !IsSaid(parameters, keys[i])
  }

  lemma {:induction false} SubjectIsNamed(parameters: map<string, Value>, keys: seq<string>, named: Named)
    requires NamedBy(parameters, keys, named)
    ensures SubjectFrom(parameters, keys) == if named.Nothing? then "" else keys[named.place] + ":" + named.text
  {
    if keys != [] && !IsSaid(parameters, keys[0]) {
      var rest := if named.Nothing? then Nothing else Named(named.place - 1, named.text);
      forall i | 0 <= i < |keys[1..]| ensures keys[1..][i] == keys[i + 1] {}
      SubjectIsNamed(parameters, keys[1..], rest);
    }
  }

  /** What stands before a first mark and what stands after it are told apart. */
  lemma {:induction false} MarkParts(mark: char, k: string, a: string, l: string, b: string)
    requires mark !in k && mark !in l
    ensures k + [mark] + a == l + [mark] + b <==> k == l && a == b
  {
    var s, t := k + [mark] + a, l + [mark] + b;
    if k != "" && l != "" {
      MarkParts(mark, k[1..], a, l[1..], b);
      assert s[1..] == k[1..] + [mark] + a && t[1..] == l[1..] + [mark] + b;
      assert s == [k[0]] + s[1..] && t == [l[0]] + t[1..] && k == [k[0]] + k[1..] && l == [l[0]] + l[1..];
    } else {
      assert s[0] == if k == "" then mark else k[0];
      assert t[0] == if l == "" then mark else l[0];
      assert k == "" && l == "" ==> s[1..] == a && t[1..] == b;
    }
  }

  /**
   * What two jobs acted on is one subject exactly when the same one of the id, name, unit, target, device,
   * mountpoint and tag is the first that each of them names, and says the same of both, or neither names any.
   */
  lemma SubjectsMeetExactly(a: Job, b: Job, x: Named, y: Named)
    requires
      var keys := ["id", "name", "unit", "target", "device", "mountpoint", "tag"];
      NamedBy(a.parameters, keys, x) && NamedBy(b.parameters, keys, y)
    ensures Subject(a) == Subject(b) <==> x == y
  {
    var keys := ["id", "name", "unit", "target", "device", "mountpoint", "tag"];
    assert SUBJECT_KEYS == keys;
    SubjectIsNamed(a.parameters, keys, x);
    SubjectIsNamed(b.parameters, keys, y);
    if x.Named? && y.Named? {
      NoColons(keys[x.place]);
      NoColons(keys[y.place]);
      MarkParts(':', keys[x.place], x.text, keys[y.place], y.text);
      if keys[x.place] == keys[y.place] { KeysDiffer(x.place, y.place); }
    }
  }

  lemma NoColons(key: string)
    requires key in ["id", "name", "unit", "target", "device", "mountpoint", "tag"]
    ensures ':' !in key
  {
  }

  lemma KeysDiffer(i: nat, j: nat)
    requires var keys := ["id", "name", "unit", "target", "device", "mountpoint", "tag"];
      i < |keys| && j < |keys| && keys[i] == keys[j]
    ensures i == j
  {
  }

  /** The work a job did: its operation and subject, where remounting a share is reconnecting it. */
  function Work(job: Job): string {
    if job.kind == "op:storage.remount" && "name" in job.parameters && job.parameters["name"].Str?
       && "share-" <= job.parameters["name"].text
    then "op:share.reconnect|name:" + job.parameters["name"].text[|"share-"|..]
    else job.kind + "|" + Subject(job)
  }

  /** A remount of a share and a reconnect of the share of that name are one work. */
  lemma RemountIsReconnect(remount: Job, reconnect: Job, name: string)
    requires name != "" && remount.kind == "op:storage.remount" && reconnect.kind == "op:share.reconnect"
    requires "name" in remount.parameters && remount.parameters["name"] == Str("share-" + name)
    requires "name" in reconnect.parameters && reconnect.parameters["name"] == Str(name)
    requires "id" !in reconnect.parameters
    ensures Work(remount) == Work(reconnect)
  {
    assert ("share-" + name)[|"share-"|..] == name;
    var p := reconnect.parameters;
    assert SubjectFrom(p, SUBJECT_KEYS) == SubjectFrom(p, SUBJECT_KEYS[1..]);
    assert SUBJECT_KEYS[1..][0] == "name";
    assert SubjectFrom(p, SUBJECT_KEYS[1..]) == "name" + ":" + name;
    assert "op:share.reconnect" + "|" + ("name" + ":" + name) == "op:share.reconnect|name:" + name;
  }

  /** The network share a remount is of, if it is of one. */
  function ShareOf(job: Job): Option<string> {
    if job.kind == "op:storage.remount" && "name" in job.parameters && job.parameters["name"].Str?
       && "share-" <= job.parameters["name"].text
    then Some(job.parameters["name"].text[6..]) else None
  }

  /**
   * Two jobs did one work exactly when their operations and subjects are the same, a remount of a share
   * counting as a reconnect that names it.
   */
  lemma WorksMeetExactly(a: Job, b: Job)
    requires '|' !in a.kind && '|' !in b.kind
    ensures Work(a) == Work(b) <==>
      match (ShareOf(a), ShareOf(b))
      case (None, None) => a.kind == b.kind && Subject(a) == Subject(b)
      case (Some(x), Some(y)) => x == y
      case (Some(x), None) => b.kind == "op:share.reconnect" && Subject(b) == "name:" + x
      case (None, Some(y)) => a.kind == "op:share.reconnect" && Subject(a) == "name:" + y
  {
    WorkIs(a);
    WorkIs(b);
    var k, s := Kind(a), Concerning(a);
    var l, t := Kind(b), Concerning(b);
    MarkParts('|', k, s, l, t);
    assert '|' !in k && '|' !in l;
    assert k + "|" + s == l + "|" + t <==> k == l && s == t;
    if ShareOf(a).Some? && ShareOf(b).Some? { NamesTell(ShareOf(a).value, ShareOf(b).value); }
  }

  lemma NamesTell(x: string, y: string)
    ensures "name:" + x == "name:" + y <==> x == y
  {
    assert ("name:" + x)[5..] == x && ("name:" + y)[5..] == y;
  }

  function Kind(job: Job): string { if ShareOf(job).Some? then "op:share.reconnect" else job.kind }

  function Concerning(job: Job): string { if ShareOf(job).Some? then "name:" + ShareOf(job).value else Subject(job) }

  lemma WorkIs(job: Job)
    ensures Work(job) == Kind(job) + "|" + Concerning(job)
  {
    if ShareOf(job).Some? {
      var x := ShareOf(job).value;
      assert "op:share.reconnect" + "|" + ("name:" + x) == "op:share.reconnect|name:" + x;
    }
  }

  predicate Repeats(other: Job, job: Job) { other.retryOf == Some(job.id) || other.rerunOf == Some(job.id) }

  /** `Date.parse(a) > Date.parse(b)`, false where either is not a number. */
  predicate Later(a: Job, b: Job) { a.at.Some? && b.at.Some? && a.at.value > b.at.value }

  /** What makes another record settle this one. */
  predicate Settles(other: Job, job: Job) {
    other.id != job.id
    && (Repeats(other, job)
        || (Work(other) == Work(job) && Later(other, job) && other.state != "failed" && other.state != "cancelled"))
  }

  predicate FailureSettled(job: Job, jobs: seq<Job>) {
    if job.state != "failed" then true
    else if Dismissed(job) || RanAgain(job) then true
    else exists i :: 0 <= i < |jobs| && Settles(jobs[i], job)
  }

  /** A failure settled only by what came after it. */
  predicate SettledByOthers(job: Job, jobs: seq<Job>) {
    job.state == "failed" && !Dismissed(job) && !RanAgain(job) && FailureSettled(job, jobs)
  }

  /** Adding jobs never unsettles a failure. */
  lemma MoreJobsSettleMore(job: Job, jobs: seq<Job>, more: seq<Job>)
    requires FailureSettled(job, jobs) && forall other <- jobs :: other in more
    ensures FailureSettled(job, more)
  {
    if SettledByOthers(job, jobs) {
      var i :| 0 <= i < |jobs| && Settles(jobs[i], job);
      assert jobs[i] in more;
      var k :| 0 <= k < |more| && more[k] == jobs[i];
    }
  }

  /** What the server keeps: a repeat is created after the job it repeats. */
  ghost predicate RepeatsFollow(jobs: seq<Job>) {
    forall other <- jobs, job <- jobs :: Repeats(other, job) ==> Later(other, job)
  }

  /** A path from one record to a record that settles it, and on from there while that is settled by others. */
  ghost predicate Chain(path: seq<Job>, jobs: seq<Job>) {
    && path != [] && (forall job <- path :: job in jobs)
    && forall i | 0 <= i < |path| - 1 :: SettledByOthers(path[i], jobs) && Settles(path[i + 1], path[i])
  }

  /** Where following stops: not failed, dismissed, run again by BoxPilot, or left unsettled. */
  predicate Ended(job: Job, jobs: seq<Job>) { !SettledByOthers(job, jobs) }

  lemma SettlerIsLater(other: Job, job: Job, jobs: seq<Job>)
    requires RepeatsFollow(jobs) && other in jobs && job in jobs && Settles(other, job)
    ensures Later(other, job)
  {
  }

  lemma {:induction false} ChainClimbs(path: seq<Job>, jobs: seq<Job>, i: nat, j: nat)
    requires RepeatsFollow(jobs) && Chain(path, jobs) && i < j < |path|
    ensures Later(path[j], path[i])
    decreases j
  {
    SettlerIsLater(path[j], path[j - 1], jobs);
    if i < j - 1 { ChainClimbs(path, jobs, i, j - 1); }
  }

  lemma {:induction false} ElementsOf<T>(s: seq<T>)
    ensures |(set x <- s)| <= |s|
    ensures (forall i, j | 0 <= i < j < |s| :: s[i] != s[j]) ==> |(set x <- s)| == |s|
  {
    if s != [] {
      ElementsOf(s[1..]);
      assert (set x <- s) == {s[0]} + (set x <- s[1..]);
    }
  }

  /** Following settlers always terminates: no chain is longer than the history. */
  lemma ChainsAreShort(path: seq<Job>, jobs: seq<Job>)
    requires RepeatsFollow(jobs) && Chain(path, jobs)
    ensures |path| <= |jobs|
  {
    forall i, j | 0 <= i < j < |path| ensures path[i] != path[j] { ChainClimbs(path, jobs, i, j); }
    ElementsOf(path);
    ElementsOf(jobs);
    assert (set job <- path) <= (set job <- jobs);
    SubsetIsNoLarger((set job <- path), (set job <- jobs));
  }

  lemma {:induction false} SubsetIsNoLarger<T>(a: set<T>, b: set<T>)
    requires a <= b
    ensures |a| <= |b|
  {
    if a != {} {
      var x :| x in a;
      SubsetIsNoLarger(a - {x}, b - {x});
    }
  }

  lemma ChainGrows(path: seq<Job>, other: Job, jobs: seq<Job>)
    requires RepeatsFollow(jobs) && Chain(path, jobs) && other in jobs
    requires SettledByOthers(path[|path| - 1], jobs) && Settles(other, path[|path| - 1])
    ensures Chain(path + [other], jobs) && |path| < |jobs|
  {
    var longer := path + [other];
    forall i | 0 <= i < |longer| - 1 ensures SettledByOthers(longer[i], jobs) && Settles(longer[i + 1], longer[i]) {
      if i < |path| - 1 { assert SettledByOthers(path[i], jobs) && Settles(path[i + 1], path[i]); }
    }
    ChainsAreShort(longer, jobs);
  }

  /** Every chain that has not ended goes on, so following from any job ends at one that has. */
  lemma {:induction false} FollowingEnds(path: seq<Job>, jobs: seq<Job>) returns (whole: seq<Job>)
    requires RepeatsFollow(jobs) && Chain(path, jobs)
    ensures Chain(whole, jobs) && path <= whole && Ended(whole[|whole| - 1], jobs)
    decreases |jobs| - |path|
  {
    var last := path[|path| - 1];
    if Ended(last, jobs) {
      whole := path;
    } else {
      var i :| 0 <= i < |jobs| && Settles(jobs[i], last);
      ChainGrows(path, jobs[i], jobs);
      whole := FollowingEnds(path + [jobs[i]], jobs);
    }
  }

  predicate NeedsOwner(job: Job, jobs: seq<Job>) { job.state == "failed" && !FailureSettled(job, jobs) }

  /** Another record that tries the job again: with more time, after a restart, or by the same work done since. */
  predicate TriesAgain(other: Job, job: Job) {
    && other.id != job.id
    && (other.retryOf == Some(job.id) || other.rerunOf == Some(job.id)
        || (Work(other) == Work(job) && other.at.Some? && job.at.Some? && other.at.value > job.at.value
            && other.state != "failed" && other.state != "cancelled"))
  }

  /**
   * A job needs the owner exactly when it failed, was not dismissed, was not run again by BoxPilot after a
   * restart, and no other record tries it again.
   */
  lemma NeedsOwnerExactly(job: Job, jobs: seq<Job>)
    ensures NeedsOwner(job, jobs) <==>
      && job.state == "failed" && JobStep("dismissed", "completed") !in job.steps
      && JobStep("rerun", "started") !in job.steps && forall other <- jobs :: !TriesAgain(other, job)
  {
    StepIsThere(job, "dismissed", "completed");
    StepIsThere(job, "rerun", "started");
    forall i | 0 <= i < |jobs| ensures Settles(jobs[i], job) <==> TriesAgain(jobs[i], job) {}
    if exists other <- jobs :: TriesAgain(other, job) {
      var other :| other in jobs && TriesAgain(other, job);
      var i :| 0 <= i < |jobs| && jobs[i] == other;
      assert Settles(jobs[i], job);
    }
  }

  lemma StepIsThere(job: Job, name: string, state: string)
    ensures HasStep(job, name, state) <==> JobStep(name, state) in job.steps
  {
  }

  /**
   * From any failed job, following what settles it reaches a record that did not fail, a failure let go
   * of or run again, or a failure that is still shown; a cancelled record only as a repeat of the one before.
   */
  lemma NoFailureIsHidden(job: Job, jobs: seq<Job>)
    requires RepeatsFollow(jobs) && job in jobs && job.state == "failed"
    ensures exists path: seq<Job> ::
      && Chain(path, jobs) && path[0] == job
      && var last := path[|path| - 1];
         && (last.state != "failed" || Dismissed(last) || RanAgain(last) || NeedsOwner(last, jobs))
         && (last.state == "cancelled" ==> |path| > 1 && Repeats(last, path[|path| - 2]))
  {
    var path := FollowingEnds([job], jobs);
    assert path[0] == [job][0];
  }

  // --- Retries that were withdrawn ---

  /** The only failure is settled by a retry that was cancelled, and nothing is shown though nothing ran. */
  lemma CancelledRetryHides()
    ensures
      var a := Job("a", "op:x", "", "failed", [], map[], None, None, 0, Some(0));
      var b := Job("b", "op:x", "", "cancelled", [], map[], Some("a"), None, 1, Some(1));
      RepeatsFollow([a, b]) && !NeedsOwner(a, [a, b]) && LatestFailure([a, b]).None?
  {
    var a := Job("a", "op:x", "", "failed", [], map[], None, None, 0, Some(0));
    var b := Job("b", "op:x", "", "cancelled", [], map[], Some("a"), None, 1, Some(1));
    assert "a"[0] != "b"[0];
    assert Settles([a, b][1], a);
    LatestFailureIsTheNewest([a, b]);
  }

  /** Nothing settles the failure but records that were cancelled. */
  predicate SettledByCancelledAlone(job: Job, jobs: seq<Job>) {
    SettledByOthers(job, jobs) && forall other <- jobs | Settles(other, job) :: other.state == "cancelled"
  }

  /** Tried again with more time or after a restart, or the same work later done, running or waiting. */
  predicate TriedAgain(job: Job, jobs: seq<Job>) {
    exists other <- jobs | other.id != job.id ::
      && other.state != "cancelled"
      && (Repeats(other, job) || (other.state != "failed" && Work(other) == Work(job) && Later(other, job)))
  }

  /**
   * A failure neither dismissed nor run again is settled by cancelled records alone exactly when a repeat
   * of it was cancelled and it was not tried again.
   */
  lemma CancelledAloneExactly(job: Job, jobs: seq<Job>)
    requires job.state == "failed" && !Dismissed(job) && !RanAgain(job)
    ensures SettledByCancelledAlone(job, jobs) <==>
      (exists other <- jobs | other.id != job.id :: other.state == "cancelled" && Repeats(other, job))
      && !TriedAgain(job, jobs)
  {
    if exists other <- jobs | other.id != job.id :: other.state == "cancelled" && Repeats(other, job) {
      var other :| other in jobs && other.id != job.id && other.state == "cancelled" && Repeats(other, job);
      var i :| 0 <= i < |jobs| && jobs[i] == other;
      assert Settles(jobs[i], job);
    }
  }

  /** Following from it can reach work done, running or waiting, a failure let go of, or one still shown. */
  ghost predicate EndsWell(job: Job, jobs: seq<Job>) {
    exists path: seq<Job> ::
      && Chain(path, jobs) && path[0] == job
      && var last := path[|path| - 1];
         || (last.state != "failed" && last.state != "cancelled")
         || Dismissed(last) || RanAgain(last) || NeedsOwner(last, jobs)
  }

  /** Following settlers that were not cancelled, where each failure has one. */
  lemma {:induction false} FollowingWell(path: seq<Job>, jobs: seq<Job>) returns (whole: seq<Job>)
    requires RepeatsFollow(jobs) && Chain(path, jobs) && path[|path| - 1].state != "cancelled"
    requires forall job <- jobs :: !SettledByCancelledAlone(job, jobs)
    ensures Chain(whole, jobs) && path <= whole
    ensures Ended(whole[|whole| - 1], jobs) && whole[|whole| - 1].state != "cancelled"
    decreases |jobs| - |path|
  {
    var last := path[|path| - 1];
    if Ended(last, jobs) {
      whole := path;
    } else {
      assert last in jobs && !SettledByCancelledAlone(last, jobs);
      var other :| other in jobs && Settles(other, last) && other.state != "cancelled";
      ChainGrows(path, other, jobs);
      whole := FollowingWell(path + [other], jobs);
    }
  }

  lemma CancelledAloneEndsBadly(job: Job, jobs: seq<Job>)
    requires SettledByCancelledAlone(job, jobs)
    ensures !EndsWell(job, jobs)
  {
    forall path: seq<Job> | Chain(path, jobs) && path[0] == job
      ensures
        var last := path[|path| - 1];
        (last == job || last.state == "cancelled") && !Dismissed(last) && !RanAgain(last) && !NeedsOwner(last, jobs)
    {
      if |path| > 1 { assert path[1].state == "cancelled"; }
    }
  }

  /**
   * Retries never hide a failure for good, each leading on to work done, running or waiting, to a failure
   * let go of or to one still shown, exactly when no failure is settled by cancelled records alone.
   */
  lemma FailuresEndWellExactly(jobs: seq<Job>)
    requires RepeatsFollow(jobs)
    ensures (forall job <- jobs | job.state == "failed" :: EndsWell(job, jobs))
       <==> (forall job <- jobs :: !SettledByCancelledAlone(job, jobs))
  {
    forall job <- jobs | SettledByCancelledAlone(job, jobs) ensures job.state == "failed" && !EndsWell(job, jobs) {
      CancelledAloneEndsBadly(job, jobs);
    }
    if forall job <- jobs :: !SettledByCancelledAlone(job, jobs) {
      forall job <- jobs | job.state == "failed" ensures EndsWell(job, jobs) {
        var path := FollowingWell([job], jobs);
        assert path[0] == [job][0];
      }
    }
  }

  /** Were every record of a history a failure nobody let go of, some failure would be shown. */
  lemma AllFailedShowsOne(jobs: seq<Job>)
    requires RepeatsFollow(jobs) && jobs != []
    requires forall job <- jobs :: job.state == "failed" && !Dismissed(job) && !RanAgain(job)
    ensures exists job <- jobs :: NeedsOwner(job, jobs)
  {
    var path := FollowingEnds([jobs[0]], jobs);
    assert path[|path| - 1] in jobs;
  }

  /** Without that order of creation two retries of each other would settle both and show nothing. */
  lemma CycleHidesFailures()
    ensures
      var a := Job("a", "op:x", "", "failed", [], map[], Some("b"), None, 0, None);
      var b := Job("b", "op:x", "", "failed", [], map[], Some("a"), None, 0, None);
      !NeedsOwner(a, [a, b]) && !NeedsOwner(b, [a, b]) && !RepeatsFollow([a, b])
  {
    var a := Job("a", "op:x", "", "failed", [], map[], Some("b"), None, 0, None);
    var b := Job("b", "op:x", "", "failed", [], map[], Some("a"), None, 0, None);
    assert "a"[0] != "b"[0];
    assert Settles([a, b][1], a) && Settles([a, b][0], b);
    assert a in [a, b] && b in [a, b] && Repeats(a, b) && !Later(a, b);
  }

  // --- What the command bar and the dock are told ---

  function FirstNeeding(sorted: seq<Job>, jobs: seq<Job>): Option<Job> {
    if sorted == [] then None
    else if NeedsOwner(sorted[0], jobs) then Some(sorted[0])
    else FirstNeeding(sorted[1..], jobs)
  }

  function LatestFailure(jobs: seq<Job>): Option<Job> { FirstNeeding(Sort(jobs, Newer), jobs) }

  lemma {:induction false} FirstNeedingIsTop(sorted: seq<Job>, jobs: seq<Job>)
    requires Sorted(sorted, Newer)
    ensures match FirstNeeding(sorted, jobs)
            case None => forall job <- sorted :: !NeedsOwner(job, jobs)
            case Some(top) => top in sorted && NeedsOwner(top, jobs)
                              && forall job <- sorted | NeedsOwner(job, jobs) :: !Newer(job, top)
  {
    if sorted != [] && !NeedsOwner(sorted[0], jobs) {
      forall i, j | 0 <= i < j < |sorted[1..]| ensures !Newer(sorted[1..][j], sorted[1..][i]) {
        assert !Newer(sorted[j + 1], sorted[i + 1]);
      }
      FirstNeedingIsTop(sorted[1..], jobs);
    }
  }

  /** The failure offered is the newest that needs the owner, and one is offered exactly when one does. */
  lemma LatestFailureIsTheNewest(jobs: seq<Job>)
    ensures LatestFailure(jobs).Some? <==> exists job <- jobs :: NeedsOwner(job, jobs)
    ensures LatestFailure(jobs).Some? ==>
      var top := LatestFailure(jobs).value;
      top in jobs && NeedsOwner(top, jobs) && forall job <- jobs | NeedsOwner(job, jobs) :: job.rank <= top.rank
  {
    NewerIsStrictWeak();
    SortSorts(jobs, Newer);
    SortKeepsElements(jobs, Newer);
    FirstNeedingIsTop(Sort(jobs, Newer), jobs);
  }

  function AwaitingIds(jobs: seq<Job>): seq<Id> {
    if jobs == [] then []
    else (if jobs[0].state == "awaiting_approval" then [jobs[0].id] else []) + AwaitingIds(jobs[1..])
  }

  /** String order, by character. */
  predicate Before(a: Id, b: Id) {
    b != "" && (a == "" || a[0] < b[0] || (a[0] == b[0] && Before(a[1..], b[1..])))
  }

  function Waiting(jobs: seq<Job>): seq<Id> { Sort(AwaitingIds(jobs), Before) }

  /** What is offered of the latest failure. */
  datatype Offer = Offer(id: Id, title: string)

  function OfferFrom(jobs: seq<Job>): Option<Offer> {
    match LatestFailure(jobs)
    case None => None
    case Some(job) => Some(Offer(job.id, job.title))
  }

  /** The count the dock shows is of the jobs awaiting approval, each as often as it is listed. */
  lemma {:induction false} WaitingCountsAwaiting(jobs: seq<Job>)
    ensures forall id :: id in Waiting(jobs) <==> exists job <- jobs :: job.state == "awaiting_approval" && job.id == id
    ensures |Waiting(jobs)| == |AwaitingIds(jobs)|
  {
    SortKeepsElements(AwaitingIds(jobs), Before);
    if jobs != [] {
      WaitingCountsAwaiting(jobs[1..]);
      SortKeepsElements(AwaitingIds(jobs[1..]), Before);
      assert jobs == [jobs[0]] + jobs[1..];
    }
  }

  lemma {:induction false} BeforeIsTotal(a: Id, b: Id)
    ensures a == b || Before(a, b) || Before(b, a)
    ensures !(Before(a, b) && Before(b, a)) && !Before(a, a)
  {
    if a != "" { BeforeIsTotal(a[1..], a[1..]); }
    if a != "" && b != "" {
      BeforeIsTotal(a[1..], b[1..]);
      assert a == [a[0]] + a[1..] && b == [b[0]] + b[1..];
    }
  }

  lemma {:induction false} BeforeChains(a: Id, b: Id, c: Id)
    requires Before(a, b) && Before(b, c)
    ensures Before(a, c)
  {
    if a != "" && a[0] == b[0] && b[0] == c[0] { BeforeChains(a[1..], b[1..], c[1..]); }
  }

  lemma BeforeIsStrictWeak()
    ensures StrictWeak(Before)
  {
    forall a ensures !Before(a, a) { BeforeIsTotal(a, a); }
    forall a, b, c | Before(a, b) && Before(b, c) ensures Before(a, c) { BeforeChains(a, b, c); }
    forall a, b, c | Before(a, c) ensures Before(a, b) || Before(b, c) {
      BeforeIsTotal(a, b);
      if Before(b, a) { BeforeChains(b, a, c); }
    }
  }

  lemma Appended<T>(a: seq<T>, b: seq<T>, c: seq<T>)
    ensures a + b + c == a + (b + c)
  {
  }

  lemma {:induction false} AwaitingParts(a: seq<Job>, b: seq<Job>)
    ensures AwaitingIds(a + b) == AwaitingIds(a) + AwaitingIds(b)
  {
    if a == [] {
      assert a + b == b;
    } else {
      var head := if a[0].state == "awaiting_approval" then [a[0].id] else [];
      AwaitingParts(a[1..], b);
      assert (a + b)[1..] == a[1..] + b && (a + b)[0] == a[0];
      assert AwaitingIds(a + b) == head + AwaitingIds(a[1..] + b);
      Appended(head, AwaitingIds(a[1..]), AwaitingIds(b));
    }
  }

  lemma {:induction false} AwaitingForgetsOrder(jobs: seq<Job>, more: seq<Job>)
    requires multiset(jobs) == multiset(more)
    ensures multiset(AwaitingIds(jobs)) == multiset(AwaitingIds(more))
  {
    SameLength(jobs, more);
    if jobs != [] {
      var a, b := TakenOut(jobs, more);
      assert jobs == [jobs[0]] + jobs[1..];
      AwaitingForgetsOrder(jobs[1..], a + b);
      AwaitingParts(a, b);
      AwaitingParts(a, [jobs[0]] + b);
      AwaitingParts([jobs[0]], b);
      AwaitingParts([jobs[0]], jobs[1..]);
    }
  }

  /** The ids kept do not depend on the order the jobs are listed in, so a list that is only reordered is no news. */
  lemma WaitingForgetsOrder(jobs: seq<Job>, more: seq<Job>)
    requires multiset(jobs) == multiset(more)
    ensures Waiting(jobs) == Waiting(more)
  {
    AwaitingForgetsOrder(jobs, more);
    BeforeIsStrictWeak();
    SortSorts(AwaitingIds(jobs), Before);
    SortSorts(AwaitingIds(more), Before);
    SortKeepsElements(AwaitingIds(jobs), Before);
    SortKeepsElements(AwaitingIds(more), Before);
    forall a: Id, b: Id ensures a == b || Before(a, b) || Before(b, a) { BeforeIsTotal(a, b); }
    SortedOnce(Waiting(jobs), Waiting(more), Before);
  }

  /** The module's variables, and how often its listeners were told. */
  class ApprovalsWaiting {
    var waiting: seq<Id>
    var unsettled: Option<Offer>
    var told: nat

    constructor ()
      ensures waiting == [] && unsettled == None && told == 0
    {
      waiting, unsettled, told := [], None, 0;
    }

    /**
     * Whatever was kept before, what is kept now is a function of this list alone; listeners hear exactly
     * of changes.
     */
    method Publish(jobs: seq<Job>)
      modifies this
      ensures waiting == Waiting(jobs) && unsettled == OfferFrom(jobs)
      ensures told == old(told) + if waiting == old(waiting) && unsettled == old(unsettled) then 0 else 1
    {
      var next, nextFailed := Waiting(jobs), OfferFrom(jobs);
      var sameWaiting := |next| == |waiting| && forall i | 0 <= i < |next| :: next[i] == waiting[i];
      var sameFailed := nextFailed == unsettled;
      if sameWaiting && sameFailed { return; }
      waiting := next;
      if !sameFailed { unsettled := nextFailed; }
      told := told + 1;
    }
  }
}
