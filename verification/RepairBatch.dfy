/**
 * src/repair/useRepairFixes.tsx: "Fix the safe ones". A batch stages, approves and follows each
 * low-risk fix in turn against whatever the server answers, and settles all verdicts from one scan.
 */
module RepairBatch {
  import opened Wrappers

  type Id = string

  datatype Phase = Queued | Running | Checking | Fixed | Still

  /** What approving a staged job asks for; an empty typed confirmation asks for none. */
  datatype Asks = Asks(low: bool, passwordRequired: bool, confirmText: string) {
    predicate OneClick() { low && !passwordRequired && confirmText == "" }
  }

  /** How one entry's requests go: staging, then approving, then waiting for the job's end. */
  datatype Answer = Answer(
    staged: bool, job: Id, asks: Asks, approved: bool, followed: bool, completed: bool,
    leaves: Leaves)

  /** At which of an entry's awaits the page goes away, if it does. */
  datatype Leaves = Stays | WhileStaging | WhileCancelling | WhileApproving | WhileFollowing

  datatype Entry = Entry(finding: Id, answer: Answer)

  datatype Request =
    | Stage(finding: Id) | Cancel(job: Id) | Record(job: Id) | Approve(job: Id) | Follow(job: Id) | Rescan

  /** A finished job of the batch, by the finding it was to fix. */
  datatype Finished = Finished(finding: Id, job: Id, completed: bool)

  predicate Finishes(e: Entry) {
    e.answer.staged && e.answer.asks.OneClick() && e.answer.approved && e.answer.followed
  }

  /** The server asked for more than the one click a batch may give. */
  predicate Stops(e: Entry) { e.answer.staged && !e.answer.asks.OneClick() }

  /** The page goes away at an await the entry comes to. */
  predicate LeavesDuring(e: Entry) {
    var a := e.answer;
    match a.leaves
    case Stays => false
    case WhileStaging => true
    case WhileCancelling => a.staged && !a.asks.OneClick()
    case WhileApproving => a.staged && a.asks.OneClick()
    case WhileFollowing => a.staged && a.asks.OneClick() && a.approved
  }

  /** The requests one entry makes while the batch is still running. */
  function RequestsOf(e: Entry): seq<Request> {
    var a := e.answer;
    [Stage(e.finding)]
    + if !a.staged then []
      else if !a.asks.OneClick() then [Cancel(a.job)]
      else [Record(a.job), Approve(a.job)] + if a.approved then [Follow(a.job)] else []
  }

  /** Where the loop stands after its first entries. */
  datatype Progress = Progress(requests: seq<Request>, done: seq<Finished>, stopped: bool, left: bool, returned: bool)

  function Worked(entries: seq<Entry>): Progress {
    if entries == [] then Progress([], [], false, false, false)
    else Further(Worked(entries[..|entries| - 1]), entries[|entries| - 1])
  }

  function Further(p: Progress, e: Entry): Progress {
    if p.returned || p.stopped then p
    else
      var left := p.left || LeavesDuring(e);
      Progress(
        p.requests + RequestsOf(e),
        if Finishes(e) then p.done + [FinishedOf(e)] else p.done,
        Stops(e), left, left && !Stops(e))
  }

  lemma WorkedFurther(entries: seq<Entry>, i: nat)
    requires i < |entries|
    ensures Worked(entries[..i + 1]) == Further(Worked(entries[..i]), entries[i])
  {
    assert entries[..i + 1][..i] == entries[..i];
  }

  function FinishedOf(e: Entry): Finished { Finished(e.finding, e.answer.job, e.answer.completed) }

  /** All the batch asks of the server. */
  function Requests(entries: seq<Entry>): seq<Request> {
    var p := Worked(entries);
    p.requests + if !p.returned && p.done != [] then [Rescan] else []
  }

  /** The verdict on one finding: fixed only where its own job completed and a readable scan no longer holds it. */
  function Verdict(finished: Finished, scan: Option<set<Id>>): Phase {
    if finished.completed && scan.Some? && finished.finding !in scan.value then Fixed else Still
  }

  // --- What the batch may ask ---

  /** Every job approved was staged by the batch at one click, and its approval comes after its staging. */
  lemma {:induction false} OnlyOneClickIsApproved(entries: seq<Entry>, i: nat)
    requires i < |Worked(entries).requests| && Worked(entries).requests[i].Approve?
    ensures i >= 2 && exists e <- entries ::
      && e.answer.staged && e.answer.asks.low && !e.answer.asks.passwordRequired && e.answer.asks.confirmText == ""
      && Worked(entries).requests[i - 2] == Stage(e.finding) && Worked(entries).requests[i] == Approve(e.answer.job)
  {
    var before, e := Worked(entries[..|entries| - 1]), entries[|entries| - 1];
    if i < |before.requests| {
      OnlyOneClickIsApproved(entries[..|entries| - 1], i);
    } else {
      assert Worked(entries).requests[i] == RequestsOf(e)[i - |before.requests|];
      assert Worked(entries).requests[i - 2] == RequestsOf(e)[i - 2 - |before.requests|];
      assert e in entries;
    }
  }

  /** Once the server asks for more, its job is cancelled and nothing after it is ever staged. */
  lemma {:induction false} StopsAtTheFirstAskForMore(entries: seq<Entry>, k: nat)
    requires k < |entries| && Stops(entries[k])
    requires !Worked(entries[..k]).returned && !Worked(entries[..k]).stopped
    ensures Worked(entries).requests
         == Worked(entries[..k]).requests + [Stage(entries[k].finding), Cancel(entries[k].answer.job)]
    ensures Worked(entries).stopped && !Worked(entries).returned && Worked(entries).done == Worked(entries[..k]).done
  {
    if k == |entries| - 1 {
      assert entries[..k] == entries[..|entries| - 1];
    } else {
      assert entries[..|entries| - 1][..k] == entries[..k];
      StopsAtTheFirstAskForMore(entries[..|entries| - 1], k);
    }
  }

  /** What is stopped has an entry that stopped it, before which nothing did. */
  lemma {:induction false} StoppedByOne(entries: seq<Entry>) returns (k: nat)
    requires Worked(entries).stopped
    ensures k < |entries| && Stops(entries[k]) && !Worked(entries[..k]).stopped && !Worked(entries[..k]).returned
  {
    var before := entries[..|entries| - 1];
    if Worked(before).stopped {
      k := StoppedByOne(before);
      assert before[..k] == entries[..k];
    } else {
      k := |entries| - 1;
    }
  }

  /** The batch comes to entry k: no entry before it was asked for more, and the page did not go away during one. */
  predicate Reached(entries: seq<Entry>, k: nat)
    requires k <= |entries|
  {
    forall j | 0 <= j < k :: !Stops(entries[j]) && !LeavesDuring(entries[j])
  }

  lemma {:induction false} WorkingExactlyWhileReached(entries: seq<Entry>, k: nat)
    requires k <= |entries|
    ensures Reached(entries, k) <==> !Worked(entries[..k]).stopped && !Worked(entries[..k]).returned
    ensures Reached(entries, k) ==> !Worked(entries[..k]).left
  {
    if k > 0 {
      WorkingExactlyWhileReached(entries, k - 1);
      WorkedFurther(entries, k - 1);
      if Reached(entries, k) { assert Reached(entries, k - 1); }
    }
  }

  /** Where the requests of the entries up to k end. */
  function End(entries: seq<Entry>, k: nat): nat
    requires k <= |entries|
  {
    |Worked(entries[..k]).requests|
  }

  lemma {:induction false} StandsFrom(entries: seq<Entry>, k: nat)
    requires k < |entries| && Reached(entries, k)
    ensures Worked(entries[..k]).requests + RequestsOf(entries[k]) <= Worked(entries).requests
    ensures End(entries, k + 1) == End(entries, k) + |RequestsOf(entries[k])|
  {
    WorkingExactlyWhileReached(entries, k);
    WorkedFurther(entries, k);
    GrowsOn(entries, k + 1);
  }

  lemma {:induction false} GrowsOn(entries: seq<Entry>, k: nat)
    requires k <= |entries|
    ensures Worked(entries[..k]).requests <= Worked(entries).requests
  {
    if k == |entries| {
      assert entries[..k] == entries;
    } else {
      assert entries[..|entries| - 1][..k] == entries[..k];
      GrowsOn(entries[..|entries| - 1], k);
    }
  }

  /** The entry a request is made for. */
  lemma {:induction false} MadeFor(entries: seq<Entry>, i: nat) returns (k: nat)
    requires i < |Worked(entries).requests|
    ensures k < |entries| && Reached(entries, k)
    ensures End(entries, k) <= i < End(entries, k) + |RequestsOf(entries[k])|
    ensures Worked(entries).requests[i] == RequestsOf(entries[k])[i - End(entries, k)]
  {
    var before := entries[..|entries| - 1];
    k := |entries| - 1;
    if i < |Worked(before).requests| {
      k := MadeFor(before, i);
      assert before[..k] == entries[..k];
    } else {
      assert entries[..k] == before;
      WorkingExactlyWhileReached(entries, k);
    }
  }

  /** The last request but the scan: no entry is gone through after one that stops the batch. */
  lemma {:induction false} NothingAfterAStop(entries: seq<Entry>, k: nat)
    requires k < |entries| && Reached(entries, k) && Stops(entries[k])
    ensures |Worked(entries).requests| == End(entries, k) + 2
  {
    WorkingExactlyWhileReached(entries, k);
    StopsAtTheFirstAskForMore(entries, k);
  }

  /**
   * A job is cancelled only right after its staging, only when it asked for more than one click, and that
   * ends the batch's requests, but for the one scan.
   */
  lemma CancelledOnlyForMore(entries: seq<Entry>, i: nat)
    requires i < |Requests(entries)| && Requests(entries)[i].Cancel?
    ensures i > 0 && (i == |Requests(entries)| - 1 || Requests(entries)[i + 1..] == [Rescan])
    ensures exists e <- entries ::
      && e.answer.staged
      && (!e.answer.asks.low || e.answer.asks.passwordRequired || e.answer.asks.confirmText != "")
      && Requests(entries)[i - 1] == Stage(e.finding) && Requests(entries)[i] == Cancel(e.answer.job)
  {
    var k := MadeFor(entries, i);
    StandsFrom(entries, k);
    NothingAfterAStop(entries, k);
    assert entries[k] in entries;
  }

  /** Where entry k's own requests stand. */
  lemma RequestsStand(entries: seq<Entry>, k: nat, o: nat)
    requires k < |entries| && Reached(entries, k) && o < |RequestsOf(entries[k])|
    ensures End(entries, k) + o < |Requests(entries)|
    ensures Requests(entries)[End(entries, k) + o] == RequestsOf(entries[k])[o]
  {
    StandsFrom(entries, k);
  }

  predicate Names(request: Request, job: Id) { !request.Stage? && !request.Rescan? && request.job == job }

  /** Each job staged belongs to one entry. */
  predicate OwnJobs(entries: seq<Entry>) {
    forall i, j | 0 <= i < j < |entries| && entries[i].answer.staged && entries[j].answer.staged ::
      entries[i].answer.job != entries[j].answer.job
  }

  /** A request that names an entry's job is one of that entry's own. */
  lemma NamedByItsOwn(entries: seq<Entry>, k: nat, i: nat)
    requires OwnJobs(entries) && k < |entries| && entries[k].answer.staged
    requires i < |Requests(entries)| && Names(Requests(entries)[i], entries[k].answer.job)
    ensures Reached(entries, k) && End(entries, k) < i < End(entries, k) + |RequestsOf(entries[k])|
  {
    var owner := MadeFor(entries, i);
    assert owner == k;
  }

  /**
   * Each entry the batch comes to whose job asks for one click is staged, its attempt recorded and its
   * approval sent, one after the other; the job is followed next exactly when the approval went through;
   * and no other request names it.
   */
  lemma OneClickInOrder(entries: seq<Entry>, k: nat) returns (i: nat)
    requires OwnJobs(entries) && k < |entries| && Reached(entries, k)
    requires var a := entries[k].answer;
      a.staged && a.asks.low && !a.asks.passwordRequired && a.asks.confirmText == ""
    ensures i + 2 < |Requests(entries)|
    ensures
      var asked, job := Requests(entries), entries[k].answer.job;
      && asked[i] == Stage(entries[k].finding) && asked[i + 1] == Record(job) && asked[i + 2] == Approve(job)
      && (entries[k].answer.approved <==> i + 3 < |asked| && asked[i + 3] == Follow(job))
      && (forall r | 0 <= r < |asked| && Names(asked[r], job) :: i < r <= i + 3)
  {
    i := End(entries, k);
    var asked, job := Requests(entries), entries[k].answer.job;
    RequestsStand(entries, k, 0);
    RequestsStand(entries, k, 1);
    RequestsStand(entries, k, 2);
    if entries[k].answer.approved { RequestsStand(entries, k, 3); }
    forall r | 0 <= r < |asked| && Names(asked[r], job) ensures i < r < i + |RequestsOf(entries[k])| {
      NamedByItsOwn(entries, k, r);
    }
    assert i + 3 < |asked| && asked[i + 3] == Follow(job) ==> Names(asked[i + 3], job);
  }

  /** An entry is staged exactly when the batch comes to it, and then once. */
  lemma StagedExactlyWhenReached(entries: seq<Entry>, k: nat)
    requires Distinct(entries) && k < |entries|
    ensures Reached(entries, k) <==> Stage(entries[k].finding) in Requests(entries)
    ensures forall i, j | 0 <= i < j < |Requests(entries)| && Requests(entries)[i] == Stage(entries[k].finding) ::
      Requests(entries)[j] != Requests(entries)[i]
  {
    if Reached(entries, k) { RequestsStand(entries, k, 0); }
    forall i | 0 <= i < |Requests(entries)| && Requests(entries)[i] == Stage(entries[k].finding)
      ensures Reached(entries, k) && i == End(entries, k)
    {
      var owner := MadeFor(entries, i);
      assert owner == k;
    }
  }

  // --- What the cards say ---

  type Runs = map<Id, Phase>

  /** Each finding belongs to one entry. */
  ghost predicate Distinct(entries: seq<Entry>) {
    forall i, j | 0 <= i < j < |entries| :: entries[i].finding != entries[j].finding
  }

  /** Entry k was reached before the batch stopped and its job ran to an end the batch saw. */
  predicate RanToEnd(entries: seq<Entry>, k: nat)
    requires k < |entries|
  {
    !Worked(entries[..k]).stopped && Finishes(entries[k])
  }

  /** How each card ends: with the scan's verdict where its own job ran to an end, otherwise still there. */
  function Outcome(entries: seq<Entry>, k: nat, scan: Option<set<Id>>): Phase
    requires k < |entries|
  {
    if RanToEnd(entries, k) then Verdict(FinishedOf(entries[k]), scan) else Still
  }

  lemma {:induction false} ReturnedEarly(entries: seq<Entry>, i: nat)
    requires i <= |entries| && Worked(entries[..i]).returned
    ensures Worked(entries) == Worked(entries[..i])
  {
    if i == |entries| {
      assert entries[..i] == entries;
    } else {
      assert entries[..|entries| - 1][..i] == entries[..i];
      ReturnedEarly(entries[..|entries| - 1], i);
    }
  }

  lemma {:induction false} DoneHasEachFinished(entries: seq<Entry>, k: nat)
    requires k < |entries| && !Worked(entries).returned
    ensures RanToEnd(entries, k) ==> FinishedOf(entries[k]) in Worked(entries).done
  {
    var before := entries[..|entries| - 1];
    if k < |before| {
      assert before[..k] == entries[..k];
      DoneHasEachFinished(before, k);
    } else if RanToEnd(entries, k) {
      assert entries[..k] == before;
    }
  }

  lemma {:induction false} DoneHasOnlyFinished(entries: seq<Entry>, i: nat) returns (k: nat)
    requires i < |Worked(entries).done|
    ensures k < |entries| && RanToEnd(entries, k) && Worked(entries).done[i] == FinishedOf(entries[k])
  {
    var before := entries[..|entries| - 1];
    if i < |Worked(before).done| {
      k := DoneHasOnlyFinished(before, i);
      assert before[..k] == entries[..k];
    } else {
      k := |entries| - 1;
      assert entries[..k] == before;
    }
  }

  lemma NotRunNotDone(entries: seq<Entry>, k: nat)
    requires Distinct(entries) && k < |entries| && !RanToEnd(entries, k)
    ensures forall i | 0 <= i < |Worked(entries).done| :: Worked(entries).done[i].finding != entries[k].finding
  {
    forall i | 0 <= i < |Worked(entries).done| ensures Worked(entries).done[i].finding != entries[k].finding {
      var other := DoneHasOnlyFinished(entries, i);
      assert other != k;
    }
  }

  ghost predicate Apart(done: seq<Finished>) {
    forall i, j | 0 <= i < j < |done| :: done[i].finding != done[j].finding
  }

  lemma {:induction false} DoneIsApart(entries: seq<Entry>)
    requires Distinct(entries)
    ensures Apart(Worked(entries).done)
  {
    if entries != [] {
      var before := entries[..|entries| - 1];
      DoneIsApart(before);
      forall i | 0 <= i < |Worked(before).done|
        ensures Worked(before).done[i].finding != entries[|entries| - 1].finding
      {
        var k := DoneHasOnlyFinished(before, i);
      }
    }
  }

  /** While the page stays, the batch is stopped exactly when some entry was asked for more. */
  lemma {:induction false} StoppedExactly(entries: seq<Entry>)
    requires !Worked(entries).left
    ensures Worked(entries).stopped <==> exists j | 0 <= j < |entries| :: Stops(entries[j])
    ensures !Worked(entries).returned
  {
    if entries != [] {
      var before := entries[..|entries| - 1];
      StoppedExactly(before);
      if Worked(before).stopped {
        var j :| 0 <= j < |before| && Stops(before[j]);
        assert Stops(entries[j]);
      }
      assert forall j | 0 <= j < |before| :: before[j] == entries[j];
    }
  }

  lemma {:induction false} NotLeftBefore(entries: seq<Entry>, k: nat)
    requires k <= |entries| && !Worked(entries).left
    ensures !Worked(entries[..k]).left
  {
    if k == |entries| {
      assert entries[..k] == entries;
    } else {
      assert entries[..|entries| - 1][..k] == entries[..k];
      NotLeftBefore(entries[..|entries| - 1], k);
    }
  }

  /**
   * While the page stays, a card ends fixed exactly when no entry before it was asked for more, its own
   * job asked for one click, was approved, followed and completed, and a readable scan read after the
   * last job no longer holds its finding. Every other card ends still.
   */
  lemma FixedExactlyWhen(entries: seq<Entry>, k: nat, scan: Option<set<Id>>)
    requires k < |entries| && !Worked(entries).left
    ensures Outcome(entries, k, scan) == Fixed || Outcome(entries, k, scan) == Still
    ensures
      var a := entries[k].answer;
      Outcome(entries, k, scan) == Fixed <==>
        && (forall j | 0 <= j < k :: !Stops(entries[j]))
        && a.staged && a.asks.OneClick() && a.approved && a.followed && a.completed
        && scan.Some? && entries[k].finding !in scan.value
  {
    NotLeftBefore(entries, k);
    StoppedExactly(entries[..k]);
    assert forall j | 0 <= j < k :: entries[..k][j] == entries[j];
  }

  /** The one scan is read after every other request, and only if some job of the batch was seen to end. */
  lemma {:induction false} RescanComesLast(entries: seq<Entry>, i: nat)
    requires i < |Requests(entries)| && Requests(entries)[i] == Rescan
    ensures i == |Requests(entries)| - 1 && Worked(entries).done != []
  {
    if i < |Worked(entries).requests| { NoRescanWhileWorking(entries, i); }
  }

  lemma {:induction false} NoRescanWhileWorking(entries: seq<Entry>, i: nat)
    requires i < |Worked(entries).requests|
    ensures Worked(entries).requests[i] != Rescan
  {
    var before, e := Worked(entries[..|entries| - 1]), entries[|entries| - 1];
    if i < |before.requests| {
      NoRescanWhileWorking(entries[..|entries| - 1], i);
    } else {
      assert Worked(entries).requests[i] == RequestsOf(e)[i - |before.requests|];
    }
  }

  /** The page goes away while the batch still works on entry k. */
  predicate GoesAway(entries: seq<Entry>, k: nat)
    requires k < |entries|
  {
    Reached(entries, k) && LeavesDuring(entries[k]) && !Stops(entries[k])
  }

  lemma {:induction false} ReturnedExactly(entries: seq<Entry>)
    ensures Worked(entries).returned <==> exists k | 0 <= k < |entries| :: GoesAway(entries, k)
  {
    if entries != [] {
      var last := |entries| - 1;
      var before := entries[..last];
      ReturnedExactly(before);
      forall k | 0 <= k < last ensures GoesAway(entries, k) <==> GoesAway(before, k) {
        assert forall j | 0 <= j <= k :: before[j] == entries[j];
      }
      WorkingExactlyWhileReached(entries, last);
      assert Worked(entries) == Further(Worked(before), entries[last]);
      if Worked(before).returned {
        var k :| 0 <= k < last && GoesAway(before, k);
        assert GoesAway(entries, k);
      } else {
        assert Worked(entries).returned <==> GoesAway(entries, last);
      }
    }
  }

  /** The scan is read exactly when some job was followed to its end and the page had not gone away meanwhile. */
  lemma RescannedExactly(entries: seq<Entry>)
    ensures Rescan in Requests(entries) <==>
      && (forall k | 0 <= k < |entries| :: !GoesAway(entries, k))
      && exists k | 0 <= k < |entries| :: Reached(entries, k) && Finishes(entries[k])
  {
    var p := Worked(entries);
    ReturnedExactly(entries);
    if Rescan in Requests(entries) {
      var i :| 0 <= i < |Requests(entries)| && Requests(entries)[i] == Rescan;
      RescanComesLast(entries, i);
      if i < |p.requests| { NoRescanWhileWorking(entries, i); }
      var k := DoneHasOnlyFinished(entries, 0);
      FinishedWasReached(entries, k);
    } else if !p.returned {
      forall k | 0 <= k < |entries| && Reached(entries, k) ensures !Finishes(entries[k]) {
        WorkingExactlyWhileReached(entries, k);
        DoneHasEachFinished(entries, k);
        RescanFollows(entries);
      }
    }
  }

  lemma RescanFollows(entries: seq<Entry>)
    ensures !Worked(entries).returned && Worked(entries).done != [] ==> Rescan in Requests(entries)
  {
    var p := Worked(entries);
    assert !p.returned && p.done != [] ==> Requests(entries)[|p.requests|] == Rescan;
  }

  lemma FinishedWasReached(entries: seq<Entry>, k: nat)
    requires k < |entries| && RanToEnd(entries, k) && !Worked(entries).returned
    ensures Reached(entries, k)
  {
    WorkingExactlyWhileReached(entries, k);
    if Worked(entries[..k]).returned { ReturnedEarly(entries, k); }
  }

  /** The cards of the entries gone through: those with no job seen to end say "still". */
  ghost predicate CardsSoFar(entries: seq<Entry>, i: nat, runs: Runs)
    requires i <= |entries|
  {
    forall k | 0 <= k < i :: entries[k].finding in runs && (!RanToEnd(entries, k) ==> runs[entries[k].finding] == Still)
  }

  lemma CardFurther(entries: seq<Entry>, i: nat, runs: Runs, phase: Phase)
    requires Distinct(entries) && i < |entries| && CardsSoFar(entries, i, runs)
    requires !RanToEnd(entries, i) ==> phase == Still
    ensures CardsSoFar(entries, i + 1, runs[entries[i].finding := phase])
  {
  }

  lemma Concatenated<T>(a: seq<T>, b: seq<T>, c: seq<T>)
    ensures a + b + c == a + (b + c)
  {
  }

  class Page {
    var runs: Runs
    var live: bool
    var busy: bool
    var requests: seq<Request>

    constructor ()
      ensures runs == map[] && live && !busy && requests == []
    {
      runs, live, busy, requests := map[], true, false, [];
    }

    method Set(id: Id, phase: Phase)
      modifies `runs
      ensures runs == if live then old(runs)[id := phase] else old(runs)
    {
      if live { runs := runs[id := phase]; }
    }

    method Ask(request: Request)
      modifies `requests
      ensures requests == old(requests) + [request]
    {
      requests := requests + [request];
    }

    /** The verdict for each finished job, from one fresh read of the scan, during which the page may go away. */
    method Settle(done: seq<Finished>, scan: Option<set<Id>>, leaves: bool)
      requires Apart(done)
      modifies `runs, `live, `requests
      ensures requests == old(requests) + [Rescan]
      ensures live == (old(live) && !leaves)
      ensures !old(live) ==> runs == old(runs)
      ensures live ==> forall i | 0 <= i < |done| ::
        done[i].finding in runs && runs[done[i].finding] == Verdict(done[i], scan)
      ensures forall id | id in old(runs) && (forall i | 0 <= i < |done| :: done[i].finding != id) ::
        id in runs && runs[id] == old(runs)[id]
    {
      for i := 0 to |done|
        invariant requests == old(requests) && live == old(live)
        invariant !live ==> runs == old(runs)
        invariant forall id | id in old(runs) && (forall j | 0 <= j < |done| :: done[j].finding != id) ::
          id in runs && runs[id] == old(runs)[id]
      {
        Set(done[i].finding, Checking);
      }
      Ask(Rescan);
      live := live && !leaves;
      for i := 0 to |done|
        invariant requests == old(requests) + [Rescan] && live == (old(live) && !leaves)
        invariant !old(live) ==> runs == old(runs)
        invariant live ==> forall j | 0 <= j < i ::
          done[j].finding in runs && runs[done[j].finding] == Verdict(done[j], scan)
        invariant forall id | id in old(runs) && (forall j | 0 <= j < |done| :: done[j].finding != id) ::
          id in runs && runs[id] == old(runs)[id]
      {
        Set(done[i].finding, Verdict(done[i], scan));
      }
    }

    /** One fix run from its own dialog: followed to its end, or lost sight of, and settled by a fresh scan. */
    method FollowOne(
      finding: Id, job: Id, completed: Option<bool>, scan: Option<set<Id>>, leavesFollowing: bool, leavesAtScan: bool)
      modifies `runs, `live, `requests
      ensures live ==> finding in runs
      ensures live ==>
        runs[finding] == if completed.Some? then Verdict(Finished(finding, job, completed.value), scan) else Still
      ensures live == (old(live) && !leavesFollowing && !(completed.Some? && leavesAtScan))
      ensures requests == old(requests) + [Follow(job)] + if completed.Some? then [Rescan] else []
    {
      Set(finding, Running);
      Ask(Follow(job));
      live := live && !leavesFollowing;
      if completed.None? {
        Set(finding, Still);
        return;
      }
      Settle([Finished(finding, job, completed.value)], scan, leavesAtScan);
      assert live ==> [Finished(finding, job, completed.value)][0].finding in runs;
    }

    /** One entry against the server, up to its own end. */
    method Work(e: Entry) returns (finished: Option<Finished>, stops: bool)
      modifies `runs, `live, `requests
      ensures requests == old(requests) + RequestsOf(e)
      ensures live == (old(live) && !LeavesDuring(e))
      ensures stops == Stops(e)
      ensures finished == if Finishes(e) then Some(FinishedOf(e)) else None
      ensures live ==>
        && e.finding in runs && runs == old(runs)[e.finding := runs[e.finding]]
        && runs[e.finding] == if Finishes(e) && e.answer.completed then Checking else Still
    {
      finished, stops := None, false;
      var a := e.answer;
      Ask(Stage(e.finding));
      live := live && !a.leaves.WhileStaging?;
      if !a.staged {
        Set(e.finding, Still);
        return;
      }
      if a.asks.passwordRequired || !a.asks.low || a.asks.confirmText != "" {
        Ask(Cancel(a.job));
        live := live && !a.leaves.WhileCancelling?;
        stops := true;
        Set(e.finding, Still);
        return;
      }
      Ask(Record(a.job));
      Ask(Approve(a.job));
      live := live && !a.leaves.WhileApproving?;
      if !a.approved {
        Set(e.finding, Still);
        return;
      }
      finished := FollowEntry(e);
    }

    /** An approved entry's job, to its end or to where it was lost sight of. */
    method FollowEntry(e: Entry) returns (finished: Option<Finished>)
      modifies `runs, `live, `requests
      ensures requests == old(requests) + [Follow(e.answer.job)]
      ensures live == (old(live) && !e.answer.leaves.WhileFollowing?)
      ensures finished == if e.answer.followed then Some(FinishedOf(e)) else None
      ensures live ==>
        runs == old(runs)[e.finding := if e.answer.followed && e.answer.completed then Checking else Still]
    {
      var a := e.answer;
      Set(e.finding, Running);
      Ask(Follow(a.job));
      live := live && !a.leaves.WhileFollowing?;
      if !a.followed {
        Set(e.finding, Still);
        return None;
      }
      Set(e.finding, if a.completed then Checking else Still);
      finished := Some(FinishedOf(e));
    }

    /** The loop over the entries, up to its end or to the page going away. */
    method WorkAll(entries: seq<Entry>) returns (done: seq<Finished>, returned: bool)
      requires Distinct(entries) && live
      modifies `runs, `live, `requests
      ensures var p := Worked(entries);
        && requests == old(requests) + p.requests && done == p.done
        && live == !p.left && returned == p.returned && (returned ==> !live)
      ensures live ==> CardsSoFar(entries, |entries|, runs)
    {
      done := [];
      var stopped := false;
      ghost var p := Worked([]);
      for i := 0 to |entries|
        invariant p == Worked(entries[..i])
        invariant requests == old(requests) + p.requests && done == p.done && stopped == p.stopped
        invariant live == !p.left && !p.returned
        invariant live ==> CardsSoFar(entries, i, runs)
      {
        ghost var before, earlier := runs, p;
        WorkedFurther(entries, i);
        p := Further(p, entries[i]);
        if stopped {
          Set(entries[i].finding, Still);
          if live { CardFurther(entries, i, before, Still); }
        } else {
          var finished, stops := Work(entries[i]);
          Concatenated(old(requests), earlier.requests, RequestsOf(entries[i]));
          if finished.Some? { done := done + [finished.value]; }
          stopped := stops;
          if live {
            CardFurther(entries, i, before, runs[entries[i].finding]);
          } else if !stops {
            ReturnedEarly(entries, i + 1);
            return done, true;
          }
        }
      }
      assert entries[..|entries|] == entries;
      returned := false;
    }

    /** The whole batch; the page may go away at any of its awaits. */
    method RunBatch(entries: seq<Entry>, scan: Option<set<Id>>, leavesAtScan: bool)
      requires Distinct(entries) && live
      modifies this
      ensures requests == old(requests) + Requests(entries)
      ensures live == (!Worked(entries).left && !(Worked(entries).done != [] && leavesAtScan))
      ensures live ==> !busy
      ensures live ==> forall k | 0 <= k < |entries| ::
        entries[k].finding in runs && runs[entries[k].finding] == Outcome(entries, k, scan)
    {
      busy := true;
      for i := 0 to |entries|
        invariant live && requests == old(requests)
      {
        Set(entries[i].finding, Queued);
      }
      var done, returned := WorkAll(entries);
      if returned { return; }
      DoneIsApart(entries);
      if done != [] { Settle(done, scan, leavesAtScan); }
      if !live { return; }
      busy := false;
      forall k | 0 <= k < |entries|
        ensures entries[k].finding in runs && runs[entries[k].finding] == Outcome(entries, k, scan)
      {
        DoneHasEachFinished(entries, k);
        if !RanToEnd(entries, k) { NotRunNotDone(entries, k); }
      }
    }
  }
}
