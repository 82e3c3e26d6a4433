/**
 * src/operations.ts, openJobFeed and followJobs: one feed of all jobs for the whole tab, by stream
 * while the stream reaches us and by asking for the history otherwise, shared by every follower.
 */
module JobFeed {
  import opened Wrappers
  import opened Sorting
  import opened Jobs

  datatype Status = Loading | Live | Polling | Unavailable

  datatype Callback = OnSnapshot(jobs: seq<Job>) | OnJob(job: Job) | OnStatus(status: Status)

  datatype Timer = FallBack | Again(ms: nat)

  /** A history request's end: a readable history, anything else, or a 401 or 403. */
  datatype Answer = History(jobs: seq<Job>) | Broken | Refused

  datatype Event =
    | Snapshot(jobs: Option<seq<Job>>)  // none when unreadable
    | JobChanged(job: Option<Job>)      // none when unreadable
    | StreamFails
    | TimerFires(timer: Timer)
    | Answered(answer: Answer, hidden: bool)
    | Seen                              // the page became visible
    | Close

  const MAX_INTERVAL: nat := 30_000

  /** The wait before asking again: longer after each failure, half a minute at most. */
  function Interval(pollEvery: nat, failures: nat, hidden: bool): nat {
    var wait := pollEvery * (if failures == 0 then 1 else if failures == 1 then 2 else if failures == 2 then 4 else 8);
    if hidden || wait > MAX_INTERVAL then MAX_INTERVAL else wait
  }

  function Recent(jobs: seq<Job>): seq<Job> { if |jobs| <= LIMIT then jobs else jobs[..LIMIT] }

  datatype Reaction = Reaction(source: Source, calls: seq<Callback>)

  /**
   * One opened feed: its closure's variables, the timers and requests the browser holds for it, and how
   * often it asked.
   */
  datatype Source = Source(
    stopped: bool, polling: bool, stream: bool, timer: Option<Timer>, request: bool, failures: nat,
    armed: multiset<Timer>, out: nat, asked: nat, refused: bool)
  {
    function ClearTimer(): Source {
      this.(timer := None, armed := if timer.Some? then armed - multiset{timer.value} else armed)
    }

    function Arm(t: Timer): Source { this.(timer := Some(t), armed := armed + multiset{t}) }

    function Read(): Source {
      if stopped || request then this
      else ClearTimer().(request := true, out := out + 1, asked := asked + 1)
    }

    function StartPolling(): Source {
      if stopped || polling then this
      else this.(polling := true, stream := false).ClearTimer().Read()
    }

    function OnAnswer(pollEvery: nat, answer: Answer, hidden: bool): Reaction {
      if out == 0 then Reaction(this, [])
      else RequestOver().OnHistory(pollEvery, answer, hidden)
    }

    function RequestOver(): Source { this.(request := false, out := if out > 0 then out - 1 else 0) }

    function OnHistory(pollEvery: nat, answer: Answer, hidden: bool): Reaction {
      if stopped then Reaction(this, [])
      else
        match answer
        case History(jobs) =>
          Reaction(this.(failures := 0).Arm(Again(Interval(pollEvery, 0, hidden))),
                   [OnSnapshot(Recent(jobs)), OnStatus(Polling)])
        case Broken =>
          Reaction(this.(failures := failures + 1).Arm(Again(Interval(pollEvery, failures + 1, hidden))),
                   [OnStatus(Unavailable)])
        case Refused =>
          Reaction(this.(failures := failures + 1, refused := true), [OnStatus(Unavailable)])
    }

    function Fired(t: Timer): Source {
      var fired := this.(armed := armed - multiset{t});
      if t.FallBack? then fired.StartPolling() else fired.Read()
    }

    function Step(pollEvery: nat, event: Event): Reaction {
      match event
      case Snapshot(jobs) =>
        if stopped || polling then Reaction(this, [])
        else if jobs.None? then Reaction(StartPolling(), [])
        else Reaction(ClearTimer(), [OnSnapshot(Recent(jobs.value)), OnStatus(Live)])
      case JobChanged(job) =>
        if stopped || polling then Reaction(this, [])
        else if job.None? then Reaction(StartPolling(), [])
        else Reaction(this, [OnJob(job.value)])
      case StreamFails => Reaction(StartPolling(), [])
      case TimerFires(t) => Reaction(if t in armed then Fired(t) else this, [])
      case Answered(answer, hidden) => OnAnswer(pollEvery, answer, hidden)
      case Seen => Reaction(if !stopped && polling && timer.Some? then ClearTimer().Read() else this, [])
      case Close => Reaction(this.(stopped := true, stream := false).ClearTimer(), [])
    }
  }

  function Opened(hasStream: bool): Source {
    var started := Source(false, false, hasStream, None, false, 0, multiset{}, 0, 0, false);
    if hasStream then started.Arm(FallBack) else started.StartPolling()
  }

  /** One timer and one request at most, never both; a polling feed goes on asking unless it was refused. */
  ghost predicate SourceInv(s: Source) {
    && s.armed == (if s.timer.Some? then multiset{s.timer.value} else multiset{})
    && s.out == (if s.request then 1 else 0)
    && (s.request ==> s.timer.None? && s.polling)
    && (s.stopped || s.polling ==> !s.stream)
    && (s.stopped ==> s.timer.None?)
    && (!s.stopped && !s.polling ==> s.stream && !s.refused && (s.timer.Some? ==> s.timer.value == FallBack))
    && (!s.stopped && s.polling && !s.refused ==> s.request || s.timer.Some?)
    && (!s.stopped && s.polling && s.timer.Some? ==> s.timer.value.Again? && s.timer.value.ms <= MAX_INTERVAL)
    && (s.refused ==> !s.request && s.timer.None? && s.polling)
  }

  lemma OpenedKeepsInv(hasStream: bool)
    ensures SourceInv(Opened(hasStream)) && !Opened(hasStream).stopped
  {
  }

  lemma AnswerKeepsSourceInv(s: Source, pollEvery: nat, answer: Answer, hidden: bool)
    requires SourceInv(s)
    ensures SourceInv(s.OnAnswer(pollEvery, answer, hidden).source)
    ensures s.OnAnswer(pollEvery, answer, hidden).source.stopped == s.stopped
  {
  }

  lemma ClearTimerDisarms(s: Source)
    requires s.armed == (if s.timer.Some? then multiset{s.timer.value} else multiset{})
    ensures s.ClearTimer() == s.(timer := None, armed := multiset{})
  {
  }

  lemma StartPollingKeepsSourceInv(s: Source)
    requires SourceInv(s)
    ensures SourceInv(s.StartPolling()) && s.StartPolling().stopped == s.stopped
  {
    ClearTimerDisarms(s.(polling := true, stream := false));
  }

  lemma TimerKeepsSourceInv(s: Source, pollEvery: nat, t: Timer)
    requires SourceInv(s)
    ensures SourceInv(s.Step(pollEvery, TimerFires(t)).source)
    ensures s.Step(pollEvery, TimerFires(t)).source.stopped == s.stopped
  {
    if t in s.armed {
      assert s.armed - multiset{t} == multiset{};
      assert multiset{} - multiset{t} == multiset{};
    }
  }

  lemma StreamEventKeepsSourceInv(s: Source, pollEvery: nat, e: Event)
    requires SourceInv(s) && (e.Snapshot? || e.JobChanged? || e.StreamFails?)
    ensures SourceInv(s.Step(pollEvery, e).source)
    ensures s.Step(pollEvery, e).source.stopped == s.stopped
  {
    if !s.stopped && !s.polling {
      StartPollingKeepsSourceInv(s);
      ClearTimerDisarms(s);
    }
  }

  lemma StepKeepsSourceInv(s: Source, pollEvery: nat, e: Event)
    requires SourceInv(s)
    ensures SourceInv(s.Step(pollEvery, e).source)
    ensures s.Step(pollEvery, e).source.stopped == (s.stopped || e.Close?)
    ensures s.stopped ==> s.Step(pollEvery, e).calls == []
  {
    match e
    case TimerFires(t) => TimerKeepsSourceInv(s, pollEvery, t);
    case Answered(answer, hidden) => AnswerKeepsSourceInv(s, pollEvery, answer, hidden);
    case Close => ClearTimerDisarms(s.(stopped := true, stream := false));
    case Seen => ClearTimerDisarms(s);
    case _ => StreamEventKeepsSourceInv(s, pollEvery, e);
  }

  function Followed(s: Source, pollEvery: nat, events: seq<Event>): Source {
    if events == [] then s
    else Followed(s, pollEvery, events[..|events| - 1]).Step(pollEvery, events[|events| - 1]).source
  }

  lemma PollingStays(s: Source, pollEvery: nat, e: Event)
    ensures var later := s.Step(pollEvery, e).source; s.polling ==> later.polling && (!s.stream ==> !later.stream)
  {
    match e
    case Answered(_, _) =>
    case _ =>
  }

  /** Whatever happens to an opened feed: at most one request out, and no way back from asking to the stream. */
  lemma {:induction false} FeedNeverGoesBack(s: Source, pollEvery: nat, events: seq<Event>)
    requires SourceInv(s)
    ensures
      var later := Followed(s, pollEvery, events);
      && SourceInv(later) && later.out <= 1
      && (s.polling ==> later.polling && !later.stream) && (s.stopped ==> later.stopped)
  {
    if events != [] {
      var before := Followed(s, pollEvery, events[..|events| - 1]);
      FeedNeverGoesBack(s, pollEvery, events[..|events| - 1]);
      StepKeepsSourceInv(before, pollEvery, events[|events| - 1]);
      PollingStays(before, pollEvery, events[|events| - 1]);
    }
  }

  /** After a 401 or 403 it never asks again, and says nothing more. */
  lemma {:induction false} RefusedAsksNoMore(s: Source, pollEvery: nat, events: seq<Event>)
    requires SourceInv(s) && s.refused
    ensures
      var later := Followed(s, pollEvery, events);
      later.asked == s.asked && later.refused && SourceInv(later)
      && forall e :: later.Step(pollEvery, e).calls == []
  {
    if events != [] {
      RefusedAsksNoMore(s, pollEvery, events[..|events| - 1]);
      StepKeepsSourceInv(Followed(s, pollEvery, events[..|events| - 1]), pollEvery, events[|events| - 1]);
    }
  }

  lemma RefusalIsHeard(s: Source, pollEvery: nat, hidden: bool)
    requires SourceInv(s) && !s.stopped && s.request
    ensures
      var refused := s.Step(pollEvery, Answered(Refused, hidden));
      refused.source.refused && refused.source.asked == s.asked && refused.calls == [OnStatus(Unavailable)]
  {
  }

  lemma {:induction false} FollowsOn(s: Source, pollEvery: nat, events: seq<Event>, later: seq<Event>)
    ensures Followed(s, pollEvery, events + later) == Followed(Followed(s, pollEvery, events), pollEvery, later)
  {
    if later == [] {
      assert events + later == events;
    } else {
      FollowsOn(s, pollEvery, events, later[..|later| - 1]);
      assert (events + later)[..|events + later| - 1] == events + later[..|later| - 1];
    }
  }

  /** A 401 or 403 is the last it hears: whatever comes later, it never asks again and says nothing more. */
  lemma RefusalIsFinal(
    hasStream: bool, pollEvery: nat, events: seq<Event>, hidden: bool, later: seq<Event>, e: Event)
    requires var s := Followed(Opened(hasStream), pollEvery, events); !s.stopped && s.request
    ensures
      var s := Followed(Opened(hasStream), pollEvery, events);
      var after := Followed(Opened(hasStream), pollEvery, events + [Answered(Refused, hidden)] + later);
      after.asked == s.asked && after.Step(pollEvery, e).calls == [] && !after.request && after.armed == multiset{}
  {
    var s := Followed(Opened(hasStream), pollEvery, events);
    var heard := events + [Answered(Refused, hidden)];
    OpenedKeepsInv(hasStream);
    FeedNeverGoesBack(Opened(hasStream), pollEvery, events);
    RefusalIsHeard(s, pollEvery, hidden);
    StepKeepsSourceInv(s, pollEvery, Answered(Refused, hidden));
    assert heard[..|events|] == events;
    FollowsOn(Opened(hasStream), pollEvery, heard, later);
    RefusedAsksNoMore(s.Step(pollEvery, Answered(Refused, hidden)).source, pollEvery, later);
  }

  // --- When it asks, and how long it waits ---

  /** Whatever says the stream does not reach us, a timer that was armed, and the page shown again while it waits. */
  predicate CallsForAsking(s: Source, e: Event) {
    || (!s.polling && (e == StreamFails || e == Snapshot(None) || e == JobChanged(None)))
    || (e.TimerFires? && e.timer in s.armed)
    || (e.Seen? && s.polling && !s.request && !s.refused)
  }

  /** Then the history is asked for at once, by one request, and the stream is done with. */
  lemma AsksAtOnce(s: Source, pollEvery: nat, e: Event)
    requires SourceInv(s) && !s.stopped && CallsForAsking(s, e)
    ensures
      var later := s.Step(pollEvery, e).source;
      later.polling && !later.stream && later.request && later.out == 1 && later.asked == s.asked + 1 && !later.stopped
  {
    ClearTimerDisarms(s);
  }

  lemma FallBackStays(s: Source, pollEvery: nat, e: Event)
    requires SourceInv(s) && (s.stopped || s.polling || s.armed == multiset{FallBack})
    requires e.Snapshot? ==> e.jobs.None?
    ensures var later := s.Step(pollEvery, e).source;
      later.stopped || later.polling || later.armed == multiset{FallBack}
  {
    StepKeepsSourceInv(s, pollEvery, e);
  }

  /** Without a stream it polls; until the stream has given a readable history it does, or a timer waits to have it. */
  lemma {:induction false} SilentStreamFallsBack(hasStream: bool, pollEvery: nat, events: seq<Event>)
    requires forall e <- events :: e.Snapshot? ==> e.jobs.None?
    ensures
      var s := Followed(Opened(hasStream), pollEvery, events);
      (s.stopped || s.polling || s.armed == multiset{FallBack}) && (!hasStream ==> s.polling)
  {
    OpenedKeepsInv(hasStream);
    FeedNeverGoesBack(Opened(hasStream), pollEvery, events);
    if events != [] {
      var before := Followed(Opened(hasStream), pollEvery, events[..|events| - 1]);
      SilentStreamFallsBack(hasStream, pollEvery, events[..|events| - 1]);
      FeedNeverGoesBack(Opened(hasStream), pollEvery, events[..|events| - 1]);
      assert events[|events| - 1] in events;
      FallBackStays(before, pollEvery, events[|events| - 1]);
    }
  }

  /** The first three failures in a row each double the wait, which half a minute bounds. */
  function Doubled(pollEvery: nat, failures: nat): nat {
    var wait := if failures == 0 then pollEvery else 2 * Doublings(pollEvery, if failures < 3 then failures - 1 else 2);
    if wait > 30_000 then 30_000 else wait
  }

  function Doublings(pollEvery: nat, n: nat): nat { if n == 0 then pollEvery else 2 * Doublings(pollEvery, n - 1) }

  lemma IntervalIsDoubled(pollEvery: nat, failures: nat)
    ensures Interval(pollEvery, failures, false) == Doubled(pollEvery, failures)
    ensures Interval(pollEvery, failures, true) == 30_000
  {
    assert Doublings(pollEvery, 2) == 2 * Doublings(pollEvery, 1) == 4 * pollEvery;
  }

  /** So many requests in a row that broke, the page shown, each asked again when the wait after it was over. */
  function Breaking(pollEvery: nat, n: nat): seq<Event> {
    if n == 0 then []
    else Breaking(pollEvery, n - 1) + [Answered(Broken, false)] + [TimerFires(Again(Doubled(pollEvery, n)))]
  }

  lemma BreaksAndAsksAgain(s: Source, pollEvery: nat)
    requires AsksStill(s, s.failures, s.asked)
    ensures
      var broken := s.Step(pollEvery, Answered(Broken, false)).source;
      var again := broken.Step(pollEvery, TimerFires(Again(Doubled(pollEvery, s.failures + 1)))).source;
      AsksStill(again, s.failures + 1, s.asked + 1)
  {
    var broken := s.Step(pollEvery, Answered(Broken, false)).source;
    IntervalIsDoubled(pollEvery, s.failures + 1);
    AnswerKeepsSourceInv(s, pollEvery, Broken, false);
    TimerKeepsSourceInv(broken, pollEvery, Again(Doubled(pollEvery, s.failures + 1)));
    AsksAtOnce(broken, pollEvery, TimerFires(Again(Doubled(pollEvery, s.failures + 1))));
  }

  lemma BrokenOnceMore(s: Source, pollEvery: nat, n: nat)
    requires n > 0
    ensures
      var before := Followed(s, pollEvery, Breaking(pollEvery, n - 1));
      var again := TimerFires(Again(Doubled(pollEvery, n)));
      Followed(s, pollEvery, Breaking(pollEvery, n))
      == before.Step(pollEvery, Answered(Broken, false)).source.Step(pollEvery, again).source
  {
    var events, e := Breaking(pollEvery, n - 1), Answered(Broken, false);
    assert Breaking(pollEvery, n)[..|events + [e]|] == events + [e];
    assert (events + [e])[..|events|] == events;
  }

  /** Asking after so many failures in a row. */
  ghost predicate AsksStill(s: Source, failures: nat, asked: nat) {
    SourceInv(s) && !s.stopped && !s.refused && s.request && s.failures == failures && s.asked == asked
  }

  /** However many reads break in a row, it asks again after each: after the n-th when its doubled wait is over. */
  lemma {:induction false} BacksOff(s: Source, pollEvery: nat, n: nat)
    requires AsksStill(s, 0, s.asked)
    ensures AsksStill(Followed(s, pollEvery, Breaking(pollEvery, n)), n, s.asked + n)
  {
    if n > 0 {
      BacksOff(s, pollEvery, n - 1);
      BreaksAndAsksAgain(Followed(s, pollEvery, Breaking(pollEvery, n - 1)), pollEvery);
      BrokenOnceMore(s, pollEvery, n);
    }
  }

  /** A history that can be read ends the backing off: the next is asked for after the plain wait. */
  lemma ReadableResets(s: Source, pollEvery: nat, jobs: seq<Job>, hidden: bool)
    requires SourceInv(s) && !s.stopped && s.request
    ensures
      var later := s.Step(pollEvery, Answered(History(jobs), hidden)).source;
      && later.failures == 0 && !later.request
      && later.armed == multiset{Again(if hidden || pollEvery > 30_000 then 30_000 else pollEvery)}
  {
    IntervalIsDoubled(pollEvery, 0);
  }

  // --- The shared feed ---

  /** Activity keeps fifty of a snapshot; Home's facts keep all they are given. */
  datatype Follower = Follower(activity: bool, list: seq<Job>) {
    function Handed(jobs: seq<Job>): Follower { this.(list := if activity then Sorted50(jobs) else Sort(jobs, Newer)) }

    function Told(job: Job): Follower { this.(list := Upsert(list, job)) }
  }

  /** The module's `feed` object with the lists its followers keep, and every feed it ever opened. */
  datatype Feed = Feed(
    followers: map<nat, Follower>, current: Option<nat>, jobs: Option<seq<Job>>, status: Status, sources: seq<Source>)
  {
    function Hear(call: Callback): Feed {
      match call
      case OnSnapshot(given) =>
        this.(jobs := Some(given), followers := map id | id in followers :: followers[id].Handed(given))
      case OnJob(job) =>
        this.(jobs := if jobs.Some? then Some(Upsert(jobs.value, job)) else None,
              followers := map id | id in followers :: followers[id].Told(job))
      case OnStatus(said) => this.(status := said)
    }

    function HearAll(calls: seq<Callback>): Feed
      decreases |calls|
    {
      if calls == [] then this else Hear(calls[0]).HearAll(calls[1..])
    }

    /** The open feed, if any, stopped and let go. */
    function Closed(): Feed {
      if current.Some? && current.value < |sources|
      then this.(sources := sources[current.value := sources[current.value].Step(0, Close).source], current := None)
      else this.(current := None)
    }

    function Open(hasStream: bool): Feed {
      this.(jobs := None, status := Loading, sources := sources + [Opened(hasStream)], current := Some(|sources|))
    }

    function Follow(id: nat, activity: bool, hasStream: bool): Feed {
      if id in followers then this
      else
        var joined := this.(followers := followers[id := Follower(activity, [])]);
        var ready := if current.Some? && status == Unavailable then joined.Closed() else joined;
        if ready.current.None? then ready.Open(hasStream)
        else if jobs.Some? then ready.(followers := ready.followers[id := ready.followers[id].Handed(jobs.value)])
        else ready
    }

    function Leave(id: nat): Feed {
      if id !in followers then this
      else
        var left := this.(followers := followers - {id});
        if left.followers != map[] then left else left.Closed().(jobs := None)
    }

    function At(pollEvery: nat, i: nat, event: Event): Feed {
      if i >= |sources| || event.Close? then this
      else
        var reaction := sources[i].Step(pollEvery, event);
        this.(sources := sources[i := reaction.source]).HearAll(reaction.calls)
    }

    function Do(pollEvery: nat, move: Move): Feed {
      match move
      case Follow(id, activity, hasStream) => Follow(id, activity, hasStream)
      case Leave(id) => Leave(id)
      case At(i, event) => At(pollEvery, i, event)
    }
  }

  datatype Move = Follow(id: nat, activity: bool, hasStream: bool) | Leave(id: nat) | At(i: nat, event: Event)

  const IDLE := Feed(map[], None, None, Loading, [])

  function After(pollEvery: nat, moves: seq<Move>): Feed {
    if moves == [] then IDLE else After(pollEvery, moves[..|moves| - 1]).Do(pollEvery, moves[|moves| - 1])
  }

  /** What the server sends: each job once in a history, always with the creation time it was born with. */
  ghost predicate Honest(move: Move, birth: Id -> int) {
    move.At? ==>
      match move.event
      case Snapshot(Some(jobs)) => Unique(jobs) && Born(jobs, birth)
      case JobChanged(Some(job)) => job.rank == birth(job.id)
      case Answered(History(jobs), _) => Unique(jobs) && Born(jobs, birth)
      case _ => true
  }

  /** From the first snapshot on, every follower shows exactly what the held list would show a newcomer. */
  ghost predicate Agreed(f: Feed, birth: Id -> int) {
    f.jobs.Some? ==>
      && |f.jobs.value| <= LIMIT && Unique(f.jobs.value) && Born(f.jobs.value, birth)
      && forall id <- f.followers :: f.followers[id].list == Sorted50(f.jobs.value)
  }

  /** Every feed ever opened but the current one is stopped. */
  ghost predicate OthersStopped(f: Feed) {
    && (f.current.Some? ==> f.current.value < |f.sources|)
    && forall i | 0 <= i < |f.sources| :: SourceInv(f.sources[i]) && (f.sources[i].stopped <==> f.current != Some(i))
  }

  /** Open exactly when followed, and then it is the only feed that is not stopped. */
  ghost predicate OneFeed(f: Feed) {
    && (f.current.Some? <==> f.followers != map[])
    && (f.jobs.Some? ==> f.current.Some?)
    && OthersStopped(f)
  }

  lemma HandedToEither(follower: Follower, jobs: seq<Job>)
    requires |jobs| <= LIMIT
    ensures follower.Handed(jobs).list == Sorted50(jobs)
  {
    SortKeepsElements(jobs, Newer);
  }

  lemma HearSnapshot(f: Feed, jobs: seq<Job>, birth: Id -> int)
    requires |jobs| <= LIMIT && Unique(jobs) && Born(jobs, birth)
    ensures Agreed(f.Hear(OnSnapshot(jobs)), birth)
    ensures f.Hear(OnSnapshot(jobs)).followers.Keys == f.followers.Keys
  {
    forall id <- f.followers ensures f.followers[id].Handed(jobs).list == Sorted50(jobs) {
      HandedToEither(f.followers[id], jobs);
    }
  }

  lemma HearJob(f: Feed, job: Job, birth: Id -> int)
    requires Agreed(f, birth) && job.rank == birth(job.id)
    ensures Agreed(f.Hear(OnJob(job)), birth)
    ensures f.Hear(OnJob(job)).followers.Keys == f.followers.Keys
  {
    if f.jobs.Some? {
      UpsertForgetsOrder(f.jobs.value, job, birth);
      UpsertIsTidy(f.jobs.value, job, birth);
      TidyIsFixed(Upsert(f.jobs.value, job));
    }
  }

  ghost predicate HonestCall(call: Callback, birth: Id -> int) {
    match call
    case OnSnapshot(jobs) => |jobs| <= LIMIT && Unique(jobs) && Born(jobs, birth)
    case OnJob(job) => job.rank == birth(job.id)
    case OnStatus(_) => true
  }

  lemma {:induction false} HearAllKeepsInv(f: Feed, calls: seq<Callback>, birth: Id -> int)
    requires OneFeed(f) && Agreed(f, birth) && f.current.Some?
    requires forall call <- calls :: HonestCall(call, birth)
    ensures OneFeed(f.HearAll(calls)) && Agreed(f.HearAll(calls), birth)
    decreases |calls|
  {
    if calls != [] {
      assert calls[0] in calls;
      match calls[0] {
        case OnSnapshot(jobs) => HearSnapshot(f, jobs, birth);
        case OnJob(job) => HearJob(f, job, birth);
        case OnStatus(_) =>
      }
      HearAllKeepsInv(f.Hear(calls[0]), calls[1..], birth);
    }
  }

  /** Whatever an honest server sends, the feed passes on honestly. */
  lemma StepIsHonest(s: Source, pollEvery: nat, e: Event, birth: Id -> int)
    requires Honest(At(0, e), birth)
    ensures forall call <- s.Step(pollEvery, e).calls :: HonestCall(call, birth)
  {
    match e
    case Answered(_, _) =>
    case _ =>
  }

  lemma AtKeepsInv(f: Feed, pollEvery: nat, i: nat, e: Event, birth: Id -> int)
    requires OneFeed(f) && Agreed(f, birth) && Honest(At(i, e), birth)
    ensures OneFeed(f.At(pollEvery, i, e)) && Agreed(f.At(pollEvery, i, e), birth)
  {
    if i < |f.sources| && !e.Close? {
      var reaction := f.sources[i].Step(pollEvery, e);
      StepKeepsSourceInv(f.sources[i], pollEvery, e);
      StepIsHonest(f.sources[i], pollEvery, e, birth);
      MovedOnKeepsInv(f, i, reaction, birth);
    }
  }

  lemma MovedOnKeepsInv(f: Feed, i: nat, reaction: Reaction, birth: Id -> int)
    requires OneFeed(f) && Agreed(f, birth) && i < |f.sources|
    requires SourceInv(reaction.source) && reaction.source.stopped == f.sources[i].stopped
    requires f.sources[i].stopped ==> reaction.calls == []
    requires forall call <- reaction.calls :: HonestCall(call, birth)
    ensures
      var later := f.(sources := f.sources[i := reaction.source]).HearAll(reaction.calls);
      OneFeed(later) && Agreed(later, birth)
  {
    var moved := f.(sources := f.sources[i := reaction.source]);
    assert OneFeed(moved);
    if reaction.calls != [] { HearAllKeepsInv(moved, reaction.calls, birth); }
  }

  lemma ClosedStopsAll(f: Feed)
    requires OthersStopped(f)
    ensures OthersStopped(f.Closed()) && f.Closed() == f.(sources := f.Closed().sources, current := None)
  {
    if f.current.Some? { StepKeepsSourceInv(f.sources[f.current.value], 0, Close); }
  }

  lemma OpenKeepsInv(f: Feed, hasStream: bool, birth: Id -> int)
    requires OthersStopped(f) && f.current.None? && f.followers != map[]
    ensures OneFeed(f.Open(hasStream)) && Agreed(f.Open(hasStream), birth)
  {
    OpenedKeepsInv(hasStream);
  }

  lemma FollowKeepsInv(f: Feed, id: nat, activity: bool, hasStream: bool, birth: Id -> int)
    requires OneFeed(f) && Agreed(f, birth)
    ensures OneFeed(f.Follow(id, activity, hasStream)) && Agreed(f.Follow(id, activity, hasStream), birth)
  {
    if id !in f.followers {
      var joined := f.(followers := f.followers[id := Follower(activity, [])]);
      assert id in joined.followers;
      ClosedStopsAll(joined);
      var ready := if f.current.Some? && f.status == Unavailable then joined.Closed() else joined;
      if ready.current.None? { OpenKeepsInv(ready, hasStream, birth); }
      if f.jobs.Some? { HandedToEither(Follower(activity, []), f.jobs.value); }
    }
  }

  lemma LeaveKeepsInv(f: Feed, id: nat, birth: Id -> int)
    requires OneFeed(f) && Agreed(f, birth)
    ensures OneFeed(f.Leave(id)) && Agreed(f.Leave(id), birth)
  {
    if id in f.followers { ClosedStopsAll(f.(followers := f.followers - {id})); }
  }

  /** Over any run of followers coming and going, the stream and the poller. */
  lemma {:induction false} EveryRunKeepsTheFeed(pollEvery: nat, moves: seq<Move>, birth: Id -> int)
    requires forall move <- moves :: Honest(move, birth)
    ensures OneFeed(After(pollEvery, moves)) && Agreed(After(pollEvery, moves), birth)
  {
    if moves != [] {
      var before, move := After(pollEvery, moves[..|moves| - 1]), moves[|moves| - 1];
      EveryRunKeepsTheFeed(pollEvery, moves[..|moves| - 1], birth);
      assert move in moves;
      match move
      case Follow(id, activity, hasStream) => FollowKeepsInv(before, id, activity, hasStream, birth);
      case Leave(id) => LeaveKeepsInv(before, id, birth);
      case At(i, e) => AtKeepsInv(before, pollEvery, i, e, birth);
    }
  }

  /** Once there is a snapshot, every list shown is newest first, holds each job once and at most fifty. */
  lemma ListsAreTidy(pollEvery: nat, moves: seq<Move>, birth: Id -> int, id: nat)
    requires forall move <- moves :: Honest(move, birth)
    requires After(pollEvery, moves).jobs.Some? && id in After(pollEvery, moves).followers
    ensures Tidy(After(pollEvery, moves).followers[id].list)
  {
    EveryRunKeepsTheFeed(pollEvery, moves, birth);
    Sorted50IsTidy(After(pollEvery, moves).jobs.value, birth);
  }

  /** After any run, a follower joining a feed that has not given up is shown at once what every other is shown. */
  lemma JoinerSeesTheSame(
    pollEvery: nat, moves: seq<Move>, birth: Id -> int, joiner: nat, other: nat, activity: bool, hasStream: bool)
    requires forall move <- moves :: Honest(move, birth)
    requires var f := After(pollEvery, moves);
      f.jobs.Some? && f.status != Unavailable && other in f.followers && joiner !in f.followers
    ensures
      var f := After(pollEvery, moves);
      var joined := f.Follow(joiner, activity, hasStream);
      && joined.followers[joiner].list == joined.followers[other].list == f.followers[other].list
      && joined.sources == f.sources
  {
    EveryRunKeepsTheFeed(pollEvery, moves, birth);
    HandedToEither(Follower(activity, []), After(pollEvery, moves).jobs.value);
  }

  /** After any run, a feed that was stopped or replaced never calls back, whatever still reaches it. */
  lemma OnlyTheOpenFeedDelivers(pollEvery: nat, moves: seq<Move>, birth: Id -> int, i: nat, e: Event)
    requires forall move <- moves :: Honest(move, birth)
    requires After(pollEvery, moves).current != Some(i)
    ensures
      var f := After(pollEvery, moves);
      var later := f.At(pollEvery, i, e);
      later.followers == f.followers && later.jobs == f.jobs && later.status == f.status && later.current == f.current
  {
    var f := After(pollEvery, moves);
    EveryRunKeepsTheFeed(pollEvery, moves, birth);
    if i < |f.sources| { StepKeepsSourceInv(f.sources[i], pollEvery, e); }
  }

  // --- What reaches the followers ---

  lemma AfterOne(pollEvery: nat, moves: seq<Move>, move: Move)
    ensures After(pollEvery, moves + [move]) == After(pollEvery, moves).Do(pollEvery, move)
  {
    assert (moves + [move])[..|moves|] == moves;
  }

  /** The event is a history the feed can read: on its stream, or in answer to its request. */
  predicate Reads(s: Source, e: Event, jobs: seq<Job>) {
    (e == Snapshot(Some(jobs)) && !s.polling) || (e.Answered? && e.answer == History(jobs) && s.out > 0)
  }

  lemma ReadIsPassedOn(s: Source, pollEvery: nat, e: Event, jobs: seq<Job>)
    requires !s.stopped && Reads(s, e, jobs)
    ensures s.Step(pollEvery, e).calls
         == [OnSnapshot(if |jobs| <= 50 then jobs else jobs[..50]), OnStatus(if e.Snapshot? then Live else Polling)]
  {
  }

  /**
   * After any run, a history the open feed reads, streamed or asked for, is what every follower shows from
   * then on: its first fifty, newest first.
   */
  lemma HistoryReachesAll(pollEvery: nat, moves: seq<Move>, birth: Id -> int, i: nat, e: Event, jobs: seq<Job>)
    requires forall move <- moves :: Honest(move, birth)
    requires var f := After(pollEvery, moves); f.current == Some(i) && i < |f.sources| && Reads(f.sources[i], e, jobs)
    ensures
      var f, later := After(pollEvery, moves), After(pollEvery, moves + [At(i, e)]);
      var first := if |jobs| <= 50 then jobs else jobs[..50];
      && later.jobs == Some(first) && later.status == (if e.Snapshot? then Live else Polling)
      && later.followers.Keys == f.followers.Keys
      && forall id <- later.followers :: later.followers[id].list == Sort(first, Newer)
  {
    var f := After(pollEvery, moves);
    EveryRunKeepsTheFeed(pollEvery, moves, birth);
    AfterOne(pollEvery, moves, At(i, e));
    ReadIsPassedOn(f.sources[i], pollEvery, e, jobs);
    var moved := f.(sources := f.sources[i := f.sources[i].Step(pollEvery, e).source]);
    BothHeard(moved, if |jobs| <= 50 then jobs else jobs[..50], if e.Snapshot? then Live else Polling);
  }

  lemma AllAreHanded(f: Feed, first: seq<Job>)
    requires |first| <= 50
    ensures
      var later := f.Hear(OnSnapshot(first));
      && later.followers.Keys == f.followers.Keys
      && forall id <- later.followers :: later.followers[id].list == Sort(first, Newer)
  {
    SortKeepsElements(first, Newer);
  }

  lemma BothHeard(f: Feed, first: seq<Job>, status: Status)
    requires |first| <= 50
    ensures
      var later := f.HearAll([OnSnapshot(first), OnStatus(status)]);
      && later.jobs == Some(first) && later.status == status && later.followers.Keys == f.followers.Keys
      && forall id <- later.followers :: later.followers[id].list == Sort(first, Newer)
  {
    HearsTwo(f, OnSnapshot(first), OnStatus(status));
    AllAreHanded(f, first);
  }

  /** What one job's record does to a list that shows each job once. */
  ghost predicate Joined(list: seq<Job>, later: seq<Job>, job: Job) {
    && (job in later || FilledNewer(later, job))
    && (forall kept <- later :: kept == job || (kept in list && kept.id != job.id))
    && (forall other <- list | other.id != job.id :: other in later || FilledNoOlder(later, other))
  }

  /**
   * After any run, a job's record the open feed reads from its stream is in every list, unless fifty newer
   * jobs fill it, in place of any older record of the job.
   */
  lemma JobReachesAll(pollEvery: nat, moves: seq<Move>, birth: Id -> int, i: nat, job: Job, id: nat)
    requires forall move <- moves :: Honest(move, birth)
    requires var f := After(pollEvery, moves);
      f.current == Some(i) && i < |f.sources| && !f.sources[i].polling && f.jobs.Some? && id in f.followers
    ensures
      var f, later := After(pollEvery, moves), After(pollEvery, moves + [At(i, JobChanged(Some(job)))]);
      id in later.followers && Joined(f.followers[id].list, later.followers[id].list, job)
  {
    var f := After(pollEvery, moves);
    EveryRunKeepsTheFeed(pollEvery, moves, birth);
    ListsAreTidy(pollEvery, moves, birth, id);
    AfterOne(pollEvery, moves, At(i, JobChanged(Some(job))));
    var reaction := f.sources[i].Step(pollEvery, JobChanged(Some(job)));
    var moved := f.(sources := f.sources[i := reaction.source]);
    assert reaction.calls == [OnJob(job)] && [OnJob(job)][1..] == [];
    assert moved.HearAll(reaction.calls) == moved.Hear(OnJob(job)).HearAll([]);
    UpsertHolds(f.followers[id].list, job);
  }

  /** Joining a feed that has given up starts it again: a fresh one, nothing held of the last, which is stopped. */
  lemma GaveUpIsRestarted(pollEvery: nat, moves: seq<Move>, birth: Id -> int, id: nat, activity: bool, hasStream: bool)
    requires forall move <- moves :: Honest(move, birth)
    requires var f := After(pollEvery, moves); f.current.Some? && f.status == Unavailable && id !in f.followers
    ensures
      var f, later := After(pollEvery, moves), After(pollEvery, moves + [Follow(id, activity, hasStream)]);
      && later.current == Some(|f.sources|) && |later.sources| == |f.sources| + 1
      && later.sources[|f.sources|] == Opened(hasStream) && later.status == Loading && later.jobs.None?
      && f.current.value < |f.sources| && later.sources[f.current.value].stopped
  {
    EveryRunKeepsTheFeed(pollEvery, moves, birth);
    EveryRunKeepsTheFeed(pollEvery, moves + [Follow(id, activity, hasStream)], birth);
    AfterOne(pollEvery, moves, Follow(id, activity, hasStream));
  }

  /** What the status says of the open feed and of the list held. */
  ghost predicate StatusTells(f: Feed) {
    f.current.Some? && f.current.value < |f.sources| ==>
      var s := f.sources[f.current.value];
      && (f.status == Unavailable <==> s.failures > 0) && (!s.polling ==> s.failures == 0)
      && (f.status == Polling ==> s.polling)
      && (f.status == Loading ==> f.jobs.None?)
      && (f.status == Live || f.status == Polling ==> f.jobs.Some?)
  }

  /** What one event says, and what it leaves of the feed. */
  ghost predicate Said(s: Source, later: Source, calls: seq<Callback>) {
    && (s.polling ==> later.polling)
    && ((calls == [] && later.failures == s.failures)
        || (exists job :: calls == [OnJob(job)] && later.failures == s.failures && later.polling == s.polling)
        || (calls == [OnStatus(Unavailable)] && later.failures > 0 && later.polling)
        || (exists jobs :: calls == [OnSnapshot(jobs), OnStatus(Live)] && later.failures == s.failures && !s.polling
                           && !later.polling)
        || (exists jobs :: calls == [OnSnapshot(jobs), OnStatus(Polling)] && later.failures == 0 && later.polling))
  }

  lemma StepSays(s: Source, pollEvery: nat, e: Event)
    requires SourceInv(s) && !s.stopped && !e.Close?
    ensures Said(s, s.Step(pollEvery, e).source, s.Step(pollEvery, e).calls)
  {
    match e
    case Answered(_, _) =>
    case Snapshot(_) =>
    case JobChanged(_) =>
    case _ =>
  }

  lemma SaidTells(f: Feed, i: nat, later: Source, calls: seq<Callback>)
    requires f.current == Some(i) && i < |f.sources| && StatusTells(f) && Said(f.sources[i], later, calls)
    ensures StatusTells(f.(sources := f.sources[i := later]).HearAll(calls))
  {
    var moved := f.(sources := f.sources[i := later]);
    if |calls| == 2 { HearsTwo(moved, calls[0], calls[1]); }
    if |calls| == 1 { assert moved.HearAll(calls) == moved.Hear(calls[0]).HearAll([]); }
  }

  lemma AtTells(f: Feed, pollEvery: nat, i: nat, e: Event)
    requires OneFeed(f) && StatusTells(f)
    ensures StatusTells(f.At(pollEvery, i, e))
  {
    if i < |f.sources| && !e.Close? {
      StepKeepsSourceInv(f.sources[i], pollEvery, e);
      if f.current == Some(i) {
        StepSays(f.sources[i], pollEvery, e);
        SaidTells(f, i, f.sources[i].Step(pollEvery, e).source, f.sources[i].Step(pollEvery, e).calls);
      }
    }
  }

  lemma FollowTells(f: Feed, id: nat, activity: bool, hasStream: bool)
    requires OneFeed(f) && StatusTells(f)
    ensures StatusTells(f.Follow(id, activity, hasStream))
  {
  }

  /**
   * After any run the status says unavailable exactly while the last read failed, loading only before there
   * is a list, and live or polling only with one; polling only once the stream is done with.
   */
  lemma {:induction false} EveryRunTells(pollEvery: nat, moves: seq<Move>, birth: Id -> int)
    requires forall move <- moves :: Honest(move, birth)
    ensures StatusTells(After(pollEvery, moves))
  {
    if moves != [] {
      var before, move := After(pollEvery, moves[..|moves| - 1]), moves[|moves| - 1];
      EveryRunKeepsTheFeed(pollEvery, moves[..|moves| - 1], birth);
      EveryRunTells(pollEvery, moves[..|moves| - 1], birth);
      match move
      case Follow(id, activity, hasStream) => FollowTells(before, id, activity, hasStream);
      case Leave(id) =>
      case At(i, e) => AtTells(before, pollEvery, i, e);
    }
  }

  const A: Job := Job("a", "", "", "", [], map[], None, None, 1, None)

  const B: Job := Job("b", "", "", "", [], map[], None, None, 2, None)

  /** "b", dated anew. */
  const REDATED: Job := B.(rank := 1)

  lemma FirstFollows()
    ensures IDLE.Follow(0, true, true) == Feed(map[0 := Follower(true, [])], Some(0), None, Loading, [Opened(true)])
  {
  }

  lemma SnapshotHeard(f: Feed, pollEvery: nat, jobs: seq<Job>)
    requires f == Feed(map[0 := Follower(true, [])], Some(0), None, Loading, [Opened(true)]) && |jobs| <= LIMIT
    ensures var g := f.At(pollEvery, 0, Snapshot(Some(jobs)));
      && g.followers == map[0 := Follower(true, Sorted50(jobs))] && g.jobs == Some(jobs) && g.current == Some(0)
      && g.status == Live && |g.sources| == 1 && !g.sources[0].stopped && !g.sources[0].polling
  {
    var reaction := Opened(true).Step(pollEvery, Snapshot(Some(jobs)));
    assert reaction.calls == [OnSnapshot(jobs), OnStatus(Live)];
    var moved := f.(sources := [reaction.source]);
    assert f.sources[0 := reaction.source] == [reaction.source];
    assert moved.HearAll(reaction.calls) == moved.Hear(OnSnapshot(jobs)).Hear(OnStatus(Live)) by {
      HearsTwo(moved, OnSnapshot(jobs), OnStatus(Live));
    }
  }

  lemma HearsTwo(f: Feed, first: Callback, second: Callback)
    ensures f.HearAll([first, second]) == f.Hear(first).Hear(second)
  {
    assert [first, second][1..] == [second] && [second][1..] == [];
    assert f.Hear(first).HearAll([second]) == f.Hear(first).Hear(second).HearAll([]);
  }

  lemma JobHeard(f: Feed, pollEvery: nat, list: seq<Job>, jobs: seq<Job>, job: Job)
    requires f.followers == map[0 := Follower(true, list)] && f.jobs == Some(jobs)
    requires f.current == Some(0) && f.status == Live
    requires |f.sources| == 1 && !f.sources[0].stopped && !f.sources[0].polling
    ensures var g := f.At(pollEvery, 0, JobChanged(Some(job)));
      && g.followers == map[0 := Follower(true, Upsert(list, job))] && g.jobs == Some(Upsert(jobs, job))
      && g.current == Some(0) && g.status == Live
  {
    var reaction := f.sources[0].Step(pollEvery, JobChanged(Some(job)));
    var moved := f.(sources := f.sources[0 := reaction.source]);
    assert reaction.calls == [OnJob(job)] && [OnJob(job)][1..] == [];
    assert moved.HearAll(reaction.calls) == moved.Hear(OnJob(job)).HearAll([]);
  }

  lemma SecondFollows(f: Feed, list: seq<Job>, jobs: seq<Job>)
    requires f.followers == map[0 := Follower(true, list)] && f.jobs == Some(jobs)
    requires f.current == Some(0) && f.status == Live
    ensures var g := f.Follow(1, true, true);
      g.followers == map[0 := Follower(true, list), 1 := Follower(true, Sorted50(jobs))]
  {
  }

  /** A snapshot, a job of it dated anew, and a second follower. */
  function Redating(): seq<Move> {
    [Follow(0, true, true), At(0, Snapshot(Some([A, B]))), At(0, JobChanged(Some(REDATED))), Follow(1, true, true)]
  }

  /** Were a job's creation time to change, the newcomer's list would part from the older follower's. */
  lemma RedatedJobParts(pollEvery: nat)
    ensures
      var f := After(pollEvery, Redating());
      0 in f.followers && 1 in f.followers && f.followers[0].list != f.followers[1].list
  {
    var moves := Redating();
    assert moves[..3][..2] == moves[..2] && moves[..2][..1] == moves[..1] && moves[..1][..0] == [];
    assert moves[..3][2] == moves[2] && moves[..2][1] == moves[1] && moves[..1][0] == moves[0];
    var f1, f2 := After(pollEvery, moves[..1]), After(pollEvery, moves[..2]);
    var f3 := After(pollEvery, moves[..3]);
    assert After(pollEvery, []) == IDLE;
    FirstFollows();
    SnapshotHeard(f1, pollEvery, [A, B]);
    JobHeard(f2, pollEvery, Sorted50([A, B]), [A, B], REDATED);
    SecondFollows(f3, Upsert(Sorted50([A, B]), REDATED), Upsert([A, B], REDATED));
    RedatedLists();
  }

  lemma RedatedLists()
    ensures Sorted50(Upsert([A, B], REDATED)) == [A, REDATED] && Upsert(Sorted50([A, B]), REDATED) == [REDATED, A]
  {
    SortedIsFixed([B], Newer);
    assert [A, B][1..] == [B] && Sort([A, B], Newer) == [B] + Insert(A, [B][1..], Newer);
    assert Sorted50([A, B]) == [B, A];
    ReplaceByIndex([B, A], REDATED);
    ReplaceByIndex([A, B], REDATED);
    assert [B, A][0].id == REDATED.id && [A, B][1].id == REDATED.id;
    assert Replace([B, A], REDATED) == [REDATED, A] && Replace([A, B], REDATED) == [A, REDATED];
    TwoTiedAreFixed(REDATED, A);
    TwoTiedAreFixed(A, REDATED);
  }

  lemma TwoTiedAreFixed(x: Job, y: Job)
    requires x.rank == y.rank
    ensures Sorted50([x, y]) == [x, y]
  {
    SortedIsFixed([x, y], Newer);
  }

  // --- The code's own objects ---

  /** `openJobFeed`: the closure of one opened feed. Each handler answers the callbacks it makes. */
  class OpenFeed {
    const pollEvery: nat
    var stopped: bool
    var polling: bool
    var stream: bool
    var timer: Option<Timer>
    var request: bool
    var failures: nat
    var armed: multiset<Timer>
    var out: nat
    var asked: nat
    var refused: bool

    ghost function Now(): Source
      reads this
    {
      Source(stopped, polling, stream, timer, request, failures, armed, out, asked, refused)
    }

    ghost predicate Valid()
      reads this
    {
      SourceInv(Now())
    }

    constructor (pollEvery: nat, hasStream: bool)
      ensures Now() == Opened(hasStream) && this.pollEvery == pollEvery && Valid()
    {
      OpenedKeepsInv(hasStream);
      this.pollEvery := pollEvery;
      stopped, polling, stream, timer, request, failures := false, false, hasStream, None, false, 0;
      armed, out, asked, refused := multiset{}, 0, 0, false;
      new;
      if hasStream { Arm(FallBack); } else { StartPolling(); }
    }

    method ClearTimer()
      modifies this
      ensures Now() == old(Now()).ClearTimer()
    {
      if timer.Some? { armed := armed - multiset{timer.value}; }
      timer := None;
    }

    method Arm(t: Timer)
      modifies this
      ensures Now() == old(Now()).Arm(t)
    {
      timer := Some(t);
      armed := armed + multiset{t};
    }

    method Read()
      modifies this
      ensures Now() == old(Now()).Read()
    {
      if stopped || request { return; }
      ClearTimer();
      request := true;
      out, asked := out + 1, asked + 1;
    }

    method StartPolling()
      modifies this
      ensures Now() == old(Now()).StartPolling()
    {
      if stopped || polling { return; }
      polling := true;
      stream := false;
      ghost var begun := Now();
      ClearTimer();
      assert Now() == begun.ClearTimer();
      Read();
    }

    /** What follows the history request's await. */
    method Answered(answer: Answer, hidden: bool) returns (calls: seq<Callback>)
      modifies this
      ensures Reaction(Now(), calls) == old(Now()).OnAnswer(pollEvery, answer, hidden)
    {
      calls := [];
      if out == 0 { return; }
      request := false;
      out := out - 1;
      calls := Heard(answer, hidden);
    }

    method Heard(answer: Answer, hidden: bool) returns (calls: seq<Callback>)
      modifies this
      ensures Reaction(Now(), calls) == old(Now()).OnHistory(pollEvery, answer, hidden)
    {
      calls := [];
      if stopped { return; }
      match answer {
        case History(jobs) =>
          failures := 0;
          calls := [OnSnapshot(Recent(jobs)), OnStatus(Polling)];
        case Broken =>
          failures := failures + 1;
          calls := [OnStatus(Unavailable)];
        case Refused =>
          failures := failures + 1;
          refused := true;
          calls := [OnStatus(Unavailable)];
      }
      if !answer.Refused? { Arm(Again(Interval(pollEvery, failures, hidden))); }
    }

    method Fired(t: Timer)
      requires t in armed
      modifies this
      ensures Now() == old(Now()).Fired(t)
    {
      armed := armed - multiset{t};
      if t.FallBack? { StartPolling(); } else { Read(); }
    }

    method StreamSaid(event: Event) returns (calls: seq<Callback>)
      requires event.Snapshot? || event.JobChanged? || event.StreamFails?
      modifies this
      ensures Reaction(Now(), calls) == old(Now()).Step(pollEvery, event)
    {
      calls := [];
      if stopped || polling { return; }
      if event.Snapshot? && event.jobs.Some? {
        ClearTimer();
        calls := [OnSnapshot(Recent(event.jobs.value)), OnStatus(Live)];
      } else if event.JobChanged? && event.job.Some? {
        calls := [OnJob(event.job.value)];
      } else {
        StartPolling();
      }
    }

    method Do(event: Event) returns (calls: seq<Callback>)
      modifies this
      ensures Reaction(Now(), calls) == old(Now()).Step(pollEvery, event)
    {
      calls := [];
      match event
      case TimerFires(t) => if t in armed { Fired(t); }
      case Answered(answer, hidden) => calls := Answered(answer, hidden);
      case Seen =>
        if !stopped && polling && timer.Some? {
          ClearTimer();
          Read();
        }
      case Close =>
        stopped := true;
        stream := false;
        ClearTimer();
      case _ => calls := StreamSaid(event);
    }

    /** After any event: one request at most, and not a word from a feed that was stopped. */
    method Handle(event: Event) returns (calls: seq<Callback>)
      requires Valid()
      modifies this
      ensures Reaction(Now(), calls) == old(Now()).Step(pollEvery, event) && Valid()
      ensures out <= 1 && (old(stopped) ==> stopped && calls == [])
    {
      StepKeepsSourceInv(Now(), pollEvery, event);
      calls := Do(event);
    }
  }

  /** `followJobs` and the module's `feed` object, holding every feed it has opened. */
  class SharedFeed {
    const pollEvery: nat
    var followers: map<nat, Follower>
    var current: Option<nat>
    var jobs: Option<seq<Job>>
    var status: Status
    var sources: seq<OpenFeed>

    ghost predicate Valid()
      reads this, sources
    {
      && (forall i | 0 <= i < |sources| :: sources[i].pollEvery == pollEvery)
      && (forall i, j | 0 <= i < j < |sources| :: sources[i] != sources[j])
      && (current.Some? ==> current.value < |sources|)
    }

    ghost function States(): (states: seq<Source>)
      reads this, sources
      ensures |states| == |sources|
      ensures forall i | 0 <= i < |sources| :: states[i] == sources[i].Now()
    {
      seq(|sources|, i requires 0 <= i < |sources| reads this, sources => sources[i].Now())
    }

    ghost function Now(): Feed
      reads this, sources
    {
      Feed(followers, current, jobs, status, States())
    }

    constructor (pollEvery: nat)
      ensures Valid() && Now() == IDLE && this.pollEvery == pollEvery
    {
      this.pollEvery := pollEvery;
      followers, current, jobs, status, sources := map[], None, None, Loading, [];
    }

    /** One callback of the open feed, told to every follower. */
    method Hear(call: Callback)
      requires Valid()
      modifies this
      ensures Valid() && sources == old(sources) && Now() == old(Now()).Hear(call)
    {
      match call
      case OnSnapshot(given) =>
        jobs := Some(given);
        followers := map id | id in followers :: followers[id].Handed(given);
      case OnJob(job) =>
        if jobs.Some? { jobs := Some(Upsert(jobs.value, job)); }
        followers := map id | id in followers :: followers[id].Told(job);
      case OnStatus(said) =>
        status := said;
    }

    method HearAll(calls: seq<Callback>)
      requires Valid()
      modifies this
      ensures Valid() && sources == old(sources) && Now() == old(Now()).HearAll(calls)
      decreases |calls|
    {
      if |calls| > 0 {
        Hear(calls[0]);
        HearAll(calls[1..]);
      }
    }

    method Closed()
      requires Valid()
      modifies this, sources
      ensures Valid() && sources == old(sources) && Now() == old(Now()).Closed()
    {
      if current.Some? {
        var _ := sources[current.value].Do(Close);
      }
      current := None;
      assert States() == old(Now()).Closed().sources;
    }

    method Open(hasStream: bool)
      requires Valid()
      modifies this
      ensures Valid() && Now() == old(Now()).Open(hasStream)
    {
      jobs, status := None, Loading;
      var source := new OpenFeed(pollEvery, hasStream);
      current, sources := Some(|sources|), sources + [source];
      assert States() == old(States()) + [Opened(hasStream)];
    }

    method Follow(id: nat, activity: bool, hasStream: bool)
      requires Valid()
      modifies this, sources
      ensures Valid() && Now() == old(Now()).Follow(id, activity, hasStream)
    {
      if id in followers { return; }
      followers := followers[id := Follower(activity, [])];
      assert States() == old(States());
      if current.Some? && status == Unavailable { Closed(); }
      if current.None? {
        Open(hasStream);
      } else if jobs.Some? {
        followers := followers[id := followers[id].Handed(jobs.value)];
      }
    }

    method Leave(id: nat)
      requires Valid()
      modifies this, sources
      ensures Valid() && Now() == old(Now()).Leave(id)
    {
      if id !in followers { return; }
      followers := followers - {id};
      assert States() == old(States());
      if followers != map[] { return; }
      Closed();
      jobs := None;
    }

    method At(i: nat, event: Event)
      requires Valid()
      modifies this, sources
      ensures Valid() && Now() == old(Now()).At(pollEvery, i, event)
    {
      if i >= |sources| || event.Close? { return; }
      var calls := sources[i].Do(event);
      assert States() == old(Now()).sources[i := sources[i].Now()];
      HearAll(calls);
    }

    /**
     * After any move, with jobs created at times that stay: the feed is open exactly when followed, every
     * other is stopped, and all followers show the list a newcomer would be shown.
     */
    method Handle(move: Move, ghost birth: Id -> int)
      requires Valid() && OneFeed(Now()) && Agreed(Now(), birth) && Honest(move, birth)
      modifies this, sources
      ensures Valid() && Now() == old(Now()).Do(pollEvery, move)
      ensures OneFeed(Now()) && Agreed(Now(), birth)
    {
      ghost var before := Now();
      match move {
        case Follow(id, activity, hasStream) =>
          FollowKeepsInv(before, id, activity, hasStream, birth);
          Follow(id, activity, hasStream);
        case Leave(id) =>
          LeaveKeepsInv(before, id, birth);
          Leave(id);
        case At(i, event) =>
          AtKeepsInv(before, pollEvery, i, event, birth);
          At(i, event);
      }
    }
  }
}
