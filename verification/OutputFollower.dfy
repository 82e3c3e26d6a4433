/**
 * src/operations.ts, followJobOutput: a stream and a poller race to show one job's log.
 *
 * `State` holds the function's closure variables, and beside them what the browser holds for it: the
 * timers it has armed, the requests it has out, the continuations about to run after `await poll()`,
 * and the callbacks it has made. Any event may come at any moment, even from a closed stream.
 */
module OutputFollower {
  import opened Strings
  import opened Wrappers
  import opened JobOutputText

  datatype Winner = Nobody | Stream | Poll

  datatype Timer = First | Next(delay: nat)

  datatype Callback = OnOutput(text: Text, append: bool) | OnState

  datatype Pace = Pace(pollEvery: nat, maxPollEvery: nat) {
    /** The gap after a poll that came `delay` after the one before; `Math.round` of 1.4 times it. */
    function Widened(delay: nat): nat {
      Max(1, Min(Max(pollEvery, (14 * delay + 5) / 10), maxPollEvery))
    }

    /** The gap the continuation of a fired timer asks for. */
    function After(timer: Timer): nat {
      match timer
      case First => pollEvery
      case Next(delay) => Widened(delay)
    }
  }

  function Max(a: nat, b: nat): nat { if a >= b then a else b }

  function Min(a: nat, b: nat): nat { if a <= b then a else b }

  /**
   * The gap between polls never narrows on its way to the ceiling and never passes it. Between the floor and
   * the ceiling it widens to 1.4 times itself, to the millisecond. It stops widening only at the ceiling; but
   * a gap of one stays at one where the floor or the ceiling is no higher.
   */
  lemma GapsWidenToTheCeiling(pace: Pace, delay: nat)
    ensures pace.Widened(delay) <= Max(1, pace.maxPollEvery)
    ensures delay <= pace.maxPollEvery ==> delay <= pace.Widened(delay)
    ensures pace.pollEvery < pace.Widened(delay) < pace.maxPollEvery && pace.Widened(delay) > 1 ==>
      14 * delay - 5 < 10 * pace.Widened(delay) <= 14 * delay + 5
    ensures pace.pollEvery <= pace.maxPollEvery ==> pace.pollEvery <= pace.Widened(delay)
    ensures pace.Widened(delay) == delay <==>
      if delay == 1 then pace.pollEvery <= 1 || pace.maxPollEvery <= 1 else delay >= 2 && delay == pace.maxPollEvery
  {
  }

  datatype Event =
    | StreamOutput(text: Text)  // empty when the message was malformed or held no text
    | StreamState(terminal: bool)
    | StreamError
    | Fires(timer: nat)
    | Answer(gap: nat, output: Text, terminal: bool)
    | AskFails(gap: nat)
    | Resume(gap: nat)
    | Stop

  datatype State = State(
    winner: Winner, stopped: bool, finished: bool, polling: bool,
    pollTimer: Option<nat>, startTimer: Option<nat>,
    armed: map<nat, Timer>, nextId: nat,
    requests: multiset<nat>, resuming: multiset<nat>,
    calls: seq<Callback>)
  {
    predicate Over() { stopped || finished }

    predicate StreamWon() { winner == Stream }

    function Cleared(timer: Option<nat>): map<nat, Timer> {
      if timer.Some? then armed - {timer.value} else armed
    }

    function StopPolling(): State {
      this.(armed := Cleared(pollTimer), pollTimer := None).ClearStart()
    }

    function ClearStart(): State {
      this.(armed := Cleared(startTimer), startTimer := None)
    }

    /** `poll()` up to its await: either a request goes out, or its caller simply resumes. */
    function Ask(gap: nat): State {
      if Over() || StreamWon() || polling then this.(resuming := resuming + multiset{gap})
      else this.(polling := true, requests := requests + multiset{gap})
    }

    function ScheduleNextPoll(delay: nat): State {
      if Over() || StreamWon() then this
      else this.(armed := Cleared(pollTimer)[nextId := Next(delay)], pollTimer := Some(nextId), nextId := nextId + 1)
    }

    function OnStreamOutput(text: Text): State {
      if Over() || winner == Poll || text == [] then this
      else this.(winner := Stream).StopPolling().Called(OnOutput(text, true))
    }

    function OnStreamState(terminal: bool): State {
      if Over() || !terminal then this
      else this.(finished := true).StopPolling().Called(OnState)
    }

    function OnStreamError(): State {
      if Over() then this
      else this.(winner := Poll).StopPolling().ScheduleNextPoll(0)
    }

    function Called(call: Callback): State { this.(calls := calls + [call]) }

    function OnFires(pace: Pace, id: nat): State {
      if id !in armed then this
      else
        var fired := this.(armed := armed - {id}, pollTimer := if armed[id].Next? then None else pollTimer);
        fired.Ask(pace.After(armed[id]))
    }

    /** The rest of `poll()` once its request is over: nothing is polling, and its caller resumes. */
    function Asked(gap: nat): State {
      this.(polling := false, requests := requests - multiset{gap}, resuming := resuming + multiset{gap})
    }

    function OnAnswer(gap: nat, output: Text, terminal: bool): State {
      if gap !in requests then this
      else (if Over() || StreamWon() then this else Heard(output, terminal)).Asked(gap)
    }

    function Heard(output: Text, terminal: bool): State {
      var shown := if output == [] then this else this.(winner := Poll).Called(OnOutput(output, false));
      if terminal then shown.Called(OnState).(finished := true).StopPolling() else shown
    }

    function OnResume(gap: nat): State {
      if gap !in resuming then this
      else this.(resuming := resuming - multiset{gap}).ScheduleNextPoll(gap)
    }

    function Step(pace: Pace, event: Event): State {
      match event
      case StreamOutput(text) => OnStreamOutput(text)
      case StreamState(terminal) => OnStreamState(terminal)
      case StreamError => OnStreamError()
      case Fires(timer) => OnFires(pace, timer)
      case Answer(gap, output, terminal) => OnAnswer(gap, output, terminal)
      case AskFails(gap) => if gap in requests then Asked(gap) else this
      case Resume(gap) => OnResume(gap)
      case Stop => this.(stopped := true).StopPolling()
    }

    function Run(pace: Pace, events: seq<Event>): State {
      if events == [] then this else Run(pace, events[..|events| - 1]).Step(pace, events[|events| - 1])
    }
  }

  const START := State(Nobody, false, false, false, None, Some(0), map[0 := First], 1, multiset{}, multiset{}, [])

  // --- What every interleaving keeps ---

  /** Every armed timer is the one its handle names, so there is at most one of each kind. */
  ghost predicate OneTimerOfAKind(s: State) {
    && (forall id <- s.armed :: id < s.nextId && (if s.armed[id].First? then s.startTimer else s.pollTimer) == Some(id))
    && (s.pollTimer.Some? ==> s.pollTimer.value in s.armed && s.armed[s.pollTimer.value].Next?)
    && (s.startTimer.Some? ==> s.startTimer.value < s.nextId && s.startTimer != s.pollTimer)
  }

  ghost predicate OneRequest(s: State) {
    |s.requests| == if s.polling then 1 else 0
  }

  /** Until it is over or the stream has won, something is under way that will ask again. */
  ghost predicate NeverSilent(s: State) {
    !s.Over() && !s.StreamWon() ==> s.armed != map[] || s.requests != multiset{} || s.resuming != multiset{}
  }

  ghost predicate NothingArmedWhenNotAsking(s: State) {
    s.Over() || s.StreamWon() ==> s.armed == map[]
  }

  function Endings(calls: seq<Callback>): nat {
    if calls == [] then 0 else Endings(calls[..|calls| - 1]) + if calls[|calls| - 1].OnState? then 1 else 0
  }

  ghost predicate SaysTheEndOnce(s: State) {
    Endings(s.calls) == if s.finished then 1 else 0
  }

  ghost predicate Inv(s: State) {
    && OneTimerOfAKind(s)
    && OneRequest(s)
    && NeverSilent(s)
    && NothingArmedWhenNotAsking(s)
    && SaysTheEndOnce(s)
  }

  lemma EndingsSnoc(calls: seq<Callback>, call: Callback)
    ensures Endings(calls + [call]) == Endings(calls) + if call.OnState? then 1 else 0
  {
    assert (calls + [call])[..|calls|] == calls;
  }

  /** With timers as the handles name them, `stopPolling` leaves none. */
  lemma StopPollingDisarms(s: State)
    requires OneTimerOfAKind(s)
    ensures s.StopPolling() == s.(armed := map[], pollTimer := None, startTimer := None)
  {
    assert s.StopPolling().armed == map[];
  }

  lemma StreamOutputKeepsInv(s: State, text: Text)
    requires Inv(s)
    ensures Inv(s.OnStreamOutput(text))
  {
    StopPollingDisarms(s.(winner := Stream));
    EndingsSnoc(s.calls, OnOutput(text, true));
  }

  lemma StreamStateKeepsInv(s: State, terminal: bool)
    requires Inv(s)
    ensures Inv(s.OnStreamState(terminal))
  {
    StopPollingDisarms(s.(finished := true));
    EndingsSnoc(s.calls, OnState);
  }

  lemma ScheduleKeepsInv(s: State, delay: nat)
    requires OneTimerOfAKind(s) && OneRequest(s) && NothingArmedWhenNotAsking(s) && SaysTheEndOnce(s)
    ensures Inv(s.ScheduleNextPoll(delay))
  {
    var s' := s.ScheduleNextPoll(delay);
    if s' != s { assert s'.armed[s.nextId] == Next(delay); }
  }

  lemma StreamErrorKeepsInv(s: State)
    requires Inv(s)
    ensures Inv(s.OnStreamError())
  {
    if !s.Over() {
      StopPollingDisarms(s.(winner := Poll));
      ScheduleKeepsInv(s.(winner := Poll).StopPolling(), 0);
    }
  }

  lemma FiresKeepsInv(pace: Pace, s: State, id: nat)
    requires Inv(s)
    ensures Inv(s.OnFires(pace, id))
  {
    if id in s.armed {
      var gap := pace.After(s.armed[id]);
      var s' := s.OnFires(pace, id);
      assert gap in s'.requests || gap in s'.resuming;
    }
  }

  lemma AskedKeepsInv(s: State, gap: nat)
    requires Inv(s) && gap in s.requests
    ensures Inv(s.Asked(gap))
  {
    assert gap in s.Asked(gap).resuming;
  }

  lemma AnswerKeepsInv(s: State, gap: nat, output: Text, terminal: bool)
    requires Inv(s) && gap in s.requests
    ensures Inv(s.OnAnswer(gap, output, terminal))
  {
    if !s.Over() && !s.StreamWon() {
      var shown := if output == [] then s else s.(winner := Poll).Called(OnOutput(output, false));
      EndingsSnoc(s.calls, OnOutput(output, false));
      if terminal {
        EndingsSnoc(shown.calls, OnState);
        StopPollingDisarms(shown.Called(OnState).(finished := true));
        AskedKeepsInv(shown.Called(OnState).(finished := true).StopPolling(), gap);
      } else {
        AskedKeepsInv(shown, gap);
      }
    } else {
      AskedKeepsInv(s, gap);
    }
  }

  lemma StepKeepsInv(pace: Pace, s: State, e: Event)
    requires Inv(s)
    ensures Inv(s.Step(pace, e))
  {
    match e
    case StreamOutput(text) => StreamOutputKeepsInv(s, text);
    case StreamState(terminal) => StreamStateKeepsInv(s, terminal);
    case StreamError => StreamErrorKeepsInv(s);
    case Fires(id) => FiresKeepsInv(pace, s, id);
    case Answer(gap, output, terminal) => if gap in s.requests { AnswerKeepsInv(s, gap, output, terminal); }
    case AskFails(gap) => if gap in s.requests { AskedKeepsInv(s, gap); }
    case Resume(gap) => if gap in s.resuming { ScheduleKeepsInv(s.(resuming := s.resuming - multiset{gap}), gap); }
    case Stop => StopPollingDisarms(s.(stopped := true));
  }

  /** In every interleaving of stream, poller, timers and the consumer leaving. */
  lemma {:induction false} EveryRunKeepsInv(pace: Pace, events: seq<Event>)
    ensures Inv(START.Run(pace, events))
  {
    if events != [] {
      EveryRunKeepsInv(pace, events[..|events| - 1]);
      StepKeepsInv(pace, START.Run(pace, events[..|events| - 1]), events[|events| - 1]);
    } else {
      assert START.calls == [];
    }
  }

  /** At every moment: one poll timer, one start timer and one request at most, and one end told. */
  lemma AtMostOneOfEach(pace: Pace, events: seq<Event>)
    ensures
      var s := START.Run(pace, events);
      && (forall a, b | a in s.armed && b in s.armed && s.armed[a].Next? == s.armed[b].Next? :: a == b)
      && |s.requests| <= 1 && Endings(s.calls) <= 1
  {
    EveryRunKeepsInv(pace, events);
  }

  lemma OverStays(pace: Pace, s: State, e: Event)
    requires s.Over()
    ensures
      var later := s.Step(pace, e);
      later.Over() && later.calls == s.calls && later.requests <= s.requests
  {
    match e
    case StreamOutput(_) =>
    case Answer(gap, _, _) => assert s.requests - multiset{gap} <= s.requests;
    case AskFails(gap) => assert s.requests - multiset{gap} <= s.requests;
    case _ =>
  }

  /** Once stopped or finished, whatever still arrives makes no callback, arms nothing and asks nothing. */
  lemma {:induction false} OverIsOver(pace: Pace, s: State, events: seq<Event>)
    requires Inv(s) && s.Over()
    ensures
      var later := s.Run(pace, events);
      later.Over() && later.calls == s.calls && later.armed == map[] && later.requests <= s.requests && Inv(later)
  {
    if events != [] {
      var before := s.Run(pace, events[..|events| - 1]);
      OverIsOver(pace, s, events[..|events| - 1]);
      OverStays(pace, before, events[|events| - 1]);
      StepKeepsInv(pace, before, events[|events| - 1]);
    }
  }

  lemma {:induction false} RunsOn(pace: Pace, s: State, events: seq<Event>, later: seq<Event>)
    ensures s.Run(pace, events + later) == s.Run(pace, events).Run(pace, later)
  {
    if later == [] {
      assert events + later == events;
    } else {
      RunsOn(pace, s, events, later[..|later| - 1]);
      assert (events + later)[..|events + later| - 1] == events + later[..|later| - 1];
    }
  }

  lemma StopEndsIt(pace: Pace, s: State)
    requires Inv(s)
    ensures var later := s.Step(pace, Stop); later.Over() && later.calls == s.calls && later.requests == s.requests
  {
    StopPollingDisarms(s.(stopped := true));
  }

  /** Once the consumer has left, whatever was under way: no callback, no timer, no further request, for good. */
  lemma StopIsFinal(pace: Pace, events: seq<Event>, later: seq<Event>)
    ensures
      var before, after := START.Run(pace, events), START.Run(pace, events + [Stop] + later);
      after.calls == before.calls && after.armed == map[] && after.requests <= before.requests
  {
    var before := START.Run(pace, events);
    EveryRunKeepsInv(pace, events);
    EveryRunKeepsInv(pace, events + [Stop]);
    assert (events + [Stop])[..|events|] == events;
    StopEndsIt(pace, before);
    RunsOn(pace, START, events + [Stop], later);
    OverIsOver(pace, before.Step(pace, Stop), later);
  }

  // --- Asking goes on ---

  /** A failed stream leaves the log to the poller: a poll is armed at once, with no wait. */
  lemma StreamErrorAsksAtOnce(pace: Pace, s: State)
    requires Inv(s) && !s.Over()
    ensures
      var later := s.Step(pace, StreamError);
      && later.winner == Poll && !later.Over() && later.calls == s.calls
      && exists id :: later.armed == map[id := Next(0)]
  {
    var left := s.(winner := Poll);
    StopPollingDisarms(left);
    assert left.StopPolling().ScheduleNextPoll(0).armed == map[s.nextId := Next(0)];
  }

  /** Nobody has won for the stream, and no request is out. */
  predicate MayAsk(s: State) { !s.Over() && !s.StreamWon() && !s.polling }

  /** How a request that does not end the job goes. */
  predicate AnswersNotTheEnd(e: Event, gap: nat) {
    (e.Answer? && e.gap == gap && !e.terminal) || e == AskFails(gap)
  }

  lemma FiringAsks(pace: Pace, s: State, id: nat)
    requires Inv(s) && id in s.armed && MayAsk(s)
    ensures
      var asked := s.Step(pace, Fires(id));
      && asked.polling && asked.requests == multiset{pace.After(s.armed[id])} && id !in asked.armed
      && asked.calls == s.calls && !asked.Over() && !asked.StreamWon() && asked.resuming == s.resuming
  {
    assert |s.requests| == 0;
  }

  lemma AnswerResumes(pace: Pace, s: State, e: Event, gap: nat)
    requires s.requests == multiset{gap} && !s.Over() && !s.StreamWon() && AnswersNotTheEnd(e, gap)
    ensures
      var answered := s.Step(pace, e);
      && gap in answered.resuming && MayAsk(answered) && answered.requests == multiset{}
      && answered.calls == if e.Answer? && e.output != [] then s.calls + [OnOutput(e.output, false)] else s.calls
  {
  }

  lemma ResumingArms(pace: Pace, s: State, gap: nat)
    requires gap in s.resuming && MayAsk(s)
    ensures
      var resumed := s.Step(pace, Resume(gap));
      && resumed.pollTimer.Some? && resumed.pollTimer.value in resumed.armed
      && resumed.armed[resumed.pollTimer.value] == Next(gap) && MayAsk(resumed) && resumed.calls == s.calls
  {
  }

  /**
   * One round of asking: a timer fires, exactly one request goes out, and once it is answered or lost,
   * its output replacing what is shown, the next poll is armed: `pollEvery` after the first, and after
   * any other the gap before it, widened.
   */
  lemma AskingGoesOn(pace: Pace, s: State, id: nat, e: Event)
    requires Inv(s) && id in s.armed && MayAsk(s)
    requires AnswersNotTheEnd(e, if s.armed[id].First? then pace.pollEvery else pace.Widened(s.armed[id].delay))
    ensures
      var gap := if s.armed[id].First? then pace.pollEvery else pace.Widened(s.armed[id].delay);
      var asked := s.Step(pace, Fires(id));
      var later := asked.Step(pace, e).Step(pace, Resume(gap));
      && asked.requests == multiset{gap} && later.requests == multiset{}
      && later.pollTimer.Some? && later.pollTimer.value in later.armed
      && later.armed[later.pollTimer.value] == Next(gap)
      && later.calls == if e.Answer? && e.output != [] then s.calls + [OnOutput(e.output, false)] else s.calls
  {
    var gap := pace.After(s.armed[id]);
    FiringAsks(pace, s, id);
    AnswerResumes(pace, s.Step(pace, Fires(id)), e, gap);
    ResumingArms(pace, s.Step(pace, Fires(id)).Step(pace, e), gap);
  }

  function Rank(winner: Winner): nat {
    match winner
    case Nobody => 0
    case Stream => 1
    case Poll => 2
  }

  lemma WinnerMovesOnAtAnswer(s: State, gap: nat, output: Text, terminal: bool)
    ensures Rank(s.winner) <= Rank(s.OnAnswer(gap, output, terminal).winner)
  {
  }

  lemma WinnerMovesOnAtStep(pace: Pace, s: State, e: Event)
    ensures Rank(s.winner) <= Rank(s.Step(pace, e).winner)
  {
    match e
    case Answer(gap, output, terminal) => WinnerMovesOnAtAnswer(s, gap, output, terminal);
    case Fires(id) =>
    case StreamOutput(text) =>
    case _ =>
  }

  /** The winner moves only from nobody to either, or from the stream to the poller. */
  lemma {:induction false} WinnerOnlyMovesOn(pace: Pace, s: State, events: seq<Event>)
    ensures Rank(s.winner) <= Rank(s.Run(pace, events).winner)
  {
    if events != [] {
      WinnerOnlyMovesOn(pace, s, events[..|events| - 1]);
      WinnerMovesOnAtStep(pace, s.Run(pace, events[..|events| - 1]), events[|events| - 1]);
    }
  }

  // --- What is on screen (src/JobLogView.tsx) ---

  /** The view's text: every fragment appended, every whole log replacing. */
  function Screen(calls: seq<Callback>): Text {
    if calls == [] then []
    else
      var before, last := Screen(calls[..|calls| - 1]), calls[|calls| - 1];
      match last
      case OnOutput(text, append) => Displayed(before, text, append)
      case OnState => before
  }

  /** The follower and a server whose log has been written, and streamed to us from byte zero, so far. */
  datatype World = World(written: nat, streamed: nat, state: State)

  datatype Move =
    | Write(units: nat)
    | Deliver(units: nat)
    | AnswerWith(gap: nat, units: nat, terminal: bool)  // some prefix of what is written, however stale
    | Other(event: Event)

  /**
   * One move over the log the job will have written when it ends; a move that cannot happen changes
   * nothing. A stream that failed reconnects at byte zero and would send everything again.
   */
  function Moved(pace: Pace, log: Text, w: World, m: Move): World
    requires w.streamed <= w.written <= |log|
  {
    match m
    case Write(n) => if w.written + n <= |log| then w.(written := w.written + n) else w
    case Deliver(n) =>
      if w.streamed + n <= w.written then
        World(w.written, w.streamed + n, w.state.Step(pace, StreamOutput(log[w.streamed..w.streamed + n])))
      else w
    case AnswerWith(gap, n, terminal) =>
      if n <= w.written then w.(state := w.state.Step(pace, Answer(gap, log[..n], terminal))) else w
    case Other(e) =>
      if e.StreamOutput? || e.Answer? then w
      else World(w.written, if e.StreamError? then 0 else w.streamed, w.state.Step(pace, e))
  }

  function Played(pace: Pace, log: Text, moves: seq<Move>): (w: World)
    ensures w.streamed <= w.written <= |log|
  {
    if moves == [] then World(0, 0, START)
    else Moved(pace, log, Played(pace, log, moves[..|moves| - 1]), moves[|moves| - 1])
  }

  /** A log appending never misreads: paired as decoded text is, and not led by the notice once it is clipped. */
  ghost predicate Plain(log: Text) {
    WellPaired(log) && (NOTICE <= log ==> |log| <= MAX_CHARS)
  }

  /** Which callbacks leave the screen showing what one call on the first p units of the log would. */
  ghost function Shows(log: Text): (seq<Callback>, nat) -> bool {
    (calls: seq<Callback>, p: nat) => p <= |log| && Screen(calls) == Show(log[..p])
  }

  /** The screen shows some prefix of what is written; while the stream leads, all it sent. */
  ghost predicate OnScreen(shows: (seq<Callback>, nat) -> bool, w: World) {
    && (exists p :: 0 <= p <= w.written && shows(w.state.calls, p))
    && (!w.state.Over() && w.state.winner != Poll ==> shows(w.state.calls, w.streamed))
  }

  lemma ScreenSnoc(calls: seq<Callback>, call: Callback)
    ensures Screen(calls + [call])
         == match call
            case OnOutput(text, append) => Displayed(Screen(calls), text, append)
            case OnState => Screen(calls)
  {
    assert (calls + [call])[..|calls|] == calls;
  }

  lemma FragmentOnScreen(log: Text, from: nat, to: nat)
    requires Plain(log) && from <= to <= |log|
    ensures Displayed(Show(log[..from]), log[from..to], true) == Show(log[..to])
  {
    assert log[..from] + log[from..to] == log[..to];
    PrefixIsWellPaired(log, to);
    assert NOTICE <= log[..from] ==> NOTICE <= log;
    AppendShows(log[..from], log[from..to]);
  }

  /** What an answer adds to the callbacks. */
  lemma CallsOfAnswer(pace: Pace, s: State, gap: nat, output: Text, terminal: bool)
    ensures
      var s' := s.Step(pace, Answer(gap, output, terminal));
      var heard := gap in s.requests && !s.Over() && !s.StreamWon();
      var shown := if heard && output != [] then s.calls + [OnOutput(output, false)] else s.calls;
      s'.calls == if heard && terminal then shown + [OnState] else shown
  {
  }

  /** What an event that is neither an answer nor a fragment adds. */
  lemma CallsOfOther(pace: Pace, s: State, e: Event)
    requires !e.Answer? && !e.StreamOutput?
    ensures s.Step(pace, e).calls == s.calls || s.Step(pace, e).calls == s.calls + [OnState]
  {
    match e
    case Fires(id) =>
    case Resume(gap) =>
    case _ =>
  }

  /** Nor does it give the stream back its lead. */
  lemma LeadOfOther(pace: Pace, s: State, e: Event)
    requires !e.Answer? && !e.StreamOutput?
    ensures !s.Step(pace, e).Over() && s.Step(pace, e).winner != Poll ==> !s.Over() && s.winner != Poll
    ensures s.Over() ==> s.Step(pace, e).Over()
    ensures !s.Step(pace, e).Over() && s.Step(pace, e).winner != Poll ==> s.Step(pace, e).calls == s.calls
    ensures e == StreamError ==> s.Step(pace, e).Over() || s.Step(pace, e).winner == Poll
  {
    match e
    case Fires(id) =>
    case Resume(gap) =>
    case _ =>
  }

  lemma FragmentShows(calls: seq<Callback>, log: Text, from: nat, to: nat)
    requires Plain(log) && from <= to <= |log| && Shows(log)(calls, from)
    ensures Shows(log)(calls + [OnOutput(log[from..to], true)], to)
  {
    ScreenSnoc(calls, OnOutput(log[from..to], true));
    FragmentOnScreen(log, from, to);
  }

  lemma WholeShows(calls: seq<Callback>, log: Text, p: nat)
    requires p <= |log|
    ensures Shows(log)(calls + [OnOutput(log[..p], false)], p)
  {
    ScreenSnoc(calls, OnOutput(log[..p], false));
    ReplacingShowsTheLog(Screen(calls), log[..p]);
  }

  lemma EndingShows(calls: seq<Callback>, log: Text, p: nat)
    requires Shows(log)(calls, p)
    ensures Shows(log)(calls + [OnState], p)
  {
    ScreenSnoc(calls, OnState);
  }

  /** What appending a fragment, replacing by a prefix and ending do to the screen. */
  ghost predicate Closed(shows: (seq<Callback>, nat) -> bool, log: Text) {
    && (forall calls, from: nat, to: nat | from <= to <= |log| && shows(calls, from) ::
          shows(calls + [OnOutput(log[from..to], true)], to))
    && (forall calls, p: nat | p <= |log| :: shows(calls + [OnOutput(log[..p], false)], p))
    && (forall calls, p: nat | shows(calls, p) :: shows(calls + [OnState], p))
  }

  lemma ShowsIsClosed(log: Text)
    requires Plain(log)
    ensures Closed(Shows(log), log)
  {
    forall calls, from: nat, to: nat | from <= to <= |log| && Shows(log)(calls, from)
      ensures Shows(log)(calls + [OnOutput(log[from..to], true)], to)
    {
      FragmentShows(calls, log, from, to);
    }
    forall calls, p: nat | p <= |log| ensures Shows(log)(calls + [OnOutput(log[..p], false)], p) {
      WholeShows(calls, log, p);
    }
    forall calls, p: nat | Shows(log)(calls, p) ensures Shows(log)(calls + [OnState], p) {
      EndingShows(calls, log, p);
    }
  }

  lemma DeliverKeepsScreen(shows: (seq<Callback>, nat) -> bool, pace: Pace, log: Text, w: World, n: nat)
    requires w.streamed + n <= w.written <= |log| && OnScreen(shows, w) && Closed(shows, log)
    ensures OnScreen(shows, Moved(pace, log, w, Deliver(n)))
  {
    var text := log[w.streamed..w.streamed + n];
    var w' := Moved(pace, log, w, Deliver(n));
    assert |text| == n;
    if !w.state.Over() && w.state.winner != Poll && n > 0 {
      assert w'.state.calls == w.state.calls + [OnOutput(text, true)];
    } else {
      assert w'.state == w.state;
    }
  }

  lemma AnswerKeepsScreen(
    shows: (seq<Callback>, nat) -> bool, pace: Pace, log: Text, w: World, gap: nat, n: nat, terminal: bool)
    requires w.streamed <= w.written <= |log| && n <= w.written && OnScreen(shows, w) && Closed(shows, log)
    ensures OnScreen(shows, Moved(pace, log, w, AnswerWith(gap, n, terminal)))
  {
    var s, calls := w.state, w.state.calls;
    var later := Moved(pace, log, w, AnswerWith(gap, n, terminal)).state.calls;
    CallsOfAnswer(pace, s, gap, log[..n], terminal);
    AnswerOver(pace, s, gap, log[..n], terminal);
    var p :| 0 <= p <= w.written && shows(calls, p);
    if gap in s.requests && !s.Over() && !s.StreamWon() && n > 0 {
      var shown := calls + [OnOutput(log[..n], false)];
      assert shows(shown, n) && shows(shown + [OnState], n);
      assert later == shown || later == shown + [OnState];
    } else {
      assert shows(calls + [OnState], p);
      assert later == calls || later == calls + [OnState];
    }
  }

  lemma AnswerOver(pace: Pace, s: State, gap: nat, output: Text, terminal: bool)
    ensures
      var s' := s.Step(pace, Answer(gap, output, terminal));
      !s'.Over() && s'.winner != Poll ==> s'.calls == s.calls && !s.Over() && s.winner != Poll
  {
  }

  lemma OtherKeepsScreen(shows: (seq<Callback>, nat) -> bool, pace: Pace, log: Text, w: World, e: Event)
    requires w.streamed <= w.written <= |log| && OnScreen(shows, w) && Closed(shows, log)
    ensures OnScreen(shows, Moved(pace, log, w, Other(e)))
  {
    if e.StreamOutput? || e.Answer? { return; }
    CallsOfOther(pace, w.state, e);
    LeadOfOther(pace, w.state, e);
    var p :| 0 <= p <= w.written && shows(w.state.calls, p);
    assert shows(w.state.calls + [OnState], p);
  }

  lemma {:induction false} EveryRunKeepsScreen(
    shows: (seq<Callback>, nat) -> bool, pace: Pace, log: Text, moves: seq<Move>)
    requires Closed(shows, log) && shows([], 0)
    ensures OnScreen(shows, Played(pace, log, moves))
  {
    if moves != [] {
      EveryRunKeepsScreen(shows, pace, log, moves[..|moves| - 1]);
      var w := Played(pace, log, moves[..|moves| - 1]);
      match moves[|moves| - 1]
      case Write(n) =>
      case Deliver(n) => if w.streamed + n <= w.written { DeliverKeepsScreen(shows, pace, log, w, n); }
      case AnswerWith(gap, n, terminal) =>
        if n <= w.written { AnswerKeepsScreen(shows, pace, log, w, gap, n, terminal); }
      case Other(e) => OtherKeepsScreen(shows, pace, log, w, e);
    }
  }

  ghost predicate ShowsAPrefix(log: Text, w: World)
    requires w.written <= |log|
  {
    exists p :: 0 <= p <= w.written && Screen(w.state.calls) == Show(log[..p])
  }

  /**
   * However stream fragments, stream errors, stale answers, timers and leaving interleave, the text
   * on screen is exactly what showing some prefix of the log in one go would be: no line is doubled.
   */
  lemma ScreenShowsAPrefix(pace: Pace, log: Text, moves: seq<Move>)
    requires Plain(log)
    ensures
      var w := Played(pace, log, moves);
      && ShowsAPrefix(log, w)
      && (!w.state.Over() && w.state.winner != Poll ==> Screen(w.state.calls) == Show(log[..w.streamed]))
  {
    ShowsIsClosed(log);
    assert log[..0] == [];
    EveryRunKeepsScreen(Shows(log), pace, log, moves);
    var w := Played(pace, log, moves);
    var p :| 0 <= p <= w.written && Shows(log)(w.state.calls, p);
  }

  // --- What stays on screen ---

  lemma MoveOverStays(pace: Pace, log: Text, w: World, move: Move)
    requires w.streamed <= w.written <= |log| && w.state.Over()
    ensures Moved(pace, log, w, move).state.Over() && Moved(pace, log, w, move).state.calls == w.state.calls
  {
    match move
    case Write(_) =>
    case Deliver(n) =>
      if w.streamed + n <= w.written { OverStays(pace, w.state, StreamOutput(log[w.streamed..w.streamed + n])); }
    case AnswerWith(gap, n, terminal) =>
      if n <= w.written { OverStays(pace, w.state, Answer(gap, log[..n], terminal)); }
    case Other(e) => OverStays(pace, w.state, e);
  }

  /** Once it is over, nothing that still happens changes the screen. */
  lemma {:induction false} OverFreezesTheScreen(pace: Pace, log: Text, moves: seq<Move>, later: seq<Move>)
    requires Played(pace, log, moves).state.Over()
    ensures Played(pace, log, moves + later).state.Over()
    ensures Played(pace, log, moves + later).state.calls == Played(pace, log, moves).state.calls
  {
    if later == [] {
      assert moves + later == moves;
    } else {
      var before, last := later[..|later| - 1], later[|later| - 1];
      OverFreezesTheScreen(pace, log, moves, before);
      assert (moves + later)[..|moves + later| - 1] == moves + before;
      MoveOverStays(pace, log, Played(pace, log, moves + before), last);
    }
  }

  lemma PlayedOnce(pace: Pace, log: Text, moves: seq<Move>, move: Move)
    ensures Played(pace, log, moves + [move]) == Moved(pace, log, Played(pace, log, moves), move)
  {
    assert (moves + [move])[..|moves|] == moves;
  }

  /** Once the view has left, its screen stays as it was. */
  lemma StopFreezesTheScreen(pace: Pace, log: Text, moves: seq<Move>, later: seq<Move>)
    ensures
      Screen(Played(pace, log, moves + [Other(Stop)] + later).state.calls)
      == Screen(Played(pace, log, moves).state.calls)
  {
    PlayedKeepsInv(pace, log, moves);
    PlayedOnce(pace, log, moves, Other(Stop));
    StopEndsIt(pace, Played(pace, log, moves).state);
    OverFreezesTheScreen(pace, log, moves + [Other(Stop)], later);
  }

  lemma {:induction false} PlayedKeepsInv(pace: Pace, log: Text, moves: seq<Move>)
    ensures Inv(Played(pace, log, moves).state)
  {
    if moves == [] {
      EveryRunKeepsInv(pace, []);
    } else {
      PlayedKeepsInv(pace, log, moves[..|moves| - 1]);
      MoveKeepsInv(pace, log, Played(pace, log, moves[..|moves| - 1]), moves[|moves| - 1]);
    }
  }

  lemma MoveKeepsInv(pace: Pace, log: Text, w: World, move: Move)
    requires w.streamed <= w.written <= |log| && Inv(w.state)
    ensures Inv(Moved(pace, log, w, move).state)
  {
    match move
    case Write(_) =>
    case Deliver(n) =>
      if w.streamed + n <= w.written { StepKeepsInv(pace, w.state, StreamOutput(log[w.streamed..w.streamed + n])); }
    case AnswerWith(gap, n, terminal) =>
      if n <= w.written { StepKeepsInv(pace, w.state, Answer(gap, log[..n], terminal)); }
    case Other(e) => StepKeepsInv(pace, w.state, e);
  }

  /** After the stream's own end, with nothing polled, what was streamed stays on screen, all of it. */
  lemma StreamEndShowsAllOfIt(pace: Pace, log: Text, moves: seq<Move>, later: seq<Move>)
    requires Plain(log)
    requires !Played(pace, log, moves).state.Over() && Played(pace, log, moves).state.winner != Poll
    ensures
      Screen(Played(pace, log, moves + [Other(StreamState(true))] + later).state.calls)
      == Show(log[..Played(pace, log, moves).streamed])
  {
    var w := Played(pace, log, moves);
    ScreenShowsAPrefix(pace, log, moves);
    PlayedOnce(pace, log, moves, Other(StreamState(true)));
    ScreenSnoc(w.state.calls, OnState);
    OverFreezesTheScreen(pace, log, moves + [Other(StreamState(true))], later);
  }

  /** After a terminal answer that is heard, exactly its prefix stays; an empty one leaves what was shown. */
  lemma LastAnswerStays(pace: Pace, log: Text, moves: seq<Move>, gap: nat, n: nat, later: seq<Move>)
    requires var w := Played(pace, log, moves);
      n <= w.written && gap in w.state.requests && !w.state.Over() && !w.state.StreamWon()
    ensures
      Screen(Played(pace, log, moves + [AnswerWith(gap, n, true)] + later).state.calls)
      == if n == 0 then Screen(Played(pace, log, moves).state.calls) else Show(log[..n])
  {
    var w := Played(pace, log, moves);
    var shown := if n == 0 then w.state.calls else w.state.calls + [OnOutput(log[..n], false)];
    PlayedOnce(pace, log, moves, AnswerWith(gap, n, true));
    CallsOfAnswer(pace, w.state, gap, log[..n], true);
    TerminalAnswerEnds(pace, w.state, gap, log[..n]);
    ScreenSnoc(shown, OnState);
    if n > 0 { WholeShows(w.state.calls, log, n); }
    OverFreezesTheScreen(pace, log, moves + [AnswerWith(gap, n, true)], later);
  }

  /** Any other answer that is heard, if not empty, puts exactly its prefix on screen. */
  lemma AnswerIsShown(pace: Pace, log: Text, moves: seq<Move>, gap: nat, n: nat)
    requires var w := Played(pace, log, moves);
      0 < n <= w.written && gap in w.state.requests && !w.state.Over() && !w.state.StreamWon()
    ensures Screen(Played(pace, log, moves + [AnswerWith(gap, n, false)]).state.calls) == Show(log[..n])
  {
    var w := Played(pace, log, moves);
    PlayedOnce(pace, log, moves, AnswerWith(gap, n, false));
    CallsOfAnswer(pace, w.state, gap, log[..n], false);
    WholeShows(w.state.calls, log, n);
  }

  lemma TerminalAnswerEnds(pace: Pace, s: State, gap: nat, output: Text)
    requires gap in s.requests && !s.Over() && !s.StreamWon()
    ensures s.Step(pace, Answer(gap, output, true)).Over()
  {
  }

  /** Deliveries to a follower whom nothing has reached yet: the limit's worth, and one unit more. */
  function OneUnitTooMany(log: Text): seq<Move> { [Write(|log|), Deliver(MAX_CHARS), Deliver(1)] }

  lemma TwoFragments(pace: Pace, log: Text)
    requires |log| > MAX_CHARS
    ensures
      var w := Played(pace, log, OneUnitTooMany(log));
      && w.state.calls == [OnOutput(log[..MAX_CHARS], true), OnOutput(log[MAX_CHARS..MAX_CHARS + 1], true)]
      && w.written == |log|
  {
    var moves := OneUnitTooMany(log);
    assert moves[..2][..1] == [moves[0]] && moves[..2][1] == Deliver(MAX_CHARS) && [moves[0]][..0] == [];
    assert Played(pace, log, [moves[0]]) == Moved(pace, log, World(0, 0, START), Write(|log|));
    var w2 := Played(pace, log, moves[..2]);
    assert w2.state.calls == [] + [OnOutput(log[0..MAX_CHARS], true)] && w2.streamed == MAX_CHARS;
    assert w2.state.winner == Stream && !w2.state.Over();
  }

  lemma FirstUnitsShow(log: Text)
    requires WellPaired(log) && |log| > MAX_CHARS
    ensures Displayed([], log[..MAX_CHARS], true) == log[..MAX_CHARS]
  {
    PrefixIsWellPaired(log, MAX_CHARS);
    AppendPlain([], log[..MAX_CHARS]);
    assert [] + log[..MAX_CHARS] == log[..MAX_CHARS];
    ShowIsTheLogOrItsTail(log[..MAX_CHARS]);
  }

  lemma OneMoreIsVerbatim(log: Text)
    requires WellPaired(log) && NOTICE <= log && |log| > MAX_CHARS
    ensures Displayed(log[..MAX_CHARS], log[MAX_CHARS..MAX_CHARS + 1], true) == log[..MAX_CHARS + 1]
  {
    PrefixIsWellPaired(log, MAX_CHARS + 1);
    assert log[..MAX_CHARS] + log[MAX_CHARS..MAX_CHARS + 1] == log[..MAX_CHARS + 1];
    AppendToNotice(log[..MAX_CHARS], log[MAX_CHARS..MAX_CHARS + 1]);
  }

  lemma NoPrefixIsThatLong(log: Text, p: nat)
    requires WellPaired(log) && p <= |log|
    ensures |Show(log[..p])| != MAX_CHARS + 1
  {
    PrefixIsWellPaired(log, p);
    ShowIsTheLogOrItsTail(log[..p]);
  }

  lemma TwoOnScreen(first: Text, second: Text)
    ensures Screen([OnOutput(first, true), OnOutput(second, true)])
         == Displayed(Displayed([], first, true), second, true)
  {
    ScreenSnoc([], OnOutput(first, true));
    ScreenSnoc([OnOutput(first, true)], OnOutput(second, true));
    assert [OnOutput(first, true)] + [OnOutput(second, true)] == [OnOutput(first, true), OnOutput(second, true)];
    assert [] + [OnOutput(first, true)] == [OnOutput(first, true)];
  }

  /** A log led by the notice is then shown verbatim past the limit, which is no prefix's showing. */
  lemma NoticeLedShowsNoPrefix(pace: Pace, log: Text)
    requires WellPaired(log) && NOTICE <= log && |log| > MAX_CHARS
    ensures !ShowsAPrefix(log, Played(pace, log, OneUnitTooMany(log)))
  {
    TwoFragments(pace, log);
    TwoOnScreen(log[..MAX_CHARS], log[MAX_CHARS..MAX_CHARS + 1]);
    FirstUnitsShow(log);
    OneMoreIsVerbatim(log);
    forall p | 0 <= p <= |log| ensures |Show(log[..p])| != MAX_CHARS + 1 { NoPrefixIsThatLong(log, p); }
  }

  ghost predicate EveryRunShowsAPrefix(pace: Pace, log: Text) {
    forall moves :: ShowsAPrefix(log, Played(pace, log, moves))
  }

  /** In every interleaving the screen shows a prefix of the log exactly when the log is plain. */
  lemma ScreenShowsPrefixesExactly(pace: Pace, log: Text)
    requires WellPaired(log)
    ensures EveryRunShowsAPrefix(pace, log) <==> Plain(log)
  {
    if Plain(log) {
      forall moves ensures ShowsAPrefix(log, Played(pace, log, moves)) { ScreenShowsAPrefix(pace, log, moves); }
    } else {
      NoticeLedShowsNoPrefix(pace, log);
      var moves := OneUnitTooMany(log);
      assert !ShowsAPrefix(log, Played(pace, log, moves));
    }
  }

  // --- The function itself, as the object its closure is ---

  class Follower {
    const pace: Pace
    var winner: Winner
    var stopped: bool
    var finished: bool
    var polling: bool
    var pollTimer: Option<nat>
    var startTimer: Option<nat>
    var armed: map<nat, Timer>
    var nextId: nat
    var requests: multiset<nat>
    var resuming: multiset<nat>
    var calls: seq<Callback>

    ghost function Now(): State
      reads this
    {
      State(winner, stopped, finished, polling, pollTimer, startTimer, armed, nextId, requests, resuming, calls)
    }

    ghost predicate Valid()
      reads this
    {
      Inv(Now())
    }

    constructor (pace: Pace)
      ensures Now() == START && this.pace == pace && Valid()
    {
      this.pace := pace;
      winner, stopped, finished, polling := Nobody, false, false, false;
      pollTimer, startTimer, armed, nextId := None, Some(0), map[0 := First], 1;
      requests, resuming, calls := multiset{}, multiset{}, [];
      new;
      EveryRunKeepsInv(pace, []);
    }

    method StopPolling()
      modifies this
      ensures Now() == old(Now()).StopPolling()
    {
      if pollTimer.Some? {
        armed := armed - {pollTimer.value};
        pollTimer := None;
      }
      if startTimer.Some? {
        armed := armed - {startTimer.value};
        startTimer := None;
      }
    }

    method Ask(gap: nat)
      modifies this
      ensures Now() == old(Now()).Ask(gap)
    {
      if stopped || finished || winner == Stream || polling {
        resuming := resuming + multiset{gap};
        return;
      }
      polling := true;
      requests := requests + multiset{gap};
    }

    method ScheduleNextPoll(delay: nat)
      modifies this
      ensures Now() == old(Now()).ScheduleNextPoll(delay)
    {
      if stopped || finished || winner == Stream { return; }
      if pollTimer.Some? { armed := armed - {pollTimer.value}; }
      armed := armed[nextId := Next(delay)];
      pollTimer := Some(nextId);
      nextId := nextId + 1;
    }

    method RequestOver(gap: nat)
      modifies this
      ensures Now() == old(Now()).Asked(gap)
    {
      ghost var before := Now();
      polling, requests, resuming := false, requests - multiset{gap}, resuming + multiset{gap};
      assert Now() == before.Asked(gap);
    }

    /** What `poll()` does with a readable answer while it still may. */
    method Heard(output: Text, terminal: bool)
      modifies this
      ensures Now() == old(Now()).Heard(output, terminal)
    {
      if |output| > 0 {
        winner := Poll;
        calls := calls + [OnOutput(output, false)];
      }
      if terminal {
        calls := calls + [OnState];
        finished := true;
        StopPolling();
      }
    }

    method Answered(gap: nat, output: Text, terminal: bool)
      requires gap in requests
      modifies this
      ensures Now() == old(Now()).OnAnswer(gap, output, terminal)
    {
      if !(stopped || finished || winner == Stream) { Heard(output, terminal); }
      RequestOver(gap);
    }

    method StreamSpoke(text: Text)
      modifies this
      ensures Now() == old(Now()).OnStreamOutput(text)
    {
      if stopped || finished || winner == Poll || |text| == 0 { return; }
      winner := Stream;
      StopPolling();
      calls := calls + [OnOutput(text, true)];
    }

    method StreamEnded(terminal: bool)
      modifies this
      ensures Now() == old(Now()).OnStreamState(terminal)
    {
      if stopped || finished || !terminal { return; }
      finished := true;
      StopPolling();
      calls := calls + [OnState];
    }

    method StreamFailed()
      modifies this
      ensures Now() == old(Now()).OnStreamError()
    {
      if stopped || finished { return; }
      winner := Poll;
      StopPolling();
      ScheduleNextPoll(0);
    }

    method TimerFired(id: nat)
      requires id in armed
      modifies this
      ensures Now() == old(Now()).OnFires(pace, id)
    {
      var timer := armed[id];
      armed := armed - {id};
      if timer.Next? { pollTimer := None; }
      Ask(pace.After(timer));
    }

    /** What follows `await poll()` in either timer. */
    method Resumed(gap: nat)
      requires gap in resuming
      modifies this
      ensures Now() == old(Now()).OnResume(gap)
    {
      resuming := resuming - multiset{gap};
      ScheduleNextPoll(gap);
    }

    /** The handler each event runs. */
    method Do(event: Event)
      modifies this
      ensures Now() == old(Now()).Step(pace, event)
    {
      match event
      case StreamOutput(text) => StreamSpoke(text);
      case StreamState(terminal) => StreamEnded(terminal);
      case StreamError => StreamFailed();
      case Fires(id) => if id in armed { TimerFired(id); }
      case Answer(gap, output, terminal) => if gap in requests { Answered(gap, output, terminal); }
      case AskFails(gap) =>
        if gap in requests { RequestOver(gap); }
      case Resume(gap) =>
        if gap in resuming { Resumed(gap); }
      case Stop =>
        stopped := true;
        StopPolling();
    }

    /** After any event: one request at most, one end told at most, and nothing armed once it is over. */
    method Handle(event: Event)
      requires Valid()
      modifies this
      ensures Now() == old(Now()).Step(pace, event) && Valid()
      ensures |requests| <= 1 && Endings(calls) <= 1 && (stopped || finished ==> armed == map[])
    {
      StepKeepsInv(pace, Now(), event);
      Do(event);
    }
  }
}
