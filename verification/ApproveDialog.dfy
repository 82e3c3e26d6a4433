/**
 * src/shell/ApproveDialog.tsx: the dialog that stages a job, asks for its approval and follows it, and
 * may be re-staged by its props or torn down at any moment.
 *
 * `Staging` is the record one run of the staging effect keeps (`stagedState`); `Call` is one run of
 * `approve()`; `trace` is what went between the dialog and the server, in order.
 */
module ApproveDialog {
  import opened Wrappers

  type Id = string

  datatype Phase = Preparing | Ready | Approving | Running | Done | Failed

  datatype Policy = Policy(passwordRequired: bool, confirmText: Option<string>, expired: bool)

  datatype Staging = Staging(
    jobId: Option<Id>, approvalStarted: bool, withdrawn: bool, owned: bool,
    cancelled: bool, pending: bool, existing: Option<Id>)

  datatype Progress = Sent | Following | Over

  datatype Call = Call(job: Id, progress: Progress)

  datatype Message = Staged(id: Id) | CancelSent(id: Id) | ApproveSent(id: Id) | Accepted(id: Id) | Refused(id: Id)

  datatype Event =
    | Restage(existing: Option<Id>, retrying: bool)     // the effect's dependencies changed
    | StageAnswers(staging: nat, id: Id, policy: Policy)
    | StageFails(staging: nat)
    | Type(passwordLength: nat, typed: string)
    | Expire
    | Submit
    | CallAccepted(call: nat, handoff: bool)
    | CallRefused(call: nat, wantsPassword: bool)
    | JobEnds(call: nat, completed: bool)
    | FollowFails(call: nat)
    | PolicyRead(job: Id, policy: Policy)               // asked for after a refusal of the job's approval
    | Dismiss
    | Unmount

  function Prepared(existing: Option<Id>, retrying: bool): Staging {
    // A job this dialog did not stage is not its to withdraw.
    Staging(None, false, false, existing.None? || retrying, false, true, if retrying then None else existing)
  }

  datatype State = State(
    phase: Phase, job: Option<Id>, policy: Option<Policy>, passwordLength: nat, typed: string, expired: bool,
    confirmText: Option<string>, mounted: bool, stagings: seq<Staging>, calls: seq<Call>, trace: seq<Message>)
  {
    function Said(message: Message): State { this.(trace := trace + [message]) }

    function Latest(): nat { if stagings == [] then 0 else |stagings| - 1 }

    predicate Busy() { phase == Preparing || phase == Approving || phase == Running }

    predicate PasswordRequired() { policy.Some? ==> policy.value.passwordRequired }

    function ConfirmRequired(): Option<string> {
      if confirmText.Some? then confirmText else if policy.Some? then policy.value.confirmText else None
    }

    predicate CanApprove() {
      && !expired && phase == Ready
      && !(PasswordRequired() && passwordLength < 12)
      && !(ConfirmRequired().Some? && ConfirmRequired().value != "" && typed != ConfirmRequired().value)
    }

    function Withdraw(g: nat): State
      requires g < |stagings|
    {
      var staging := stagings[g];
      if !staging.owned || staging.jobId.None? || staging.approvalStarted || staging.withdrawn then this
      else this.(stagings := stagings[g := staging.(withdrawn := true)]).Said(CancelSent(staging.jobId.value))
    }

    /** The staging effect's cleanup. */
    function CleanUp(): State
      requires stagings != []
    {
      this.(stagings := stagings[Latest() := stagings[Latest()].(cancelled := true)]).Withdraw(Latest())
    }

    function OnRestage(existing: Option<Id>, retrying: bool): State
      requires stagings != []
    {
      if !mounted then this
      else
        var cleaned := CleanUp();
        cleaned.(stagings := cleaned.stagings + [Prepared(existing, retrying)], phase := Preparing, job := None,
                 policy := None, passwordLength := 0, typed := "", expired := false)
    }

    function OnStageAnswers(g: nat, id: Id, answered: Policy): State {
      if g >= |stagings| || !stagings[g].pending then this
      else
        var noted := this.(stagings := stagings[g := stagings[g].(jobId := Some(id), pending := false)]);
        var staged := if stagings[g].owned then noted.Said(Staged(id)) else noted;
        if stagings[g].cancelled then staged.Withdraw(g)
        else staged.(job := Some(id), policy := Some(answered), expired := answered.expired, phase := Ready)
    }

    function OnStageFails(g: nat): State {
      if g >= |stagings| || !stagings[g].pending then this
      else
        var noted := this.(stagings := stagings[g := stagings[g].(pending := false)]);
        if stagings[g].cancelled then noted else noted.(phase := Failed)
    }

    /** The form's submit, and `approve()` up to its await. */
    function OnSubmit(): State {
      if !mounted || !CanApprove() || job.None? || stagings == [] then this
      else
        this.(stagings := stagings[Latest() := stagings[Latest()].(approvalStarted := true)],
              calls := calls + [Call(job.value, Sent)], phase := Approving).Said(ApproveSent(job.value))
    }

    predicate At(call: nat, progress: Progress) { call < |calls| && calls[call].progress == progress }

    function Moved(call: nat, progress: Progress): State
      requires call < |calls|
    {
      this.(calls := calls[call := calls[call].(progress := progress)])
    }

    function OnCallAccepted(call: nat, handoff: bool): State {
      if !At(call, Sent) then this
      else
        var heard := Said(Accepted(calls[call].job));
        if !mounted then heard.Moved(call, Over)
        else if handoff then heard.Moved(call, Over).(passwordLength := 0)
        else heard.Moved(call, Following).(phase := Running, passwordLength := 0)
    }

    function OnCallRefused(call: nat, wantsPassword: bool): State {
      if !At(call, Sent) then this
      else
        var heard := Said(Refused(calls[call].job)).Moved(call, Over);
        if !mounted || stagings == [] then heard
        else
          heard.(stagings := stagings[Latest() := stagings[Latest()].(approvalStarted := false)], phase := Ready,
                 policy :=
                   if wantsPassword && policy.Some? then Some(policy.value.(passwordRequired := true)) else policy)
    }

    function OnJobEnds(call: nat, completed: bool): State {
      if !At(call, Following) then this
      else if !mounted then Moved(call, Over)
      else Moved(call, Over).(job := Some(calls[call].job), phase := if completed then Done else Failed)
    }

    function OnFollowFails(call: nat): State {
      if !At(call, Following) then this
      else if !mounted then Moved(call, Over)
      else Moved(call, Over).(phase := Failed)
    }

    function OnPolicyRead(id: Id, answered: Policy): State {
      if !mounted || stagings == [] || stagings[Latest()].jobId != Some(id) then this
      else this.(policy := Some(answered), expired := answered.expired)
    }

    function OnDismiss(): State {
      if !mounted || Busy() || stagings == [] then this
      else
        var staging := stagings[Latest()];
        if job.Some? && phase == Ready && staging.owned && !staging.withdrawn
        then this.(stagings := stagings[Latest() := staging.(withdrawn := true)]).Said(CancelSent(job.value))
        else this
    }

    function OnUnmount(): State
      requires stagings != []
    {
      if mounted then CleanUp().(mounted := false) else this
    }

    function Step(e: Event): State
      requires stagings != []
    {
      match e
      case Restage(existing, retrying) => OnRestage(existing, retrying)
      case StageAnswers(g, id, answered) => OnStageAnswers(g, id, answered)
      case StageFails(g) => OnStageFails(g)
      case Type(length, text) =>
        if mounted && phase == Ready then this.(passwordLength := length, typed := text) else this
      case Expire => this.(expired := true)
      case Submit => OnSubmit()
      case CallAccepted(call, handoff) => OnCallAccepted(call, handoff)
      case CallRefused(call, wantsPassword) => OnCallRefused(call, wantsPassword)
      case JobEnds(call, completed) => OnJobEnds(call, completed)
      case FollowFails(call) => OnFollowFails(call)
      case PolicyRead(id, answered) => OnPolicyRead(id, answered)
      case Dismiss => OnDismiss()
      case Unmount => OnUnmount()
    }
  }

  function Opened(existing: Option<Id>, confirmText: Option<string>, retrying: bool): State {
    State(Preparing, None, None, 0, "", false, confirmText, true, [Prepared(existing, retrying)], [], [])
  }

  // --- One job's life, as the server saw it ---

  datatype Life = Life(staged: bool, sent: bool, inFlight: int, accepted: bool, cancelled: bool)

  const UNKNOWN := Life(false, false, 0, false, false)

  function Lived(life: Life, message: Message): Life {
    match message
    case Staged(_) => life.(staged := true)
    case CancelSent(_) => life.(cancelled := true)
    case ApproveSent(_) => life.(sent := true, inFlight := life.inFlight + 1)
    case Accepted(_) => life.(accepted := true, inFlight := life.inFlight - 1)
    case Refused(_) => life.(inFlight := life.inFlight - 1)
  }

  function LifeOf(trace: seq<Message>, id: Id): Life {
    if trace == [] then UNKNOWN
    else
      var before, last := LifeOf(trace[..|trace| - 1], id), trace[|trace| - 1];
      if last.id == id then Lived(before, last) else before
  }

  /** A job may be cancelled once, if the dialog staged it, while no approval of it is out or accepted. */
  predicate MayCancel(life: Life) {
    life.staged && !life.cancelled && life.inFlight == 0 && !life.accepted
  }

  predicate Safe(trace: seq<Message>) {
    trace == []
    || var before, last := trace[..|trace| - 1], trace[|trace| - 1];
       Safe(before) && (last.CancelSent? ==> MayCancel(LifeOf(before, last.id)))
  }

  lemma TraceSnoc(trace: seq<Message>, message: Message)
    ensures Safe(trace + [message]) <==> Safe(trace) && (message.CancelSent? ==> MayCancel(LifeOf(trace, message.id)))
    ensures LifeOf(trace + [message], message.id) == Lived(LifeOf(trace, message.id), message)
    ensures forall id | id != message.id :: LifeOf(trace + [message], id) == LifeOf(trace, id)
  {
    assert (trace + [message])[..|trace|] == trace;
  }

  /** Every job the dialog staged and has let go of was either withdrawn or had its approval sent. */
  predicate Conserved(s: State) {
    forall staging <- s.stagings | staging.owned && staging.cancelled && staging.jobId.Some? ::
      var life := LifeOf(s.trace, staging.jobId.value);
      life.cancelled || life.sent
  }

  // --- Runs ---

  /** A newly staged job has an id never seen before; an existing job's read answers with that job. */
  predicate Honest(s: State, e: Event) {
    e.StageAnswers? && e.staging < |s.stagings| ==>
      if s.stagings[e.staging].owned
      then forall g | 0 <= g < |s.stagings| :: s.stagings[g].jobId != Some(e.id) && s.stagings[g].existing != Some(e.id)
      else s.stagings[e.staging].existing == Some(e.id)
  }

  predicate NoCallOpen(s: State) { forall c | 0 <= c < |s.calls| :: s.calls[c].progress == Over }

  /** A submit now would send an approval. */
  predicate MaySend(s: State) { s.mounted && s.CanApprove() && s.job.Some? }

  function Run(s: State, events: seq<Event>): (r: State)
    requires s.stagings != []
    ensures r.stagings != []
  {
    if events == [] then s else Run(s, events[..|events| - 1]).Step(events[|events| - 1])
  }

  /** A run of honest events in which an approval is sent only where the guard lets it. */
  ghost predicate Guarded(s: State, events: seq<Event>, guard: State -> bool)
    requires s.stagings != []
  {
    events == []
    || var before, last := events[..|events| - 1], events[|events| - 1];
       && Guarded(s, before, guard)
       && Honest(Run(s, before), last)
       && (last.Submit? && MaySend(Run(s, before)) ==> guard(Run(s, before)))
  }

  /** The form's own checks, and nothing more: what the code does. */
  function Anytime(): State -> bool { (s: State) => true }

  /** No approval while another is out or its job is followed. */
  function Alone(): State -> bool { (s: State) => NoCallOpen(s) }

  // --- What runs keep in which approvals are sent alone ---

  /** One staging against the trace. */
  predicate StagingInv(staging: Staging, trace: seq<Message>) {
    && (staging.owned ==> staging.existing.None?)
    && (staging.pending ==> staging.jobId.None? && !staging.approvalStarted && !staging.withdrawn)
    && (!staging.owned && staging.jobId.Some? ==> staging.jobId == staging.existing)
    && (staging.owned && staging.jobId.Some? ==>
          var life := LifeOf(trace, staging.jobId.value);
          && life.staged && (life.cancelled <==> staging.withdrawn)
          && (staging.approvalStarted ==> life.sent)
          && (staging.cancelled ==> staging.withdrawn || staging.approvalStarted)
          && (!staging.cancelled && !staging.approvalStarted ==> life.inFlight == 0 && !life.accepted))
  }

  predicate StagingsInv(s: State) {
    && s.stagings != []
    && (forall g | 0 <= g < |s.stagings| :: s.stagings[g].cancelled <==> !s.mounted || g < |s.stagings| - 1)
    && (forall g | 0 <= g < |s.stagings| :: StagingInv(s.stagings[g], s.trace))
  }

  predicate Knows(stagings: seq<Staging>, id: Id) {
    exists g :: 0 <= g < |stagings| && stagings[g].jobId == Some(id)
  }

  /** No message names a job no staging knows. */
  ghost predicate TraceKnown(stagings: seq<Staging>, trace: seq<Message>) {
    forall id :: Knows(stagings, id) || LifeOf(trace, id) == UNKNOWN
  }

  /** Two stagings never stage the same job. */
  predicate Distinct(stagings: seq<Staging>) {
    forall g, h | 0 <= g < h < |stagings| && stagings[g].owned && stagings[h].owned && stagings[g].jobId.Some? ::
      stagings[g].jobId != stagings[h].jobId
  }

  function Current(s: State): Staging
    requires s.stagings != []
  {
    s.stagings[|s.stagings| - 1]
  }

  /**
   * An open call is the latest, and may belong to an older staging. A form that shows, or shows again,
   * is of the current staging's job; an approval started is of the latest call.
   */
  predicate CallsInv(s: State)
    requires s.stagings != []
  {
    && (forall c | 0 <= c < |s.calls| && s.calls[c].progress != Over ::
          c == |s.calls| - 1 && LifeOf(s.trace, s.calls[c].job).sent)
    && (s.mounted ==>
          var staging := Current(s);
          && (s.phase == Ready ==> !staging.approvalStarted)
          && (s.job.Some? && (s.phase == Ready || !NoCallOpen(s)) ==> s.job == staging.jobId)
          && (staging.approvalStarted && !NoCallOpen(s) ==> s.job.Some?)
          && (staging.approvalStarted ==> s.calls != [] && staging.jobId == Some(s.calls[|s.calls| - 1].job)))
  }

  /** While an approval of the current job is out, it is the only one and none was accepted before. */
  predicate FlightInv(s: State)
    requires s.stagings != []
  {
    && s.mounted && Current(s).owned && s.calls != []
    && s.calls[|s.calls| - 1].progress == Sent && Current(s).jobId == Some(s.calls[|s.calls| - 1].job)
    ==>
      var life := LifeOf(s.trace, s.calls[|s.calls| - 1].job);
      life.inFlight == 1 && !life.accepted
  }

  ghost predicate Inv(s: State) {
    && StagingsInv(s) && Distinct(s.stagings) && TraceKnown(s.stagings, s.trace)
    && CallsInv(s) && FlightInv(s) && Safe(s.trace)
  }

  lemma OpenedInv(existing: Option<Id>, confirmText: Option<string>, retrying: bool)
    ensures Inv(Opened(existing, confirmText, retrying))
  {
  }

  lemma KnownKept(before: seq<Staging>, after: seq<Staging>, trace: seq<Message>)
    requires |before| <= |after| && TraceKnown(before, trace)
    requires forall g | 0 <= g < |before| :: before[g].jobId.Some? ==> after[g].jobId == before[g].jobId
    ensures TraceKnown(after, trace)
  {
    forall id ensures Knows(after, id) || LifeOf(trace, id) == UNKNOWN {
      if Knows(before, id) {
        var g :| 0 <= g < |before| && before[g].jobId == Some(id);
        assert after[g].jobId == Some(id);
      }
    }
  }

  lemma KnownSaid(stagings: seq<Staging>, trace: seq<Message>, message: Message)
    requires TraceKnown(stagings, trace) && Knows(stagings, message.id)
    ensures TraceKnown(stagings, trace + [message])
  {
    TraceSnoc(trace, message);
  }

  /** A message about another job, or about a let-go job's approval, leaves a staging as it should be. */
  lemma OtherKept(staging: Staging, trace: seq<Message>, message: Message)
    requires StagingInv(staging, trace)
    requires staging.owned && staging.jobId == Some(message.id)
         ==> staging.cancelled && !message.Staged? && !message.CancelSent?
    ensures StagingInv(staging, trace + [message])
  {
    TraceSnoc(trace, message);
  }

  /** What the dialog keeps of its stagings and the trace, apart from what is on screen. */
  ghost predicate Books(stagings: seq<Staging>, trace: seq<Message>) {
    && Distinct(stagings) && TraceKnown(stagings, trace) && Safe(trace)
    && forall g | 0 <= g < |stagings| :: StagingInv(stagings[g], trace)
  }

  /** Changing one staging, with one message about its job. */
  lemma BooksAfter(stagings: seq<Staging>, g: nat, now: Staging, trace: seq<Message>, message: Message)
    requires g < |stagings| && Distinct(stagings[g := now]) && TraceKnown(stagings, trace) && Safe(trace)
    requires stagings[g].jobId.Some? ==> now.jobId == stagings[g].jobId
    requires now.jobId == Some(message.id) && StagingInv(now, trace + [message])
    requires forall h | 0 <= h < |stagings| && h != g :: StagingInv(stagings[h], trace)
    requires ((message.Staged? || message.CancelSent?) && now.owned)
          || (!message.Staged? && !message.CancelSent?
              && forall h | 0 <= h < |stagings| && h != g :: stagings[h].cancelled)
    requires message.CancelSent? ==> MayCancel(LifeOf(trace, message.id))
    ensures Books(stagings[g := now], trace + [message])
  {
    var after := stagings[g := now];
    TraceSnoc(trace, message);
    KnownKept(stagings, after, trace);
    assert after[g].jobId == Some(message.id);
    KnownSaid(after, trace, message);
    forall h | 0 <= h < |after| && h != g ensures StagingInv(after[h], trace + [message]) {
      assert after[h] == stagings[h];
      if h < g { assert after[h].owned && after[g].owned && after[h].jobId.Some? ==> after[h].jobId != after[g].jobId; }
      OtherKept(after[h], trace, message);
    }
  }

  /** Changing one staging silently. */
  lemma BooksQuiet(stagings: seq<Staging>, g: nat, now: Staging, trace: seq<Message>)
    requires g < |stagings| && Books(stagings, trace)
    requires now.jobId == stagings[g].jobId && now.owned == stagings[g].owned && StagingInv(now, trace)
    ensures Books(stagings[g := now], trace)
  {
    KnownKept(stagings, stagings[g := now], trace);
  }

  /** Letting go of the current staging withdraws its job unless its approval was sent. */
  lemma CleanUpKeepsBooks(s: State)
    requires Inv(s) && s.mounted
    ensures
      var s' := s.CleanUp();
      && Books(s'.stagings, s'.trace) && |s'.stagings| == |s.stagings|
      && (forall g | 0 <= g < |s'.stagings| :: s'.stagings[g].cancelled)
      && s' == s.(stagings := s'.stagings, trace := s'.trace)
      && (forall id :: LifeOf(s.trace, id).sent ==> LifeOf(s'.trace, id).sent)
  {
    var staging := Current(s);
    if !staging.owned || staging.jobId.None? || staging.approvalStarted || staging.withdrawn {
      BooksQuiet(s.stagings, s.Latest(), staging.(cancelled := true), s.trace);
    } else {
      var message := CancelSent(staging.jobId.value);
      WithdrawalKeepsBooks(s.stagings, s.trace);
      TraceSnoc(s.trace, message);
      CleanUpWithdraws(s);
    }
  }

  lemma WithdrawalKeepsBooks(stagings: seq<Staging>, trace: seq<Message>)
    requires stagings != [] && Books(stagings, trace)
    requires var staging := stagings[|stagings| - 1];
      staging.owned && staging.jobId.Some? && !staging.approvalStarted && !staging.withdrawn && !staging.cancelled
    ensures
      var g, staging := |stagings| - 1, stagings[|stagings| - 1];
      Books(stagings[g := staging.(cancelled := true, withdrawn := true)], trace + [CancelSent(staging.jobId.value)])
  {
    var g, staging := |stagings| - 1, stagings[|stagings| - 1];
    var message := CancelSent(staging.jobId.value);
    assert MayCancel(LifeOf(trace, message.id));
    TraceSnoc(trace, message);
    BooksAfter(stagings, g, staging.(cancelled := true, withdrawn := true), trace, message);
  }

  lemma CleanUpWithdraws(s: State)
    requires s.stagings != []
    requires Current(s).owned && Current(s).jobId.Some? && !Current(s).approvalStarted && !Current(s).withdrawn
    ensures
      var gone := Current(s).(cancelled := true, withdrawn := true);
      s.CleanUp() == s.(stagings := s.stagings[s.Latest() := gone], trace := s.trace + [CancelSent(gone.jobId.value)])
  {
    var g := s.Latest();
    var gone := Current(s).(cancelled := true);
    assert s.stagings[g := gone][g := gone.(withdrawn := true)] == s.stagings[g := gone.(withdrawn := true)];
  }

  lemma RestageKeepsInv(s: State, existing: Option<Id>, retrying: bool)
    requires Inv(s)
    ensures Inv(s.OnRestage(existing, retrying))
  {
    if s.mounted {
      CleanUpKeepsBooks(s);
      var cleaned, s' := s.CleanUp(), s.OnRestage(existing, retrying);
      KnownKept(cleaned.stagings, s'.stagings, s'.trace);
    }
  }

  lemma UnmountKeepsInv(s: State)
    requires Inv(s)
    ensures Inv(s.Step(Unmount))
  {
    if s.mounted { CleanUpKeepsBooks(s); }
  }

  /** The server's answer to one staging, noted. */
  lemma StagedKeepsBooks(s: State, g: nat, id: Id)
    requires Inv(s) && Honest(s, StageAnswers(g, id, Policy(false, None, false)))
    requires g < |s.stagings| && s.stagings[g].pending
    ensures
      var staging := s.stagings[g].(jobId := Some(id), pending := false);
      var trace := if staging.owned then s.trace + [Staged(id)] else s.trace;
      && (staging.owned ==> LifeOf(trace, id) == UNKNOWN.(staged := true))
      && Distinct(s.stagings[g := staging]) && TraceKnown(s.stagings[g := staging], trace) && Safe(trace)
      && (forall h | 0 <= h < |s.stagings| && h != g :: StagingInv(s.stagings[h], trace))
      && (!staging.cancelled || !staging.owned ==> StagingInv(staging, trace))
  {
    var staging := s.stagings[g].(jobId := Some(id), pending := false);
    var after := s.stagings[g := staging];
    assert StagingInv(s.stagings[g], s.trace);
    KnownKept(s.stagings, after, s.trace);
    assert after[g].jobId == Some(id);
    if staging.owned {
      assert !Knows(s.stagings, id);
      TraceSnoc(s.trace, Staged(id));
      KnownSaid(after, s.trace, Staged(id));
      forall h | 0 <= h < |after| && h != g ensures StagingInv(after[h], s.trace + [Staged(id)]) {
        assert after[h] == s.stagings[h] && s.stagings[h] in s.stagings;
        OtherKept(after[h], s.trace, Staged(id));
      }
    }
  }

  /** The answer to a staging that was let go while it was out: noted and withdrawn at once. */
  lemma LateAnswerKeepsBooks(s: State, g: nat, id: Id)
    requires Inv(s) && Honest(s, StageAnswers(g, id, Policy(false, None, false)))
    requires g < |s.stagings| && s.stagings[g].pending && s.stagings[g].cancelled && s.stagings[g].owned
    ensures
      var gone := s.stagings[g].(jobId := Some(id), pending := false, withdrawn := true);
      Books(s.stagings[g := gone], s.trace + [Staged(id)] + [CancelSent(id)])
  {
    var staging := s.stagings[g].(jobId := Some(id), pending := false);
    var staged, gone := s.trace + [Staged(id)], staging.(withdrawn := true);
    assert StagingInv(s.stagings[g], s.trace);
    StagedKeepsBooks(s, g, id);
    TraceSnoc(staged, CancelSent(id));
    BooksAfter(s.stagings[g := staging], g, gone, staged, CancelSent(id));
    assert s.stagings[g := staging][g := gone] == s.stagings[g := gone];
  }

  /** The stagings keep their places, and the current one its record and its job's life. */
  ghost predicate SameOnScreen(s: State, stagings: seq<Staging>, trace: seq<Message>) {
    && s.stagings != [] && |stagings| == |s.stagings|
    && (forall g | 0 <= g < |stagings| :: stagings[g].cancelled == s.stagings[g].cancelled)
    && (s.mounted ==> stagings[|stagings| - 1] == Current(s))
    && (s.mounted && Current(s).jobId.Some? ==>
          LifeOf(trace, Current(s).jobId.value) == LifeOf(s.trace, Current(s).jobId.value))
    && (forall id :: LifeOf(s.trace, id).sent ==> LifeOf(trace, id).sent)
  }

  lemma BooksKeepCalls(s: State, stagings: seq<Staging>, trace: seq<Message>)
    requires SameOnScreen(s, stagings, trace) && CallsInv(s)
    ensures CallsInv(s.(stagings := stagings, trace := trace))
  {
  }

  lemma BooksKeepFlight(s: State, stagings: seq<Staging>, trace: seq<Message>)
    requires SameOnScreen(s, stagings, trace) && FlightInv(s)
    ensures FlightInv(s.(stagings := stagings, trace := trace))
  {
  }

  /** Only the books change while the stagings keep their places and nothing on screen does. */
  lemma BooksAreEnough(s: State, stagings: seq<Staging>, trace: seq<Message>)
    requires Inv(s) && Books(stagings, trace) && SameOnScreen(s, stagings, trace)
    ensures Inv(s.(stagings := stagings, trace := trace))
  {
    BooksKeepCalls(s, stagings, trace);
    BooksKeepFlight(s, stagings, trace);
  }

  lemma LateAnswerIsUnseen(s: State, g: nat, id: Id)
    requires Inv(s) && g < |s.stagings| && s.stagings[g].cancelled && !Knows(s.stagings, id)
    ensures
      var gone := s.stagings[g].(jobId := Some(id), pending := false, withdrawn := true);
      SameOnScreen(s, s.stagings[g := gone], s.trace + [Staged(id)] + [CancelSent(id)])
  {
    TraceSnoc(s.trace, Staged(id));
    TraceSnoc(s.trace + [Staged(id)], CancelSent(id));
  }

  lemma LateAnswerWithdraws(s: State, g: nat, id: Id, answered: Policy)
    requires g < |s.stagings| && s.stagings[g].pending && s.stagings[g].cancelled && s.stagings[g].owned
    requires !s.stagings[g].approvalStarted && !s.stagings[g].withdrawn
    ensures
      var gone := s.stagings[g].(jobId := Some(id), pending := false, withdrawn := true);
      s.OnStageAnswers(g, id, answered)
      == s.(stagings := s.stagings[g := gone], trace := s.trace + [Staged(id)] + [CancelSent(id)])
  {
    var staging := s.stagings[g].(jobId := Some(id), pending := false);
    var gone := staging.(withdrawn := true);
    assert s.stagings[g := staging][g := gone] == s.stagings[g := gone];
  }

  lemma LateAnswerKeepsInv(s: State, g: nat, id: Id, answered: Policy)
    requires Inv(s) && Honest(s, StageAnswers(g, id, answered))
    requires g < |s.stagings| && s.stagings[g].pending && s.stagings[g].cancelled
    ensures Inv(s.OnStageAnswers(g, id, answered))
  {
    assert StagingInv(s.stagings[g], s.trace);
    if s.stagings[g].owned {
      var gone := s.stagings[g].(jobId := Some(id), pending := false, withdrawn := true);
      LateAnswerKeepsBooks(s, g, id);
      LateAnswerIsUnseen(s, g, id);
      LateAnswerWithdraws(s, g, id, answered);
      BooksAreEnough(s, s.stagings[g := gone], s.trace + [Staged(id)] + [CancelSent(id)]);
    } else {
      StagedKeepsBooks(s, g, id);
      BooksAreEnough(s, s.stagings[g := s.stagings[g].(jobId := Some(id), pending := false)], s.trace);
    }
  }

  /** The answer to the current staging: its job is shown, and is no open call's. */
  lemma AnswerShows(s: State, g: nat, id: Id, answered: Policy)
    requires Inv(s) && Honest(s, StageAnswers(g, id, answered))
    requires g < |s.stagings| && s.stagings[g].pending && !s.stagings[g].cancelled
    ensures var s' := s.OnStageAnswers(g, id, answered);
      CallsInv(s') && FlightInv(s')
  {
    assert g == s.Latest() && s.mounted && StagingInv(s.stagings[g], s.trace);
    if s.stagings[g].owned {
      TraceSnoc(s.trace, Staged(id));
      assert !Knows(s.stagings, id);
    }
  }

  lemma StageAnswersKeepsInv(s: State, g: nat, id: Id, answered: Policy)
    requires Inv(s) && Honest(s, StageAnswers(g, id, answered))
    ensures Inv(s.OnStageAnswers(g, id, answered))
  {
    if g < |s.stagings| && s.stagings[g].pending {
      if s.stagings[g].cancelled {
        LateAnswerKeepsInv(s, g, id, answered);
      } else {
        assert StagingInv(s.stagings[g], s.trace);
        StagedKeepsBooks(s, g, id);
        AnswerShows(s, g, id, answered);
      }
    }
  }

  lemma SubmitKeepsInv(s: State)
    requires Inv(s) && NoCallOpen(s)
    ensures Inv(s.OnSubmit())
  {
    var s' := s.OnSubmit();
    if s' != s {
      var g, staging, message := s.Latest(), Current(s), ApproveSent(s.job.value);
      TraceSnoc(s.trace, message);
      BooksAfter(s.stagings, g, staging.(approvalStarted := true), s.trace, message);
    }
  }

  /** The server's word on an approval leaves every staging but one that has sent none as it should be. */
  lemma SpokenOfKept(staging: Staging, trace: seq<Message>, message: Message)
    requires StagingInv(staging, trace) && (message.Accepted? || message.Refused?)
    requires staging.owned && staging.jobId == Some(message.id) ==> staging.cancelled || staging.approvalStarted
    ensures StagingInv(staging, trace + [message])
  {
    TraceSnoc(trace, message);
  }

  /** An approval that is out of the current staging's own job was started there. */
  lemma OutIsStarted(s: State, call: nat)
    requires Inv(s) && s.mounted && s.At(call, Sent)
    requires Current(s).owned && Current(s).jobId == Some(s.calls[call].job)
    ensures Current(s).approvalStarted && call == |s.calls| - 1
  {
    assert StagingInv(Current(s), s.trace);
  }

  /** The server's word on an open call leaves the books as they are. */
  lemma SpokenOfKeepsBooks(s: State, call: nat, message: Message)
    requires Inv(s) && s.At(call, Sent) && message.id == s.calls[call].job
    requires message.Accepted? || message.Refused?
    ensures Books(s.stagings, s.trace + [message])
    ensures LifeOf(s.trace + [message], message.id) == Lived(LifeOf(s.trace, message.id), message)
    ensures forall id :: LifeOf(s.trace, id).sent ==> LifeOf(s.trace + [message], id).sent
  {
    TraceSnoc(s.trace, message);
    assert LifeOf(s.trace, message.id).sent;
    KnownSaid(s.stagings, s.trace, message);
    forall g | 0 <= g < |s.stagings| ensures StagingInv(s.stagings[g], s.trace + [message]) {
      var staging := s.stagings[g];
      if staging.owned && staging.jobId == Some(message.id) && !staging.cancelled { OutIsStarted(s, call); }
      SpokenOfKept(staging, s.trace, message);
    }
  }

  /** Moving the one open call on. */
  lemma MovedCall(s: State, call: nat, progress: Progress)
    requires s.stagings != [] && CallsInv(s) && call < |s.calls| && s.calls[call].progress != Over
    ensures
      var calls := s.calls[call := s.calls[call].(progress := progress)];
      && call == |s.calls| - 1
      && calls[call].job == s.calls[call].job
      && (forall c | 0 <= c < |calls| && calls[c].progress != Over :: c == |calls| - 1)
      && (NoCallOpen(s.(calls := calls)) <==> progress == Over)
      && !NoCallOpen(s)
  {
  }

  lemma AcceptedKeepsInv(s: State, call: nat, handoff: bool)
    requires Inv(s)
    ensures Inv(s.OnCallAccepted(call, handoff))
  {
    if s.At(call, Sent) {
      SpokenOfKeepsBooks(s, call, Accepted(s.calls[call].job));
      MovedCall(s, call, Over);
      MovedCall(s, call, Following);
    }
  }

  /** Made withdrawable again, the current staging has no approval out. */
  lemma RefusedKeepsCurrent(s: State, call: nat)
    requires Inv(s) && s.At(call, Sent) && s.mounted
    ensures StagingInv(Current(s).(approvalStarted := false), s.trace + [Refused(s.calls[call].job)])
  {
    var message := Refused(s.calls[call].job);
    TraceSnoc(s.trace, message);
    assert StagingInv(Current(s), s.trace);
    if Current(s).owned && Current(s).jobId == Some(message.id) { OutIsStarted(s, call); }
  }

  lemma RefusedKeepsInv(s: State, call: nat, wantsPassword: bool)
    requires Inv(s)
    ensures Inv(s.OnCallRefused(call, wantsPassword))
  {
    if s.At(call, Sent) {
      var message := Refused(s.calls[call].job);
      SpokenOfKeepsBooks(s, call, message);
      MovedCall(s, call, Over);
      if s.mounted {
        RefusedKeepsCurrent(s, call);
        BooksQuiet(s.stagings, s.Latest(), Current(s).(approvalStarted := false), s.trace + [message]);
      }
    }
  }

  lemma FollowedKeepsInv(s: State, call: nat, e: Event)
    requires Inv(s) && s.At(call, Following) && (e == FollowFails(call) || (e.JobEnds? && e.call == call))
    ensures Inv(s.Step(e))
  {
    MovedCall(s, call, Over);
  }

  lemma DismissKeepsInv(s: State)
    requires Inv(s)
    ensures Inv(s.OnDismiss())
  {
    var s' := s.OnDismiss();
    if s' != s {
      var message, gone := CancelSent(s.job.value), Current(s).(withdrawn := true);
      assert MayCancel(LifeOf(s.trace, message.id));
      TraceSnoc(s.trace, message);
      BooksAfter(s.stagings, s.Latest(), gone, s.trace, message);
    }
  }

  lemma StageFailsKeepsInv(s: State, g: nat)
    requires Inv(s)
    ensures Inv(s.OnStageFails(g))
  {
    if g < |s.stagings| && s.stagings[g].pending {
      BooksQuiet(s.stagings, g, s.stagings[g].(pending := false), s.trace);
    }
  }

  lemma StepKeepsInv(s: State, e: Event)
    requires Inv(s) && Honest(s, e) && (e.Submit? && MaySend(s) ==> NoCallOpen(s))
    ensures Inv(s.Step(e))
  {
    match e
    case Restage(existing, retrying) => RestageKeepsInv(s, existing, retrying);
    case StageAnswers(g, id, answered) => StageAnswersKeepsInv(s, g, id, answered);
    case StageFails(g) => StageFailsKeepsInv(s, g);
    case Submit => if MaySend(s) { SubmitKeepsInv(s); }
    case CallAccepted(call, handoff) => AcceptedKeepsInv(s, call, handoff);
    case CallRefused(call, wantsPassword) => RefusedKeepsInv(s, call, wantsPassword);
    case JobEnds(call, _) => if s.At(call, Following) { FollowedKeepsInv(s, call, e); }
    case FollowFails(call) => if s.At(call, Following) { FollowedKeepsInv(s, call, e); }
    case Dismiss => DismissKeepsInv(s);
    case Unmount => UnmountKeepsInv(s);
    case Type(_, _) =>
    case Expire =>
    case PolicyRead(_, _) =>
  }

  /**
   * In every run, staged again and torn down at any moment, in which no approval is sent while another
   * is out or followed: cancels are sent at most once a job, only for jobs the dialog staged, never over
   * an approval that is out or accepted; and every job let go of was withdrawn or had its approval sent,
   * which is every staged job once the dialog is gone.
   */
  lemma {:induction false} AloneRunsAreSafe(start: State, events: seq<Event>)
    requires Inv(start) && Guarded(start, events, Alone())
    ensures
      var r := Run(start, events);
      && Inv(r) && Safe(r.trace) && Conserved(r)
      && (!r.mounted ==> forall staging <- r.stagings :: staging.cancelled)
  {
    if events != [] {
      AloneRunsAreSafe(start, events[..|events| - 1]);
      StepKeepsInv(Run(start, events[..|events| - 1]), events[|events| - 1]);
    }
  }

  /** The trace only grows, and by an approval only where one is submitted. */
  predicate Speaks(s: State, after: State, e: Event) {
    && s.trace <= after.trace
    && forall i | |s.trace| <= i < |after.trace| :: after.trace[i].ApproveSent? ==> e == Submit
  }

  lemma LettingGoSpeaks(s: State, e: Event)
    requires s.stagings != [] && (e.Restage? || e.Dismiss? || e.Unmount?)
    ensures Speaks(s, s.Step(e), e)
  {
  }

  lemma AnsweringSpeaks(s: State, g: nat, id: Id, answered: Policy)
    requires s.stagings != []
    ensures Speaks(s, s.OnStageAnswers(g, id, answered), StageAnswers(g, id, answered))
  {
  }

  lemma CallsSpeak(s: State, e: Event)
    requires s.stagings != [] && (e.Submit? || e.CallAccepted? || e.CallRefused?)
    ensures Speaks(s, s.Step(e), e)
  {
  }

  lemma StepSpeaks(s: State, e: Event)
    requires s.stagings != []
    ensures Speaks(s, s.Step(e), e)
  {
    if e.Restage? || e.Dismiss? || e.Unmount? {
      LettingGoSpeaks(s, e);
    } else if e.StageAnswers? {
      AnsweringSpeaks(s, e.staging, e.id, e.policy);
    } else if e.Submit? || e.CallAccepted? || e.CallRefused? {
      CallsSpeak(s, e);
    }
  }

  /** In any state at all, an approval goes out only by submitting a form that is ready, in time and filled in. */
  lemma ApprovalOnlyFromTheForm(s: State, e: Event, i: nat)
    requires s.stagings != [] && |s.trace| <= i < |s.Step(e).trace| && s.Step(e).trace[i].ApproveSent?
    ensures e == Submit && s.mounted && s.phase == Ready && !s.expired
    ensures s.PasswordRequired() ==> s.passwordLength >= 12
    ensures s.ConfirmRequired().Some? && s.ConfirmRequired().value != "" ==> s.typed == s.ConfirmRequired().value
    ensures s.job == Some(s.Step(e).trace[i].id)
  {
    StepSpeaks(s, e);
  }

  /** In every such run it is for the job of the current staging, no approval of which is out or accepted. */
  lemma ApprovalIsOfTheStagedJob(
    existing: Option<Id>, confirmText: Option<string>, retrying: bool, events: seq<Event>, e: Event, i: nat)
    requires Guarded(Opened(existing, confirmText, retrying), events, Alone())
    requires var s := Run(Opened(existing, confirmText, retrying), events);
      |s.trace| <= i < |s.Step(e).trace| && s.Step(e).trace[i].ApproveSent?
    ensures var s := Run(Opened(existing, confirmText, retrying), events);
      var staging := Current(s);
      && staging.jobId == Some(s.Step(e).trace[i].id) && !staging.cancelled && !staging.approvalStarted
      && (staging.owned ==>
            var life := LifeOf(s.trace, staging.jobId.value);
            life.inFlight == 0 && !life.accepted)
  {
    var start := Opened(existing, confirmText, retrying);
    OpenedInv(existing, confirmText, retrying);
    AloneRunsAreSafe(start, events);
    ApprovalOnlyFromTheForm(Run(start, events), e, i);
    assert StagingInv(Current(Run(start, events)), Run(start, events).trace);
  }

  // --- What the form asks for, by what the server said and what was typed ---

  /**
   * What the server last said of the current staging's approval, what was last typed since it was staged,
   * and whether the approval has run out.
   */
  datatype Form = Form(policy: Option<Policy>, passwordLength: nat, typed: string, late: bool)

  const BLANK := Form(None, 0, "", false)

  /** The form after one more event, by what came before it. */
  function Told(form: Form, s: State, e: Event): Form
    requires s.stagings != []
  {
    match e
    case Restage(_, _) => if s.mounted then BLANK else form
    case StageAnswers(g, _, answered) =>
      if s.mounted && g == s.Latest() && Current(s).pending
      then form.(policy := Some(answered), late := answered.expired) else form
    case PolicyRead(id, answered) =>
      if s.mounted && Current(s).jobId == Some(id)
      then form.(policy := Some(answered), late := answered.expired) else form
    case CallRefused(call, wantsPassword) =>
      if s.mounted && s.At(call, Sent) && wantsPassword && form.policy.Some?
      then form.(policy := Some(form.policy.value.(passwordRequired := true))) else form
    case CallAccepted(call, _) => if s.mounted && s.At(call, Sent) then form.(passwordLength := 0) else form
    case Type(length, text) =>
      if s.mounted && s.phase == Ready then form.(passwordLength := length, typed := text) else form
    case Expire => form.(late := true)
    case _ => form
  }

  function FormAfter(start: State, events: seq<Event>): Form
    requires start.stagings != []
  {
    if events == [] then BLANK
    else Told(FormAfter(start, events[..|events| - 1]), Run(start, events[..|events| - 1]), events[|events| - 1])
  }

  /**
   * In time; twelve characters at least of a password where the server asks for one, or has said nothing;
   * and the dialog's own confirmation typed, or the server's where the dialog has none.
   */
  predicate Met(form: Form, confirmText: Option<string>) {
    && !form.late
    && (form.policy.None? || form.policy.value.passwordRequired ==> form.passwordLength >= 12)
    && (match confirmText
        case Some(text) => text != "" ==> form.typed == text
        case None =>
          form.policy.Some? && form.policy.value.confirmText.Some? && form.policy.value.confirmText.value != "" ==>
            form.typed == form.policy.value.confirmText.value)
  }

  function FormIn(s: State): Form { Form(s.policy, s.passwordLength, s.typed, s.expired) }

  /** Only the staging that is the dialog's is not let go of. */
  predicate LatestIsHeld(s: State) {
    && s.stagings != []
    && forall g | 0 <= g < |s.stagings| :: s.stagings[g].cancelled <==> !s.mounted || g < |s.stagings| - 1
  }

  lemma LettingGoIsTold(s: State, e: Event)
    requires LatestIsHeld(s) && (e.Restage? || e.Dismiss? || e.Unmount? || e.StageFails?)
    ensures LatestIsHeld(s.Step(e)) && FormIn(s.Step(e)) == Told(FormIn(s), s, e)
  {
  }

  lemma AnswerIsTold(s: State, g: nat, id: Id, answered: Policy)
    requires LatestIsHeld(s)
    ensures
      var later := s.OnStageAnswers(g, id, answered);
      LatestIsHeld(later) && FormIn(later) == Told(FormIn(s), s, StageAnswers(g, id, answered))
  {
  }

  lemma CallsAreTold(s: State, e: Event)
    requires LatestIsHeld(s) && (e.Submit? || e.CallAccepted? || e.CallRefused? || e.JobEnds? || e.FollowFails?)
    ensures LatestIsHeld(s.Step(e)) && FormIn(s.Step(e)) == Told(FormIn(s), s, e)
  {
  }

  lemma TypingIsTold(s: State, e: Event)
    requires LatestIsHeld(s) && (e.Type? || e.Expire? || e.PolicyRead?)
    ensures LatestIsHeld(s.Step(e)) && FormIn(s.Step(e)) == Told(FormIn(s), s, e)
  {
  }

  /** The dialog's form is what the events say it is. */
  lemma {:induction false} FormFollows(
    existing: Option<Id>, confirmText: Option<string>, retrying: bool, events: seq<Event>)
    ensures
      var start := Opened(existing, confirmText, retrying);
      var s := Run(start, events);
      LatestIsHeld(s) && FormIn(s) == FormAfter(start, events) && s.confirmText == confirmText
  {
    if events != [] {
      var s, e := Run(Opened(existing, confirmText, retrying), events[..|events| - 1]), events[|events| - 1];
      FormFollows(existing, confirmText, retrying, events[..|events| - 1]);
      ConfirmTextStays(s, e);
      if e.StageAnswers? {
        AnswerIsTold(s, e.staging, e.id, e.policy);
      } else if e.Submit? || e.CallAccepted? || e.CallRefused? || e.JobEnds? || e.FollowFails? {
        CallsAreTold(s, e);
      } else if e.Type? || e.Expire? || e.PolicyRead? {
        TypingIsTold(s, e);
      } else {
        LettingGoIsTold(s, e);
      }
    }
  }

  lemma ConfirmTextStays(s: State, e: Event)
    requires s.stagings != []
    ensures s.Step(e).confirmText == s.confirmText
  {
  }

  /** The event sends an approval. */
  predicate SendsApproval(s: State, e: Event)
    requires s.stagings != []
  {
    exists i | |s.trace| <= i < |s.Step(e).trace| :: s.Step(e).trace[i].ApproveSent?
  }

  /**
   * In every run at all, an approval is sent exactly by submitting a form that shows, whose job's approval
   * asks, by the server's last word on it, for no more than was last typed.
   */
  lemma ApprovalExactlyWhenMet(
    existing: Option<Id>, confirmText: Option<string>, retrying: bool, events: seq<Event>, e: Event)
    ensures
      var start := Opened(existing, confirmText, retrying);
      var s := Run(start, events);
      SendsApproval(s, e) <==>
        e == Submit && s.mounted && s.phase == Ready && s.job.Some? && Met(FormAfter(start, events), confirmText)
  {
    var s := Run(Opened(existing, confirmText, retrying), events);
    FormFollows(existing, confirmText, retrying, events);
    SubmitSendsExactly(s, e);
  }

  lemma SubmitSendsExactly(s: State, e: Event)
    requires s.stagings != []
    ensures SendsApproval(s, e) <==>
      e == Submit && s.mounted && s.phase == Ready && s.job.Some? && Met(FormIn(s), s.confirmText)
  {
    StepSpeaks(s, e);
    if e == Submit && MaySend(s) { assert s.Step(e).trace[|s.trace|].ApproveSent?; }
  }

  // --- How it says it went ---

  /** The event is the end of a job the dialog follows, while it is there. */
  predicate EndsFollowed(s: State, e: Event, completed: bool) {
    e.JobEnds? && e.completed == completed && s.mounted && s.At(e.call, Following)
  }

  lemma DoneComes(s: State, e: Event)
    requires s.stagings != [] && s.Step(e).phase == Done
    ensures (EndsFollowed(s, e, true) && s.Step(e).job == Some(s.calls[e.call].job))
         || (s.phase == Done && s.Step(e).job == s.job)
  {
    match e
    case Restage(_, _) =>
    case StageAnswers(_, _, _) =>
    case CallAccepted(_, _) =>
    case CallRefused(_, _) =>
    case _ =>
  }

  /** The dialog says it is done only of the job it shows, which it followed and which completed. */
  lemma {:induction false} DoneWasCompleted(
    existing: Option<Id>, confirmText: Option<string>, retrying: bool, events: seq<Event>)
    returns (k: nat)
    requires Run(Opened(existing, confirmText, retrying), events).phase == Done
    ensures k < |events| && events[k].JobEnds?
    ensures var start := Opened(existing, confirmText, retrying);
      var before := Run(start, events[..k]);
      EndsFollowed(before, events[k], true) && Run(start, events).job == Some(before.calls[events[k].call].job)
  {
    var start, last := Opened(existing, confirmText, retrying), |events| - 1;
    DoneComes(Run(start, events[..last]), events[last]);
    if EndsFollowed(Run(start, events[..last]), events[last], true) {
      k := last;
    } else {
      k := DoneWasCompleted(existing, confirmText, retrying, events[..last]);
      assert events[..last][..k] == events[..k];
    }
  }

  /** And what the dialog follows, it shows the end of: done where the job completed, and otherwise failed. */
  lemma EndIsShown(s: State, call: nat, completed: bool)
    requires s.stagings != [] && s.mounted && s.At(call, Following)
    ensures
      var ended, lost := s.Step(JobEnds(call, completed)), s.Step(FollowFails(call));
      && ended.phase == (if completed then Done else Failed) && ended.job == Some(s.calls[call].job)
      && lost.phase == Failed && !ended.At(call, Following) && !lost.At(call, Following)
  {
  }

  /** A staging that fails while it is the dialog's is shown as failed, and one let go of is not. */
  lemma StagingFailureIsShown(s: State, g: nat)
    requires LatestIsHeld(s) && g < |s.stagings| && s.stagings[g].pending
    ensures s.Step(StageFails(g)).phase == if s.mounted && g == s.Latest() then Failed else s.phase
  {
  }

  // --- Runs, piece by piece ---

  lemma Further(start: State, before: seq<Event>, s: State, e: Event, guard: State -> bool)
    returns (events: seq<Event>, after: State)
    requires start.stagings != [] && Guarded(start, before, guard) && Run(start, before) == s && s.stagings != []
    requires Honest(s, e) && (e.Submit? && MaySend(s) ==> guard(s))
    ensures Guarded(start, events, guard) && Run(start, events) == after && after == s.Step(e)
    ensures events == before + [e] && after.stagings != []
  {
    events, after := before + [e], s.Step(e);
    assert events[..|before|] == before;
  }

  lemma OneEvent(s: State, e: Event, guard: State -> bool) returns (events: seq<Event>)
    requires s.stagings != [] && Honest(s, e) && (e.Submit? && MaySend(s) ==> guard(s))
    ensures Guarded(s, events, guard) && Run(s, events) == s.Step(e)
  {
    var after: State;
    events, after := Further(s, [], s, e, guard);
  }

  /** One run after another. */
  lemma {:induction false} Then(start: State, before: seq<Event>, later: seq<Event>, guard: State -> bool)
    returns (events: seq<Event>)
    requires start.stagings != [] && Guarded(start, before, guard) && Guarded(Run(start, before), later, guard)
    ensures Guarded(start, events, guard) && Run(start, events) == Run(Run(start, before), later)
    decreases |later|
  {
    if later == [] {
      events := before;
    } else {
      var middle := Then(start, before, later[..|later| - 1], guard);
      var after: State;
      events, after := Further(start, middle, Run(start, middle), later[|later| - 1], guard);
    }
  }

  /** Neither the submit nor a staging's answer, which a run may not take just so. */
  predicate Free(e: Event) { !e.Submit? && !e.StageAnswers? }

  lemma TwoEvents(s: State, e: Event, f: Event, guard: State -> bool) returns (events: seq<Event>, after: State)
    requires s.stagings != [] && Free(e) && Free(f)
    ensures s.Step(e).stagings != [] && after == s.Step(e).Step(f) && after.stagings != []
    ensures Guarded(s, events, guard) && Run(s, events) == after
  {
    events, after := Further(s, [], s, e, guard);
    events, after := Further(s, events, after, f, guard);
  }

  lemma ThreeEvents(s: State, e: Event, f: Event, g: Event, guard: State -> bool)
    returns (events: seq<Event>, after: State)
    requires s.stagings != [] && Free(e) && Free(f) && Free(g)
    ensures s.Step(e).stagings != [] && s.Step(e).Step(f).stagings != [] && after == s.Step(e).Step(f).Step(g)
    ensures Guarded(s, events, guard) && Run(s, events) == after
  {
    events, after := TwoEvents(s, e, f, guard);
    events, after := Further(s, events, after, g, guard);
  }

  // --- Submitting a form ---

  const ONE_CLICK := Policy(false, None, false)

  lemma AnswersReady(s: State, existing: Option<Id>, id: Id)
    requires s.stagings != [] && Current(s) == Prepared(existing, false)
    ensures
      var owned := existing.None?;
      s.OnStageAnswers(s.Latest(), id, ONE_CLICK)
      == s.(stagings := s.stagings[s.Latest() := Staging(Some(id), false, false, owned, false, false, existing)],
            trace := if owned then s.trace + [Staged(id)] else s.trace,
            job := Some(id), policy := Some(ONE_CLICK), expired := false, phase := Ready)
  {
  }

  /** What the dialog asks to have typed. */
  function Wanted(s: State): string { OrEmpty(s.confirmText) }

  function OrEmpty(text: Option<string>): string { if text.Some? then text.value else "" }

  lemma SubmitsOneClick(s: State, id: Id)
    requires s.stagings != [] && s.mounted && s.phase == Ready && !s.expired
    requires s.job == Some(id) && s.policy == Some(ONE_CLICK) && s.typed == Wanted(s)
    ensures s.OnSubmit()
         == s.(stagings := s.stagings[s.Latest() := Current(s).(approvalStarted := true)],
               calls := s.calls + [Call(id, Sent)], phase := Approving, trace := s.trace + [ApproveSent(id)])
  {
  }

  /** A job shown, and filled in. */
  lemma ShownAndTyped(s: State, existing: Option<Id>, id: Id, guard: State -> bool)
    returns (events: seq<Event>, after: State)
    requires s.stagings != [] && Current(s) == Prepared(existing, false) && s.mounted
    requires Honest(s, StageAnswers(s.Latest(), id, ONE_CLICK))
    ensures Guarded(s, events, guard) && Run(s, events) == after
    ensures after
         == s.OnStageAnswers(s.Latest(), id, ONE_CLICK).(passwordLength := 0, typed := Wanted(s))
  {
    AnswersReady(s, existing, id);
    events, after := Further(s, [], s, StageAnswers(s.Latest(), id, ONE_CLICK), guard);
    events, after := Further(s, events, after, Type(0, Wanted(s)), guard);
  }

  /** A job, staged or existing, shown by the current staging, and its form submitted. */
  lemma ShownAndSubmitted(s: State, existing: Option<Id>, id: Id, guard: State -> bool)
    returns (after: State, events: seq<Event>)
    requires s.stagings != [] && Current(s) == Prepared(existing, false) && s.mounted
    requires Honest(s, StageAnswers(s.Latest(), id, ONE_CLICK))
    requires forall t: State | t.calls == s.calls :: guard(t)
    ensures Guarded(s, events, guard) && Run(s, events) == after
    ensures after.calls == s.calls + [Call(id, Sent)] && after.mounted && after.confirmText == s.confirmText
    ensures after.stagings
         == s.stagings[s.Latest() := Staging(Some(id), true, false, existing.None?, false, false, existing)]
    ensures forall other | other != id :: LifeOf(after.trace, other) == LifeOf(s.trace, other)
    ensures existing.None? ==>
      LifeOf(after.trace, id) == Lived(LifeOf(s.trace, id).(staged := true), ApproveSent(id))
  {
    var typing, ready := ShownAndTyped(s, existing, id, guard);
    AnswersReady(s, existing, id);
    SubmitsOneClick(ready, id);
    TraceSnoc(s.trace, Staged(id));
    TraceSnoc(ready.trace, ApproveSent(id));
    events, after := Further(s, typing, ready, Submit, guard);
  }

  lemma GoesMidApproval(s: State)
    requires s.stagings != [] && s.mounted && Current(s).approvalStarted
    ensures s.Step(Unmount)
         == s.(stagings := s.stagings[s.Latest() := Current(s).(cancelled := true)], mounted := false)
  {
  }

  // --- A refused approval ---

  lemma LettingGoStays(s: State, e: Event, g: nat)
    requires s.stagings != [] && (s.mounted ==> !Current(s).cancelled)
    requires g < |s.stagings| && s.stagings[g].cancelled && !s.stagings[g].pending
    requires e.Restage? || e.Dismiss? || e.Unmount? || e.CallRefused? || e.StageAnswers?
    ensures g < |s.Step(e).stagings| && s.Step(e).stagings[g] == s.stagings[g]
  {
  }

  /** What was staged and let go of stays as it is. */
  lemma LetGoStays(s: State, e: Event, g: nat)
    requires s.stagings != [] && (s.mounted ==> !Current(s).cancelled)
    requires g < |s.stagings| && s.stagings[g].cancelled && !s.stagings[g].pending
    ensures g < |s.Step(e).stagings| && s.Step(e).stagings[g] == s.stagings[g]
  {
    if e.Restage? || e.Dismiss? || e.Unmount? || e.CallRefused? || e.StageAnswers? { LettingGoStays(s, e, g); }
  }

  lemma {:induction false} LetGoIsNeverWithdrawn(s: State, events: seq<Event>, g: nat)
    requires Inv(s) && Guarded(s, events, Alone())
    requires g < |s.stagings| && s.stagings[g].cancelled && !s.stagings[g].pending
    ensures g < |Run(s, events).stagings| && Run(s, events).stagings[g] == s.stagings[g]
  {
    if events != [] {
      var before := events[..|events| - 1];
      LetGoIsNeverWithdrawn(s, before, g);
      AloneRunsAreSafe(s, before);
      LetGoStays(Run(s, before), events[|events| - 1], g);
    }
  }

  /** While the staging is the dialog's own still, closing the dialog, either way, cancels a refused job. */
  lemma RefusedIsWithdrawable(s: State, call: nat, wantsPassword: bool)
    requires Inv(s) && s.mounted && s.At(call, Sent)
    requires Current(s).owned && !Current(s).withdrawn && Current(s).jobId == Some(s.calls[call].job)
    ensures
      var refused, cancel := s.OnCallRefused(call, wantsPassword), CancelSent(s.calls[call].job);
      && refused.OnDismiss().trace == refused.trace + [cancel] && Safe(refused.trace + [cancel])
      && refused.Step(Unmount).trace == refused.trace + [cancel]
  {
    MovedCall(s, call, Over);
    OutIsStarted(s, call);
    RefusedKeepsInv(s, call, wantsPassword);
    DismissKeepsInv(s.OnCallRefused(call, wantsPassword));
  }

  /**
   * Closed before it is submitted, by its button or by its going away, the dialog withdraws the job it staged,
   * a retry with more time too, and leaves a job it was only shown waiting.
   */
  lemma ClosingWithdrawsItsOwn(
    existing: Option<Id>, confirmText: Option<string>, retrying: bool, id: Id, answered: Policy)
    ensures
      var shown := Opened(existing, confirmText, retrying).Step(StageAnswers(0, id, answered));
      var said := if existing.Some? && !retrying then [] else [Staged(id), CancelSent(id)];
      && shown.stagings != [] && shown.phase == Ready && shown.job == Some(id)
      && shown.Step(Dismiss).trace == said && shown.Step(Unmount).trace == said
  {
    var shown := Opened(existing, confirmText, retrying).OnStageAnswers(0, id, answered);
    assert shown.trace == if existing.Some? && !retrying then [] else [Staged(id)];
    assert [Staged(id)] + [CancelSent(id)] == [Staged(id), CancelSent(id)];
  }

  /** Some run from here, in which approvals are sent as the guard lets them, cancels the job. */
  ghost predicate MayYetBeCancelled(s: State, job: Id, guard: State -> bool)
    requires s.stagings != []
  {
    exists later: seq<Event> :: Guarded(s, later, guard) && LifeOf(Run(s, later).trace, job).cancelled
  }

  lemma StaysGone(s: State, e: Event)
    requires s.stagings != [] && !s.mounted
    ensures !s.Step(e).mounted
  {
  }

  /** Once the dialog is gone no approval is sent, so nothing is left to guard. */
  lemma {:induction false} GoneSendsNothing(s: State, later: seq<Event>, guard: State -> bool)
    requires s.stagings != [] && !s.mounted && Guarded(s, later, guard)
    ensures Guarded(s, later, Alone()) && !Run(s, later).mounted
  {
    if later != [] {
      var before := later[..|later| - 1];
      GoneSendsNothing(s, before, guard);
      StaysGone(Run(s, before), later[|later| - 1]);
    }
  }

  lemma HeldMayBeCancelled(s: State, call: nat, wantsPassword: bool, guard: State -> bool)
    requires Inv(s) && s.mounted && s.At(call, Sent)
    requires Current(s).owned && !Current(s).withdrawn && Current(s).jobId == Some(s.calls[call].job)
    ensures MayYetBeCancelled(s.OnCallRefused(call, wantsPassword), s.calls[call].job, guard)
  {
    var refused := s.OnCallRefused(call, wantsPassword);
    RefusedIsWithdrawable(s, call, wantsPassword);
    TraceSnoc(refused.trace, CancelSent(s.calls[call].job));
    var later := OneEvent(refused, Dismiss, guard);
  }

  /** Let go of and not withdrawn: the record of a job whose approval was sent. */
  predicate LetGoUnwithdrawn(s: State, g: nat) {
    && g < |s.stagings| && s.stagings[g].cancelled && !s.stagings[g].pending
    && s.stagings[g].owned && !s.stagings[g].withdrawn && s.stagings[g].jobId.Some?
  }

  lemma LetGoMayNotBeCancelled(s: State, g: nat)
    requires Inv(s) && LetGoUnwithdrawn(s, g)
    ensures !MayYetBeCancelled(s, s.stagings[g].jobId.value, Alone())
  {
    forall later: seq<Event> | Guarded(s, later, Alone())
      ensures !LifeOf(Run(s, later).trace, s.stagings[g].jobId.value).cancelled
    {
      NeverCancelled(s, later, g);
    }
  }

  lemma GoneMayNotBeCancelled(s: State, g: nat, guard: State -> bool)
    requires Inv(s) && LetGoUnwithdrawn(s, g) && !s.mounted
    ensures !MayYetBeCancelled(s, s.stagings[g].jobId.value, guard)
  {
    forall later: seq<Event> | Guarded(s, later, guard)
      ensures !LifeOf(Run(s, later).trace, s.stagings[g].jobId.value).cancelled
    {
      GoneSendsNothing(s, later, guard);
      NeverCancelled(s, later, g);
    }
  }

  lemma RefusedLeavesOthers(s: State, call: nat, wantsPassword: bool, g: nat)
    requires Inv(s) && s.At(call, Sent) && g < |s.stagings| && !(s.mounted && g == s.Latest())
    requires s.stagings[g].jobId.Some?
    ensures var refused := s.OnCallRefused(call, wantsPassword);
      |refused.stagings| == |s.stagings| && refused.stagings[g] == s.stagings[g]
    ensures s.stagings[g].cancelled && !s.stagings[g].pending
  {
    assert StagingInv(s.stagings[g], s.trace);
  }

  /**
   * A refused job, staged here and not withdrawn, can be cancelled by a run in which no approval is sent over
   * an open call exactly while its staging is still the dialog's: the dialog is there, and was not staged
   * again since. Held so, it can be cancelled, and once the dialog is gone it cannot, whatever guards the form.
   */
  lemma WithdrawableExactlyWhileHeld(
    existing: Option<Id>, confirmText: Option<string>, retrying: bool, events: seq<Event>,
    call: nat, g: nat, wantsPassword: bool, guard: State -> bool)
    requires Guarded(Opened(existing, confirmText, retrying), events, Alone())
    requires var s := Run(Opened(existing, confirmText, retrying), events);
      && s.At(call, Sent) && g < |s.stagings|
      && s.stagings[g].owned && !s.stagings[g].withdrawn && s.stagings[g].jobId == Some(s.calls[call].job)
    ensures var s := Run(Opened(existing, confirmText, retrying), events);
      var refused, id := s.OnCallRefused(call, wantsPassword), s.calls[call].job;
      && (MayYetBeCancelled(refused, id, Alone()) <==> s.mounted && g == s.Latest())
      && (s.mounted && g == s.Latest() ==> MayYetBeCancelled(refused, id, guard))
      && (!s.mounted ==> !MayYetBeCancelled(refused, id, guard))
  {
    var s := Run(Opened(existing, confirmText, retrying), events);
    OpenedInv(existing, confirmText, retrying);
    AloneRunsAreSafe(Opened(existing, confirmText, retrying), events);
    if s.mounted && g == s.Latest() {
      HeldMayBeCancelled(s, call, wantsPassword, Alone());
      HeldMayBeCancelled(s, call, wantsPassword, guard);
    } else {
      RefusedKeepsInv(s, call, wantsPassword);
      RefusedLeavesOthers(s, call, wantsPassword, g);
      LetGoMayNotBeCancelled(s.OnCallRefused(call, wantsPassword), g);
      if !s.mounted { GoneMayNotBeCancelled(s.OnCallRefused(call, wantsPassword), g, guard); }
    }
  }

  lemma NeverCancelled(s: State, later: seq<Event>, g: nat)
    requires Inv(s) && Guarded(s, later, Alone()) && LetGoUnwithdrawn(s, g)
    ensures !LifeOf(Run(s, later).trace, s.stagings[g].jobId.value).cancelled
  {
    LetGoIsNeverWithdrawn(s, later, g);
    AloneRunsAreSafe(s, later);
    assert StagingInv(Run(s, later).stagings[g], Run(s, later).trace);
  }

  lemma RefusedOnceGone(s: State, call: nat)
    requires !s.mounted && s.At(call, Sent)
    ensures s.OnCallRefused(call, false)
         == s.(calls := s.calls[call := Call(s.calls[call].job, Over)], trace := s.trace + [Refused(s.calls[call].job)])
  {
  }

  /** Staged and submitted alone, and then the dialog gone. */
  lemma SentThenGone(start: State) returns (events: seq<Event>, s: State)
    requires start == Opened(None, None, false)
    ensures Guarded(start, events, Alone()) && Run(start, events) == s
    ensures s.stagings == [Staging(Some("z"), true, false, true, true, false, None)] && !s.mounted
    ensures s.calls == [Call("z", Sent)] && LifeOf(s.trace, "z") == Life(true, true, 1, false, false)
  {
    var sent, sending := ShownAndSubmitted(start, None, "z", Alone());
    GoesMidApproval(sent);
    events, s := Further(start, sending, sent, Unmount, Alone());
  }

  /** Staged, submitted, the dialog gone, and then refused: the job waits, and nothing cancels it under any guard. */
  lemma RefusedOnceGoneIsLeftWaiting(guard: State -> bool) returns (events: seq<Event>)
    ensures Guarded(Opened(None, None, false), events, Alone())
    ensures
      var r := Run(Opened(None, None, false), events);
      !r.mounted && LifeOf(r.trace, "z") == Life(true, true, 0, false, false) && !MayYetBeCancelled(r, "z", guard)
  {
    var start, s := Opened(None, None, false), Opened(None, None, false);
    events, s := SentThenGone(start);
    RefusedOnceGone(s, 0);
    TraceSnoc(s.trace, Refused("z"));
    events, s := Further(start, events, s, CallRefused(0, false), Alone());
    OpenedInv(None, None, false);
    AloneRunsAreSafe(start, events);
    GoneMayNotBeCancelled(s, 0, guard);
  }

  // --- An approval sent while another is open ---

  lemma RestagesSilently(s: State)
    requires s.stagings != [] && s.mounted && Current(s).approvalStarted
    ensures s.OnRestage(None, false)
         == s.(stagings := s.stagings[s.Latest() := Current(s).(cancelled := true)] + [Prepared(None, false)],
               phase := Preparing, job := None, policy := None, passwordLength := 0, typed := "", expired := false)
  {
  }

  /** Staged, submitted, and staged again over the open call. */
  lemma SentThenRestaged(s: State, id: Id) returns (events: seq<Event>, after: State)
    requires s.stagings != [] && Current(s) == Prepared(None, false) && s.mounted
    requires Honest(s, StageAnswers(s.Latest(), id, ONE_CLICK))
    ensures Guarded(s, events, Anytime()) && Run(s, events) == after
    ensures after.calls == s.calls + [Call(id, Sent)] && after.mounted
    ensures after.stagings
         == s.stagings[s.Latest() := Staging(Some(id), true, false, true, true, false, None)] + [Prepared(None, false)]
    ensures forall other | other != id :: LifeOf(after.trace, other) == LifeOf(s.trace, other)
  {
    var sent, sending := ShownAndSubmitted(s, None, id, Anytime());
    RestagesSilently(sent);
    events, after := Further(s, sending, sent, Restage(None, false), Anytime());
  }

  /** Two approvals are out, of "z" and "a". */
  lemma TwoSent(start: State) returns (events: seq<Event>, s: State)
    requires start == Opened(None, None, false)
    ensures Guarded(start, events, Anytime()) && Run(start, events) == s
    ensures s.calls == [Call("z", Sent), Call("a", Sent)] && s.mounted
    ensures s.stagings
         == [Staging(Some("z"), true, false, true, true, false, None),
             Staging(Some("a"), true, false, true, true, false, None), Prepared(None, false)]
    ensures LifeOf(s.trace, "b") == UNKNOWN
  {
    var first, s1 := SentThenRestaged(start, "z");
    assert Honest(s1, StageAnswers(1, "a", ONE_CLICK));
    var second;
    second, s := SentThenRestaged(s1, "a");
    events := Then(start, first, second, Anytime());
  }

  /** Then "b" is staged and ready. */
  lemma TwoApprovalsOut(start: State) returns (events: seq<Event>, s: State)
    requires start == Opened(None, None, false)
    ensures Guarded(start, events, Anytime()) && Run(start, events) == s
    ensures s.calls == [Call("z", Sent), Call("a", Sent)] && |s.stagings| == 3 && s.mounted && s.phase == Ready
    ensures s.stagings[2] == Staging(Some("b"), false, false, true, false, false, None)
    ensures LifeOf(s.trace, "b") == UNKNOWN.(staged := true)
  {
    var sending, sent := TwoSent(start);
    assert Honest(sent, StageAnswers(2, "b", ONE_CLICK));
    AnswersReady(sent, None, "b");
    TraceSnoc(sent.trace, Staged("b"));
    events, s := Further(start, sending, sent, StageAnswers(2, "b", ONE_CLICK), Anytime());
  }

  /** The newer call's job is accepted and ends. */
  lemma NewerEnds(s: State)
    requires s.calls == [Call("z", Sent), Call("a", Sent)] && s.mounted
    ensures s.OnCallAccepted(1, false).OnJobEnds(1, true)
         == s.(phase := Done, passwordLength := 0, job := Some("a"),
               calls := [Call("z", Sent), Call("a", Over)], trace := s.trace + [Accepted("a")])
  {
  }

  /** The older call is refused, and the dialog closed over a newer staging. */
  lemma OlderRefusedThenClosed(s: State)
    requires s.calls == [Call("z", Sent), Call("a", Over)] && s.mounted && s.job == Some("a")
    requires |s.stagings| == 3 && Current(s) == Staging(Some("b"), false, false, true, false, false, None)
    ensures
      var closed := s.OnCallRefused(0, false).OnDismiss();
      && closed.trace == s.trace + [Refused("z")] + [CancelSent("a")] && closed.mounted
      && closed.stagings == s.stagings[2 := Current(s).(withdrawn := true)]
  {
    var refused := s.OnCallRefused(0, false);
    assert refused.stagings == s.stagings && refused.phase == Ready && refused.job == Some("a");
  }

  lemma GoneSilently(s: State)
    requires s.stagings != [] && s.mounted && Current(s).withdrawn
    ensures s.Step(Unmount)
         == s.(stagings := s.stagings[s.Latest() := Current(s).(cancelled := true)], mounted := false)
  {
  }

  /** And then it is gone. */
  lemma OlderRefusedThenGone(s: State) returns (events: seq<Event>, after: State)
    requires s.calls == [Call("z", Sent), Call("a", Over)] && s.mounted && s.job == Some("a")
    requires |s.stagings| == 3 && Current(s) == Staging(Some("b"), false, false, true, false, false, None)
    ensures Guarded(s, events, Anytime()) && Run(s, events) == after
    ensures after.trace == s.trace + [Refused("z")] + [CancelSent("a")]
    ensures |after.stagings| == 3 && after.stagings[2] == Staging(Some("b"), false, true, true, true, false, None)
  {
    OlderRefusedThenClosed(s);
    GoneSilently(s.OnCallRefused(0, false).OnDismiss());
    events, after := ThreeEvents(s, CallRefused(0, false), Dismiss, Unmount, Anytime());
  }

  /** From there "a" is accepted and ends, "z" is refused, and the dialog is closed and gone. */
  lemma Crossed(start: State) returns (events: seq<Event>, s: State)
    requires start == Opened(None, None, false)
    ensures Guarded(start, events, Anytime()) && Run(start, events) == s
    ensures !Safe(s.trace) && LifeOf(s.trace, "b") == UNKNOWN.(staged := true)
    ensures |s.stagings| == 3 && s.stagings[2] == Staging(Some("b"), false, true, true, true, false, None)
  {
    var sending, sent := TwoApprovalsOut(start);
    CrossedTraceIsUnsafe(sent.trace);
    NewerEnds(sent);
    var ending, ended := TwoEvents(sent, CallAccepted(1, false), JobEnds(1, true), Anytime());
    var closing;
    closing, s := OlderRefusedThenGone(ended);
    events := Then(start, sending, ending, Anytime());
    events := Then(start, events, closing, Anytime());
  }

  lemma CrossedTraceIsUnsafe(trace: seq<Message>)
    ensures
      var after := trace + [Accepted("a")] + [Refused("z")] + [CancelSent("a")];
      !Safe(after) && LifeOf(after, "b") == LifeOf(trace, "b")
  {
    TraceSnoc(trace, Accepted("a"));
    TraceSnoc(trace + [Accepted("a")], Refused("z"));
    TraceSnoc(trace + [Accepted("a")] + [Refused("z")], CancelSent("a"));
  }

  /** Both promises then break: an accepted job is cancelled, and a staged one is left waiting, never approved. */
  lemma CrossedBreaksBoth() returns (events: seq<Event>)
    ensures var start := Opened(None, None, false); Guarded(start, events, Anytime())
    ensures var r := Run(Opened(None, None, false), events); !Safe(r.trace) && !Conserved(r)
  {
    var s: State;
    events, s := Crossed(Opened(None, None, false));
    assert s.stagings[2] in s.stagings;
  }

  /** A call that is followed was accepted. */
  ghost predicate HeardInv(s: State) {
    forall c | 0 <= c < |s.calls| && s.calls[c].progress == Following :: LifeOf(s.trace, s.calls[c].job).accepted
  }

  lemma {:induction false} AcceptedStays(trace: seq<Message>, longer: seq<Message>, id: Id)
    requires trace <= longer && LifeOf(trace, id).accepted
    ensures LifeOf(longer, id).accepted
    decreases |longer|
  {
    if |trace| < |longer| {
      AcceptedStays(trace, longer[..|longer| - 1], id);
    } else {
      assert trace == longer;
    }
  }

  lemma StepHears(s: State, e: Event, c: nat)
    requires s.stagings != [] && s.Step(e).At(c, Following)
    ensures
      || (c < |s.calls| && s.calls[c] == s.Step(e).calls[c])
      || s.Step(e).trace == s.trace + [Accepted(s.Step(e).calls[c].job)]
  {
    match e
    case Restage(_, _) =>
    case CallAccepted(_, _) =>
    case CallRefused(_, _) =>
    case JobEnds(_, _) =>
    case _ =>
  }

  lemma {:induction false} EveryRunHears(start: State, events: seq<Event>)
    requires start.stagings != [] && HeardInv(start)
    ensures HeardInv(Run(start, events))
  {
    if events != [] {
      var before, e := Run(start, events[..|events| - 1]), events[|events| - 1];
      EveryRunHears(start, events[..|events| - 1]);
      StepSpeaks(before, e);
      var after := before.Step(e);
      forall c | 0 <= c < |after.calls| && after.calls[c].progress == Following
        ensures LifeOf(after.trace, after.calls[c].job).accepted
      {
        StepHears(before, e, c);
        if c < |before.calls| && before.calls[c] == after.calls[c] {
          AcceptedStays(before.trace, after.trace, after.calls[c].job);
        } else {
          TraceSnoc(before.trace, Accepted(after.calls[c].job));
        }
      }
    }
  }

  /** The older call ends well, the newer is refused, and the dialog closed over a fresh staging. */
  lemma OlderEndsNewerRefused(s: State, older: nat, newer: nat)
    requires s.stagings != [] && s.mounted && s.At(older, Following) && s.At(newer, Sent) && older != newer
    requires Current(s).owned && !Current(s).withdrawn
    ensures
      var closed := s.OnJobEnds(older, true).OnCallRefused(newer, false).OnDismiss();
      closed.trace == s.trace + [Refused(s.calls[newer].job)] + [CancelSent(s.calls[older].job)]
  {
    var refused := s.OnJobEnds(older, true).OnCallRefused(newer, false);
    assert refused.phase == Ready && refused.job == Some(s.calls[older].job);
    assert refused.stagings[refused.Latest()].owned && !refused.stagings[refused.Latest()].withdrawn;
  }

  /** A job was cancelled, and out of turn. */
  predicate BreaksOver(trace: seq<Message>, job: Id) { !Safe(trace) && LifeOf(trace, job).cancelled }

  lemma CancelOverAccepted(trace: seq<Message>, other: Id, job: Id)
    requires LifeOf(trace, job).accepted
    ensures BreaksOver(trace + [Refused(other)] + [CancelSent(job)], job)
  {
    TraceSnoc(trace, Refused(other));
    TraceSnoc(trace + [Refused(other)], CancelSent(job));
  }

  /** From there, an accepted job is cancelled. */
  lemma ClosedOverAccepted(s: State, older: nat, newer: nat, guard: State -> bool) returns (events: seq<Event>)
    requires s.stagings != [] && s.mounted && s.At(older, Following) && s.At(newer, Sent) && older != newer
    requires Current(s).owned && !Current(s).withdrawn && LifeOf(s.trace, s.calls[older].job).accepted
    ensures Guarded(s, events, guard) && BreaksOver(Run(s, events).trace, s.calls[older].job)
  {
    OlderEndsNewerRefused(s, older, newer);
    CancelOverAccepted(s.trace, s.calls[newer].job, s.calls[older].job);
    var after: State;
    events, after := ThreeEvents(s, JobEnds(older, true), CallRefused(newer, false), Dismiss, guard);
  }

  /** With two approvals open and no further one sent, a promise can be broken. */
  lemma TwoOpenCanBreak(s: State, older: nat, newer: nat, guard: State -> bool) returns (events: seq<Event>)
    requires s.stagings != [] && s.mounted && Current(s).approvalStarted && HeardInv(s)
    requires older < |s.calls| && s.calls[older].progress != Over && s.At(newer, Sent) && older != newer
    ensures Guarded(s, events, guard) && BreaksOver(Run(s, events).trace, s.calls[older].job)
  {
    RestagesSilently(s);
    var restaged := s.OnRestage(None, false);
    events := OneEvent(s, Restage(None, false), guard);
    if s.calls[older].progress == Following {
      var more := ClosedOverAccepted(restaged, older, newer, guard);
      events := Then(s, events, more, guard);
    } else {
      var more := AcceptedThenClosed(restaged, older, newer, guard);
      events := Then(s, events, more, guard);
    }
  }

  lemma AcceptedThenClosed(s: State, older: nat, newer: nat, guard: State -> bool) returns (events: seq<Event>)
    requires s.stagings != [] && s.mounted && s.At(older, Sent) && s.At(newer, Sent) && older != newer
    requires Current(s).owned && !Current(s).withdrawn
    ensures Guarded(s, events, guard) && BreaksOver(Run(s, events).trace, s.calls[older].job)
  {
    TraceSnoc(s.trace, Accepted(s.calls[older].job));
    IsFollowed(s, older);
    var first := OneEvent(s, CallAccepted(older, false), guard);
    var more := ClosedOverAccepted(s.OnCallAccepted(older, false), older, newer, guard);
    events := Then(s, first, more, guard);
  }

  lemma IsFollowed(s: State, call: nat)
    requires s.mounted && s.At(call, Sent)
    ensures s.OnCallAccepted(call, false)
         == s.(calls := s.calls[call := Call(s.calls[call].job, Following)], phase := Running, passwordLength := 0,
               trace := s.trace + [Accepted(s.calls[call].job)])
  {
  }

  lemma SubmitOpens(s: State)
    requires s.stagings != [] && MaySend(s)
    ensures
      var sent := s.OnSubmit();
      && sent.stagings != [] && sent.mounted && Current(sent).approvalStarted && sent.At(|s.calls|, Sent)
      && (forall c | 0 <= c < |s.calls| :: sent.calls[c] == s.calls[c])
      && sent == s.Step(Submit)
  {
  }

  /** Some run from here, with no approval sent over an open call, breaks a promise. */
  ghost predicate MayBreak(s: State) {
    exists later: seq<Event> :: s.stagings != [] && Guarded(s, later, Alone()) &&
      !(Safe(Run(s, later).trace) && Conserved(Run(s, later)))
  }

  lemma KeptIsUnbroken(s: State)
    requires Inv(s)
    ensures !MayBreak(s)
  {
    forall later: seq<Event> | Guarded(s, later, Alone())
      ensures Safe(Run(s, later).trace) && Conserved(Run(s, later))
    {
      AloneRunsAreSafe(s, later);
    }
  }

  lemma SentOverACallMayBreak(s: State)
    requires s.stagings != [] && HeardInv(s) && MaySend(s) && !NoCallOpen(s)
    ensures MayBreak(s.OnSubmit())
  {
    SubmitOpens(s);
    SentIsHeard(s);
    var c :| 0 <= c < |s.calls| && s.calls[c].progress != Over;
    var later := TwoOpenCanBreak(s.OnSubmit(), c, |s.calls|, Alone());
  }

  /**
   * From any state such runs reach, an approval sent now can still lead to a broken promise, though no
   * later one is sent over another, exactly when a call is open.
   */
  lemma SendingBreaksExactlyOverACall(
    existing: Option<Id>, confirmText: Option<string>, retrying: bool, events: seq<Event>)
    requires Guarded(Opened(existing, confirmText, retrying), events, Alone())
    requires MaySend(Run(Opened(existing, confirmText, retrying), events))
    ensures var s := Run(Opened(existing, confirmText, retrying), events);
      MayBreak(s.OnSubmit()) <==> !NoCallOpen(s)
  {
    var start := Opened(existing, confirmText, retrying);
    var s := Run(start, events);
    OpenedInv(existing, confirmText, retrying);
    AloneRunsAreSafe(start, events);
    if NoCallOpen(s) {
      SubmitKeepsInv(s);
      KeptIsUnbroken(s.OnSubmit());
    } else {
      EveryRunHears(start, events);
      SentOverACallMayBreak(s);
    }
  }

  lemma SentIsHeard(s: State)
    requires s.stagings != [] && HeardInv(s)
    ensures HeardInv(s.OnSubmit())
  {
    var events := [Submit];
    assert events[..0] == [] && Run(s, []) == s;
    EveryRunHears(s, events);
    assert Run(s, events) == s.Step(Submit);
  }

  // --- A refused approval, under the form's own checks ---

  predicate Shorter(id: Option<Id>, length: nat) { id.Some? ==> |id.value| < length }

  lemma {:induction false} UnusedId(stagings: seq<Staging>) returns (id: Id)
    ensures forall g | 0 <= g < |stagings| :: Shorter(stagings[g].jobId, |id|) && Shorter(stagings[g].existing, |id|)
  {
    if stagings == [] {
      id := "";
    } else {
      var last := stagings[|stagings| - 1];
      id := UnusedId(stagings[..|stagings| - 1]);
      id := id + OrEmpty(last.jobId) + OrEmpty(last.existing) + "x";
    }
  }

  /** A job shown again as an existing one, and its approval sent. */
  lemma ShownAgain(s: State, job: Id) returns (events: seq<Event>, after: State)
    requires s.stagings != [] && s.mounted
    ensures Guarded(s, events, Anytime()) && Run(s, events) == after
    ensures after.calls == s.calls + [Call(job, Sent)] && after.mounted && after.stagings != []
  {
    var first := OneEvent(s, Restage(Some(job), false), Anytime());
    var second;
    after, second := ShownAndSubmitted(s.OnRestage(Some(job), false), Some(job), job, Anytime());
    events := Then(s, first, second, Anytime());
  }

  /** A new job staged, and its approval sent. */
  lemma StagedAnew(s: State) returns (events: seq<Event>, after: State, id: Id)
    requires s.stagings != [] && s.mounted
    ensures Guarded(s, events, Anytime()) && Run(s, events) == after
    ensures after.calls == s.calls + [Call(id, Sent)] && after.mounted && after.stagings != []
    ensures Current(after).approvalStarted
  {
    var restaged := s.OnRestage(None, false);
    var first := OneEvent(s, Restage(None, false), Anytime());
    id := UnusedId(restaged.stagings);
    var second;
    after, second := ShownAndSubmitted(restaged, None, id, Anytime());
    events := Then(s, first, second, Anytime());
  }

  /** While the dialog is there, the code's own runs can cancel any job: shown, approved and crossed with another. */
  lemma ThereAnyMayBeCancelled(s: State, job: Id)
    requires s.stagings != [] && s.mounted && HeardInv(s)
    ensures MayYetBeCancelled(s, job, Anytime())
  {
    var first, shown := ShownAgain(s, job);
    var second, crossed, other := StagedAnew(shown);
    var events := Then(s, first, second, Anytime());
    EveryRunHears(s, events);
    var third := TwoOpenCanBreak(crossed, |s.calls|, |s.calls| + 1, Anytime());
    events := Then(s, events, third, Anytime());
  }

  /**
   * Where the submit has the form's own checks alone, a refused job, staged here and not withdrawn, can be
   * cancelled yet exactly while the dialog is there, staged again since or not.
   */
  lemma WithdrawableExactlyWhileThere(
    existing: Option<Id>, confirmText: Option<string>, retrying: bool, events: seq<Event>,
    call: nat, g: nat, wantsPassword: bool)
    requires Guarded(Opened(existing, confirmText, retrying), events, Alone())
    requires var s := Run(Opened(existing, confirmText, retrying), events);
      && s.At(call, Sent) && g < |s.stagings|
      && s.stagings[g].owned && !s.stagings[g].withdrawn && s.stagings[g].jobId == Some(s.calls[call].job)
    ensures var s := Run(Opened(existing, confirmText, retrying), events);
      MayYetBeCancelled(s.OnCallRefused(call, wantsPassword), s.calls[call].job, Anytime()) <==> s.mounted
  {
    var start := Opened(existing, confirmText, retrying);
    var s := Run(start, events);
    if s.mounted {
      EveryRunHears(start, events);
      RefusedIsHeard(s, call, wantsPassword);
      ThereAnyMayBeCancelled(s.OnCallRefused(call, wantsPassword), s.calls[call].job);
    } else {
      WithdrawableExactlyWhileHeld(existing, confirmText, retrying, events, call, g, wantsPassword, Anytime());
    }
  }

  lemma RefusedIsHeard(s: State, call: nat, wantsPassword: bool)
    requires s.stagings != [] && HeardInv(s)
    ensures HeardInv(s.OnCallRefused(call, wantsPassword))
  {
    var events := OneEvent(s, CallRefused(call, wantsPassword), Anytime());
    EveryRunHears(s, events);
  }

  // --- Which guards are enough ---

  /** Both promises hold in every run under a guard. */
  ghost predicate KeepsPromises(guard: State -> bool) {
    forall existing, confirmText, retrying, events |
      Guarded(Opened(existing, confirmText, retrying), events, guard) ::
      var r := Run(Opened(existing, confirmText, retrying), events);
      Safe(r.trace) && Conserved(r)
  }

  /** Wherever a run under the guard can send an approval and the guard lets it, no call is open. */
  ghost predicate SendsAlone(guard: State -> bool) {
    forall existing, confirmText, retrying, events |
      Guarded(Opened(existing, confirmText, retrying), events, guard) ::
      var r := Run(Opened(existing, confirmText, retrying), events);
      MaySend(r) && guard(r) ==> NoCallOpen(r)
  }

  lemma {:induction false} GuardedIsAlone(
    existing: Option<Id>, confirmText: Option<string>, retrying: bool, events: seq<Event>, guard: State -> bool)
    requires SendsAlone(guard) && Guarded(Opened(existing, confirmText, retrying), events, guard)
    ensures Guarded(Opened(existing, confirmText, retrying), events, Alone())
  {
    if events != [] { GuardedIsAlone(existing, confirmText, retrying, events[..|events| - 1], guard); }
  }

  lemma SendingOverACallBreaks(
    existing: Option<Id>, confirmText: Option<string>, retrying: bool, before: seq<Event>, guard: State -> bool)
    returns (events: seq<Event>)
    requires Guarded(Opened(existing, confirmText, retrying), before, guard)
    requires var s := Run(Opened(existing, confirmText, retrying), before); MaySend(s) && guard(s) && !NoCallOpen(s)
    ensures Guarded(Opened(existing, confirmText, retrying), events, guard)
    ensures !Safe(Run(Opened(existing, confirmText, retrying), events).trace)
  {
    var start := Opened(existing, confirmText, retrying);
    var s := Run(start, before);
    var sent: State;
    SubmitOpens(s);
    EveryRunHears(start, before);
    SentIsHeard(s);
    events, sent := Further(start, before, s, Submit, guard);
    var c :| 0 <= c < |s.calls| && s.calls[c].progress != Over;
    var more := TwoOpenCanBreak(sent, c, |s.calls|, guard);
    events := Then(start, events, more, guard);
  }

  /**
   * Whatever else guarded the form's submit, the dialog would keep both promises in every run exactly
   * when the guard let no approval be sent over an open call.
   */
  lemma SafeExactlyWhenSentAlone(guard: State -> bool)
    ensures KeepsPromises(guard) <==> SendsAlone(guard)
  {
    if SendsAlone(guard) {
      forall existing, confirmText, retrying, events |
        Guarded(Opened(existing, confirmText, retrying), events, guard)
        ensures
          var r := Run(Opened(existing, confirmText, retrying), events);
          Safe(r.trace) && Conserved(r)
      {
        OpenedInv(existing, confirmText, retrying);
        GuardedIsAlone(existing, confirmText, retrying, events, guard);
        AloneRunsAreSafe(Opened(existing, confirmText, retrying), events);
      }
    }
    if KeepsPromises(guard) {
      forall existing, confirmText, retrying, events |
        Guarded(Opened(existing, confirmText, retrying), events, guard)
        ensures
          var r := Run(Opened(existing, confirmText, retrying), events);
          MaySend(r) && guard(r) ==> NoCallOpen(r)
      {
        var r := Run(Opened(existing, confirmText, retrying), events);
        if MaySend(r) && guard(r) && !NoCallOpen(r) {
          var broken := SendingOverACallBreaks(existing, confirmText, retrying, events, guard);
        }
      }
    }
  }

  // --- The component ---

  /** The component's refs and state; a staging's record is replaced where the source writes its fields. */
  class Dialog {
    const confirmText: Option<string>
    var phase: Phase
    var job: Option<Id>
    var policy: Option<Policy>
    var passwordLength: nat
    var typed: string
    var expired: bool
    var mounted: bool
    var stagings: seq<Staging>
    var calls: seq<Call>
    var trace: seq<Message>

    ghost function Now(): State
      reads this
    {
      State(phase, job, policy, passwordLength, typed, expired, confirmText, mounted, stagings, calls, trace)
    }

    ghost predicate Valid()
      reads this
    {
      Inv(Now())
    }

    constructor (existing: Option<Id>, confirmText: Option<string>, retrying: bool)
      ensures Now() == Opened(existing, confirmText, retrying) && Valid()
    {
      this.confirmText := confirmText;
      phase, job, policy, passwordLength, typed, expired, mounted := Preparing, None, None, 0, "", false, true;
      stagings, calls, trace := [Prepared(existing, retrying)], [], [];
      new;
      OpenedInv(existing, confirmText, retrying);
    }

    method Withdraw(g: nat)
      requires g < |stagings|
      modifies this
      ensures Now() == old(Now()).Withdraw(g)
    {
      var staging := stagings[g];
      if !staging.owned || staging.jobId.None? || staging.approvalStarted || staging.withdrawn { return; }
      stagings := stagings[g := staging.(withdrawn := true)];
      trace := trace + [CancelSent(staging.jobId.value)];
    }

    method CleanUp()
      requires stagings != []
      modifies this
      ensures Now() == old(Now()).CleanUp()
    {
      var latest := |stagings| - 1;
      stagings := stagings[latest := stagings[latest].(cancelled := true)];
      Withdraw(latest);
    }

    method Restage(existing: Option<Id>, retrying: bool)
      requires stagings != []
      modifies this
      ensures Now() == old(Now()).OnRestage(existing, retrying)
    {
      if !mounted { return; }
      CleanUp();
      stagings := stagings + [Prepared(existing, retrying)];
      phase, job, policy, passwordLength, typed, expired := Preparing, None, None, 0, "", false;
    }

    method StageAnswered(g: nat, id: Id, answered: Policy)
      modifies this
      ensures Now() == old(Now()).OnStageAnswers(g, id, answered)
    {
      if g >= |stagings| || !stagings[g].pending { return; }
      var staging := stagings[g];
      stagings := stagings[g := staging.(jobId := Some(id), pending := false)];
      if staging.owned { trace := trace + [Staged(id)]; }
      if staging.cancelled {
        Withdraw(g);
        return;
      }
      job, policy, expired, phase := Some(id), Some(answered), answered.expired, Ready;
    }

    method StageFailed(g: nat)
      modifies this
      ensures Now() == old(Now()).OnStageFails(g)
    {
      if g >= |stagings| || !stagings[g].pending { return; }
      var staging := stagings[g];
      stagings := stagings[g := staging.(pending := false)];
      if !staging.cancelled { phase := Failed; }
    }

    method Submit()
      modifies this
      ensures Now() == old(Now()).OnSubmit()
    {
      var passwordRequired := policy.Some? ==> policy.value.passwordRequired;
      var confirmRequired :=
        if confirmText.Some? then confirmText else if policy.Some? then policy.value.confirmText else None;
      var canApprove :=
        !expired && phase == Ready && !(passwordRequired && passwordLength < 12)
        && !(confirmRequired.Some? && confirmRequired.value != "" && typed != confirmRequired.value);
      if !mounted || !canApprove || job.None? || stagings == [] { return; }
      var latest := |stagings| - 1;
      stagings := stagings[latest := stagings[latest].(approvalStarted := true)];
      calls := calls + [Call(job.value, Sent)];
      phase := Approving;
      trace := trace + [ApproveSent(job.value)];
    }

    /** `approve()` past its first await, when the server took the approval. */
    method CallWasAccepted(call: nat, handoff: bool)
      modifies this
      ensures Now() == old(Now()).OnCallAccepted(call, handoff)
    {
      if call >= |calls| || calls[call].progress != Sent { return; }
      trace := trace + [Accepted(calls[call].job)];
      if !mounted || handoff {
        calls := calls[call := calls[call].(progress := Over)];
        if mounted { passwordLength := 0; }
        return;
      }
      calls := calls[call := calls[call].(progress := Following)];
      phase, passwordLength := Running, 0;
    }

    method CallWasRefused(call: nat, wantsPassword: bool)
      modifies this
      ensures Now() == old(Now()).OnCallRefused(call, wantsPassword)
    {
      if call >= |calls| || calls[call].progress != Sent { return; }
      trace := trace + [Refused(calls[call].job)];
      calls := calls[call := calls[call].(progress := Over)];
      if !mounted || stagings == [] { return; }
      var latest := |stagings| - 1;
      stagings := stagings[latest := stagings[latest].(approvalStarted := false)];
      phase := Ready;
      if wantsPassword && policy.Some? { policy := Some(policy.value.(passwordRequired := true)); }
    }

    method JobEnded(call: nat, completed: bool)
      modifies this
      ensures Now() == old(Now()).OnJobEnds(call, completed)
    {
      if call >= |calls| || calls[call].progress != Following { return; }
      calls := calls[call := calls[call].(progress := Over)];
      if !mounted { return; }
      job := Some(calls[call].job);
      phase := if completed then Done else Failed;
    }

    method Dismiss()
      modifies this
      ensures Now() == old(Now()).OnDismiss()
    {
      if !mounted || phase == Preparing || phase == Approving || phase == Running || stagings == [] { return; }
      var latest := |stagings| - 1;
      if job.Some? && phase == Ready && stagings[latest].owned && !stagings[latest].withdrawn {
        stagings := stagings[latest := stagings[latest].(withdrawn := true)];
        trace := trace + [CancelSent(job.value)];
      }
    }

    method PolicyWasRead(id: Id, answered: Policy)
      modifies this
      ensures Now() == old(Now()).OnPolicyRead(id, answered)
    {
      if !mounted || stagings == [] || stagings[|stagings| - 1].jobId != Some(id) { return; }
      policy, expired := Some(answered), answered.expired;
    }

    method FollowFailed(call: nat)
      modifies this
      ensures Now() == old(Now()).OnFollowFails(call)
    {
      if call >= |calls| || calls[call].progress != Following { return; }
      calls := calls[call := calls[call].(progress := Over)];
      if mounted { phase := Failed; }
    }

    method Leave()
      requires stagings != []
      modifies this
      ensures Now() == old(Now()).OnUnmount()
    {
      if !mounted { return; }
      CleanUp();
      mounted := false;
    }

    method Do(e: Event)
      requires stagings != []
      modifies this
      ensures Now() == old(Now()).Step(e)
    {
      match e
      case Restage(existing, retrying) => Restage(existing, retrying);
      case StageAnswers(g, id, answered) => StageAnswered(g, id, answered);
      case StageFails(g) => StageFailed(g);
      case Type(length, text) => if mounted && phase == Ready { passwordLength, typed := length, text; }
      case Expire => expired := true;
      case Submit => Submit();
      case CallAccepted(call, handoff) => CallWasAccepted(call, handoff);
      case CallRefused(call, wantsPassword) => CallWasRefused(call, wantsPassword);
      case JobEnds(call, completed) => JobEnded(call, completed);
      case FollowFails(call) => FollowFailed(call);
      case PolicyRead(id, answered) => PolicyWasRead(id, answered);
      case Dismiss => Dismiss();
      case Unmount => Leave();
    }

    /** After any event but an approval sent over another, no cancel was out of turn and no job was lost. */
    method Handle(e: Event)
      requires Valid() && Honest(Now(), e) && (e.Submit? && MaySend(Now()) ==> NoCallOpen(Now()))
      modifies this
      ensures Now() == old(Now()).Step(e) && Valid()
      ensures Safe(trace) && Conserved(Now())
    {
      StepKeepsInv(Now(), e);
      Do(e);
    }
  }
}
