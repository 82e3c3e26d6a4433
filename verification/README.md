# BoxPilot's client protocols, in Dafny

BoxPilot's front end carries several small protocols and exact algorithms of its own. This project
models them and proves what they keep: following a job's output while a stream and a poller race,
one job feed shared by every view, the approval dialog's staged jobs, Repair's batch of fixes, which
failures still need the owner, the service worker's caches, and the codecs and maps beside them.

`dafny verify dfyconfig.toml` checks everything.

## How it is built

Each protocol is a state machine: a datatype holding the code's variables together with what the
browser holds for it (timers armed, requests out, continuations waiting), and a `Step` for each event
that may come. Every `await` ends a step, so any other event may run there, and the properties hold
in every interleaving. Beside the machine stands a class with the source's own fields, whose methods
do what the source's handlers do; each method's `ensures` ties the new state to the machine's step,
and its `Handle` keeps the machine's invariant. Pure code is functions and lemmas.

The server, the clock, the network, visibility and other tabs are oracles: they are the events, or
parameters. Strings that are taken apart by code unit (`Strings.Text`) are sequences of 16-bit units,
lone surrogates included.

| file | source |
|---|---|
| `JobOutputText.dfy` | src/jobOutputText.ts |
| `OutputFollower.dfy` | src/operations.ts, followJobOutput, with the view in src/JobLogView.tsx |
| `Jobs.dfy`, `JobFeed.dfy` | src/operations.ts, followJobs and openJobFeed, with the folds in src/shell/ActivityDrawer.tsx and src/home/facts.tsx |
| `WaitForJob.dfy` | src/operations.ts, waitForJob |
| `ApproveDialog.dfy` | src/shell/ApproveDialog.tsx |
| `RepairBatch.dfy` | src/repair/useRepairFixes.tsx |
| `JobStatus.dfy` | src/jobStatus.ts, src/shell/approvalsWaiting.ts |
| `SwRules.dfy`, `Addresses.dfy`, `ServiceWorker.dfy`, `Offline.dfy` | src/pwa/swRules.js, src/pwa/sw.js |
| `Fnv.dfy`, `Precache.dfy` | src/pwa/serviceWorkerSource.ts |
| `Base64url.dfy` | src/passkey.ts, src/pwa/push.ts |
| `StorageMap.dfy`, `Paths.dfy` | src/storageMap.ts |
| `ServedFolder.dfy`, `Paths.dfy` | src/servedFolder.ts |
| `Sparkline.dfy` | src/ui/Sparkline.tsx |
| `Sorting.dfy`, `Strings.dfy`, `Wrappers.dfy` | shared: stable sort, code units, Option and Result |

## Where the code does not meet its intent

- **A log that quotes the view's notice.** `jobOutputText` recognises its own notice by the text's
  beginning, so a log that itself begins with the notice can be taken for one already clipped.
  `JobOutputText.FragmentsShowTheLog` proves that appending fragments shows what one call on the whole
  log shows if and only if the fragments are not in that family (`Misread`): the log begins with the
  notice, has outgrown the limit by less than the notice's length, and some fragment ended after the
  notice while the log still fitted. `OutputFollower.ScreenShowsPrefixesExactly` proves the same of the
  whole follower: every interleaving shows a prefix of the log if and only if the log, if it begins
  with the notice, is no longer than the limit.
- **An approval sent over another.** The staging effect may run again while an approval is out or its
  job is followed; alone that does no harm. But the form then shows again, and nothing stops a second
  approval over the open call: the older call's end is written into the newer staging's record.
  `ApproveDialog.SendingBreaksExactlyOverACall` proves, state by state, that an approval sent now can
  lead to a broken promise if and only if a call is open, and `ApproveDialog.SafeExactlyWhenSentAlone`
  that a guard on the submit keeps both promises in every run if and only if it lets no approval be
  sent over an open call. The code's own guard is the form's checks alone;
  `ApproveDialog.CrossedBreaksBoth` is a run in which an accepted job is cancelled and a staged one is
  left neither withdrawn nor approved.
- **A refused approval is not always withdrawable again.** `ApproveDialog.WithdrawableExactlyWhileHeld`
  proves that a refused job can be cancelled yet if and only if its staging is still the dialog's when
  the refusal comes: the dialog is there, and was not staged again since. That is of continuations in
  which no approval is sent over an open call. Once the dialog is gone no continuation at all cancels it
  (`ApproveDialog.RefusedOnceGoneIsLeftWaiting` is such a run). Where the form's own checks are the only
  guard, an open dialog can cancel it even after it was staged again, by the crossing above, and
  `ApproveDialog.WithdrawableExactlyWhileThere` proves that it can if and only if the dialog is there. Its
  approval was sent, so the conservation property, as stated, holds.
- **A withdrawn retry settles a failure.** A failure is meant to be let go of once it was dismissed or
  tried again. The code lets any record that retries it settle it, one that was cancelled before it ran
  too: `JobStatus.CancelledRetryHides` is a history whose only failure is then shown nowhere.
  `JobStatus.CancelledAloneExactly` gives the condition for one failure: a repeat of it was cancelled, and
  it was not tried again. `JobStatus.FailuresEndWellExactly` proves that following what settles a failure
  leads every one of them to work done, running or waiting, to a failure let go of or to one still shown,
  if and only if no failure is settled by cancelled records alone.
- **A path the worker keeps under another address.** The build checks the paths to keep first as they
  are spelled, and the worker fetches and keeps them as the browser reads them.
  `ServiceWorker.SpellingGetsPast` is a list the build takes and whose worker keeps `/ca.crt` on every
  site, and `ServiceWorker.OwnHostGetsPast` another, "/\h/ca.crt", whose worker does on the site whose host
  is h. `ServiceWorker.RulesKeptExactlyForSoundLists` proves, for each site, that a list leads to no guarded
  entry, and to no shell that is not HTML, in any run, if and only if each of its paths, read as that
  site's browser reads it, names nothing guarded and the shell only if it is "/" itself;
  `ServiceWorker.PlainBuildsAreSound` that for paths without dot segments, query, fragment, backslash or
  white space the build's check is enough.
- **"Two builds of one version differ"** (src/pwa/serviceWorkerSource.ts:14). They do where their lists
  differ in one code unit, or within two neighbouring ones below 256
  (`Precache.OneUnitChangesTheVersion`, `Precache.TwoUnitsChangeTheVersion`), and not always beyond:
  `Precache.TwoBuildsShareAVersion` gives two builds with different lists and one version. For texts
  that differ further apart no condition but the two digests themselves is given.

## What the server is taken to keep

- A job's `createdAt` never changes. A newcomer's list and an older follower's then agree; without it
  they can part (`JobFeed.RedatedJobParts`).
- A repeat is created after the job it repeats. Following what settles a failure then ends; two retries
  of each other would hide both (`JobStatus.CycleHidesFailures`).
- A newly staged job has an id that was never seen before, and a history lists each job once.

## Model

| member | source | states |
|---|---|---|
| JobOutputText.ReplacingShowsTheLog | src/jobOutputText.ts:5-11 | A whole log given at once is shown as itself or its bounded tail, whatever was on screen before |
| JobOutputText.ShowIsTheLogOrItsTail | src/jobOutputText.ts:1-10 | A log that fits is shown verbatim; a longer one as the notice and its last 262144 code units, less a leading low surrogate |
| JobOutputText.AppendShows | src/jobOutputText.ts:5-11 | Appending to a view that shows a log shows the longer log, clipped or not, unless the log's own notice is taken for the view's |
| JobOutputText.FeedExactly | src/jobOutputText.ts:5-11 | What appending any fragments, cut anywhere and possibly empty, shows: the log verbatim in the misread window, and otherwise what one call shows |
| JobOutputText.FragmentsShowTheLog | src/jobOutputText.ts:5-11 | Appending fragments and showing the whole log at once agree if and only if the log is not misread |
| OutputFollower.GapsWidenToTheCeiling | src/operations.ts:389-400 | Up to the ceiling the gap between polls never narrows, and it never passes the ceiling or one millisecond; between the floor and the ceiling it widens to 1.4 times itself, to the millisecond; a gap of two or more stops widening exactly at the ceiling, and a gap of one stays at one exactly where the floor or the ceiling is no higher |
| OutputFollower.StepKeepsInv | src/operations.ts:339-403 | Every event keeps: armed timers are those the handles name, one request at most, something under way until over or the stream has won, nothing armed afterwards, one end announced at most |
| OutputFollower.EveryRunKeepsInv | src/operations.ts:319-404 | That holds in every interleaving of stream, poller, timers and the consumer leaving |
| OutputFollower.AtMostOneOfEach | src/operations.ts:330-360 | At most one poll timer, one start timer and one request at a time; onState at most once |
| OutputFollower.OverIsOver | src/operations.ts:342-403 | Once stopped or finished, whatever arrives makes no callback, arms nothing and sends nothing, for good |
| OutputFollower.StopIsFinal | src/operations.ts:403 | In every run: once the consumer leaves, whatever was under way and whatever still comes, no callback is made, no timer is armed and no request is sent any more |
| OutputFollower.StreamErrorAsksAtOnce | src/operations.ts:381-386 | A stream that fails before the end leaves the log to the poller, with one poll armed and no wait |
| OutputFollower.AskingGoesOn | src/operations.ts:345-401 | One round: a timer fires, exactly one request goes out, and once it is answered or lost the next poll is armed, `pollEvery` after the first and otherwise the widened gap after; an answer's output replaces what is shown |
| OutputFollower.WinnerOnlyMovesOn | src/operations.ts:326-386 | The winner moves only from none to either, or from the stream to the poller |
| OutputFollower.ScreenShowsAPrefix | src/operations.ts:341-400 | For a plain log (low surrogates paired, and no longer than the limit if led by the notice), in every interleaving of fragments, stream errors, stale answers and timers, the screen shows exactly some prefix of the log, and all that was streamed while the stream leads |
| OutputFollower.ScreenShowsPrefixesExactly | src/operations.ts:341-400 | For logs with paired surrogates, every interleaving shows a prefix if and only if the log is plain |
| OutputFollower.OverFreezesTheScreen | src/operations.ts:339-403 | Once the following is over the screen stays as it is, whatever comes |
| OutputFollower.StopFreezesTheScreen | src/operations.ts:403 | Once the view leaves, its screen stays as it was, in every run |
| OutputFollower.AnswerIsShown | src/operations.ts:347-353 | An answer that is heard and not empty puts exactly the prefix it gave on screen |
| OutputFollower.StreamEndShowsAllOfIt | src/operations.ts:362-380 | After the stream's own end, with nothing polled, all that was streamed stays on screen |
| OutputFollower.LastAnswerStays | src/operations.ts:341-360 | After a terminal answer that is heard, exactly the prefix it gave stays on screen; an empty one leaves what was shown |
| OutputFollower.EveryRunKeepsScreen | src/JobLogView.tsx:100-103 | The same, for any reading of the screen that appending a fragment, replacing by a prefix and ending respect |
| OutputFollower.Follower.constructor | src/operations.ts:325-337 | A follower starts with only its start timer armed |
| OutputFollower.Follower.Do | src/operations.ts:362-403 | One event changes the closure's variables and the browser's as the machine's step does |
| OutputFollower.Follower.Handle | src/operations.ts:326-403 | And keeps the machine's invariant: one request and one announced end at most, nothing armed once it is over |
| OutputFollower.Follower.Answered | src/operations.ts:345-359 | What `poll` does past its awaits, whoever has won or stopped meanwhile |
| OutputFollower.Follower.StreamFailed | src/operations.ts:381-386 | A failed stream hands over to the poller at once, unless it is over |
| OutputFollower.Follower.ScheduleNextPoll | src/operations.ts:392-400 | Arms one poll timer in place of any other, unless over or the stream has won |
| Jobs.Sorted50IsTidy | src/operations.ts:200 | The newest-first list is sorted, holds each job once and at most fifty |
| Jobs.TheNewestAreKept | src/operations.ts:200 | The fifty kept are the newest: a job left out is no newer than any of fifty kept |
| Jobs.UpsertHolds | src/operations.ts:213-216 | After a job's event the list holds its new record, unless fifty newer jobs fill it; no other record of it; and all it held before but what fifty no older jobs push out |
| Jobs.UpsertIsTidy | src/shell/ActivityDrawer.tsx:34-39 | So does the list after a job's event |
| Jobs.UpsertForgetsOrder | src/home/facts.tsx:548-551 | A job's event gives the same list whether it meets the held snapshot or a follower's sorted one |
| Jobs.TidyIsFixed | src/home/facts.tsx:548-551 | Sorting a list as followers show it changes nothing |
| Sorting.SortIsTheStableSort | src/operations.ts:200 | The model's sort is the stable one: any sorted arrangement that keeps ties in their order is the same list |
| JobFeed.StepKeepsSourceInv | src/operations.ts:251-302 | Every event keeps an opened feed to one request and one timer, never both; a polling feed goes on asking unless refused; a stopped one never calls back |
| JobFeed.FeedNeverGoesBack | src/operations.ts:238-303 | Over any events: at most one history request, and never back from asking to the stream |
| JobFeed.RefusedAsksNoMore | src/operations.ts:258-273 | After a 401 or 403 a feed asks no more and says no more |
| JobFeed.RefusalIsFinal | src/operations.ts:258-272 | In every run, after a 401 or 403 to its request a feed never asks again, arms nothing and says nothing more |
| JobFeed.AsksAtOnce | src/operations.ts:275-301 | A failed stream, an event that cannot be read, a timer that fires and the page shown again while it waits each have the history asked for at once, by one request, and end the stream |
| JobFeed.SilentStreamFallsBack | src/operations.ts:284-301 | Without a stream a feed polls; until its stream has given a readable history it polls or a timer waits to have it poll |
| JobFeed.BacksOff | src/operations.ts:264-272 | However many reads break in a row it asks again after each: after the n-th when a wait has passed that three failures have doubled and half a minute bounds |
| JobFeed.ReadableResets | src/operations.ts:261-272 | A readable history ends the backing off: the next is asked for after the plain wait, or half a minute while the page is hidden |
| JobFeed.EveryRunKeepsTheFeed | src/operations.ts:198-236 | Over any coming and going: the feed is open exactly when followed, every other feed is stopped, and all followers show what the held list would show a newcomer |
| JobFeed.ListsAreTidy | src/operations.ts:200-224 | Every list shown is newest first, each job once, at most fifty |
| JobFeed.HistoryReachesAll | src/operations.ts:211-301 | After any run a history the open feed reads, streamed or asked for, is what every follower shows from then on: its first fifty, newest first; and the status says which way it came |
| JobFeed.JobReachesAll | src/operations.ts:211-297 | After any run a job's record the open feed reads is in every list, unless fifty newer jobs fill it, in place of any older record of the job |
| JobFeed.GaveUpIsRestarted | src/operations.ts:204-211 | Joining a feed that has given up opens a fresh one, holds nothing of the last and stops it |
| JobFeed.EveryRunTells | src/operations.ts:206-265 | After any run the status says unavailable exactly while the last read failed, loading only before there is a list, and live or polling only with one |
| JobFeed.JoinerSeesTheSame | src/operations.ts:221-224 | A follower joining is shown at once what every other follower is shown, and no feed is opened for it |
| JobFeed.OnlyTheOpenFeedDelivers | src/operations.ts:206-235 | A stopped or replaced feed changes nothing, whatever still reaches it |
| JobFeed.RedatedJobParts | src/operations.ts:202-224 | A run in which a job is dated anew and a newcomer's list differs from the older follower's |
| JobFeed.OpenFeed.constructor | src/operations.ts:238-301 | A feed opens on the stream with its fallback timer, or straight to asking where there is none |
| JobFeed.OpenFeed.Do | src/operations.ts:251-302 | One event's effect on an opened feed and the callbacks it makes, as the machine's step says |
| JobFeed.OpenFeed.Handle | src/operations.ts:251-302 | And keeps the machine's invariant: one request at most, and no callback from a stopped feed |
| JobFeed.SharedFeed.Follow | src/operations.ts:202-224 | Joining opens the feed, restarts one that gave up, or hands over the held snapshot |
| JobFeed.SharedFeed.Leave | src/operations.ts:226-235 | The last to leave closes the feed and drops its snapshot |
| JobFeed.SharedFeed.At | src/operations.ts:211-220 | What one feed's event tells the followers |
| JobFeed.SharedFeed.Handle | src/operations.ts:198-236 | After any move of an honest server: one feed open exactly when followed, and all followers show what a newcomer would |
| WaitForJob.WaitForJob | src/operations.ts:152-178 | The first decisive round decides: a stop, the job's end, or five failed reads in a row, forgiven before that |
| ApproveDialog.StepKeepsInv | src/shell/ApproveDialog.tsx:157-253 | Every event, effect re-runs included, but an approval sent over an open call, keeps each staging's record in step with what the server saw, one open call at most, and no cancel out of turn |
| ApproveDialog.AloneRunsAreSafe | src/shell/ApproveDialog.tsx:157-253 | In every run, staged again and torn down at any point, in which no approval is sent over an open call: a cancel is sent at most once per job, only for a job the dialog staged, never while an approval is out or after one was accepted; and every staged job let go of was withdrawn or had its approval sent |
| ApproveDialog.ApprovalOnlyFromTheForm | src/shell/ApproveDialog.tsx:207-293 | In any state at all, an approval is sent only by submitting a ready, unexpired form, with a password long enough and the typed text equal where the policy it holds asks for them |
| ApproveDialog.FormFollows | src/shell/ApproveDialog.tsx:169-267 | In every run the policy, the typing and the expiry the form holds are what the events say: the server's last word on the current staging's approval, and what was typed since |
| ApproveDialog.ApprovalExactlyWhenMet | src/shell/ApproveDialog.tsx:267-293 | In every run an approval is sent exactly by submitting a form that shows, in time, with twelve characters at least of a password last typed where the server's last word asks for one, and the dialog's own confirmation, or else that word's, typed |
| ApproveDialog.DoneWasCompleted | src/shell/ApproveDialog.tsx:228-232 | In every run the dialog says it is done only of the job it shows, which it followed and which completed |
| ApproveDialog.EndIsShown | src/shell/ApproveDialog.tsx:228-240 | The end of a job the dialog follows is shown as done or failed, as it went, and losing sight of it as failed |
| ApproveDialog.ApprovalIsOfTheStagedJob | src/shell/ApproveDialog.tsx:207-214 | In every such run it is for the current staging's own job, with no approval of it out or accepted |
| ApproveDialog.ClosingWithdrawsItsOwn | src/shell/ApproveDialog.tsx:157-192 | Closed or gone before it is submitted, the dialog withdraws the job it staged, a retry with more time included, and leaves a job it was only shown waiting |
| ApproveDialog.RefusedIsWithdrawable | src/shell/ApproveDialog.tsx:184-241 | While its staging is the dialog's, after a refused approval closing the dialog or its going away cancels the job, and safely |
| ApproveDialog.WithdrawableExactlyWhileHeld | src/shell/ApproveDialog.tsx:233-235 | In continuations in which no approval is sent over an open call, a refused job can be cancelled yet if and only if the dialog is there and was not staged again since; whatever guards the submit, it can be while held so, and cannot be once the dialog is gone |
| ApproveDialog.WithdrawableExactlyWhileThere | src/shell/ApproveDialog.tsx:157-253 | In continuations under the form's own checks alone it can be cancelled yet if and only if the dialog is there, staged again or not |
| ApproveDialog.RefusedOnceGoneIsLeftWaiting | src/shell/ApproveDialog.tsx:233-235 | A run staged, submitted, torn down and refused, whose job no continuation cancels, whatever guards the submit |
| ApproveDialog.SendingBreaksExactlyOverACall | src/shell/ApproveDialog.tsx:207-253 | From any state such runs reach, an approval sent now can still lead to a broken promise if and only if a call is open |
| ApproveDialog.SafeExactlyWhenSentAlone | src/shell/ApproveDialog.tsx:207-253 | Whatever guarded the submit, both promises hold in every run if and only if the guard lets no approval be sent over an open call |
| ApproveDialog.CrossedBreaksBoth | src/shell/ApproveDialog.tsx:157-241 | A run of the code's own guard that cancels an accepted job and leaves another waiting |
| ApproveDialog.Dialog.Do | src/shell/ApproveDialog.tsx:157-253 | One event changes the dialog's refs and state as the machine's step does |
| ApproveDialog.Dialog.Handle | src/shell/ApproveDialog.tsx:157-253 | And, but for an approval sent over an open call, keeps both promises |
| ApproveDialog.Dialog.StageAnswered | src/shell/ApproveDialog.tsx:177-178 | A staged job is shown, or withdrawn if the effect was cleaned up meanwhile |
| ApproveDialog.Dialog.Submit | src/shell/ApproveDialog.tsx:207-216 | The form's submit marks the staging and sends one approval, if it may |
| ApproveDialog.Dialog.CallWasRefused | src/shell/ApproveDialog.tsx:233-241 | A refusal makes the current staging withdrawable again, unless the dialog is gone |
| ApproveDialog.Dialog.Dismiss | src/shell/ApproveDialog.tsx:184-192 | Closing a ready form withdraws the job it staged, once |
| RepairBatch.OnlyOneClickIsApproved | src/repair/useRepairFixes.tsx:125-135 | Every approval a batch sends is of a job it staged two requests before and that asked for one click only |
| RepairBatch.StopsAtTheFirstAskForMore | src/repair/useRepairFixes.tsx:123-133 | The first job asking for more is cancelled and nothing after it is ever staged |
| RepairBatch.CancelledOnlyForMore | src/repair/useRepairFixes.tsx:123-133 | A job is cancelled only right after its own staging, only when it asked for more than one click, and nothing but the one scan is asked for after |
| RepairBatch.OneClickInOrder | src/repair/useRepairFixes.tsx:124-137 | Each entry the batch comes to whose job asks for one click is staged, its attempt recorded and its approval sent, one right after the other; its job is followed next exactly when the approval went through; no other request names the job |
| RepairBatch.StagedExactlyWhenReached | src/repair/useRepairFixes.tsx:121-146 | An entry is staged, once, exactly when no entry before it asked for more and the page did not go away during one |
| RepairBatch.RescannedExactly | src/repair/useRepairFixes.tsx:137-148 | The scan is read exactly when some job was followed to its end and the page had not gone away while the batch worked |
| RepairBatch.StoppedByOne | src/repair/useRepairFixes.tsx:123-133 | A stopped batch has an entry that stopped it, before which nothing did |
| RepairBatch.DoneHasEachFinished | src/repair/useRepairFixes.tsx:137-138 | Every entry whose job was followed to its end is among the finished |
| RepairBatch.DoneHasOnlyFinished | src/repair/useRepairFixes.tsx:138 | And nothing else is |
| RepairBatch.FixedExactlyWhen | src/repair/useRepairFixes.tsx:84-93 | While the page stays a card ends fixed or still; fixed exactly when no entry before it asked for more, its own job went through and completed, and a readable scan no longer holds it |
| RepairBatch.StoppedExactly | src/repair/useRepairFixes.tsx:121-133 | While the page stays, the batch is stopped exactly when some entry was asked for more than one click |
| RepairBatch.RescanComesLast | src/repair/useRepairFixes.tsx:84-148 | The one scan is read after every other request, and only if some job was seen to end |
| RepairBatch.Page.Settle | src/repair/useRepairFixes.tsx:84-93 | Every finished job's card gets its verdict from one scan; no other card changes |
| RepairBatch.Page.FollowOne | src/repair/useRepairFixes.tsx:95-104 | A single fix ends with its job's verdict, or still where the job was lost sight of |
| RepairBatch.Page.Work | src/repair/useRepairFixes.tsx:124-146 | One entry's requests, and what its card says before the verdict |
| RepairBatch.Page.RunBatch | src/repair/useRepairFixes.tsx:116-154 | Against any server: exactly the batch's requests, and while the page stays every card ends with its outcome and the batch is no longer busy |
| JobStatus.RemountIsReconnect | src/jobStatus.ts:53-57 | Remounting a share and reconnecting the share of that name are one work |
| JobStatus.SubjectsMeetExactly | src/jobStatus.ts:38-45 | Two jobs have one subject exactly when the first of the id, name, unit, target, device, mountpoint and tag each of them names is the same one with the same text, or neither names any |
| JobStatus.WorksMeetExactly | src/jobStatus.ts:53-57 | Two jobs did one work exactly when operation and subject are the same, a remount of a share counting as the reconnect that names it |
| JobStatus.NeedsOwnerExactly | src/jobStatus.ts:28-73 | A job needs the owner exactly when it failed, was neither dismissed nor run again after a restart, and no other record retries it, reran it or did its work since without failing or being cancelled |
| JobStatus.MoreJobsSettleMore | src/jobStatus.ts:64-73 | Adding jobs never unsettles a failure |
| JobStatus.ChainsAreShort | src/jobStatus.ts:64-73 | No chain of records each settling the one before is longer than the history |
| JobStatus.FollowingEnds | src/jobStatus.ts:64-73 | Any such chain extends to one that ends |
| JobStatus.NoFailureIsHidden | src/jobStatus.ts:28-73 | From any failed job it ends at a record that did not fail, a failure let go of or run again, or a failure still shown; at a cancelled record only as a repeat of the failure before it |
| JobStatus.CancelledRetryHides | src/jobStatus.ts:64-73 | A failure and a cancelled retry of it, in the order they were created: the failure is settled and nothing is shown, though nothing ran |
| JobStatus.CancelledAloneExactly | src/jobStatus.ts:64-73 | A failure neither dismissed nor run again is settled by cancelled records alone if and only if a repeat of it was cancelled and it was not tried again: no other repeat, and no same work since that is done, running or waiting |
| JobStatus.FailuresEndWellExactly | src/jobStatus.ts:58-73 | Every failure leads on to work done, running or waiting, a failure let go of or run again, or one still shown, if and only if none is settled by cancelled records alone |
| JobStatus.AllFailedShowsOne | src/jobStatus.ts:64-73 | If every record is a failure nobody let go of, some failure is shown |
| JobStatus.CycleHidesFailures | src/jobStatus.ts:64-73 | Two failed retries of each other would both be settled; creation order rules them out |
| JobStatus.LatestFailureIsTheNewest | src/shell/approvalsWaiting.ts:17-18 | A failure is offered exactly when one is unsettled, and then the newest |
| JobStatus.WaitingCountsAwaiting | src/shell/approvalsWaiting.ts:16 | The ids kept are exactly those of the jobs awaiting approval |
| JobStatus.WaitingForgetsOrder | src/shell/approvalsWaiting.ts:16-21 | The ids kept do not depend on the order the jobs are listed in, so a reordered list is no news |
| JobStatus.ApprovalsWaiting.Publish | src/shell/approvalsWaiting.ts:15-25 | The kept variables are a function of the last list alone, and listeners hear exactly of changes |
| Base64url.RoundTrip | src/passkey.ts:12-26 | Decoding an encoding gives the bytes back; the encoding is URL-safe and ceil(4n/3) long |
| Base64url.PaddingCompletes | src/passkey.ts:20 | The restored padding makes any text a multiple of four long |
| Base64url.ReencodesExactlyCanonical | src/passkey.ts:12-26 | A text the decoder takes is given back by encoding exactly when it is canonical |
| Base64url.CanonicalIsTaken | src/passkey.ts:19-26 | Every canonical text is taken |
| Base64url.EncodeIsLetters | src/passkey.ts:16 | An encoding is the URL-safe letters of the bytes' sextets, the padding gone |
| Base64url.SextetsCarryTheBits | src/passkey.ts:16 | Three bytes and their four letters' sextets are the same twenty-four bits, the first byte's highest first |
| Base64url.DecodeOfLetters | src/pwa/push.ts:85-91 | URL-safe letters are refused where one stands alone past whole groups, and otherwise read as their whole bytes |
| Base64url.BufferToBase64url | src/passkey.ts:12-17 | The loop over the buffer computes the encoding |
| Base64url.Base64urlToBytes | src/pwa/push.ts:85-91 | The loop fills an array with the decoding, or the text is refused |
| Fnv.StepIsABijection | src/pwa/serviceWorkerSource.ts:23-24 | For each code unit, a step is a bijection on 32-bit states, undone by the prime's inverse |
| Fnv.StatesStayApart | src/pwa/serviceWorkerSource.ts:22-25 | Two different states stay different over any text they share |
| Fnv.TagIsEightHexDigits | src/pwa/serviceWorkerSource.ts:26 | A tag is exactly eight lower-case hex digits, and their value is the hash |
| Fnv.OneUnitChangesTheTag | src/pwa/serviceWorkerSource.ts:19-27 | Two texts that differ in one code unit, wherever it is, have different tags |
| Fnv.TwoUnitsChangeTheTag | src/pwa/serviceWorkerSource.ts:19-27 | So have two that differ within two neighbouring units below 256 |
| Fnv.TagsMeetExactly | src/pwa/serviceWorkerSource.ts:22-25 | The last step loses nothing: two texts share a tag exactly when they stand at one state before the last multiplication |
| Fnv.TagsMeet | src/pwa/serviceWorkerSource.ts:20-27 | Two texts that share a tag whatever follows them |
| Fnv.Digest | src/pwa/serviceWorkerSource.ts:20-27 | The index loop computes the tag |
| Precache.BuildKeepsExactly | src/pwa/serviceWorkerSource.ts:31-34 | A build is refused exactly when a rooted path is private as spelled; otherwise it keeps exactly the rooted paths, once, in first order, none private |
| Precache.OneUnitChangesTheVersion | src/pwa/serviceWorkerSource.ts:28-35 | Two builds of one version whose kept lists differ in one code unit have different versions |
| Precache.TwoUnitsChangeTheVersion | src/pwa/serviceWorkerSource.ts:28-35 | So have two whose lists differ within two neighbouring units below 256 |
| Precache.TwoBuildsShareAVersion | src/pwa/serviceWorkerSource.ts:28-35 | Two builds with different lists can have one version |
| SwRules.AnsweredRequests | src/pwa/swRules.js:15-35 | A request is answered exactly when it is a GET of this origin, outside the guarded paths and not of the worker's own script, that loads a page or asks for one of the app's own files; as the shell exactly when it loads a page, which alone has the shell's path |
| SwRules.CacheableExactly | src/pwa/swRules.js:40-48 | A response may be kept exactly when it is a whole 200 of this origin's whose Cache-Control says neither no-store nor private, as a word in any case, and whose type mentions neither JSON nor an event stream |
| Addresses.PlainIsItsOwnKey | src/pwa/sw.js:21-22 | A path without dot segments, query, fragment, backslash or white space is kept under itself |
| Addresses.OutAgain | src/pwa/sw.js:21-22 | A path that goes into a folder and out of it again is kept under what follows |
| Addresses.ByOwnHost | src/pwa/sw.js:21-22 | A path that names the site's own host by a backslash is kept under what follows the host |
| ServiceWorker.StepLeads | src/pwa/sw.js:15-93 | Every event keeps each kept response, waiting task and answer within the rules, guarded addresses and the shell's as far as the lists installed were sound, and leaves other applications' caches alone |
| ServiceWorker.EveryRunLeads | src/pwa/sw.js:15-93 | That holds in every interleaving of installs, activations and fetches of any workers |
| ServiceWorker.NothingPrivateIsKept | src/pwa/sw.js:15-93 | In every run whose workers install sound lists, nothing under /api/, /oidc/, /.well-known/ or at /ca.crt is ever kept, and under "/" stands HTML |
| ServiceWorker.KeptIsWhatWasGiven | src/pwa/sw.js:15-93 | In every run at all, what is kept was cacheable and is what the network gave for that address, or, under "/", for some page |
| ServiceWorker.RulesKeptExactlyForSoundLists | src/pwa/sw.js:15-28 | On each site a worker keeps nothing guarded, and no shell that is not HTML, in any run, if and only if its list is sound there |
| ServiceWorker.PlainBuildsAreSound | src/pwa/serviceWorkerSource.ts:31-34 | A build whose paths are plain is sound |
| ServiceWorker.SpellingGetsPast | src/pwa/serviceWorkerSource.ts:33-34 | A list the build takes whose worker can keep /ca.crt on any site |
| ServiceWorker.OwnHostGetsPast | src/pwa/serviceWorkerSource.ts:31-34 | A list the build takes whose worker can keep /ca.crt on the site whose host it names |
| ServiceWorker.AnswersAreTheApps | src/pwa/sw.js:70-93 | A kept answer is cacheable and from the cache of the worker's own name (two builds may share one); to a page load, from sound lists, it is a shell, to anything else what the network gave for that address |
| ServiceWorker.OtherCachesAreUntouched | src/pwa/sw.js:30-36 | Caches of other applications are neither deleted nor written to |
| ServiceWorker.ActivationClearsOlderBuilds | src/pwa/sw.js:30-36 | Whatever runs between an activation's deletions, an older build's cache that no worker of that build opens again is gone once no deletion of it waits |
| ServiceWorker.OwnCacheStays | src/pwa/sw.js:30-36 | A worker's own cache stays while no worker of another build activates |
| Offline.FailedLoadsAreLookedFor | src/pwa/sw.js:88-92 | A page load or static file whose fetch or put fails is not answered yet; when its lookup runs, whatever ran before, the answer is exactly what the store it opened then holds, a page's under "/", and an error only where that holds nothing |
| Offline.AssetsComeFromTheCache | src/pwa/sw.js:72-78 | An asset the worker's own cache holds when it is looked up is answered from there with no fetch, and is fetched exactly where it is not held |
| Offline.ArrivalsAreKept | src/pwa/sw.js:75-87 | What the network gives to a load is handed on; where it may be kept it is kept first, a page's HTML under "/" and anything else under its own address |
| Offline.FilesAreKept | src/pwa/sw.js:19-24 | A listed file's cacheable answer is kept under the address its path names, the shell's if it is HTML |
| Offline.KeptAnswersOffline | src/pwa/sw.js:70-93 | A response the worker's cache holds for a page or static file answers every later request for it whose fetch fails, whatever runs in between, until another is put in its place or the cache is deleted |
| ServiceWorker.Site.Install | src/pwa/sw.js:15-28 | Installing opens the build's cache and starts one fetch for each path |
| ServiceWorker.Site.Activate | src/pwa/sw.js:30-34 | Activating sets out to delete exactly the other builds' caches |
| ServiceWorker.Site.Fetch | src/pwa/sw.js:38-44 | A request is left to the network, looked up or fetched, by its route |
| ServiceWorker.Site.FileArrives | src/pwa/sw.js:19-24 | A file to keep first is kept under its parsed address where the rules allow |
| ServiceWorker.Site.Arrive | src/pwa/sw.js:76-87 | A load's response is kept where the rules allow, or answered at once |
| ServiceWorker.Site.Put | src/pwa/sw.js:76-92 | A put keeps one response; a failed one falls back, or fails an asset |
| ServiceWorker.Site.Match | src/pwa/sw.js:71-91 | A lookup answers from the store it was opened on, goes to the network, or fails |
| ServiceWorker.Site.Handle | src/pwa/sw.js:15-93 | One event changes the caches as the machine's step does, and keeps its invariant |
| Paths.AncestorsFormAChain | src/storageMap.ts:31 | Two folders that contain one path contain one another |
| Paths.StrippedSlashes | src/servedFolder.ts:20 | Trailing slashes, however many, are stripped alike |
| StorageMap.FoldersAreUsed | src/storageMap.ts:34-47 | The folders listed are exactly those installed apps' volumes are on, as chosen or by default |
| StorageMap.HomeIsTheDeepest | src/storageMap.ts:73-78 | A path's home is the deepest mount containing it, and the system's exactly when none does |
| StorageMap.HomeIsTheFirst | src/storageMap.ts:77 | Of several mounts on one target, the first listed is the home |
| StorageMap.EachFolderOnce | src/storageMap.ts:79-92 | Every app's folder is shown by exactly one entry, exactly once, and no other; hiding an empty system entry loses nothing |
| StorageMap.FoldersLiveWhereShown | src/storageMap.ts:73-82 | The entry a folder is shown by is that of the deepest data mount containing it, or the system's if none does |
| StorageMap.FoldersSayTheirSize | src/storageMap.ts:52-81 | A folder is shown with what was last measured of it, or with nothing if it never was |
| StorageMap.EachShareOnce | src/storageMap.ts:86-92 | Every share on the data mounts' places is shown exactly as often as listed, and no other |
| StorageMap.SharesLiveWhereShown | src/storageMap.ts:86-90 | A share is shown where its path lives |
| StorageMap.MapIsSorted | src/storageMap.ts:85-93 | Entries stand by label, the system's last; an entry's folders biggest first, the unmeasured last |
| StorageMap.EntriesSayTheirPlace | src/storageMap.ts:55-72 | Each entry is of a data mount, a network's exactly when its address was connected or its file system is cifs, nfs or nfs4, or of the system; and its days to full are of the first forecast for its place, none where there is none |
| StorageMap.EachMountIsShown | src/storageMap.ts:54-66 | Every data mount has its entry, as often as it is listed, whatever lives there |
| StorageMap.BuildStorageMap | src/storageMap.ts:49-94 | The code's loops compute that map |
| ServedFolder.ServesNothingProtected | src/servedFolder.ts:17-29 | A folder may be served if and only if it is well spelled and nothing in it, itself included, is inside a folder either server refuses |
| ServedFolder.ServedBelow | src/servedFolder.ts:17-29 | So may every well-formed folder below it within 512 characters |
| ServedFolder.TrailingSlashesChangeNothing | src/servedFolder.ts:19-20 | Trailing slashes within the limit never change the answer |
| Sparkline.KnownInOrder | src/ui/Sparkline.tsx:24 | The known values are drawn at their own places, in order |
| Sparkline.KnownIsAll | src/ui/Sparkline.tsx:24 | No known value is passed over |
| Sparkline.PointsAreTheKnown | src/ui/Sparkline.tsx:24-25 | One point for each known value, and none below two of them |
| Sparkline.LineFillsTheBox | src/ui/Sparkline.tsx:23-42 | Every point lies in [2,62] by [2,22] after rounding; the first x is 2 and the last 62 |
| Sparkline.LineKeepsOrder | src/ui/Sparkline.tsx:38-41 | x never decreases, and a larger value is never drawn lower |
| Sparkline.ReadsAreEvenlySpread | src/ui/Sparkline.tsx:35-41 | Each point stands as far across the line as its read's place between the first and the last known, to the rounding |
| Sparkline.ExtremesTouch | src/ui/Sparkline.tsx:27-40 | Over the values' own range the least is drawn at the bottom and the greatest at the top |
| Sparkline.NarrowLinesStayFlat | src/ui/Sparkline.tsx:29-40 | Under a wider floor a difference is drawn in proportion to the floor, to the rounding |

## Left out

- React itself (rendering, focus, DOM events, CSS, page copy): no state worth proving. Each `setState` is atomic and callbacks do not re-enter.
- fetch, EventSource, caches, WebAuthn and the clock as such: they are events. Times are not measured; a timer may fire at any moment once armed.
- EventSource delivery after `close()`: nothing is assumed of it, so events may come from a closed stream; the properties hold all the same.
- Byte offsets on the server: the stream is taken to send the log from byte zero in order, and a poll to answer with some prefix of it.
- `localeCompare` is any order given by ranks (`Job.rank`, `rank` in the storage map); the order itself is the browser's.
- `src/operations.ts`, abort signals: an aborted request ends as a failed one, at any moment.
- `Jobs.Upsert` is the one function for the feed's own fold and the two views'; the three are the same code.
- ApproveDialog.Dialog.Handle: the policy's expiry timer, hand-over callbacks and error texts are not modelled; expiry is an event that may come at any moment.
- Base64url.Base64urlToBytes: models both decoders, passkey.ts' and push.ts', which are the same code.
- Fnv.TwoUnitsChangeTheTag: says nothing of texts that differ further apart, which may share a tag.
- Precache.BuildKeepsExactly: the check that the two sources neither import nor export, and the script's assembly, are text replacement and are not modelled.
- Addresses.PlainIsItsOwnKey: percent-encoding of a path's other units is not modelled; it makes and unmakes no ASCII letter, slash or dot, so it decides neither what is guarded nor what is the shell's.
- ServiceWorker.Site.FileArrives: how the browser reads a host's text is a parameter (`Place.originOf`). Only another host's answer is taken to be one no cache may keep, as its response type says; `Vary` and eviction by the browser are not modelled.
- Push notifications (`notificationFrom`, `safeOpenUrl`): parsing of a URL and wording, no state.
- StorageMap.BuildStorageMap: entries are values replaced in the list rather than records shared and written through.
- Sparkline.LineFillsTheBox: numbers are reals, so floating-point error and values that are not finite do not occur.
- `src/home/facts.tsx`, FactsProvider.load and backupsOnce: one read in flight per source, which would only add easy members.
- `src/home/needs.ts`, `src/retryAdvice.ts`, `src/composeInspector.ts`, `src/repair/outcome.ts` and the formatting helpers: wording and thresholds.
