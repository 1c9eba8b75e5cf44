# Huntly: verified model

Huntly hunts jobs for its users and applies on their behalf: it queues approved candidates, drives a
browser through the provider's form, and means to submit at most once. This project models the parts of the
API and its browser runner that keep a promise over every run, and proves those promises.

The model is in three layers, one file per component.

- **Step systems.** The application pipeline (`Pipeline`), the leases (`Leases`), the user lock
  (`UserLock`), the lanes (`Lanes`), the browser semaphore (`SemaphoreSpec`), the OpenClaw run (`OpenClaw`), the data-key race (`Vault`),
  the outreach book (`Outreach`), the daily budget (`Budget`) and the VM agent's operation queue
  (`TenantAgent`) are states with guarded steps. Invariants are kept by every step, and the theorems
  are about all finite runs in every interleaving.
- **Routines.** Where the program updates state in place (rows, counters, queues, caches), the routine
  is a method with its loops, tied to the step system or to a specification function by its contract:
  `PipelineStore`, `Recovery`, `Outbox`, `PlanOrder`, `Semaphore`, `Conversation`, `AgentLoop`, `Learn`.
- **Pure rules.** The retry policy (`RetryPolicy`), scoring (`Ranking`) and escaping and reordering
  (`Tailoring`) are functions, with lemmas that say what their branches amount to.

`Basics`, `Sizes` and `Orders` hold what the components share.

## The hard core

A worker writes `submitStartedAt` (the fence) around the irreversible click: the agent's tools before it,
the form driver after it. `PipelineSafety`
proves that no candidate and no posting is fenced more often than once plus the number of times its
user explicitly confirmed that nothing was submitted, over every interleaving of queueing, publishing,
claiming, tailoring, deferring, crashing, the failure handler, the recovery sweep, cancellation and
retry. An outcome takes two writes (attempt row, candidate row) and other steps may come between them.
Retrying looks at the newest attempt only; the invariant shows why that is enough.

Since the form driver clicks first, a limit on fences is not yet one on clicks. `PipelineLimits` says which
runs keep to the limit on clicks and exactly which retries can break it, and `PipelineRefusals` follows a
click whose guard refuses from the call that fails to the second click. `PipelineHolds` shows what a
candidate with an open or doubtful attempt is held at.

## Where the code and its comments or promises disagree

- `src/hunt/apply/submission-guard.ts:4` promises that the browser callback runs only once the intent is
  durable, but `src/hunt/apply/fill.ts:852` clicks before the fence is written. So a worker killed in between
  (`PipelineLimits.ClickBeforeFenceBreaksTheLimit`), or a guard that refuses
  (`PipelineRefusals.RefusedClickDoubles`), leaves a clicked attempt without a fence, and an unconfirmed retry
  of it can lead to a second click: exactly then, by `PipelineLimits.CarelessRetryExactly`.
- `src/hunt/apply.ts:781` promises that a possible submit never becomes a retryable failure. That holds for the
  submits the worker has noted; `PipelineStore.FailsExactly` says when a call fails all the same.
- The fence write checks no attempt status (`src/hunt/apply.ts:821`), so the limit on fences rests on a job that
  was judged dead taking no more steps; `PipelineLimits.LateFenceBreaksExactly` says what a late write can do.
- A lane's exclusion needs the reply to its SET within 95 seconds, which the code does not enforce:
  `Leases.LaneExclusiveExactly`.
- `src/lib/locks.ts:88` promises room for two missed beats. With the minute every caller uses there is room for
  one: `UserLock.MinuteExactly`, `UserLock.TwoLostExactly`. A holder that lost the lock is not told.
- A lane call that throws between a job's first grant and its last release leaves lanes renewed for a job that has
  ended, until the process does: `Lanes.LeaksExactly`, `Lanes.LeakStopsUser`.
- Adding a skill can lower a score when it is the profile's first core skill:
  `Ranking.FirstCoreSkillCanHurt`; `Ranking.StackMonotoneExactly` says exactly when it cannot.

## Conventions

Times are integers in milliseconds; a key is gone from its expiry on. Scores use exact reals and
`Math.round(x)` is the floor of x + 1/2. Database tables are maps or sequences, a transaction or a
single conditional update is one step, and queue jobs are keyed by their dispatch. Strings are sequences
of characters; lower-casing covers the Latin letters that occur in the patterns.

## Model

| member | source | states |
|---|---|---|
| `RetryPolicy.RetryAllowedExactly` | src/hunt/application-policy.ts:11-43 | A retry goes ahead if and only if the application is at rest, nothing conclusive is on record (provider block, a submitted event, a submitted or unfinished newest attempt), and there is no attempt, or the newest one cannot have reached the provider, or the user confirmed that it did not |
| `RetryPolicy.UnconfirmedRetryIsUnfenced` | src/hunt/application-policy.ts:11-43 | Without a confirmation a retry is only allowed when the newest attempt carries no submit fence |
| `RetryPolicy.ConfirmationWaivesOnlyDoubt` | src/hunt/application-policy.ts:29-43 | Confirming only ever allows more, and never overrides a recorded or unfinished submission |
| `RetryPolicy.EffectiveConcurrency` | src/hunt/application-policy.ts:7-9 | Between one and four jobs at a time, exactly one with a VM profile, and the configured number when that is in range |
| `PipelineSafety.FencesAreBounded` | src/hunt/apply.ts:816-825 | Over every interleaving of enqueue, publish, claim, tailoring, attempts, fences, outcomes, deferral, crashes, the failure handler, the sweep, cancellation and retry: a candidate has at most one fenced attempt more than the user explicitly confirmed as not submitted |
| `PipelineSafety.OnlyTheNewestIsFenced` | src/hunt/application-policy.ts:24 | Without such confirmations at most one attempt of a candidate was ever fenced and it is the newest one, which is why the policy may look at attempts[0] alone |
| `PipelineSafety.OneFencePerPosting` | src/hunt/apply.ts:160-193 | The limit holds per job posting, because all candidates of a posting share one application row |
| `PipelineSafety.SubmittedOncePerPosting` | src/hunt/apply.ts:740-772 | Once an attempt is recorded as submitted, no later attempt of that posting is ever opened, confirmations or not |
| `PipelineHolds.NothingAfterDoubt` | src/hunt/apply.ts:779-789 | Over every run: once an attempt has ended in doubt (a submit noted, then an exception), its row stays as it was written and no later attempt of that posting is opened unless the user confirms a retry in between |
| `PipelineHolds.HeldStays` | src/hunt/application-queue.ts:480-486 | Once its worker has an open session, a candidate stays at that attempt: every step but a retry of it leaves the attempt the newest, the candidate parked, and no worker about to open another or to requeue it |
| `PipelineSafety.InterruptedIsRetriable` | src/hunt/application-queue.ts:344-347 | The text the sweep writes is one the retry policy recognises: whenever the newest attempt is interrupted and unfenced, the application rests and the events record no submit, it may be retried |
| `PipelineLimits.ClicksAreBounded` | src/hunt/apply/fill.ts:852-873 | In every run that retries a candidate without a confirmation only when no click for it is unanswered, the candidate is clicked for at most once more than its user confirmed |
| `PipelineLimits.WatchfulIsCareful` | src/modules/applications/actions.ts:45-54 | For that it is enough that the retry route looks at the newest attempt: no unconfirmed retry while it is clicked and unfenced |
| `PipelineLimits.CarefulNeverDoubles` | src/modules/applications/actions.ts:45-54 | Such a run never clicks for two attempts of a candidate without a confirmation in between |
| `PipelineLimits.CarelessRetryExactly` | src/modules/applications/actions.ts:45-70 | The exact condition: an unconfirmed retry the policy lets through can lead to clicks for two attempts with no confirmation in between if and only if a click for the candidate is unanswered at that moment |
| `PipelineLimits.ClickBeforeFenceBreaksTheLimit` | src/hunt/apply/fill.ts:852-873 | The form driver clicks before it writes the fence, so that case is real: a reachable run, without any confirmation, in which a worker killed in between leads to a click for a second attempt |
| `PipelineLimits.LateFenceBreaksExactly` | src/hunt/apply.ts:816-825 | The fence write looks at no attempt status: written by a worker whose job was judged dead, it takes its candidate above the limit if and only if neither an abort nor an open flag stops it, the attempt is unfenced, and the candidate has used up its fences; no other candidate is affected |
| `PipelineLimits.LateFenceIsPossible` | src/hunt/apply.ts:816-825 | Such a state is reachable, without any confirmation |
| `PipelineSafety.StepKeeps` | src/hunt/application-queue.ts:464-500 | Every step of the pipeline keeps the invariant: one uncancelled dispatch per candidate, one worker past the claim, its attempt the newest, fences within the limit, submissions final |
| `PipelineSafety.RunKeeps` | src/hunt/application-queue.ts:464-500 | The invariant holds in every reachable state |
| `PipelineSafety.ClaimKeeps` | src/hunt/application-queue.ts:480-486 | The conditional claim admits only an uncancelled dispatch and a queued or tailored candidate, so no second worker gets past it |
| `PipelineSafety.OpenKeeps` | src/hunt/apply.ts:194-208 | A new attempt row becomes its candidate's newest and carries no fence |
| `PipelineSafety.FenceKeeps` | src/hunt/apply.ts:816-825 | The fence lands on the newest attempt of a candidate that is not spent yet, and parks it from then on |
| `PipelineSafety.EndKeeps` | src/hunt/apply.ts:740-772 | Recording an outcome on the attempt row, before the candidate's status is written |
| `PipelineSafety.VerdictKeeps` | src/hunt/apply.ts:614-619 | The separate write of the candidate's status, whatever other steps came between |
| `PipelineSafety.DeferKeeps` | src/hunt/apply.ts:790-795 | A busy browser fails the unfenced attempt and lets the candidate wait again |
| `PipelineSafety.CancelKeeps` | src/modules/applications/actions.ts:21-43 | Cancelling waiting work keeps the invariant; a started job refuses it |
| `PipelineSafety.RetryFindsItFree` | src/modules/applications/actions.ts:45-54 | The retry guard, which reads only the newest attempt, finds a candidate that is not spent unless confirmed, and none with a recorded submission |
| `PipelineSafety.RetryKeeps` | src/modules/applications/actions.ts:55-70 | Retrying replaces the old dispatches by one new one and keeps the invariant |
| `PipelineSafety.HandlerKeeps` | src/hunt/application-queue.ts:417-462 | The failure handler, however late it runs, adds no fence and reopens nothing |
| `PipelineSafety.SweepKeeps` | src/hunt/application-queue.ts:331-351 | The recovery sweep adds no fence and reopens nothing |
| `PipelineSafety.EnqueueKeeps` | src/hunt/application-queue.ts:199-224 | Queueing a candidate creates its application row and its one dispatch |
| `PipelineStore.Store.Claim` | src/hunt/application-queue.ts:480-487 | The atomic update: it succeeds exactly when the dispatch is uncancelled and the candidate queued or tailored, and otherwise changes nothing |
| `PipelineStore.Store.WriteFence` | src/hunt/apply.ts:816-825 | The durable intent: the open attempt becomes submitting and fenced, nothing else changes but the worker's memory |
| `PipelineStore.Store.UseBrowser` | src/hunt/apply/submission-guard.ts:8-23 | Act after act until one throws: tools ask the guard before they click, the form driver after it; the worker remembers a submit exactly when the guard wrote it down or a confirmation was noticed; only this attempt's row changes |
| `PipelineStore.CourseNotesOnce` | src/hunt/apply/submission-guard.ts:8-23 | One call notes exactly one submit if its browser opens and some act puts one on record before an exception, and none otherwise: a form-driver click that is rejected, throws or meets a refusing guard is not noted |
| `PipelineStore.FailsExactly` | src/hunt/apply.ts:779-809 | With an open browser a call never defers, and it fails if and only if no submit was put on record before an exception and something throws: the form driver's click, its guard, or the rest of the call |
| `PipelineRefusals.RefusedClickFails` | src/hunt/apply/fill.ts:852-874 | The failing script: the form driver clicks and the guard then refuses. The call notes nothing and fails, and the attempt is left failed and unfenced |
| `PipelineRefusals.RefusedClickDoubles` | src/hunt/apply/fill.ts:852-874 | After any run, such a call may be followed by a retry nobody confirmed and a click for a second attempt |
| `PipelineStore.Store.ApplyApprovedCandidate` | src/hunt/apply.ts:79-826 | One call takes exactly the steps its circumstances call for and ends as Ending says; it adds at most one attempt and rewrites no older one; once the worker has noted a submit it neither fails nor defers and leaves the attempt submitted, unknown or needs_review; a deferral leaves an unfenced attempt and a queued candidate |
| `PipelineStore.Store.RunJob` | src/hunt/application-queue.ts:464-500 | The worker's processor takes exactly the steps its circumstances call for: without a claim, with a flag or without lanes it touches no row; with them the job ends as the call does, and completes once a submit was noted |
| `PipelineStore.Store.HandleFailedJob` | src/hunt/application-queue.ts:417-446 | Closes every unfinished attempt of the candidate and parks it exactly when it was queued or applying |
| `PipelineStore.Store.Cancel` | src/modules/applications/actions.ts:21-43 | Cancels exactly when the candidate waits and no uncancelled dispatch of it has started; otherwise the whole transaction changes nothing |
| `PipelineStore.Store.Retry` | src/modules/applications/actions.ts:45-74 | Refuses with the policy's reason or because a job is still in the queue; otherwise replaces the dispatches and queues the candidate |
| `Pipeline.ReplayIsRun` | src/hunt/application-queue.ts:464-500 | What the routines leave behind is what a run of the step system leaves behind |
| `PipelineStore.ReplayKeeps` | src/hunt/application-queue.ts:464-500 | So every routine keeps the safety invariant |
| `PlanOrder.RoundRobin` | src/hunt/application-queue.ts:63-78 | Terminates and returns a permutation of the input in the order of (rank within portal, first appearance of portal) |
| `PlanOrder.ScheduleUnique` | src/hunt/application-queue.ts:63-78 | That order determines the result: there is only one such permutation |
| `PlanOrder.BeforeIsTotal` | src/hunt/application-queue.ts:63-78 | Any two different rows are ordered one way or the other |
| `PlanOrder.Group` | src/hunt/application-queue.ts:64-69 | The groups are the portals in order of first appearance, each with its rows in order |
| `PlanOrder.ApplyPortalCaps` | src/hunt/application-queue.ts:80-89 | Keeps exactly the rows whose rank within their portal is below the cap, so min(count, cap) of each portal |
| `PlanOrder.CappedCount` | src/hunt/application-queue.ts:24-30 | The caps per portal: greenhouse 35, ashby, lever and any other 30, wellfound and instahyre 15 |
| `PlanOrder.PlanApplicationOrder` | src/hunt/application-queue.ts:91-93 | The capped rows in round-robin order, cut at min(target, 100); a negative target counts from the back as slice does |
| `PlanOrder.PrefixRanks` | src/hunt/application-queue.ts:91-93 | A cut holds, of each portal, exactly the rows of the lowest ranks |
| `PlanOrder.MaxMinFair` | src/hunt/application-queue.ts:91-93 | After any cut no portal is more than one ahead of a portal that still has an allowed row left out |
| `PlanOrder.PlanWithinCaps` | src/hunt/application-queue.ts:80-93 | A plan takes at most the cap, and at most what there is, of every portal |
| `Budget.BudgetHolds` | src/hunt/application-queue.ts:163-261 | Over any sequence of batches, cancellations, retries and worker writes: no UTC day holds more than 100 uncancelled applications, and everything in flight has one application row and exactly one uncancelled dispatch |
| `Budget.BatchIsSound` | src/hunt/application-queue.ts:185-261 | A batch charges exactly one application per queued candidate and never takes the day above the limit in force |
| `Budget.CappedExactly` | src/hunt/application-queue.ts:261 | capped is reported exactly when some applyable candidate was left out |
| `Budget.Ledger.EnqueueApproved` | src/hunt/application-queue.ts:158-263 | The transaction: the selected rows' statuses, application rows and dispatches afterwards, the number queued, the capped flag; an unknown run changes nothing |
| `Budget.ApplyableAre` | src/hunt/application-queue.ts:170-194 | The candidates of a batch are the selected, selectable ones without an application and with a direct address, each once |
| `Budget.ApplyableHas` | src/hunt/application-queue.ts:170-194 | and all of them |
| `Budget.RetryKeepsBudget` | src/modules/applications/actions.ts:59-62 | A retry keeps the budget: an application already charged to today keeps its place, any other needs room |
| `Budget.TodayIsUsed` | src/hunt/application-policy.ts:2-6 | What the budget query counts is exactly the UTC day's uncancelled applications |
| `Recovery.Sweeper.Reconcile` | src/hunt/application-queue.ts:326-414 | Parks exactly the stale candidates without a live job, closes one unfinished attempt of each, counts the repairs, and fails the touched runs that have nothing left in flight; candidates, runs, applications and attempts otherwise stay |
| `Recovery.LiveIsSafe` | src/hunt/application-queue.ts:329 | A candidate with a live job and its attempts are never touched |
| `Recovery.FailsOnlySettled` | src/hunt/application-queue.ts:392-411 | A run is failed only from applying and only when no candidate of it is approved, tailored, queued or applying |
| `Recovery.CountersAddUp` | src/hunt/application-queue.ts:379-385 | The review counters of the runs rise together by exactly the number of repaired candidates |
| `Recovery.LaterSweep` | src/hunt/application-queue.ts:328-338 | A later sweep, whatever its cutoff and live jobs, repairs exactly what it would have repaired before the first one less what that one did |
| `Recovery.SecondSweepIsIdle` | src/hunt/application-queue.ts:328-338 | In particular the same sweep right after repairs nothing and changes nothing |
| `Outbox.Publisher.DispatchPending` | src/hunt/application-queue.ts:141-156 | Publishes each undelivered intent and each delivered one whose job is gone, never one twice, and only dispatches that are still runnable (uncancelled, candidate queued, no attempt at or after them); marks the intents delivered and moves the cursor |
| `Outbox.LookedAtOnce` | src/hunt/application-queue.ts:145-146 | Whatever changes between the sweeps of one cursor cycle, a dispatch that stays delivered and runnable is looked at exactly once in it |
| `Outbox.UnchangedTable` | src/hunt/application-queue.ts:145-146 | Over an unchanged table of N such dispatches, N/200+1 sweeps from a null cursor look at each exactly once and leave the cursor at null, and no fewer do |
| `Outbox.CycleLength` | src/hunt/application-queue.ts:146 | A cycle over an unchanged table takes exactly N/200+1 sweeps |
| `Leases.ExclusiveExactly` | src/hunt/application-queue.ts:96-113 | With timers on time, two holders that neither released nor were told of loss never coexist if and only if reply delay + renewal interval + unanswered window < time to live |
| `Leases.LaneExclusiveExactly` | src/hunt/application-queue.ts:98-109 | For a lane (120 s, 20 s, 5 s): if and only if the reply to the set takes less than 95 s |
| `Leases.Exclusion` | src/hunt/application-queue.ts:96-113 | The safe half over every run |
| `Leases.Overlap` | src/hunt/application-queue.ts:99 | A run in which a slow reply and an unanswered renewal let a second holder in |
| `Leases.ForeignKeyUntouched` | src/hunt/application-queue.ts:103-111 | Renewing and releasing never touch a key that carries another token |
| `Leases.NeverRegained` | src/hunt/approval-lock.ts:13-16 | A key once granted and lost is never the same holder's again |
| `Leases.OwnedThroughout` | src/hunt/approval-lock.ts:8-12 | If the approval key carries the holder's token at the first check and at the last one, it did so all the time in between, however late the timer fires |
| `Leases.Table.AcquireLane` | src/hunt/application-queue.ts:98-99 | Asking for a lane is the step Grant of the lease system: granted exactly when nobody owns the key |
| `Leases.Table.Renew` | src/hunt/application-queue.ts:100-107 | The renewal script is its step Execute, and succeeds exactly for the owner |
| `Leases.Table.DeleteMine` | src/hunt/application-queue.ts:109-112 | The release script is its step Delete |
| `Leases.Table.AssertLease` | src/hunt/approval-lock.ts:8-12 | The check passes exactly for an owner, in the sense of the lease system, that was not told of loss |
| `UserLock.AloneExactly` | src/lib/locks.ts:88-103 | The holder is never told of a failed renewal. With beats on time, nobody ever works beside it if and only if reply delay + one more beat than may get lost in a row + execution delay < time to live |
| `UserLock.MinuteExactly` | src/lib/locks.ts:70-93 | For the minute every caller uses: if and only if no renewal gets lost and the delays together stay below 40 s, or at most one in a row and they stay below 20 s |
| `UserLock.TwoLostExactly` | src/lib/locks.ts:88-93 | Room for two lost beats, which the comment promises, there is if and only if the delays stay below the remainder of the time to live by three, in milliseconds, and it is at least three seconds |
| `UserLock.AloneWhenBridged` | src/lib/locks.ts:80-103 | The safe half over every run |
| `UserLock.TwoAtWork` | src/lib/locks.ts:91-93 | A run in which lost and late renewals let a second user in |
| `UserLock.Table.AcquireWithin` | src/lib/locks.ts:80-86 | Polls until the key is free or the deadline has passed: it is granted at the first free poll, and given up only at or after the deadline with every poll busy |
| `UserLock.Table.ExecuteRenewal` | src/lib/locks.ts:50-57 | The renewal script is the step Renew of the lock's system |
| `Lanes.AllOrNothing` | src/hunt/application-queue.ts:115-129 | In every interleaving a refused job has no lane left, and a running one has its slot below the limit, its portal and its profile |
| `Lanes.OnePerPortalAndProfile` | src/hunt/application-queue.ts:123-128 | Never two running jobs of a user on one portal, nor two on one browser profile |
| `Lanes.ConcurrencyBound` | src/hunt/application-queue.ts:120-129 | Under one schedule a user's running jobs, and the ended jobs that still hold lanes, are together never more than the limit: each leak costs one job at a time |
| `Lanes.ConcurrencyOfSchedule` | src/hunt/application-policy.ts:7-9 | So at most four, and at most one with a VM profile |
| `Lanes.LeaksExactly` | src/hunt/application-queue.ts:115-129 | A job that ended still holds lanes renewed in its name if and only if one of its Redis calls threw after its first grant and before its last release |
| `Lanes.LostForGood` | src/hunt/application-queue.ts:100-112 | As long as the process lives no step of anyone takes such a lane away |
| `Lanes.LeakStopsUser` | src/hunt/application-queue.ts:120-129 | So a user whose jobs run one at a time has no running job any more once one has leaked |
| `Lanes.Table.AcquireAll` | src/hunt/application-queue.ts:115-129 | Left alone: granted exactly when a slot, the profile and the portal are free, with the lowest free slot; otherwise no lane changes |
| `SemaphoreSpec.FairAndBounded` | src/browser/limit.ts:42-106 | For every order of calls, releases (repeated ones too) and timeouts: active is the number of unreleased slots and at most the limit, nobody waits beside a free slot, and the calls served followed by those waiting are the arrivals in order without those that timed out |
| `SemaphoreSpec.NothingLeaks` | src/browser/limit.ts:47-67 | Once every holder has let go, nobody waits and every call was answered |
| `SemaphoreSpec.StepKeeps` | src/browser/limit.ts:42-106 | Every call, release and timeout keeps that |
| `Semaphore.Semaphore.Acquire` | src/browser/limit.ts:76-103 | A slot at once exactly when one is free, otherwise the caller queues last |
| `Semaphore.Semaphore.Release` | src/browser/limit.ts:49-66 | The first release hands the slot to the longest-waiting caller or frees it; a second one does nothing |
| `Semaphore.Semaphore.Timeout` | src/browser/limit.ts:88-99 | The waiter leaves the queue exactly when it was still in it |
| `Semaphore.Session.Close` | src/browser/session.ts:144-160 | Only the first close reaches the semaphore |
| `Semaphore.WithSession` | src/browser/session.ts:270-303 | However opening and working end, the slot goes back exactly once |
| `OpenClaw.ResultIsFinal` | src/browser/openclaw-client.ts:209 | Whichever of monitor, timers, cancel and close wins, the result is set once and never changes |
| `OpenClaw.ConfirmedMeansEnded` | src/browser/openclaw-client.ts:213-262 | cancelConfirmed means that the agent call was never sent, or that terminal replies were received for the primary run and every child polled; when the stopping task finished, every accepted nudge was among those |
| `OpenClaw.NudgesAreBounded` | src/browser/openclaw-client.ts:276-288 | At most eight nudges are ever accepted |
| `OpenClaw.SentAtMostOnce` | src/browser/openclaw-client.ts:181-208 | The agent call goes out at most once per run |
| `OpenClaw.OneRunPerKey` | src/browser/openclaw-client.ts:171-180 | However calls to the client and the steps of all its runs mix, the steps taken for a tenant's attempt are one play of one run, so what holds of a run holds of the attempt |
| `OpenClaw.SentOncePerKey` | src/browser/openclaw-client.ts:171-208 | Over any sequence of client operations the agent call of a tenant's attempt is sent at most once |
| `OpenClaw.StepKeeps` | src/browser/openclaw-client.ts:181-262 | Every step of the race keeps the evidence behind a result |
| `OpenClaw.Client.StartRun` | src/browser/openclaw-client.ts:171-180 | A second start of the same attempt returns the first run and creates nothing: the client's runs change as the step Begin says |
| `OpenClaw.Session.NudgeRun` | src/browser/openclaw-client.ts:276-288 | Accepts exactly while the run has no result, is not stopping, is before its deadline and has fewer than eight children |
| `OpenClaw.Session.StopChildRuns` | src/browser/openclaw-client.ts:234-244 | Confirms exactly when every child asked gave a terminal reply |
| `Outreach.CapsHold` | src/outreach/sequence.ts:201-336 | In every closed span: at most 15 recorded invitations in 24 hours, 60 in 7 days, 5 to one company in 24 hours |
| `Outreach.InvitedOnce` | src/outreach/sequence.ts:315-319 | A prospect's invitation time is written at most once |
| `Outreach.AskedOnlyOnceAccepted` | src/outreach/sequence.ts:236-242 | In every reachable book a sent message that is no invitation was offered at a moment when its prospect had accepted |
| `Outreach.NothingOfferedAfterTrip` | src/outreach/sequence.ts:64-73 | For 72 hours after the breaker tripped nothing is offered |
| `Outreach.Desk.TripBreaker` | src/outreach/sequence.ts:64-73 | Tripping the breaker is the step Trip, about which NothingOfferedAfterTrip is proved, and keeps the caps |
| `Outreach.OnlyWhatWasUnderWay` | src/outreach/sequence.ts:293-336 | A send recorded while the breaker is open had been offered before it tripped |
| `Outreach.StepKeeps` | src/outreach/sequence.ts:94-336 | Every step keeps the caps, and an offered invitation keeps its room until it is recorded |
| `Outreach.Desk.NextSendable` | src/outreach/sequence.ts:201-273 | The first row of the right kind decides: it is offered if the gate lets it through, and otherwise nothing is |
| `Outreach.Desk.Record` | src/outreach/sequence.ts:293-336 | A send that happened stamps the message and advances the prospect; a failed one leaves the message approved and unsent |
| `Outreach.GapInRange` | src/outreach/limits.ts:168-171 | The pause between sends is four to twelve minutes |
| `Conversation.Prepare` | src/agent/loop.ts:303-316 | What a model call gets: at most keep+3 messages of a well-paired history, converted exactly when each kept message can be, into turns that alternate, begin with the user, and pair every tool use with a result at the head of the next turn |
| `Conversation.PreparedConverts` | src/model/tool-client.ts:71 | When every message of the history can be converted, the call goes out |
| `Conversation.AnthropicHistory` | src/model/tool-client.ts:35-59 | The result is the alternating grouping of the history's blocks in their order, with the system texts joined, or the first message's fault |
| `Conversation.GroupingUnique` | src/model/tool-client.ts:55-57 | A list of blocks has only one grouping into alternating non-empty turns |
| `Conversation.Trim` | src/agent/loop.ts:122-127 | The whole history, or the first two messages and a tail that begins as late as keep allows but not on a tool reply |
| `Conversation.TrimmedStaysPaired` | src/agent/loop.ts:122-127 | Trimming a well-paired history keeps it well paired and leaves at most keep+3 messages |
| `Conversation.WellPairedIsAcceptable` | src/model/tool-client.ts:41-57 | A well-paired history that converts yields turns the API accepts |
| `Conversation.UseEndsTurn` | src/model/tool-client.ts:50-57 | Every tool use is the last block of its turn and the next turn opens with its result |
| `Conversation.ResultOpensTurn` | src/model/tool-client.ts:54-57 | Every result opens its turn right after the matching use: none is orphaned |
| `Conversation.ConvertsExactly` | src/model/tool-client.ts:21-51 | A history converts if and only if every message has readable content, named replies and parsable arguments |
| `AgentLoop.RunAgent` | src/agent/loop.ts:251-455 | The whole run: rounds take their inputs in order, each ruled by what was counted before it, until one stops the run, the steps or the time run out; at most one model call a round, whose history always converts into acceptable turns; every reading, request and tool call is counted; a kind of failure repeats identically up to the budget only as the last thing that happens, and then the run failed; canSubmit only after an accepted done whose preceding act, if any, succeeded |
| `AgentLoop.TallyMeans` | src/agent/loop.ts:419-435 | The two counters are the length and key of the run of identical failures at the end, accepted done calls passed over |
| `AgentLoop.Agent.Act` | src/agent/loop.ts:355-449 | Call and reply are recorded and counted; done is accepted exactly when no action failure is pending, and the run is given up exactly when the same failure has used up the budget |
| `AgentLoop.Agent.Look` | src/agent/loop.ts:255-301 | Every reading is counted and told to the model; a page that cannot be read ends the run exactly when the same failure has used up the budget |
| `AgentLoop.Agent.Think` | src/agent/loop.ts:303-335 | The model gets the trimmed history, which on this path always converts; a failing call is counted likewise, and an unreachable service is thrown |
| `AgentLoop.Agent.Nudge` | src/agent/loop.ts:337-353 | Prose is pointed out; silence after the first step ends the run |
| `AgentLoop.CallKeepsPairs` | src/agent/loop.ts:407-418 | A call and its reply are added together, so the history stays well paired |
| `AgentLoop.Finalize` | src/agent/loop.ts:137-170 | Observed fields are added once each, and submitting is allowed exactly for a finished run that reached the form |
| `AgentLoop.MergedIs` | src/agent/loop.ts:155-158 | The merged list begins with the agent's own, holds exactly both, and repeats nothing it adds |
| `AgentLoop.DoneAccepted` | src/agent/loop.ts:437-449 | The counter is zero exactly when the last act other than the accepted done succeeded or there was none |
| `Vault.StoredKeyIsFinal` | src/lib/credential-vault.ts:112-117 | In every interleaving of processes a stored data key never changes |
| `Vault.EveryCacheAgrees` | src/lib/credential-vault.ts:95-128 | Every cached key equals the stored one |
| `Vault.DecryptsEverywhere` | src/lib/credential-vault.ts:131-141 | What any process sealed for a user opens in every process, under that user's key only; and version 1 envelopes still open under the master key |
| `Vault.Cache.DataKeyFor` | src/lib/credential-vault.ts:95-128 | Returns and caches the stored key: the rival's when one got there first, its own otherwise |
| `Vault.StepKeeps` | src/lib/credential-vault.ts:95-146 | Every step keeps caches, finished calls and sealed values in line with the stored keys |
| `Ranking.ReadWeights` | src/hunt/ranking.ts:53-77 | The usable overrides over the defaults, scaled; the defaults when none is usable or the total is zero |
| `Ranking.ReadIsBalanced` | src/hunt/ranking.ts:53-77 | Whatever was stored, the weights are non-negative and sum to 100 |
| `Ranking.ReadKeeps` | src/hunt/ranking.ts:53-77 | Balanced weights survive being stored and read |
| `Ranking.WithImpliedSkills` | src/hunt/ranking.ts:193-201 | The profile and every umbrella one of whose tools is in it |
| `Ranking.RoundingIsSmall` | src/hunt/ranking.ts:353-363 | The rounded sum is within 2.5 of the exact weighted sum |
| `Ranking.ExactInRange` | src/hunt/ranking.ts:353-364 | The exact sum lies between 0 and 100, so the rounded one between -2.5 and 102.5 |
| `Ranking.ScoreInRange` | src/hunt/ranking.ts:364-369 | The score lies between 0 and 100, and at most 70 with a location ratio of at most 0.2 |
| `Ranking.CaseScores` | src/hunt/ranking.ts:337-369 | For every case: the exact sum lies between 0 and 100, and the score is at most 70 in the wrong place and otherwise within 2.5 of it |
| `Ranking.MoreSkillsNeverHurt` | src/hunt/ranking.ts:337-369 | For a profile that keeps its basis of comparison, adding skills never lowers the score of any posting |
| `Ranking.StackMonotoneExactly` | src/hunt/ranking.ts:234-248 | For all postings at once, adding skills never lowers the stack ratio if and only if the old profile had a core skill, or the new one has none, or the old one was empty |
| `Ranking.FirstCoreSkillCanHurt` | src/hunt/ranking.ts:337-349 | A profile without a core skill can lose an accepted job by learning one |
| `Ranking.Worst` | src/hunt/ranking.ts:392-402 | The weak component with the greatest loss, the last of equals, or none when none is weak |
| `Ranking.WorstIsUnique` | src/hunt/ranking.ts:392-402 | That component is determined |
| `Ranking.RankJob` | src/hunt/ranking.ts:337-413 | Accepted exactly at or above the minimum, and otherwise the worst component's decision or below_threshold |
| `Learn.RefitWeights` | src/persona/learn.ts:141-200 | Below eight examples nothing changes; otherwise each component moves by its signal and all are rescaled; stored exactly when some component moved by more than half a point |
| `Learn.RefitBounds` | src/persona/learn.ts:45-56 | One refit keeps the weights balanced and multiplies each by a factor between 3/5 and 5/3 |
| `Learn.DriftIsBounded` | src/persona/learn.ts:155-200 | Over any number of nights the weights stay non-negative and sum to 100, and after n nights no weight is below (3/5)^n of its start |
| `Learn.FactorInRange` | src/persona/learn.ts:178-184 | One step moves a component by a quarter at most |
| `Learn.ApprovalsAloneSayNothing` | src/persona/learn.ts:176-179 | Without a rejection or a pairwise choice a refit changes nothing |
| `Tailoring.FivePassesAreOne` | src/hunt/tailoring.ts:19-26 | The five replacement passes equal one character-by-character map |
| `Tailoring.NoRawMarkup` | src/hunt/tailoring.ts:19-26 | No angle bracket or quote is left |
| `Tailoring.UnescapeUndoes` | src/hunt/tailoring.ts:19-26 | Unescaping gives the text back |
| `Tailoring.StableSortSorts` | src/hunt/tailoring.ts:35-43 | The order falls by overlap and keeps the original order among equals |
| `Tailoring.StableOrderUnique` | src/hunt/tailoring.ts:35-43 | There is one such order |
| `Tailoring.MovedExactly` | src/hunt/tailoring.ts:44-51 | With distinct ids a list counts as changed exactly when its overlaps did not already fall |
| `Tailoring.RenderedExactly` | src/hunt/tailoring.ts:55-79 | Ids are not checked for duplicates: in the planned order every entry of a list is rendered as its own text if and only if entries under one id have one text |
| `Tailoring.RenderingPermutes` | src/hunt/tailoring.ts:55-79 | The rendered texts of such a list are then the escaped originals, each as often as before |
| `Tailoring.TailoringPermutes` | src/hunt/tailoring.ts:55-79 | For a whole document whose ids stand for one thing each: the page made from its plan shows all its skills, and its positions in their order, each with its own headings and all of its own bullets |
| `Tailoring.PlanFor` | src/hunt/tailoring.ts:33-53 | The plan orders skills and bullets as the pages are made from, and says exactly when each counts as changed |
| `TenantAgent.OneAtATime` | vm-agent/server.ts:18-23 | A tenant's operations run one at a time in order of arrival, whether or not earlier ones failed |
| `TenantAgent.PolicyHolds` | vm-agent/server.ts:308 | An attempt's policy that is neither removed nor past its deadline stays that attempt's and its deadline never moves later |
| `TenantAgent.ModeMeansChild` | vm-agent/server.ts:261-266 | After any events a browser is up exactly outside idle mode, and the exit of an earlier one changes nothing |
| `TenantAgent.State.Launch` | vm-agent/server.ts:216-287 | Refused exactly outside idle mode; an application browser that does not come up is stopped |
| `TenantAgent.State.InstallPolicy` | vm-agent/server.ts:296-319 | Refused exactly outside apply mode or while another attempt's policy is in force |
| `TenantAgent.State.RevokePolicy` | vm-agent/server.ts:302-305 | Removes only the named attempt's policy |
| `TenantAgent.State.OnExit` | vm-agent/server.ts:266 | Clears the state only for the browser it holds |

## Left out

- Playwright, DOM scraping, screenshots, CDP, VNC, WebSocket framing, HTTP routes, mail and storage: what they return is a parameter or a nondeterministic step.
- Role classification, skill extraction, keyword tokens, the candidate's location texts and the errorKey regexes: parameters of the functions that use them.
- Real cryptography and random tokens: sealing is symbolic, and tokens, nudge ids and run ids are taken as fresh.
- Sending on LinkedIn before `markSent` records it: an invitation whose recording is lost is not counted by the caps.
- A retry while the queue cannot be read (`applicationJobInfo` answers "unavailable"): the model takes queue reads as successful.
- Deleted rows: `src/hunt/rescore.ts:67` deletes a run's candidates, and their attempts with them, after an unlocked look at the run; the pipeline takes candidate and attempt rows as never deleted.
- A second write of a closed attempt row: when an update after it throws, the catch branch writes the row once more (`src/hunt/apply.ts:779-805`); the model writes it once.
- The other three model providers (`src/model/tool-client.ts:63-65`), which map the history themselves: the agent's loop is modelled on the Anthropic path.
- Jobs without a dispatch id, manual applications, playground runs and account deletion: not part of this model.
- Candidates left in `tailored`: neither recovery path matches them, so nothing is claimed about their being parked.
- The failure handler's counters and `finishRunWhenSettled`: several paths skip the run counters, so only the sweep's own change is stated.
- PipelineSafety.SweepKeeps: the sweep's reads of jobs and rows count as one moment with its writes for each candidate.
- PipelineStore.Store.Retry: its guard, its queue check and its transaction are one step.
- Budget.BatchIsSound: one clock reading per batch; in the code the day start and the row's default time are read separately.
- Budget.Ledger.EnqueueApproved: the hunt_run_jobs mirror rows, application events and the run's progress record are not modelled.
- Recovery.Sweeper.Reconcile: when a candidate has several unfinished attempts only the first one listed is closed, as in the code; stopping its browser is not modelled.
- Leases.LaneExclusiveExactly: clocks of the holder and of Redis run at the same rate.
- UserLock.AloneExactly: the renewals of one holder reach Redis in the order they were sent, beats come on time, and clocks run at the same rate.
- Lanes.AllOrNothing: lanes are exclusive here; when leases are is said in `Leases`.
- Lanes.LostForGood: the process goes on living and its renewals go on arriving; a restart ends a leak.
- OpenClaw.ConfirmedMeansEnded: nudges accepted while the monitor is already polling children are not among the polled ones, as in the code.
- Outreach.CapsHold: sends are made one at a time, which the user's outreach lock sees to exactly when `UserLock.MinuteExactly` says, and the account_health row exists.
- Vault.StoredKeyIsFinal: rows are never deleted.
- Conversation.AnthropicHistory: an unparsable argument string is a fault of its own, without the platform's message.
- PipelineStore.Store.UseBrowser: a tool's click after its guard counts as made, although the click itself may still fail.
- AgentLoop.RunAgent: prompts and notes are abbreviated; the reported reasons keep their numbers and messages.
- Tailoring.TailoringPermutes: the fixed HTML frame, the contact block, the summary and the dates are not modelled.
- TenantAgent.State.Launch: service units, pipes, idle timers and kill escalation are not modelled.
- Prototype names such as "constructor" as portal ids, which a plain object lookup would find, are not modelled in the portal caps.
