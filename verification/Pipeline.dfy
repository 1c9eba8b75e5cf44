/**
 * One user's application pipeline as a step system: enqueue, outbox publish, claim, tailoring,
 * the attempt, the irreversible submit fence, outcomes, deferral, crashes, the failure handler,
 * the recovery sweep, cancellation and retry, in every interleaving.
 *
 * A queue job is run by one worker at a time, so the worker's progress is kept in the job: a job
 * that is not Active has no worker left. That is the assumption under which a job judged dead
 * takes no more steps; LateFenceBreaksExactly says what happens without it.
 */
module Pipeline {
  import opened Basics
  import RetryPolicy

  type Candidate = nat
  type Posting = nat

  datatype Status =
    | Discovered | Approved | Rejected | Queued | Tailored | Applying | NeedsReview | Applied

  /** One apply_attempts row; `fenced` says that submitStartedAt is set. */
  datatype Attempt = Attempt(candidate: Candidate, status: string, error: Option<string>, fenced: bool)

  /** One application_dispatches row: a durable intent to publish a queue job. */
  datatype Dispatch = Dispatch(candidate: Candidate, cancelled: bool)

  datatype JobEnd = ToCompleted | ToDelayed | ToFailed

  /** How far the worker running a job has come; Recorded: the attempt's row is final, the candidate's not written yet. */
  datatype Phase =
    | Picked
    | Claimed
    | Opened(attempt: nat, session: bool, attempted: bool)
    | Recorded(end: JobEnd, verdict: Status)
    | Closing(end: JobEnd)

  datatype Job = Waiting | Delayed | Active(phase: Phase) | Completed | Failed

  /**
   * `owner[p]` is the candidate the application row of posting p was created for (one row per
   * posting, never deleted); jobs are keyed by dispatch; `failures` and `waivers` are history:
   * the dispatches whose job has failed, and the candidates retried under a user's confirmation.
   */
  datatype State = State(
    posting: map<Candidate, Posting>,
    status: map<Candidate, Status>,
    owner: map<Posting, Candidate>,
    attempts: seq<Attempt>,
    dispatches: seq<Dispatch>,
    jobs: map<nat, Job>,
    failures: set<nat>,
    waivers: seq<Candidate>)

  const INTERRUPTED := "Application " + RetryPolicy.INTERRUPTED_PHRASE + "."

  const REACHED := "A submit may have reached the provider."
  const ADVICE := " Check the provider before"
  const UNCERTAIN := REACHED + (ADVICE + " taking further action.")

  /** What a worker records when its attempt ends. */
  datatype Outcome =
    | Submitted
    | HeldBack(reason: string)
    | NotSubmitted(error: Option<string>)
    | SubmittedUnconfirmed
    | ProviderBlocked
    | UncertainAfterThrow
    | ConfirmedAfterThrow
    | ThrownBeforeSubmit(message: string)

  datatype Step =
    | Enqueue(c: Candidate)
    | ParkUnapplyable(c: Candidate)
    | ReturnToDiscovered(c: Candidate)
    | Publish(d: nat)
    | Forget(d: nat)
    | Pick(d: nat)
    | Postpone(d: nat)
    | Skip(d: nat)
    | Claim(d: nat)
    | Tailor(d: nat)
    | StopEarly(d: nat)
    | AlreadyApplied(d: nat)
    | AccountNeeded(d: nat)
    | Open(d: nat)
    | OpenSession(d: nat)
    | Fence(d: nat, noted: bool)
    | NoteSubmission(d: nat)
    | Click(d: nat)
    | End(d: nat, outcome: Outcome)
    | Defer(d: nat)
    | WriteVerdict(d: nat)
    | ThrowUnrecorded(d: nat)
    | Leave(d: nat)
    | Crash(d: nat)
    | HandleFailure(d: nat)
    | Sweep(c: Candidate, attempt: Option<nat>)
    | Cancel(c: Candidate)
    | Retry(c: Candidate, appStatus: string, events: seq<RetryPolicy.Event>, confirmed: bool)

  // ------------------------------------------------------------- queries

  function Latest(attempts: seq<Attempt>, c: Candidate): (r: Option<nat>)
    ensures r.Some? ==> r.value < |attempts| && attempts[r.value].candidate == c
    ensures forall i :: 0 <= i < |attempts| && attempts[i].candidate == c ==> r.Some? && i <= r.value
  {
    if attempts == [] then None
    else if attempts[|attempts| - 1].candidate == c then Some(|attempts| - 1)
    else Latest(attempts[..|attempts| - 1], c)
  }

  /** How many attempts of c carry the submit fence. */
  function Fenced(attempts: seq<Attempt>, c: Candidate): nat {
    if attempts == [] then 0
    else
      var last := attempts[|attempts| - 1];
      Fenced(attempts[..|attempts| - 1], c) + if last.candidate == c && last.fenced then 1 else 0
  }

  function Waived(waivers: seq<Candidate>, c: Candidate): nat {
    if waivers == [] then 0
    else Waived(waivers[..|waivers| - 1], c) + if waivers[|waivers| - 1] == c then 1 else 0
  }

  /** What the retry route hands to the policy: the newest attempt only. */
  function LatestView(attempts: seq<Attempt>, c: Candidate): seq<RetryPolicy.AttemptView> {
    match Latest(attempts, c)
    case None => []
    case Some(i) => [RetryPolicy.AttemptView(attempts[i].status, attempts[i].fenced, attempts[i].error)]
  }

  /** Same rows in the same order with the same fences; statuses and errors may differ. */
  ghost predicate SameFences(a: seq<Attempt>, b: seq<Attempt>) {
    && |a| == |b|
    && (forall i :: 0 <= i < |a| ==> a[i].candidate == b[i].candidate && a[i].fenced == b[i].fenced)
  }

  predicate InPhase(s: State, d: nat) {
    d in s.jobs && s.jobs[d].Active? && d < |s.dispatches|
  }

  predicate IsClaimed(s: State, d: nat) {
    InPhase(s, d) && s.jobs[d].phase.Claimed?
  }

  predicate IsOpened(s: State, d: nat) {
    InPhase(s, d) && s.jobs[d].phase.Opened? && s.jobs[d].phase.attempt < |s.attempts|
  }

  predicate IsRecorded(s: State, d: nat) {
    InPhase(s, d) && s.jobs[d].phase.Recorded?
  }

  function CandidateOf(s: State, d: nat): Candidate
    requires d < |s.dispatches|
  {
    s.dispatches[d].candidate
  }

  predicate LiveJob(s: State, d: nat) {
    d in s.jobs && (s.jobs[d].Waiting? || s.jobs[d].Delayed? || s.jobs[d].Active?)
  }

  predicate NoLiveJob(s: State, c: Candidate) {
    forall d :: 0 <= d < |s.dispatches| && s.dispatches[d].candidate == c ==> !LiveJob(s, d)
  }

  /** No job of a dispatch that still counts for c is live. */
  predicate NoLiveIntent(s: State, c: Candidate) {
    forall d :: 0 <= d < |s.dispatches| && s.dispatches[d].candidate == c && !s.dispatches[d].cancelled ==> !LiveJob(s, d)
  }

  /** Cancellation removes waiting work but refuses a job that has started. */
  predicate NoStartedIntent(s: State, c: Candidate) {
    forall d :: 0 <= d < |s.dispatches| && s.dispatches[d].candidate == c && !s.dispatches[d].cancelled ==>
      !(d in s.jobs && s.jobs[d].Active?)
  }

  predicate Unfinished(a: Attempt) {
    a.status in ["pending", "submitting"]
  }

  // --------------------------------------------------------------- steps

  function OutcomeStatus(outcome: Outcome): string {
    match outcome
    case Submitted => "submitted"
    case HeldBack(_) => "unknown"
    case NotSubmitted(_) => "needs_review"
    case SubmittedUnconfirmed => "unknown"
    case ProviderBlocked => "needs_review"
    case UncertainAfterThrow => "unknown"
    case ConfirmedAfterThrow => "submitted"
    case ThrownBeforeSubmit(_) => "failed"
  }

  function OutcomeError(outcome: Outcome, before: Option<string>): Option<string> {
    match outcome
    case Submitted => before
    case HeldBack(reason) => Some("Not submitted: " + reason)
    case NotSubmitted(error) => error
    case SubmittedUnconfirmed =>
      Some("Submit was clicked, but confirmation was not observed. Check the provider; do not retry automatically.")
    case ProviderBlocked => Some("The provider rejected this submission as possible spam.")
    case UncertainAfterThrow => Some(UNCERTAIN)
    case ConfirmedAfterThrow => Some("Submitted; some evidence could not be saved.")
    case ThrownBeforeSubmit(message) => Some(message)
  }

  function OutcomeCandidate(outcome: Outcome): Status {
    if outcome.Submitted? || outcome.ConfirmedAfterThrow? then Applied else NeedsReview
  }

  function OutcomeEnd(outcome: Outcome): JobEnd {
    if outcome.ThrownBeforeSubmit? then ToFailed else ToCompleted
  }

  /** Which outcomes the worker's own memory of a submit permits. */
  predicate OutcomeAllowed(outcome: Outcome, attempted: bool) {
    match outcome
    case UncertainAfterThrow => attempted
    case ThrownBeforeSubmit(_) => !attempted
    case _ => true
  }

  function EndJob(end: JobEnd): Job {
    match end
    case ToCompleted => Completed
    case ToDelayed => Delayed
    case ToFailed => Failed
  }

  function CloseUnfinished(attempts: seq<Attempt>, c: Candidate, error: string): (r: seq<Attempt>)
    ensures SameFences(attempts, r)
  {
    seq(|attempts|, i requires 0 <= i < |attempts| =>
      if attempts[i].candidate == c && Unfinished(attempts[i]) then attempts[i].(status := "unknown", error := Some(error))
      else attempts[i])
  }

  function CancelAll(dispatches: seq<Dispatch>, c: Candidate): (r: seq<Dispatch>)
    ensures |r| == |dispatches|
    ensures forall d :: 0 <= d < |r| ==>
      r[d].candidate == dispatches[d].candidate && (r[d].cancelled <==> dispatches[d].cancelled || dispatches[d].candidate == c)
  {
    seq(|dispatches|, d requires 0 <= d < |dispatches| =>
      if dispatches[d].candidate == c then dispatches[d].(cancelled := true) else dispatches[d])
  }

  /** The jobs left after the waiting work of c's uncancelled dispatches is removed. */
  function WithoutWork(s: State, c: Candidate): map<nat, Job> {
    map d | d in s.jobs && !(d < |s.dispatches| && s.dispatches[d].candidate == c && !s.dispatches[d].cancelled) :: s.jobs[d]
  }

  predicate Selectable(status: Status) {
    status.Discovered? || status.Rejected? || status.Approved?
  }

  predicate Claimable(status: Status) {
    status.Queued? || status.Tailored?
  }

  // Each operation of the program is a guard and an effect of its own.

  predicate CanEnqueue(s: State, c: Candidate) {
    c in s.posting && c in s.status && Selectable(s.status[c]) && s.posting[c] !in s.owner
  }

  function DoEnqueue(s: State, c: Candidate): State
    requires CanEnqueue(s, c)
  {
    s.(owner := s.owner[s.posting[c] := c], status := s.status[c := Queued],
       dispatches := s.dispatches + [Dispatch(c, false)])
  }

  predicate CanReselect(s: State, c: Candidate) {
    c in s.status && c in s.posting && Selectable(s.status[c])
  }

  function DoSetStatus(s: State, c: Candidate, status: Status): State {
    s.(status := s.status[c := status])
  }

  predicate CanClaim(s: State, d: nat) {
    && InPhase(s, d) && s.jobs[d].phase.Picked? && !s.dispatches[d].cancelled
    && CandidateOf(s, d) in s.status && Claimable(s.status[CandidateOf(s, d)])
  }

  function DoClaim(s: State, d: nat): State
    requires CanClaim(s, d)
  {
    s.(jobs := s.jobs[d := Active(Claimed)], status := s.status[CandidateOf(s, d) := Applying])
  }

  function DoMoveJob(s: State, d: nat, job: Job): State {
    s.(jobs := s.jobs[d := job])
  }

  /** The claimed job ends quietly, leaving its candidate in `status`. */
  function DoSettle(s: State, d: nat, status: Status): State
    requires IsClaimed(s, d)
  {
    DoSetStatus(DoMoveJob(s, d, Active(Closing(ToCompleted))), CandidateOf(s, d), status)
  }

  function DoAccountNeeded(s: State, d: nat): State
    requires IsClaimed(s, d)
  {
    var t := DoSettle(s, d, NeedsReview);
    t.(attempts := s.attempts + [Attempt(CandidateOf(s, d), "needs_review", None, false)])
  }

  function DoOpen(s: State, d: nat): State
    requires IsClaimed(s, d)
  {
    s.(jobs := s.jobs[d := Active(Opened(|s.attempts|, false, false))],
       status := s.status[CandidateOf(s, d) := Applying],
       attempts := s.attempts + [Attempt(CandidateOf(s, d), "submitting", None, false)])
  }

  function DoOpenSession(s: State, d: nat): State
    requires IsOpened(s, d)
  {
    DoMoveJob(s, d, Active(s.jobs[d].phase.(session := true)))
  }

  function DoNoteSubmission(s: State, d: nat): State
    requires IsOpened(s, d)
  {
    DoMoveJob(s, d, Active(s.jobs[d].phase.(attempted := true)))
  }

  predicate CanFence(s: State, d: nat) {
    IsOpened(s, d) && s.jobs[d].phase.session && !s.jobs[d].phase.attempted
  }

  /** The durable, irreversible intent; `noted` is false when the worker failed right after the write. */
  function DoFence(s: State, d: nat, noted: bool): State
    requires CanFence(s, d)
  {
    var i := s.jobs[d].phase.attempt;
    s.(jobs := s.jobs[d := Active(s.jobs[d].phase.(attempted := noted))],
       attempts := s.attempts[i := s.attempts[i].(status := "submitting", fenced := true)])
  }

  predicate CanEnd(s: State, d: nat, outcome: Outcome) {
    IsOpened(s, d) && OutcomeAllowed(outcome, s.jobs[d].phase.attempted)
  }

  function Closed(a: Attempt, outcome: Outcome): Attempt {
    a.(status := OutcomeStatus(outcome), error := OutcomeError(outcome, a.error))
  }

  function DoEnd(s: State, d: nat, outcome: Outcome): State
    requires CanEnd(s, d, outcome)
  {
    var i := s.jobs[d].phase.attempt;
    s.(jobs := s.jobs[d := Active(Recorded(OutcomeEnd(outcome), OutcomeCandidate(outcome)))],
       attempts := s.attempts[i := Closed(s.attempts[i], outcome)])
  }

  predicate CanDefer(s: State, d: nat) {
    IsOpened(s, d) && !s.jobs[d].phase.session && !s.jobs[d].phase.attempted
  }

  function DoDefer(s: State, d: nat): State
    requires CanDefer(s, d)
  {
    var i := s.jobs[d].phase.attempt;
    s.(jobs := s.jobs[d := Active(Recorded(ToDelayed, Queued))],
       attempts := s.attempts[i :=
         s.attempts[i].(status := "failed", error := Some("Browser is busy; deferred before opening application."))])
  }

  function DoWriteVerdict(s: State, d: nat): State
    requires IsRecorded(s, d)
  {
    DoSetStatus(DoMoveJob(s, d, Active(Closing(s.jobs[d].phase.end))), CandidateOf(s, d), s.jobs[d].phase.verdict)
  }

  function DoLeave(s: State, d: nat): State
    requires InPhase(s, d) && s.jobs[d].phase.Closing?
  {
    var end := s.jobs[d].phase.end;
    s.(jobs := s.jobs[d := EndJob(end)], failures := if end.ToFailed? then s.failures + {d} else s.failures)
  }

  function DoCrash(s: State, d: nat): State {
    s.(jobs := s.jobs[d := Failed], failures := s.failures + {d})
  }

  predicate CanHandleFailure(s: State, d: nat) {
    d in s.failures && d < |s.dispatches| && CandidateOf(s, d) in s.status
  }

  /** The handler goes by candidate and may run long after the job failed. */
  function DoHandleFailure(s: State, d: nat): State
    requires CanHandleFailure(s, d)
  {
    var c := CandidateOf(s, d);
    s.(attempts := CloseUnfinished(s.attempts, c, "Application job failed before completion"),
       status := if s.status[c].Queued? || s.status[c].Applying? then s.status[c := NeedsReview] else s.status)
  }

  predicate CanSweep(s: State, c: Candidate, attempt: Option<nat>) {
    && c in s.status && (s.status[c].Queued? || s.status[c].Applying?) && NoLiveJob(s, c)
    && (attempt.Some? ==>
          && attempt.value < |s.attempts| && s.attempts[attempt.value].candidate == c
          && Unfinished(s.attempts[attempt.value]))
  }

  function DoSweep(s: State, c: Candidate, attempt: Option<nat>): State
    requires CanSweep(s, c, attempt)
  {
    s.(status := s.status[c := NeedsReview],
       attempts := match attempt
         case None => s.attempts
         case Some(i) =>
           s.attempts[i := s.attempts[i].(status := "unknown", error := Some(INTERRUPTED))])
  }

  predicate CanCancel(s: State, c: Candidate) {
    c in s.status && (s.status[c].Approved? || Claimable(s.status[c])) && NoStartedIntent(s, c)
  }

  function DoCancel(s: State, c: Candidate): State
    requires CanCancel(s, c)
  {
    s.(status := s.status[c := Rejected], dispatches := CancelAll(s.dispatches, c), jobs := WithoutWork(s, c))
  }

  /** What the retry route checks before it consults the policy. */
  predicate Retriable(s: State, c: Candidate) {
    && c in s.posting && c in s.status && s.posting[c] in s.owner && s.owner[s.posting[c]] == c
    && NoLiveIntent(s, c)
  }

  predicate CanRetry(s: State, c: Candidate, appStatus: string, events: seq<RetryPolicy.Event>, confirmed: bool) {
    Retriable(s, c) && RetryPolicy.SafeRetryReason(appStatus, LatestView(s.attempts, c), events, confirmed) == None
  }

  function DoRetry(s: State, c: Candidate, confirmed: bool): State {
    s.(status := s.status[c := Queued], dispatches := CancelAll(s.dispatches, c) + [Dispatch(c, false)],
       waivers := if confirmed then s.waivers + [c] else s.waivers)
  }

  predicate Enabled(s: State, step: Step) {
    match step
    case Enqueue(c) => CanEnqueue(s, c)
    case ParkUnapplyable(c) => CanReselect(s, c)
    case ReturnToDiscovered(c) => CanReselect(s, c)
    case Publish(d) => d < |s.dispatches| && d !in s.jobs
    case Forget(d) => d in s.jobs && !s.jobs[d].Active?
    case Pick(d) => d < |s.dispatches| && d in s.jobs && (s.jobs[d].Waiting? || s.jobs[d].Delayed?)
    case Postpone(d) => InPhase(s, d) && s.jobs[d].phase.Picked?
    case Skip(d) => InPhase(s, d) && s.jobs[d].phase.Picked?
    case Claim(d) => CanClaim(s, d)
    case Tailor(d) => IsClaimed(s, d)
    case StopEarly(d) => IsClaimed(s, d)
    case AlreadyApplied(d) => IsClaimed(s, d)
    case AccountNeeded(d) => IsClaimed(s, d)
    case Open(d) => IsClaimed(s, d)
    case OpenSession(d) => IsOpened(s, d) && !s.jobs[d].phase.session
    case Fence(d, _) => CanFence(s, d)
    case NoteSubmission(d) => IsOpened(s, d) && s.jobs[d].phase.session
    case Click(d) => IsOpened(s, d) && s.jobs[d].phase.session
    case End(d, outcome) => CanEnd(s, d, outcome)
    case Defer(d) => CanDefer(s, d)
    case WriteVerdict(d) => IsRecorded(s, d)
    case ThrowUnrecorded(d) => IsClaimed(s, d) || IsOpened(s, d)
    case Leave(d) => InPhase(s, d) && s.jobs[d].phase.Closing?
    case Crash(d) => InPhase(s, d)
    case HandleFailure(d) => CanHandleFailure(s, d)
    case Sweep(c, attempt) => CanSweep(s, c, attempt)
    case Cancel(c) => CanCancel(s, c)
    case Retry(c, appStatus, events, confirmed) => CanRetry(s, c, appStatus, events, confirmed)
  }

  function Apply(s: State, step: Step): State
    requires Enabled(s, step)
  {
    match step
    case Enqueue(c) => DoEnqueue(s, c)
    case ParkUnapplyable(c) => DoSetStatus(s, c, NeedsReview)
    case ReturnToDiscovered(c) => DoSetStatus(s, c, Discovered)
    case Publish(d) => DoMoveJob(s, d, Waiting)
    case Forget(d) => s.(jobs := s.jobs - {d})
    case Pick(d) => DoMoveJob(s, d, Active(Picked))
    case Postpone(d) => DoMoveJob(s, d, Delayed)
    case Skip(d) => DoMoveJob(s, d, Completed)
    case Claim(d) => DoClaim(s, d)
    case Tailor(d) => DoSetStatus(s, CandidateOf(s, d), Tailored)
    case StopEarly(d) => DoMoveJob(s, d, Active(Closing(ToCompleted)))
    case AlreadyApplied(d) => DoSettle(s, d, Applied)
    case AccountNeeded(d) => DoAccountNeeded(s, d)
    case Open(d) => DoOpen(s, d)
    case OpenSession(d) => DoOpenSession(s, d)
    case Fence(d, noted) => DoFence(s, d, noted)
    case NoteSubmission(d) => DoNoteSubmission(s, d)
    case Click(_) => s
    case End(d, outcome) => DoEnd(s, d, outcome)
    case Defer(d) => DoDefer(s, d)
    case WriteVerdict(d) => DoWriteVerdict(s, d)
    case ThrowUnrecorded(d) => DoMoveJob(s, d, Active(Closing(ToFailed)))
    case Leave(d) => DoLeave(s, d)
    case Crash(d) => DoCrash(s, d)
    case HandleFailure(d) => DoHandleFailure(s, d)
    case Sweep(c, attempt) => DoSweep(s, c, attempt)
    case Cancel(c) => DoCancel(s, c)
    case Retry(c, _, _, confirmed) => DoRetry(s, c, confirmed)
  }

  /** The state after a whole run, or None when some step was not enabled. */
  function Run(s: State, steps: seq<Step>): Option<State>
    decreases |steps|
  {
    if steps == [] then Some(s)
    else
      match Run(s, steps[..|steps| - 1])
      case None => None
      case Some(mid) =>
        var last := steps[|steps| - 1];
        if Enabled(mid, last) then Some(Apply(mid, last)) else None
  }

  /** A user's shortlisted candidates before anything is approved. */
  function Init(posting: map<Candidate, Posting>): State {
    State(posting, map c | c in posting :: Discovered, map[], [], [], map[], {}, [])
  }

  /** The steps taken so far, latest last. */
  datatype Log = Start | Then(log: Log, step: Step)

  ghost function Steps(log: Log): seq<Step> {
    match log
    case Start => []
    case Then(rest, step) => Steps(rest) + [step]
  }

  ghost function Replay(s: State, log: Log): Option<State> {
    match log
    case Start => Some(s)
    case Then(rest, step) =>
      match Replay(s, rest)
      case None => None
      case Some(mid) => if Enabled(mid, step) then Some(Apply(mid, step)) else None
  }

  /** A log is a run. */
  lemma {:induction false} ReplayIsRun(s: State, log: Log)
    ensures Run(s, Steps(log)) == Replay(s, log)
  {
    if log.Then? {
      ReplayIsRun(s, log.log);
      assert Steps(log)[..|Steps(log)| - 1] == Steps(log.log);
    }
  }
}
