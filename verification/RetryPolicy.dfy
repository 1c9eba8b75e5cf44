/** The pure execution policy of src/hunt/application-policy.ts. */
module RetryPolicy {
  import opened Basics

  const MAX_DAILY := 100

  /** What the recovery sweep writes and the policy looks for. */
  const INTERRUPTED_PHRASE := "worker stopped before this attempt completed"

  /** The columns of one apply_attempts row that the policy reads. */
  datatype AttemptView = AttemptView(status: string, submitStarted: bool, error: Option<string>)

  /** One attempt event: `dryRun` is the flag inside its detail. */
  datatype Event = Event(state: string, dryRun: bool, reason: Option<string>)

  /** The five distinct refusal texts. */
  datatype Refusal =
    | OnlyTerminal
    | ProviderSpam
    | CompletedOrUncertain
    | SubmitAttempted
    | LiveSubmitEvent

  function DailyLimit(configured: int): int {
    Max(1, Min(MAX_DAILY, configured))
  }

  function Remaining(used: int, configured: int): int {
    Max(0, DailyLimit(configured) - used)
  }

  function EffectiveConcurrency(configured: int, vmProfile: bool): (r: nat)
    ensures 1 <= r <= 4
    ensures vmProfile ==> r == 1
    ensures !vmProfile && 1 <= configured <= 4 ==> r == configured
  {
    if vmProfile then 1 else Max(1, Min(4, configured))
  }

  function ErrorText(latest: AttemptView): string {
    match latest.error
    case None => ""
    case Some(text) => text
  }

  predicate SpamText(text: string) {
    || Contains(Lower(text), "flagged as possible spam")
    || Contains(Lower(text), "rejected this submission as possible spam")
  }

  predicate HeldBackText(text: string) {
    || Contains(text, "Not submitted: invalid_fields")
    || Contains(text, "Not submitted: no_form")
    || Contains(text, "Not submitted: dry_run")
    || Contains(text, "Not submitted: kill_switch")
    || Contains(text, "Not submitted: no_submit_control")
    || Contains(text, "Not submitted: posting_closed")
  }

  predicate InterruptedText(text: string) {
    Contains(Lower(text), INTERRUPTED_PHRASE)
  }

  predicate Happened(events: seq<Event>, state: string) {
    exists i :: 0 <= i < |events| && events[i].state == state
  }

  predicate BlockedByProvider(events: seq<Event>) {
    exists i :: 0 <= i < |events| && events[i].reason == Some("provider_blocked")
  }

  /** A submitting event that was not part of a dry run. */
  predicate SubmittingLive(events: seq<Event>) {
    exists i :: 0 <= i < |events| && events[i].state == "submitting" && !events[i].dryRun
  }

  /** Why a retry is refused, or None when it may go ahead; attempts are newest first. */
  function SafeRetryReason(status: string, attempts: seq<AttemptView>, events: seq<Event>, confirmedNotSubmitted: bool)
    : Option<Refusal>
  {
    if status !in ["failed", "needs_review", "closed"] then Some(OnlyTerminal)
    else if (attempts != [] && attempts[0].error.Some? && SpamText(attempts[0].error.value)) || BlockedByProvider(events) then
      Some(ProviderSpam)
    else if (attempts != [] && attempts[0].status == "submitted") || Happened(events, "submitted") then
      Some(CompletedOrUncertain)
    else if attempts != [] && attempts[0].status in ["submitting", "pending"] then Some(SubmitAttempted)
    else if attempts == [] then None
    else
      var latest := attempts[0];
      var live := SubmittingLive(events);
      var dryRun :=
        && latest.status == "unknown"
        && ErrorText(latest) in ["Not submitted: dry_run", "Not submitted: kill_switch"]
        && !latest.submitStarted;
      var interrupted := InterruptedText(ErrorText(latest));
      var heldBack := HeldBackText(ErrorText(latest));
      if (heldBack || dryRun || interrupted) && !latest.submitStarted && !live then None
      else if !latest.submitStarted && !live && latest.status in ["needs_review", "failed"] then None
      else if confirmedNotSubmitted then None
      else if latest.submitStarted then Some(SubmitAttempted)
      else if latest.status in ["submitted", "submitted_unconfirmed", "unknown", "submitting", "pending"] && !dryRun then
        Some(CompletedOrUncertain)
      else if live then Some(LiveSubmitEvent)
      else None
  }

  // ---------------------------------------------------------------- meaning

  /** Evidence no confirmation by the user can set aside. */
  ghost predicate Conclusive(attempts: seq<AttemptView>, events: seq<Event>) {
    || BlockedByProvider(events)
    || Happened(events, "submitted")
    || (attempts != [] && attempts[0].status in ["submitted", "submitting", "pending"])
    || (attempts != [] && attempts[0].error.Some? && SpamText(attempts[0].error.value))
  }

  /** The latest attempt may have reached the provider. */
  ghost predicate MayHaveSubmitted(latest: AttemptView, events: seq<Event>) {
    || latest.submitStarted
    || SubmittingLive(events)
    || (&& latest.status in ["unknown", "submitted_unconfirmed"]
        && !HeldBackText(ErrorText(latest)) && !InterruptedText(ErrorText(latest)))
  }

  /**
   * What the branches amount to, whatever their order: a retry goes ahead exactly when the
   * application is at rest, nothing conclusive is on record, and either no attempt exists, or the
   * latest one cannot have reached the provider, or the user confirmed that it did not.
   */
  lemma RetryAllowedExactly(status: string, attempts: seq<AttemptView>, events: seq<Event>, confirmed: bool)
    ensures SafeRetryReason(status, attempts, events, confirmed) == None <==>
            && status in ["failed", "needs_review", "closed"]
            && !Conclusive(attempts, events)
            && (attempts == [] || confirmed || !MayHaveSubmitted(attempts[0], events))
  {
    if attempts != [] {
      if ErrorText(attempts[0]) == "Not submitted: dry_run" {
        assert "Not submitted: dry_run" <= ErrorText(attempts[0]);
      }
      if ErrorText(attempts[0]) == "Not submitted: kill_switch" {
        assert "Not submitted: kill_switch" <= ErrorText(attempts[0]);
      }
    }
  }

  /** A started submit is never retried on the program's own judgement. */
  lemma UnconfirmedRetryIsUnfenced(status: string, attempts: seq<AttemptView>, events: seq<Event>)
    requires SafeRetryReason(status, attempts, events, false) == None
    ensures attempts == [] || !attempts[0].submitStarted
  {
    RetryAllowedExactly(status, attempts, events, false);
  }

  /** Confirmation only ever widens what may be retried, and never past conclusive evidence. */
  lemma ConfirmationWaivesOnlyDoubt(status: string, attempts: seq<AttemptView>, events: seq<Event>)
    ensures SafeRetryReason(status, attempts, events, false) == None ==>
              SafeRetryReason(status, attempts, events, true) == None
    ensures SafeRetryReason(status, attempts, events, true) == None ==>
              (attempts == [] || attempts[0].status !in ["submitted", "submitting", "pending"])
  {
    RetryAllowedExactly(status, attempts, events, false);
    RetryAllowedExactly(status, attempts, events, true);
  }
}
