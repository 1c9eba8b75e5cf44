/**
 * What follows from the form driver's order: it clicks, and then the guard refuses. The call fails,
 * its attempt is unfenced, and a retry without a confirmation leads to a click for a second attempt.
 */
module PipelineRefusals {
  import opened Basics
  import opened Pipeline
  import opened PipelineSafety
  import opened PipelineHolds
  import opened PipelineLimits
  import opened PipelineStore
  import RetryPolicy

  // ------------------------------------------------------- logs after runs

  /** The log clicks submit for c. */
  ghost predicate LogClicks(s: State, log: Log, c: Candidate) {
    log.Then? &&
    (LogClicks(s, log.log, c) ||
     match Replay(s, log.log)
     case None => false
     case Some(mid) => ClicksFor(mid, log.step, c))
  }

  ghost predicate LogConfirms(log: Log, c: Candidate) {
    log.Then? && (Confirms(log.step, c) || LogConfirms(log.log, c))
  }

  /** One more step, if it is enabled. */
  function Onward(from: Option<State>, step: Step): Option<State> {
    if from.Some? && Enabled(from.value, step) then Some(Apply(from.value, step)) else None
  }

  lemma RunOnward(s: State, init: seq<Step>, last: Step)
    ensures Run(s, init + [last]) == Onward(Run(s, init), last)
  {
    assert (init + [last])[..|init|] == init;
  }

  lemma UnansweredOnward(posting: map<Candidate, Posting>, init: seq<Step>, mid: State, last: Step, c: Candidate)
    requires Run(Init(posting), init) == Some(mid)
    requires ClicksFor(mid, last, c) || (!Confirms(last, c) && Unanswered(posting, init, c))
    ensures Unanswered(posting, init + [last], c)
  {
    assert (init + [last])[..|init|] == init;
  }

  /** A log taken after a run is a longer run. */
  lemma {:induction false} LogContinues(posting: map<Candidate, Posting>, steps: seq<Step>, s: State, log: Log)
    requires Run(Init(posting), steps) == Some(s)
    ensures Run(Init(posting), steps + Steps(log)) == Replay(s, log)
  {
    match log
    case Start =>
      assert steps + [] == steps;
    case Then(rest, step) =>
      LogContinues(posting, steps, s, rest);
      RunOnward(Init(posting), steps + Steps(rest), step);
      assert steps + (Steps(rest) + [step]) == (steps + Steps(rest)) + [step];
      assert Replay(s, log) == Onward(Replay(s, rest), step);
  }

  /** With a click and no confirmation in it, it leaves the click unanswered. */
  lemma {:induction false} LogIsUnanswered(posting: map<Candidate, Posting>, steps: seq<Step>, s: State, log: Log, c: Candidate)
    requires Run(Init(posting), steps) == Some(s) && Replay(s, log).Some?
    requires LogClicks(s, log, c) && !LogConfirms(log, c)
    ensures Unanswered(posting, steps + Steps(log), c)
  {
    var Then(rest, step) := log;
    var mid := Replay(s, rest).value;
    LogContinues(posting, steps, s, rest);
    if LogClicks(s, rest, c) {
      LogIsUnanswered(posting, steps, s, rest, c);
    }
    UnansweredOnward(posting, steps + Steps(rest), mid, step, c);
    assert steps + (Steps(rest) + [step]) == (steps + Steps(rest)) + [step];
  }

  lemma ReplayNext(s: State, log: Log, mid: State, step: Step)
    requires Replay(s, log) == Some(mid) && Enabled(mid, step)
    ensures Replay(s, Then(log, step)) == Some(Apply(mid, step))
  {
  }

  // ---------------------------------------------------- the refused click

  /** A script whose form driver clicks and is then refused, whatever else would have happened. */
  predicate RefusedClick(script: Script, message: string) {
    Reaches(script) && script.acts == [FormClick(Reached(Refuses, message))]
  }

  /** The form is open: the same state whether or not the resume had been tailored. */
  function FormState(s: State, d: nat): State
    requires IsClaimed(s, d)
  {
    DoMoveJob(DoOpen(s, d), d, Active(Opened(|s.attempts|, true, false)))
  }

  lemma TailoredLog(s: State, d: nat, tailored: bool) returns (t: State)
    requires IsClaimed(s, d)
    ensures t == if tailored then s else DoSetStatus(s, CandidateOf(s, d), Tailored)
    ensures Replay(s, TailorLog(Start, d, tailored)) == Some(t) && !LogConfirms(TailorLog(Start, d, tailored), CandidateOf(s, d))
  {
    t := if tailored then s else DoSetStatus(s, CandidateOf(s, d), Tailored);
    assert Replay(s, Start) == Some(s);
    if !tailored {
      ReplayNext(s, Start, s, Tailor(d));
    }
  }

  lemma OpenedAlike(s: State, d: nat, t: State)
    requires IsClaimed(s, d) && IsClaimed(t, d)
    requires t == s || t == DoSetStatus(s, CandidateOf(s, d), Tailored)
    ensures DoOpen(t, d) == DoOpen(s, d)
  {
    assert t.status[CandidateOf(s, d) := Applying] == s.status[CandidateOf(s, d) := Applying];
  }

  lemma FormLog(s: State, d: nat, script: Script)
    requires Inv(s) && IsClaimed(s, d)
    ensures var log := Then(Then(TailorLog(Start, d, script.tailored), Step.Open(d)), OpenSession(d));
            Replay(s, log) == Some(FormState(s, d)) && !LogConfirms(log, CandidateOf(s, d))
  {
    var tailored := TailorLog(Start, d, script.tailored);
    var t := TailoredLog(s, d, script.tailored);
    OpenedAlike(s, d, t);
    ReplayNext(s, tailored, t, Step.Open(d));
    ReplayNext(s, Then(tailored, Step.Open(d)), DoOpen(s, d), OpenSession(d));
    assert !LogConfirms(Then(tailored, Step.Open(d)), CandidateOf(s, d));
  }

  /** How the call ends, from the open form on. */
  function FailedState(s: State, d: nat, message: string): State
    requires IsClaimed(s, d)
  {
    var c := CandidateOf(s, d);
    s.(status := s.status[c := NeedsReview], jobs := s.jobs[d := Failed], failures := s.failures + {d},
       attempts := s.attempts + [Attempt(c, "failed", Some(message), false)])
  }

  lemma FailedIs(s: State, d: nat, message: string)
    requires IsClaimed(s, d)
    ensures var form := FormState(s, d);
            && CanEnd(form, d, ThrownBeforeSubmit(message))
            && var ended := DoEnd(form, d, ThrownBeforeSubmit(message));
               IsRecorded(ended, d) && DoLeave(DoWriteVerdict(ended, d), d) == FailedState(s, d, message)
  {
    var ended := DoEnd(FormState(s, d), d, ThrownBeforeSubmit(message));
    var left := DoLeave(DoWriteVerdict(ended, d), d);
    assert left.attempts == s.attempts + [Attempt(CandidateOf(s, d), "failed", Some(message), false)];
    assert left.status == s.status[CandidateOf(s, d) := NeedsReview];
    assert left.jobs == s.jobs[d := Failed];
  }

  lemma ClosingLog(s: State, d: nat, message: string)
    requires IsClaimed(s, d)
    ensures var form := FormState(s, d);
            var log := Then(CloseLog(Then(Start, Click(d)), d, ThrownBeforeSubmit(message)), Leave(d));
            Replay(form, log) == Some(FailedState(s, d, message))
  {
    var form := FormState(s, d);
    FailedIs(s, d, message);
    var clicked := Then(Start, Click(d));
    var ended := DoEnd(form, d, ThrownBeforeSubmit(message));
    assert Replay(form, Start) == Some(form);
    ReplayNext(form, Start, form, Click(d));
    ReplayNext(form, clicked, form, End(d, ThrownBeforeSubmit(message)));
    ReplayNext(form, Then(clicked, End(d, ThrownBeforeSubmit(message))), ended, Step.WriteVerdict(d));
    ReplayNext(form, CloseLog(clicked, d, ThrownBeforeSubmit(message)), DoWriteVerdict(ended, d), Leave(d));
  }

  /** Replaying one log after another. */
  function Joined(first: Log, second: Log): Log {
    match second
    case Start => first
    case Then(rest, step) => Then(Joined(first, rest), step)
  }

  lemma {:induction false} JoinedReplay(s: State, first: Log, mid: State, second: Log)
    requires Replay(s, first) == Some(mid)
    ensures Replay(s, Joined(first, second)) == Replay(mid, second)
  {
    if second.Then? {
      JoinedReplay(s, first, mid, second.log);
    }
  }

  lemma {:induction false} JoinedFacts(s: State, first: Log, mid: State, second: Log, c: Candidate)
    requires Replay(s, first) == Some(mid) && !LogConfirms(first, c) && !LogConfirms(second, c)
    ensures !LogConfirms(Joined(first, second), c)
    ensures LogClicks(mid, second, c) ==> LogClicks(s, Joined(first, second), c)
  {
    if second.Then? {
      JoinedFacts(s, first, mid, second.log, c);
      JoinedReplay(s, first, mid, second.log);
    }
  }

  /**
   * The call notes no submit although it clicked one: it fails, and leaves the attempt failed and
   * unfenced with the guard's message.
   */
  lemma RefusedClickFails(s: State, d: nat, script: Script, message: string)
    requires Inv(s) && IsClaimed(s, d) && RefusedClick(script, message)
    ensures Ending(script).ToFailed? && NoteCount(Course(Start, d, script)) == 0
    ensures var log := Then(Course(Start, d, script), Leave(d));
            && Replay(s, log) == Some(FailedState(s, d, message))
            && LogClicks(s, log, CandidateOf(s, d)) && !LogConfirms(log, CandidateOf(s, d))
  {
    FailsExactly(script);
    CourseNotesOnce(Start, d, script);
    RefusedProgress(d, script, message);
    var first := Then(Then(TailorLog(Start, d, script.tailored), Step.Open(d)), OpenSession(d));
    var second := Then(CloseLog(Then(Start, Click(d)), d, ThrownBeforeSubmit(message)), Leave(d));
    FormLog(s, d, script);
    ClosingLog(s, d, message);
    SecondLog(s, d, message);
    JoinedReplay(s, first, FormState(s, d), second);
    JoinedFacts(s, first, FormState(s, d), second, CandidateOf(s, d));
    JoinedIsCourse(d, script, message);
  }

  lemma RefusedProgress(d: nat, script: Script, message: string)
    requires RefusedClick(script, message)
    ensures !RecordsBy(script.acts, |script.acts|) && BreaksBy(script.acts, |script.acts|)
  {
    assert Breaks(script.acts[0]) && !Records(script.acts[0]);
  }

  lemma SecondLog(s: State, d: nat, message: string)
    requires IsClaimed(s, d)
    ensures var log := Then(CloseLog(Then(Start, Click(d)), d, ThrownBeforeSubmit(message)), Leave(d));
            LogClicks(FormState(s, d), log, CandidateOf(s, d)) && !LogConfirms(log, CandidateOf(s, d))
  {
    var form, c := FormState(s, d), CandidateOf(s, d);
    var clicked := Then(Start, Click(d));
    var ended := Then(clicked, End(d, ThrownBeforeSubmit(message)));
    assert Replay(form, Start) == Some(form) && ClicksFor(form, Click(d), c);
    assert LogClicks(form, clicked, c) && !LogConfirms(clicked, c);
    assert LogClicks(form, ended, c) && !LogConfirms(ended, c);
    assert LogClicks(form, Then(ended, Step.WriteVerdict(d)), c) && !LogConfirms(Then(ended, Step.WriteVerdict(d)), c);
  }

  lemma JoinedIsCourse(d: nat, script: Script, message: string)
    requires RefusedClick(script, message)
    ensures var first := Then(Then(TailorLog(Start, d, script.tailored), Step.Open(d)), OpenSession(d));
            var second := Then(CloseLog(Then(Start, Click(d)), d, ThrownBeforeSubmit(message)), Leave(d));
            Joined(first, second) == Then(Course(Start, d, script), Leave(d))
  {
    var first := Then(Then(TailorLog(Start, d, script.tailored), Step.Open(d)), OpenSession(d));
    var clicked := Then(Start, Click(d));
    var ended := Then(clicked, End(d, ThrownBeforeSubmit(message)));
    assert Joined(first, Start) == first && Joined(first, clicked) == Then(first, Click(d));
    assert Joined(first, ended) == Then(Then(first, Click(d)), End(d, ThrownBeforeSubmit(message)));
    assert TakeFirst(d, Begun(first), script.acts, 0) == Begun(first);
    assert TakeAll(d, first, script.acts) == Progress(Then(first, Click(d)), false, Some(message));
  }

  /** Nothing but spam keeps the policy from letting such a candidate be retried. */
  lemma FailedMayBeRetried(s: State, d: nat, message: string, appStatus: string, events: seq<RetryPolicy.Event>)
    requires Inv(s) && IsClaimed(s, d) && !RetryPolicy.SpamText(message)
    requires appStatus in ["failed", "needs_review", "closed"] && NoSubmitIn(events)
    ensures CanRetry(FailedState(s, d, message), CandidateOf(s, d), appStatus, events, false)
  {
    var c, t := CandidateOf(s, d), FailedState(s, d, message);
    assert Intends(s, d) && Owned(s, c);
    AppendAttempt(s.attempts, Attempt(c, "failed", Some(message), false), c);
    RetryPolicy.RetryAllowedExactly(appStatus, LatestView(t.attempts, c), events, false);
    assert NoLiveIntent(t, c) by {
      forall e | 0 <= e < |t.dispatches| && t.dispatches[e].candidate == c && !t.dispatches[e].cancelled
        ensures !LiveJob(t, e)
      {
        assert Intends(s, e) && e == d;
      }
    }
  }

  /**
   * So the refused fence is not the end of it: after any run, the failed call may be followed by a
   * retry nobody confirmed and a click for a second attempt of the same candidate.
   */
  lemma RefusedClickDoubles(posting: map<Candidate, Posting>, steps: seq<Step>, s: State, d: nat, script: Script, message: string)
    returns (all: seq<Step>)
    requires Run(Init(posting), steps) == Some(s) && IsClaimed(s, d)
    requires RefusedClick(script, message) && !RetryPolicy.SpamText(message)
    ensures steps + Steps(Then(Course(Start, d, script), Leave(d))) <= all
    ensures Run(Init(posting), all).Some? && Doubled(posting, all, CandidateOf(s, d))
    ensures Run(Init(posting), all).value.waivers == s.waivers
  {
    var c := CandidateOf(s, d);
    var log := Then(Course(Start, d, script), Leave(d));
    RunKeeps(posting, steps);
    RefusedClickFails(s, d, script, message);
    LogContinues(posting, steps, s, log);
    LogIsUnanswered(posting, steps, s, log, c);
    FailedMayBeRetried(s, d, message, "needs_review", []);
    var failed := steps + Steps(log);
    var more := CarelessRetryDoubles(posting, failed, c, "needs_review", []);
    all := failed + [Step.Retry(c, "needs_review", [], false)] + more;
  }
}
