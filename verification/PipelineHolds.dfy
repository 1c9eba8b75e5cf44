/**
 * What keeps a candidate where it is: once its newest attempt may have submitted, nothing but a
 * retry of that candidate leads to another attempt.
 */
module PipelineHolds {
  import opened Basics
  import opened Pipeline
  import opened PipelineSafety

  /** A worker that will neither open an attempt nor put its candidate back in the queue. */
  predicate Calm(phase: Phase) {
    && !phase.Claimed?
    && (phase.Opened? ==> phase.session)
    && (phase.Recorded? ==> Parked(phase.verdict))
  }

  ghost predicate Held(s: State, c: Candidate, i: nat) {
    && Latest(s.attempts, c) == Some(i)
    && c in s.status && Parked(s.status[c])
    && (forall d: nat | InPhase(s, d) && CandidateOf(s, d) == c :: Calm(s.jobs[d].phase))
  }

  predicate Retries(step: Step, c: Candidate) {
    step.Retry? && step.c == c
  }

  predicate Confirms(step: Step, c: Candidate) {
    Retries(step, c) && step.confirmed
  }

  /** The worker with an open session is the only one on its candidate. */
  lemma SessionHolds(s: State, d: nat)
    requires Inv(s) && IsOpened(s, d) && s.jobs[d].phase.session
    ensures Held(s, CandidateOf(s, d), s.jobs[d].phase.attempt)
  {
    assert Intends(s, d);
    forall e: nat | InPhase(s, e) && CandidateOf(s, e) == CandidateOf(s, d)
      ensures Calm(s.jobs[e].phase)
    {
      assert s.jobs[e].phase.Claimed? ==> IsClaimed(s, e) && Intends(s, e);
      assert s.jobs[e].phase.Recorded? ==> IsRecorded(s, e) && Intends(s, e);
      assert s.jobs[e].phase.Opened? ==> Intends(s, e);
    }
  }

  // ------------------------------------------------- every step keeps it

  /** Jobs move, but none of c's into a phase that is not calm, and nothing else about c changes. */
  lemma HeldFrame(s: State, t: State, c: Candidate, i: nat)
    requires Held(s, c, i) && Latest(t.attempts, c) == Some(i)
    requires c in t.status && Parked(t.status[c])
    requires forall d: nat | InPhase(t, d) && CandidateOf(t, d) == c ::
               Calm(t.jobs[d].phase) || (InPhase(s, d) && CandidateOf(s, d) == c && s.jobs[d] == t.jobs[d])
    ensures Held(t, c, i)
  {
  }

  lemma HeldByMove(s: State, d: nat, job: Job, failures: set<nat>, c: Candidate, i: nat)
    requires Held(s, c, i) && (job.Active? ==> Calm(job.phase))
    ensures Held(DoMoveJob(s, d, job).(failures := failures), c, i)
  {
    HeldFrame(s, DoMoveJob(s, d, job).(failures := failures), c, i);
  }

  lemma HeldByForget(s: State, d: nat, c: Candidate, i: nat)
    requires Held(s, c, i)
    ensures Held(s.(jobs := s.jobs - {d}), c, i)
  {
    HeldFrame(s, s.(jobs := s.jobs - {d}), c, i);
  }

  lemma HeldByJobs(s: State, step: Step, c: Candidate, i: nat)
    requires Held(s, c, i) && Enabled(s, step) && OnlyMovesJob(step)
    ensures Held(Apply(s, step), c, i)
  {
    match step
    case Forget(d) => HeldByForget(s, d, c, i);
    case Click(_) =>
    case Publish(d) => HeldByMove(s, d, Waiting, s.failures, c, i);
    case Pick(d) => HeldByMove(s, d, Active(Picked), s.failures, c, i);
    case Postpone(d) => HeldByMove(s, d, Delayed, s.failures, c, i);
    case Skip(d) => HeldByMove(s, d, Completed, s.failures, c, i);
    case StopEarly(d) => HeldByMove(s, d, Active(Closing(ToCompleted)), s.failures, c, i);
    case OpenSession(d) => HeldByMove(s, d, Active(s.jobs[d].phase.(session := true)), s.failures, c, i);
    case NoteSubmission(d) => HeldByMove(s, d, Active(s.jobs[d].phase.(attempted := true)), s.failures, c, i);
    case ThrowUnrecorded(d) => HeldByMove(s, d, Active(Closing(ToFailed)), s.failures, c, i);
    case Leave(d) =>
      HeldByMove(s, d, EndJob(s.jobs[d].phase.end), if s.jobs[d].phase.end.ToFailed? then s.failures + {d} else s.failures, c, i);
    case Crash(d) => HeldByMove(s, d, Failed, s.failures + {d}, c, i);
  }

  lemma HeldByWorker(s: State, step: Step, c: Candidate, i: nat)
    requires Inv(s) && Held(s, c, i) && Enabled(s, step)
    requires step.Claim? || step.Tailor? || step.AlreadyApplied? || step.WriteVerdict?
    ensures Held(Apply(s, step), c, i)
  {
    HeldFrame(s, Apply(s, step), c, i);
  }

  lemma HeldByOpening(s: State, d: nat, x: Attempt, t: State, c: Candidate, i: nat)
    requires Inv(s) && Held(s, c, i) && IsClaimed(s, d) && x.candidate == CandidateOf(s, d)
    requires d in t.jobs && t == s.(jobs := s.jobs[d := t.jobs[d]], status := t.status, attempts := s.attempts + [x])
    requires forall c' | c' in s.status && c' != CandidateOf(s, d) :: c' in t.status && t.status[c'] == s.status[c']
    ensures Held(t, c, i)
  {
    AppendAttempt(s.attempts, x, c);
    HeldFrame(s, t, c, i);
  }

  lemma HeldByFence(s: State, d: nat, noted: bool, c: Candidate, i: nat)
    requires Inv(s) && Held(s, c, i) && CanFence(s, d)
    ensures Held(DoFence(s, d, noted), c, i)
  {
    FenceLog(s, d, noted);
    HeldFrame(s, DoFence(s, d, noted), c, i);
  }

  lemma HeldByEnd(s: State, d: nat, outcome: Outcome, c: Candidate, i: nat)
    requires Inv(s) && Held(s, c, i) && CanEnd(s, d, outcome)
    ensures Held(DoEnd(s, d, outcome), c, i)
  {
    SameFencesSameCounts(s.attempts, DoEnd(s, d, outcome).attempts, c);
    HeldFrame(s, DoEnd(s, d, outcome), c, i);
  }

  lemma HeldByDefer(s: State, d: nat, c: Candidate, i: nat)
    requires Inv(s) && Held(s, c, i) && CanDefer(s, d)
    ensures Held(DoDefer(s, d), c, i)
  {
    SameFencesSameCounts(s.attempts, DoDefer(s, d).attempts, c);
    HeldFrame(s, DoDefer(s, d), c, i);
  }

  lemma HeldByHandler(s: State, d: nat, c: Candidate, i: nat)
    requires Inv(s) && Held(s, c, i) && CanHandleFailure(s, d)
    ensures Held(DoHandleFailure(s, d), c, i)
  {
    SameFencesSameCounts(s.attempts, DoHandleFailure(s, d).attempts, c);
    HeldFrame(s, DoHandleFailure(s, d), c, i);
  }

  lemma HeldBySweep(s: State, swept: Candidate, attempt: Option<nat>, c: Candidate, i: nat)
    requires Inv(s) && Held(s, c, i) && CanSweep(s, swept, attempt)
    ensures Held(DoSweep(s, swept, attempt), c, i)
  {
    SameFencesSameCounts(s.attempts, DoSweep(s, swept, attempt).attempts, c);
    HeldFrame(s, DoSweep(s, swept, attempt), c, i);
  }

  lemma HeldByTables(s: State, step: Step, c: Candidate, i: nat)
    requires Inv(s) && Held(s, c, i) && Enabled(s, step) && !Retries(step, c)
    requires step.Enqueue? || step.ParkUnapplyable? || step.ReturnToDiscovered? || step.Cancel? || step.Retry?
    ensures Held(Apply(s, step), c, i)
  {
    var t := Apply(s, step);
    forall d: nat | InPhase(t, d) && CandidateOf(t, d) == c
      ensures InPhase(s, d) && CandidateOf(s, d) == c && s.jobs[d] == t.jobs[d]
    {
      assert d in s.jobs && d < |s.dispatches|;
    }
    HeldFrame(s, t, c, i);
  }

  /** Every step but a retry of c leaves c held at its newest attempt. */
  lemma HeldStays(s: State, step: Step, c: Candidate, i: nat)
    requires Inv(s) && Held(s, c, i) && Enabled(s, step) && !Retries(step, c)
    ensures Held(Apply(s, step), c, i)
  {
    if OnlyMovesJob(step) {
      HeldByJobs(s, step, c, i);
    } else if step.Claim? || step.Tailor? || step.AlreadyApplied? || step.WriteVerdict? {
      HeldByWorker(s, step, c, i);
    } else if step.Open? {
      HeldByOpening(s, step.d, Attempt(CandidateOf(s, step.d), "submitting", None, false), DoOpen(s, step.d), c, i);
    } else if step.AccountNeeded? {
      HeldByOpening(s, step.d, Attempt(CandidateOf(s, step.d), "needs_review", None, false), DoAccountNeeded(s, step.d), c, i);
    } else if step.Fence? {
      HeldByFence(s, step.d, step.noted, c, i);
    } else if step.End? {
      HeldByEnd(s, step.d, step.outcome, c, i);
    } else if step.Defer? {
      HeldByDefer(s, step.d, c, i);
    } else if step.HandleFailure? {
      HeldByHandler(s, step.d, c, i);
    } else if step.Sweep? {
      HeldBySweep(s, step.c, step.attempt, c, i);
    } else {
      HeldByTables(s, step, c, i);
    }
  }

  // -------------------------------------------------------- prefixes of runs

  lemma {:induction false} RunPrefix(s: State, steps: seq<Step>, n: nat)
    requires n <= |steps| && Run(s, steps).Some?
    ensures Run(s, steps[..n]).Some?
    decreases |steps|
  {
    if n < |steps| {
      RunPrefix(s, steps[..|steps| - 1], n);
      assert steps[..|steps| - 1][..n] == steps[..n];
    } else {
      assert steps[..n] == steps;
    }
  }

  /** The n-th step of a run is taken in the state the n steps before it lead to. */
  lemma RunStep(s: State, steps: seq<Step>, n: nat)
    requires n < |steps| && Run(s, steps).Some?
    ensures Run(s, steps[..n]).Some? && Run(s, steps[..n + 1]).Some?
    ensures Enabled(Run(s, steps[..n]).value, steps[n])
    ensures Run(s, steps[..n + 1]).value == Apply(Run(s, steps[..n]).value, steps[n])
  {
    RunPrefix(s, steps, n);
    RunPrefix(s, steps, n + 1);
    assert steps[..n + 1][..n] == steps[..n];
  }

  // ------------------------------------------------- after a doubtful end

  /** c's newest attempt ended in doubt, and c waits for its user. */
  ghost predicate InDoubt(s: State, c: Candidate, i: nat) {
    && Held(s, c, i)
    && s.attempts[i].status == "unknown" && s.attempts[i].error == Some(UNCERTAIN)
    && (forall d: nat | IsOpened(s, d) :: CandidateOf(s, d) != c)
  }

  lemma DoubtBegins(s: State, d: nat)
    requires Inv(s) && CanEnd(s, d, UncertainAfterThrow)
    ensures InDoubt(DoEnd(s, d, UncertainAfterThrow), CandidateOf(s, d), s.jobs[d].phase.attempt)
  {
    var t, c, i := DoEnd(s, d, UncertainAfterThrow), CandidateOf(s, d), s.jobs[d].phase.attempt;
    OpenedIsAlone(s, d);
    assert Intends(s, d);
    SameFencesSameCounts(s.attempts, t.attempts, c);
    forall e: nat | InPhase(t, e) && CandidateOf(t, e) == c
      ensures Calm(t.jobs[e].phase) && !t.jobs[e].phase.Opened?
    {
      if e != d {
        assert s.jobs[e].phase.Claimed? ==> IsClaimed(s, e);
        assert s.jobs[e].phase.Recorded? ==> IsRecorded(s, e) && Intends(s, e);
        assert s.jobs[e].phase.Opened? ==> IsOpened(s, e);
      }
    }
  }

  /** Rows are only ever rewritten by the worker that has them open, or while they are unfinished. */
  lemma FinishedRowStays(s: State, step: Step, i: nat)
    requires Inv(s) && Enabled(s, step) && i < |s.attempts| && !Unfinished(s.attempts[i])
    requires forall d: nat | IsOpened(s, d) :: s.jobs[d].phase.attempt != i
    ensures i < |Apply(s, step).attempts| && Apply(s, step).attempts[i] == s.attempts[i]
  {
  }

  /** A worker gets an attempt to work on only by opening one. */
  lemma OpenedOnlyByOpen(s: State, step: Step, d: nat)
    requires Inv(s) && Enabled(s, step) && IsOpened(Apply(s, step), d)
    ensures (step == Open(d) && IsClaimed(s, d)) || (IsOpened(s, d) && CandidateOf(Apply(s, step), d) == CandidateOf(s, d))
  {
    OpenedWasInPhase(s, step, d);
  }

  lemma OpenedWasInPhase(s: State, step: Step, d: nat)
    requires Inv(s) && Enabled(s, step) && InPhase(Apply(s, step), d) && Apply(s, step).jobs[d].phase.Opened?
    ensures d < |s.dispatches| && CandidateOf(Apply(s, step), d) == CandidateOf(s, d)
    ensures step == Open(d) || (InPhase(s, d) && s.jobs[d].phase.Opened?)
  {
  }

  lemma DoubtStays(s: State, step: Step, c: Candidate, i: nat)
    requires Inv(s) && InDoubt(s, c, i) && Enabled(s, step) && !Confirms(step, c)
    ensures InDoubt(Apply(s, step), c, i)
  {
    if Retries(step, c) {
      UncertainIsRefused(LatestView(s.attempts, c), step.appStatus, step.events);
      assert false;
    } else {
      HeldStays(s, step, c, i);
      forall d: nat | IsOpened(s, d)
        ensures s.jobs[d].phase.attempt != i
      {
        assert CandidateOf(s, d) != c && Latest(s.attempts, CandidateOf(s, d)) == Some(s.jobs[d].phase.attempt);
      }
      FinishedRowStays(s, step, i);
      forall d: nat | IsOpened(Apply(s, step), d)
        ensures CandidateOf(Apply(s, step), d) != c
      {
        OpenedOnlyByOpen(s, step, d);
      }
    }
  }

  /** No step in steps[from..upto] is a retry of c under the user's confirmation. */
  ghost predicate Unconfirmed(steps: seq<Step>, from: nat, upto: nat, c: Candidate) {
    upto <= |steps| && forall k :: from <= k < upto ==> !Confirms(steps[k], c)
  }

  lemma {:induction false} DoubtLasts(posting: map<Candidate, Posting>, steps: seq<Step>, n: nat, m: nat, c: Candidate, i: nat)
    requires n <= m <= |steps| && Run(Init(posting), steps).Some?
    requires Run(Init(posting), steps[..n]).Some? && InDoubt(Run(Init(posting), steps[..n]).value, c, i)
    requires Unconfirmed(steps, n, m, c)
    ensures Run(Init(posting), steps[..m]).Some? && InDoubt(Run(Init(posting), steps[..m]).value, c, i)
    decreases m - n
  {
    RunPrefix(Init(posting), steps, m);
    if n < m {
      DoubtLasts(posting, steps, n, m - 1, c, i);
      RunStep(Init(posting), steps, m - 1);
      RunKeeps(posting, steps[..m - 1]);
      DoubtStays(Run(Init(posting), steps[..m - 1]).value, steps[m - 1], c, i);
    }
  }

  /**
   * What the catch branch is for: once an attempt has ended in doubt, its row stays as it was
   * written, and no later attempt of that posting is opened unless the user confirms a retry.
   */
  lemma NothingAfterDoubt(posting: map<Candidate, Posting>, steps: seq<Step>, n: nat)
    requires n < |steps| && Run(Init(posting), steps).Some? && Run(Init(posting), steps[..n]).Some?
    requires steps[n].End? && steps[n].outcome.UncertainAfterThrow?
    requires var s := Run(Init(posting), steps[..n]).value;
             CanEnd(s, steps[n].d, UncertainAfterThrow) && Unconfirmed(steps, n + 1, |steps|, CandidateOf(s, steps[n].d))
    ensures var i := Run(Init(posting), steps[..n]).value.jobs[steps[n].d].phase.attempt;
            var a := Run(Init(posting), steps).value.attempts;
            && i < |a| && a[i].status == "unknown" && a[i].error == Some(UNCERTAIN)
            && (forall j :: 0 <= j < |a| && SamePosting(posting, a[i], a[j]) ==> j <= i)
  {
    var s, d := Run(Init(posting), steps[..n]).value, steps[n].d;
    var c, i := CandidateOf(s, d), s.jobs[d].phase.attempt;
    RunStep(Init(posting), steps, n);
    RunKeeps(posting, steps[..n]);
    DoubtBegins(s, d);
    assert steps[..|steps|] == steps;
    DoubtLasts(posting, steps, n + 1, |steps|, c, i);
    RunKeeps(posting, steps);
    var t := Run(Init(posting), steps).value;
    forall j | 0 <= j < |t.attempts| && SamePosting(posting, t.attempts[i], t.attempts[j])
      ensures j <= i
    {
      assert Owned(t, t.attempts[i].candidate) && Owned(t, t.attempts[j].candidate);
    }
  }
}
