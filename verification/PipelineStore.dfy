/**
 * The rows and jobs as the program keeps them, and the routines that update them in place. Every
 * routine is tied to the step system: what it leaves behind is what a run of Pipeline's steps
 * leaves behind, so everything proved there about runs holds of it.
 */
module PipelineStore {
  import opened Basics
  import opened Pipeline
  import PipelineSafety
  import RetryPolicy

  /** What the checks before an attempt is opened find. */
  datatype Setup = Refused | AccountPending | AlreadyDone | Proceed

  /** How the request for a browser ends. */
  datatype Browser = NoProfile | Busy | Broken(message: string) | Started

  /** The durable intent: written, refused (aborted or flagged), or written and reported as failed. */
  datatype Guard = Passes | Refuses | FailsLate

  /** What follows the form driver's click: a validation error, an exception, or the guard. */
  datatype Answer = Invalid | Broken(message: string) | Reached(guard: Guard, message: string)

  /**
   * What happens in the browser. The agent's tools ask the guard before they click; the form driver
   * clicks first and asks afterwards; and a confirmation nobody asked for is noted before it is asked.
   */
  datatype Act = GuardedClick(guard: Guard) | Noticed(guard: Guard) | FormClick(answer: Answer)

  datatype Finish =
    | Confirmed
    | Held(reason: string)
    | Open(error: Option<string>)
    | Unconfirmed
    | Blocked
    | Throws(confirmed: bool, message: string)

  /** Everything outside the program's control during one call. */
  datatype Script = Script(
    aborted: bool,
    stopped: bool,
    tailored: bool,
    setup: Setup,
    browser: Browser,
    acts: seq<Act>,
    finish: Finish)

  /** The steps after which the worker knows that a submit may have reached the provider. */
  predicate Notes(step: Step) {
    (step.Fence? && step.noted) || step.NoteSubmission?
  }

  /** Outcomes as the normal path and the catch branch choose them. */
  function OutcomeOf(finish: Finish, attempted: bool): Outcome {
    match finish
    case Confirmed => Submitted
    case Held(reason) => HeldBack(reason)
    case Open(error) => NotSubmitted(error)
    case Unconfirmed => SubmittedUnconfirmed
    case Blocked => ProviderBlocked
    case Throws(confirmed, message) =>
      if !attempted && !confirmed then ThrownBeforeSubmit(message)
      else if confirmed then ConfirmedAfterThrow
      else UncertainAfterThrow
  }

  // ------------------------------------------- the steps a script leads to

  /** Where the browser part has come to; `attempted` is the worker's own memory of a submit. */
  datatype Progress = Progress(log: Log, attempted: bool, thrown: Option<string>)

  function Begun(before: Log): Progress {
    Progress(before, false, None)
  }

  /** The guard as the form driver asks it, after its click. */
  function Guarded(d: nat, p: Progress, guard: Guard, message: string): Progress {
    if p.attempted then p.(thrown := Some("A submit was already attempted in this browser."))
    else
      match guard
      case Passes => p.(log := Then(p.log, Fence(d, true)), attempted := true)
      case Refuses => p.(thrown := Some(message))
      case FailsLate => p.(log := Then(p.log, Fence(d, false)), thrown := Some(message))
  }

  /**
   * One act. A tool whose guard refuses tells the agent so and clicks nothing; the form driver's
   * exception ends the browser part.
   */
  function Take(d: nat, p: Progress, act: Act): Progress {
    match act
    case GuardedClick(guard) =>
      if p.attempted || guard.Refuses? then p
      else if guard.Passes? then p.(log := Then(Then(p.log, Fence(d, true)), Click(d)), attempted := true)
      else p.(log := Then(p.log, Fence(d, false)))
    case Noticed(guard) =>
      if p.attempted then p
      else p.(log := Then(p.log, if guard.Refuses? then NoteSubmission(d) else Fence(d, true)), attempted := true)
    case FormClick(answer) =>
      var clicked := p.(log := Then(p.log, Click(d)));
      match answer
      case Invalid => clicked
      case Broken(message) => clicked.(thrown := Some(message))
      case Reached(guard, message) => Guarded(d, clicked, guard, message)
  }

  /** The first n acts; nothing follows an exception. */
  function TakeFirst(d: nat, p: Progress, acts: seq<Act>, n: nat): Progress
    requires n <= |acts|
  {
    if n == 0 then p
    else
      var q := TakeFirst(d, p, acts, n - 1);
      if q.thrown.Some? then q else Take(d, q, acts[n - 1])
  }

  function TakeAll(d: nat, before: Log, acts: seq<Act>): Progress {
    TakeFirst(d, Begun(before), acts, |acts|)
  }

  /** How the call ends after its browser part. */
  function Verdict(finish: Finish, p: Progress): Outcome {
    OutcomeOf(if p.thrown.Some? then Throws(false, p.thrown.value) else finish, p.attempted)
  }

  function CloseLog(before: Log, d: nat, outcome: Outcome): Log {
    Then(Then(before, End(d, outcome)), Step.WriteVerdict(d))
  }

  function BrowserLog(before: Log, d: nat, script: Script): Log {
    var p := TakeAll(d, Then(before, OpenSession(d)), script.acts);
    CloseLog(p.log, d, Verdict(script.finish, p))
  }

  function AttemptLog(before: Log, d: nat, script: Script): Log {
    var begun := Then(before, Step.Open(d));
    match script.browser
    case NoProfile => Then(begun, ThrowUnrecorded(d))
    case Busy => Then(Then(begun, Defer(d)), Step.WriteVerdict(d))
    case Broken(message) => CloseLog(begun, d, ThrownBeforeSubmit(message))
    case Started => BrowserLog(begun, d, script)
  }

  function TailorLog(before: Log, d: nat, tailored: bool): Log {
    if tailored then before else Then(before, Tailor(d))
  }

  function SetupLog(before: Log, d: nat, setup: Setup): Log {
    match setup
    case Refused => Then(before, ThrowUnrecorded(d))
    case AccountPending => Then(before, AccountNeeded(d))
    case AlreadyDone => Then(before, AlreadyApplied(d))
    case Proceed => before
  }

  /** The steps of one call for a claimed candidate. */
  function Course(before: Log, d: nat, script: Script): Log {
    if script.aborted then Then(before, ThrowUnrecorded(d))
    else if script.stopped then Then(before, StopEarly(d))
    else
      var ready := SetupLog(TailorLog(before, d, script.tailored), d, script.setup);
      if script.setup.Proceed? then AttemptLog(ready, d, script) else ready
  }

  /** What the worker reads before it looks at flags and lanes. */
  predicate Waits(s: State, d: nat) {
    d < |s.dispatches| && CandidateOf(s, d) in s.status && Claimable(s.status[CandidateOf(s, d)])
  }

  /** The steps of one job, given whether the candidate waited and whether the claim went through. */
  function JobLog(waiting: bool, held: bool, claimed: bool, d: nat, script: Script): Log {
    if !waiting then Then(Start, Skip(d))
    else if held then Then(Start, Postpone(d))
    else if !claimed then Then(Start, Skip(d))
    else Then(Course(Then(Start, Step.Claim(d)), d, script), Leave(d))
  }

  // ----------------------------------------------------- what they amount to

  predicate Records(act: Act) {
    match act
    case GuardedClick(guard) => guard.Passes?
    case Noticed(_) => true
    case FormClick(answer) => answer.Reached? && answer.guard.Passes?
  }

  /** Without a submit on record the act ends in an exception. */
  predicate Breaks(act: Act) {
    act.FormClick? && (act.answer.Broken? || (act.answer.Reached? && !act.answer.guard.Passes?))
  }

  /** Among the first n acts one puts a submit on record before any exception. */
  predicate RecordsBy(acts: seq<Act>, n: nat) {
    exists k :: 0 <= k < n <= |acts| && Records(acts[k]) && !BreaksBy(acts, k)
  }

  predicate BreaksBy(acts: seq<Act>, n: nat) {
    exists k :: 0 <= k < n <= |acts| && Breaks(acts[k])
  }

  lemma {:induction false} ProgressMeans(d: nat, before: Log, acts: seq<Act>, n: nat)
    requires n <= |acts|
    ensures var p := TakeFirst(d, Begun(before), acts, n);
            && (p.attempted <==> RecordsBy(acts, n))
            && (!p.attempted ==> (p.thrown.Some? <==> BreaksBy(acts, n)))
  {
    if n > 0 {
      ProgressMeans(d, before, acts, n - 1);
      var p := TakeFirst(d, Begun(before), acts, n - 1);
      assert RecordsBy(acts, n) <==> RecordsBy(acts, n - 1) || (Records(acts[n - 1]) && !BreaksBy(acts, n - 1));
      assert BreaksBy(acts, n) <==> BreaksBy(acts, n - 1) || Breaks(acts[n - 1]);
      if !p.attempted && p.thrown.None? {
        assert Take(d, p, acts[n - 1]).attempted <==> Records(acts[n - 1]);
      }
    }
  }

  /** How many submits the worker noted in a log. */
  function NoteCount(log: Log): nat {
    match log
    case Start => 0
    case Then(rest, step) => NoteCount(rest) + if Notes(step) then 1 else 0
  }

  predicate Noted(log: Log) {
    NoteCount(log) > 0
  }

  /** The script gets as far as an open browser. */
  predicate Reaches(script: Script) {
    !script.aborted && !script.stopped && script.setup.Proceed? && script.browser.Started?
  }

  lemma {:induction false} NotesOnce(d: nat, before: Log, acts: seq<Act>, n: nat)
    requires n <= |acts|
    ensures var p := TakeFirst(d, Begun(before), acts, n);
            NoteCount(p.log) == NoteCount(before) + if p.attempted then 1 else 0
  {
    if n > 0 {
      NotesOnce(d, before, acts, n - 1);
      TakeNotes(d, TakeFirst(d, Begun(before), acts, n - 1), acts[n - 1]);
    }
  }

  lemma TakeNotes(d: nat, p: Progress, act: Act)
    ensures var q := Take(d, p, act);
            && NoteCount(q.log) == NoteCount(p.log) + (if q.attempted && !p.attempted then 1 else 0)
            && (p.attempted ==> q.attempted)
  {
    var fenced, late := Then(p.log, Fence(d, true)), Then(p.log, Fence(d, false));
    var clicked := Then(p.log, Click(d));
    assert NoteCount(fenced) == NoteCount(p.log) + 1 && NoteCount(late) == NoteCount(clicked) == NoteCount(p.log);
    assert NoteCount(Then(fenced, Click(d))) == NoteCount(p.log) + 1;
    assert NoteCount(Then(clicked, Fence(d, true))) == NoteCount(p.log) + 1;
    assert NoteCount(Then(clicked, Fence(d, false))) == NoteCount(p.log);
  }

  /**
   * One call notes exactly one submit if its browser opens and some act puts one on record before
   * an exception, and none otherwise. A click that the form driver makes is not among them when it
   * is answered by a validation error or an exception, or when the guard refuses.
   */
  lemma CourseNotesOnce(before: Log, d: nat, script: Script)
    ensures NoteCount(Course(before, d, script)) ==
            NoteCount(before) + if Reaches(script) && RecordsBy(script.acts, |script.acts|) then 1 else 0
  {
    var tailored := TailorLog(before, d, script.tailored);
    assert NoteCount(tailored) == NoteCount(before);
    if !script.aborted && !script.stopped && script.setup.Proceed? {
      AttemptNotesOnce(tailored, d, script);
    }
  }

  lemma AttemptNotesOnce(before: Log, d: nat, script: Script)
    ensures NoteCount(AttemptLog(before, d, script)) ==
            NoteCount(before) + if script.browser.Started? && RecordsBy(script.acts, |script.acts|) then 1 else 0
  {
    var begun := Then(before, Step.Open(d));
    assert NoteCount(begun) == NoteCount(before);
    match script.browser
    case NoProfile =>
    case Busy =>
      assert NoteCount(Then(begun, Defer(d))) == NoteCount(begun);
    case Broken(message) =>
      ClosingNotesNothing(begun, d, ThrownBeforeSubmit(message));
    case Started =>
      var open := Then(begun, OpenSession(d));
      var p := TakeAll(d, open, script.acts);
      assert NoteCount(open) == NoteCount(begun);
      NotesOnce(d, open, script.acts, |script.acts|);
      ProgressMeans(d, open, script.acts, |script.acts|);
      ClosingNotesNothing(p.log, d, Verdict(script.finish, p));
  }

  lemma ClosingNotesNothing(before: Log, d: nat, outcome: Outcome)
    ensures NoteCount(CloseLog(before, d, outcome)) == NoteCount(before)
  {
    assert NoteCount(Then(before, End(d, outcome))) == NoteCount(before);
  }

  /** How a call ends, for the queue. */
  function Ending(script: Script): JobEnd {
    if script.aborted then ToFailed
    else if script.stopped then ToCompleted
    else
      match script.setup
      case Refused => ToFailed
      case AccountPending => ToCompleted
      case AlreadyDone => ToCompleted
      case Proceed =>
        match script.browser
        case NoProfile => ToFailed
        case Busy => ToDelayed
        case Broken(_) => ToFailed
        case Started => OutcomeEnd(Verdict(script.finish, TakeAll(0, Start, script.acts)))
  }

  /**
   * With an open browser, and so whenever submit can have been clicked, the call never defers; and
   * it fails if and only if no act puts a submit on record before an exception, and something
   * throws: the form driver's click or guard, or the rest of the call without a confirmation seen.
   */
  lemma FailsExactly(script: Script)
    requires Reaches(script)
    ensures !Ending(script).ToDelayed?
    ensures Ending(script).ToFailed? <==>
            && !RecordsBy(script.acts, |script.acts|)
            && (BreaksBy(script.acts, |script.acts|) || (script.finish.Throws? && !script.finish.confirmed))
  {
    ProgressMeans(0, Start, script.acts, |script.acts|);
  }

  /** What happens does not depend on the log it is added to. */
  lemma {:induction false} SameCourse(d: nat, e: nat, before: Log, other: Log, acts: seq<Act>, n: nat)
    requires n <= |acts|
    ensures var p, q := TakeFirst(d, Begun(before), acts, n), TakeFirst(e, Begun(other), acts, n);
            p.attempted == q.attempted && p.thrown == q.thrown
  {
    if n > 0 {
      SameCourse(d, e, before, other, acts, n - 1);
    }
  }

  /** Closed, and not as a failure. */
  predicate Uncertain(a: Attempt) {
    a.status in ["submitted", "unknown", "needs_review"]
  }

  /** Whatever a routine leaves behind keeps the invariant, so the theorems on runs apply to it. */
  lemma {:induction false} ReplayKeeps(s: State, log: Log)
    requires PipelineSafety.Inv(s) && Replay(s, log).Some?
    ensures PipelineSafety.Inv(Replay(s, log).value)
  {
    if log.Then? {
      ReplayKeeps(s, log.log);
      PipelineSafety.StepKeeps(Replay(s, log.log).value, log.step);
    }
  }

  class Store {
    const posting: map<Candidate, Posting>
    var status: map<Candidate, Status>
    var owner: map<Posting, Candidate>
    var attempts: seq<Attempt>
    var dispatches: seq<Dispatch>
    var jobs: map<nat, Job>
    ghost var failures: set<nat>
    ghost var waivers: seq<Candidate>

    ghost function Snapshot(): State
      reads this
    {
      State(posting, status, owner, attempts, dispatches, jobs, failures, waivers)
    }

    constructor (posting: map<Candidate, Posting>)
      ensures Snapshot() == Init(posting)
      ensures PipelineSafety.Inv(Snapshot())
    {
      this.posting := posting;
      status := map c | c in posting :: Discovered;
      owner, attempts, dispatches, jobs := map[], [], [], map[];
      failures, waivers := {}, [];
      new;
      PipelineSafety.RunKeeps(posting, []);
    }

    /** Dispatch d still counts for candidate c. */
    predicate Intended(d: nat, c: Candidate)
      requires d < |dispatches|
      reads this
    {
      dispatches[d].candidate == c && !dispatches[d].cancelled
    }

    // ------------------------------------------------------ single writes

    /** The conditional update that decides which worker may go on. */
    method Claim(d: nat) returns (claimed: bool)
      requires InPhase(Snapshot(), d) && jobs[d].phase.Picked?
      modifies this
      ensures claimed == CanClaim(old(Snapshot()), d)
      ensures Snapshot() == if claimed then DoClaim(old(Snapshot()), d) else old(Snapshot())
    {
      var c := dispatches[d].candidate;
      claimed := c in status && (status[c].Queued? || status[c].Tailored?) && !dispatches[d].cancelled;
      if claimed {
        status := status[c := Applying];
        jobs := jobs[d := Active(Claimed)];
      }
    }

    method MoveJob(d: nat, job: Job)
      modifies this
      ensures Snapshot() == DoMoveJob(old(Snapshot()), d, job)
    {
      jobs := jobs[d := job];
    }

    method SetStatus(c: Candidate, to: Status)
      modifies this
      ensures Snapshot() == DoSetStatus(old(Snapshot()), c, to)
    {
      status := status[c := to];
    }

    /** The account is not ready: an attempt row that asks the user to connect it. */
    method AskForAccount(d: nat)
      requires IsClaimed(Snapshot(), d)
      modifies this
      ensures Snapshot() == DoAccountNeeded(old(Snapshot()), d)
    {
      var c := dispatches[d].candidate;
      status := status[c := NeedsReview];
      attempts := attempts + [Attempt(c, "needs_review", None, false)];
      jobs := jobs[d := Active(Closing(ToCompleted))];
    }

    method OpenAttempt(d: nat) returns (attempt: nat)
      requires IsClaimed(Snapshot(), d)
      modifies this
      ensures attempt == |old(attempts)|
      ensures Snapshot() == DoOpen(old(Snapshot()), d)
    {
      var c := dispatches[d].candidate;
      attempt := |attempts|;
      attempts := attempts + [Attempt(c, "submitting", None, false)];
      status := status[c := Applying];
      jobs := jobs[d := Active(Opened(attempt, false, false))];
    }

    /** The durable intent: written before the worker's own memory of it. */
    method WriteFence(d: nat, noted: bool)
      requires CanFence(Snapshot(), d)
      modifies this
      ensures Snapshot() == DoFence(old(Snapshot()), d, noted)
    {
      var i := jobs[d].phase.attempt;
      attempts := attempts[i := attempts[i].(fenced := true, status := "submitting")];
      jobs := jobs[d := Active(jobs[d].phase.(attempted := noted))];
    }

    method CloseAttempt(d: nat, outcome: Outcome)
      requires CanEnd(Snapshot(), d, outcome)
      modifies this
      ensures Snapshot() == DoEnd(old(Snapshot()), d, outcome)
    {
      var i := jobs[d].phase.attempt;
      PutRow(d, i, Closed(attempts[i], outcome), Recorded(OutcomeEnd(outcome), OutcomeCandidate(outcome)));
    }

    /** One row and the worker's place in the routine. */
    method PutRow(d: nat, i: nat, row: Attempt, phase: Phase)
      requires i < |attempts|
      modifies this`attempts, this`jobs
      ensures Snapshot() == old(Snapshot()).(attempts := old(attempts)[i := row], jobs := old(jobs)[d := Active(phase)])
    {
      attempts := attempts[i := row];
      jobs := jobs[d := Active(phase)];
    }

    method DeferAttempt(d: nat)
      requires CanDefer(Snapshot(), d)
      modifies this
      ensures Snapshot() == DoDefer(old(Snapshot()), d)
    {
      var i := jobs[d].phase.attempt;
      var row := attempts[i].(status := "failed", error := Some("Browser is busy; deferred before opening application."));
      PutRow(d, i, row, Recorded(ToDelayed, Queued));
    }

    method WriteVerdict(d: nat)
      requires IsRecorded(Snapshot(), d)
      modifies this
      ensures Snapshot() == DoWriteVerdict(old(Snapshot()), d)
    {
      var Recorded(end, verdict) := jobs[d].phase;
      jobs := jobs[d := Active(Closing(end))];
      status := status[dispatches[d].candidate := verdict];
    }

    // ------------------------------------------------------ whole routines

    /** The candidate's status, written after the attempt row. */
    method Conclude(d: nat, ghost s: State, ghost before: Log) returns (ghost log: Log)
      requires Replay(s, before) == Some(Snapshot()) && IsRecorded(Snapshot(), d)
      modifies this
      ensures Snapshot() == DoWriteVerdict(old(Snapshot()), d)
      ensures log == Then(before, Step.WriteVerdict(d))
      ensures Replay(s, log) == Some(Snapshot()) && Noted(log) == Noted(before)
    {
      WriteVerdict(d);
      log := Then(before, Step.WriteVerdict(d));
    }

    /** Asks the guard for the form driver, whose click has already gone out. */
    method AskGuard(d: nat, guard: Guard, message: string, ghost s: State, ghost before: Log, known: bool)
      returns (attempted: bool, thrown: Option<string>, ghost log: Log)
      requires AtWork(s, before, d, known)
      modifies this
      ensures AtWork(s, log, d, attempted) && OnlyRow(old(Snapshot()), d)
      ensures Progress(log, attempted, thrown) == Guarded(d, Progress(before, known, None), guard, message)
    {
      attempted, thrown, log := known, None, before;
      if known {
        thrown := Some("A submit was already attempted in this browser.");
      } else {
        match guard
        case Passes =>
          WriteFence(d, true);
          attempted, log := true, Then(before, Fence(d, true));
        case Refuses =>
          thrown := Some(message);
        case FailsLate =>
          WriteFence(d, false);
          thrown, log := Some(message), Then(before, Fence(d, false));
      }
    }

    /** A tool's submit: guarded first, then clicked. */
    method ClickGuarded(d: nat, guard: Guard, ghost s: State, ghost before: Log, known: bool)
      returns (attempted: bool, ghost log: Log)
      requires AtWork(s, before, d, known)
      modifies this
      ensures AtWork(s, log, d, attempted) && OnlyRow(old(Snapshot()), d)
      ensures Progress(log, attempted, None) == Take(d, Progress(before, known, None), GuardedClick(guard))
    {
      attempted, log := known, before;
      if !known && !guard.Refuses? {
        if guard.Passes? {
          WriteFence(d, true);
          log := Then(before, Fence(d, true));
          assert Noted(log);
          attempted, log := true, Then(log, Click(d));
        } else {
          WriteFence(d, false);
          log := Then(before, Fence(d, false));
        }
      }
    }

    /** A confirmation nobody asked for counts as a submit even if the guard then refuses. */
    method NoteConfirmation(d: nat, guard: Guard, ghost s: State, ghost before: Log, known: bool)
      returns (attempted: bool, ghost log: Log)
      requires AtWork(s, before, d, known)
      modifies this
      ensures AtWork(s, log, d, attempted) && OnlyRow(old(Snapshot()), d)
      ensures Progress(log, attempted, None) == Take(d, Progress(before, known, None), Noticed(guard))
    {
      attempted, log := true, before;
      if !known {
        if guard.Refuses? {
          MoveJob(d, Active(jobs[d].phase.(attempted := true)));
          log := Then(before, NoteSubmission(d));
        } else {
          WriteFence(d, true);
          log := Then(before, Fence(d, true));
        }
      }
    }

    method TakeAct(d: nat, act: Act, ghost s: State, ghost before: Log, known: bool)
      returns (attempted: bool, thrown: Option<string>, ghost log: Log)
      requires AtWork(s, before, d, known)
      modifies this
      ensures AtWork(s, log, d, attempted) && OnlyRow(old(Snapshot()), d)
      ensures Progress(log, attempted, thrown) == Take(d, Progress(before, known, None), act)
    {
      attempted, thrown, log := known, None, before;
      match act
      case GuardedClick(guard) =>
        attempted, log := ClickGuarded(d, guard, s, before, known);
      case Noticed(guard) =>
        attempted, log := NoteConfirmation(d, guard, s, before, known);
      case FormClick(answer) =>
        log := Then(before, Click(d));
        match answer
        case Invalid =>
        case Broken(message) =>
          thrown := Some(message);
        case Reached(guard, message) =>
          attempted, thrown, log := AskGuard(d, guard, message, s, log, known);
    }

    /** The worker has its form open, and the log says what it did and what it knows. */
    ghost predicate AtWork(s: State, log: Log, d: nat, attempted: bool)
      reads this
    {
      && Replay(s, log) == Some(Snapshot()) && Noted(log) == attempted
      && IsOpened(Snapshot(), d) && jobs[d].phase.session && jobs[d].phase.attempted == attempted
    }

    /** Only the row of the attempt at work, and the worker's memory, differ from t. */
    ghost predicate OnlyRow(t: State, d: nat)
      reads this
    {
      && d in t.jobs && t.jobs[d].Active? && t.jobs[d].phase.Opened?
      && d in jobs && jobs[d].Active? && jobs[d].phase.Opened?
      && jobs[d].phase.attempt == t.jobs[d].phase.attempt
      && Snapshot() == t.(jobs := t.jobs[d := jobs[d]], attempts := attempts) && |attempts| == |t.attempts|
      && (forall i :: 0 <= i < |attempts| && i != jobs[d].phase.attempt ==> attempts[i] == t.attempts[i])
    }

    /** The browser part of one attempt: act after act, until one throws. */
    method UseBrowser(d: nat, acts: seq<Act>, ghost s: State, ghost before: Log)
      returns (attempted: bool, thrown: Option<string>, ghost log: Log)
      requires AtWork(s, before, d, false)
      modifies this
      ensures AtWork(s, log, d, attempted) && OnlyRow(old(Snapshot()), d)
      ensures Progress(log, attempted, thrown) == TakeAll(d, before, acts)
    {
      attempted, thrown, log := false, None, before;
      var i := 0;
      while i < |acts|
        invariant i <= |acts|
        invariant AtWork(s, log, d, attempted) && OnlyRow(old(Snapshot()), d)
        invariant Progress(log, attempted, thrown) == TakeFirst(d, Begun(before), acts, i)
      {
        if thrown.None? {
          attempted, thrown, log := TakeAct(d, acts[i], s, log, attempted);
        }
        i := i + 1;
      }
    }

    /** Closes the attempt with the outcome the normal path or the catch branch chose, then parks the candidate. */
    method Finish(d: nat, outcome: Outcome, ghost s: State, ghost before: Log) returns (ghost log: Log)
      requires Replay(s, before) == Some(Snapshot()) && CanEnd(Snapshot(), d, outcome)
      modifies this
      ensures Replay(s, log) == Some(Snapshot()) && Noted(log) == Noted(before)
      ensures log == CloseLog(before, d, outcome)
      ensures jobs == old(jobs)[d := Active(Closing(OutcomeEnd(outcome)))] && dispatches == old(dispatches)
      ensures |attempts| == |old(attempts)|
      ensures forall i :: 0 <= i < |attempts| && i != old(jobs[d].phase.attempt) ==> attempts[i] == old(attempts)[i]
      ensures attempts[old(jobs[d].phase.attempt)].status == OutcomeStatus(outcome)
      ensures status == old(status)[old(dispatches)[d].candidate := OutcomeCandidate(outcome)]
    {
      CloseAttempt(d, outcome);
      log := Then(before, End(d, outcome));
      log := Conclude(d, s, log);
    }

    /** The browser was busy before it opened: the attempt fails and the candidate waits again. */
    method PutOff(d: nat, ghost s: State, ghost before: Log) returns (ghost log: Log)
      requires Replay(s, before) == Some(Snapshot()) && CanDefer(Snapshot(), d)
      modifies this
      ensures Replay(s, log) == Some(Snapshot()) && Noted(log) == Noted(before)
      ensures log == Then(Then(before, Defer(d)), Step.WriteVerdict(d))
      ensures jobs == old(jobs)[d := Active(Closing(ToDelayed))] && dispatches == old(dispatches)
      ensures |attempts| == |old(attempts)|
      ensures forall i :: 0 <= i < |attempts| && i != old(jobs[d].phase.attempt) ==> attempts[i] == old(attempts)[i]
      ensures attempts[old(jobs[d].phase.attempt)].fenced == old(attempts)[old(jobs[d].phase.attempt)].fenced
      ensures status == old(status)[old(dispatches)[d].candidate := Queued]
    {
      DeferAttempt(d);
      log := Then(before, Defer(d));
      log := Conclude(d, s, log);
    }

    /** What the last check before an attempt row leads to. */
    method FollowSetup(d: nat, setup: Setup, ghost s: State, ghost before: Log) returns (end: JobEnd, ghost log: Log)
      requires Replay(s, before) == Some(Snapshot()) && !Noted(before) && IsClaimed(Snapshot(), d) && !setup.Proceed?
      modifies this
      ensures Replay(s, log) == Some(Snapshot()) && !Noted(log) && log == SetupLog(before, d, setup)
      ensures InPhase(Snapshot(), d) && jobs[d] == Active(Closing(end)) && !end.ToDelayed?
      ensures end.ToFailed? <==> setup.Refused?
      ensures old(attempts) <= attempts && |attempts| <= |old(attempts)| + 1
    {
      match setup
      case Refused =>
        MoveJob(d, Active(Closing(ToFailed)));
        end, log := ToFailed, Then(before, ThrowUnrecorded(d));
      case AccountPending =>
        AskForAccount(d);
        end, log := ToCompleted, Then(before, AccountNeeded(d));
      case AlreadyDone =>
        MoveJob(d, Active(Closing(ToCompleted)));
        SetStatus(dispatches[d].candidate, Applied);
        end, log := ToCompleted, Then(before, AlreadyApplied(d));
    }

    /** The checks before an attempt row exists; `ready` says that they let the worker go on. */
    method Prepare(d: nat, script: Script, ghost s: State, ghost before: Log)
      returns (ready: bool, end: JobEnd, ghost log: Log)
      requires Replay(s, before) == Some(Snapshot()) && !Noted(before) && IsClaimed(Snapshot(), d)
      modifies this
      ensures Replay(s, log) == Some(Snapshot()) && !Noted(log)
      ensures ready <==> !script.aborted && !script.stopped && script.setup.Proceed?
      ensures !ready ==> end == Ending(script)
      ensures if ready then log == TailorLog(before, d, script.tailored) else log == Course(before, d, script)
      ensures ready ==> IsClaimed(Snapshot(), d) && attempts == old(attempts) && dispatches == old(dispatches)
      ensures !ready ==> InPhase(Snapshot(), d) && jobs[d] == Active(Closing(end)) && !end.ToDelayed?
      ensures old(attempts) <= attempts && |attempts| <= |old(attempts)| + 1
    {
      ready, end, log := false, ToFailed, before;
      if script.aborted {
        MoveJob(d, Active(Closing(ToFailed)));
        log := Then(log, ThrowUnrecorded(d));
      } else if script.stopped {
        MoveJob(d, Active(Closing(ToCompleted)));
        end, log := ToCompleted, Then(log, StopEarly(d));
      } else {
        if !script.tailored {
          SetStatus(dispatches[d].candidate, Tailored);
          log := Then(log, Tailor(d));
        }
        assert Replay(s, log) == Some(Snapshot()) && !Noted(log);
        if script.setup.Proceed? {
          ready := true;
        } else {
          end, log := FollowSetup(d, script.setup, s, log);
        }
      }
    }

    /** From the open browser to the last write. */
    method FillAndSubmit(d: nat, script: Script, ghost s: State, ghost before: Log) returns (end: JobEnd, ghost log: Log)
      requires Replay(s, before) == Some(Snapshot()) && !Noted(before)
      requires IsOpened(Snapshot(), d) && jobs[d] == Active(Opened(jobs[d].phase.attempt, false, false))
      modifies this
      ensures Replay(s, log) == Some(Snapshot()) && log == BrowserLog(before, d, script)
      ensures InPhase(Snapshot(), d) && jobs[d] == Active(Closing(end)) && !end.ToDelayed?
      ensures end == OutcomeEnd(Verdict(script.finish, TakeAll(0, Start, script.acts)))
      ensures |attempts| == |old(attempts)|
      ensures forall i :: 0 <= i < |attempts| && i != old(jobs[d].phase.attempt) ==> attempts[i] == old(attempts)[i]
      ensures var c := old(dispatches)[d].candidate;
              c in status && (status[c].NeedsReview? || status[c].Applied?)
      ensures Noted(log) ==> end.ToCompleted? && Uncertain(attempts[old(jobs[d].phase.attempt)])
    {
      MoveJob(d, Active(jobs[d].phase.(session := true)));
      log := Then(before, OpenSession(d));
      var attempted, thrown;
      attempted, thrown, log := UseBrowser(d, script.acts, s, log);
      var outcome := OutcomeOf(if thrown.Some? then Throws(false, thrown.value) else script.finish, attempted);
      SameCourse(d, 0, Then(before, OpenSession(d)), Start, script.acts, |script.acts|);
      log := Finish(d, outcome, s, log);
      end := OutcomeEnd(outcome);
    }

    method Begin(d: nat, ghost s: State, ghost before: Log) returns (ghost log: Log)
      requires Replay(s, before) == Some(Snapshot()) && !Noted(before) && IsClaimed(Snapshot(), d)
      modifies this
      ensures Snapshot() == DoOpen(old(Snapshot()), d)
      ensures Replay(s, log) == Some(Snapshot()) && !Noted(log) && log == Then(before, Step.Open(d))
    {
      var _ := OpenAttempt(d);
      log := Then(before, Step.Open(d));
    }

    /** From the new attempt row to the last write. */
    method RunAttempt(d: nat, script: Script, ghost s: State, ghost before: Log) returns (end: JobEnd, ghost log: Log)
      requires Replay(s, before) == Some(Snapshot()) && !Noted(before) && IsClaimed(Snapshot(), d)
      modifies this
      ensures Replay(s, log) == Some(Snapshot()) && log == AttemptLog(before, d, script)
      ensures InPhase(Snapshot(), d) && jobs[d] == Active(Closing(end))
      ensures !script.aborted && !script.stopped && script.setup.Proceed? ==> end == Ending(script)
      ensures old(attempts) < attempts && |attempts| == |old(attempts)| + 1
      ensures var c := old(dispatches)[d].candidate;
              var last := attempts[|old(attempts)|];
              && c in status
              && (Noted(log) ==>
                    && end.ToCompleted?
                    && Uncertain(last)
                    && (status[c].NeedsReview? || status[c].Applied?))
              && (end.ToDelayed? ==> !last.fenced && status[c].Queued?)
    {
      log := Begin(d, s, before);
      match script.browser
      case NoProfile =>
        MoveJob(d, Active(Closing(ToFailed)));
        end, log := ToFailed, Then(log, ThrowUnrecorded(d));
      case Busy =>
        log := PutOff(d, s, log);
        end := ToDelayed;
      case Broken(message) =>
        log := Finish(d, ThrownBeforeSubmit(message), s, log);
        end := ToFailed;
      case Started =>
        end, log := FillAndSubmit(d, script, s, log);
    }

    /**
     * One call of the long routine that applies for a claimed candidate. Its effect is a run of
     * steps; it adds at most one attempt and rewrites no older one; it ends as Ending says, whose
     * failures with an open browser FailsExactly describes; and once the worker has noted a submit
     * the call neither fails nor defers, whatever throws afterwards.
     */
    method ApplyApprovedCandidate(d: nat, script: Script, ghost s: State, ghost before: Log)
      returns (end: JobEnd, ghost log: Log)
      requires Replay(s, before) == Some(Snapshot()) && !Noted(before) && IsClaimed(Snapshot(), d)
      modifies this
      ensures Replay(s, log) == Some(Snapshot()) && log == Course(before, d, script)
      ensures InPhase(Snapshot(), d) && jobs[d] == Active(Closing(end)) && end == Ending(script)
      ensures old(attempts) <= attempts && |attempts| <= |old(attempts)| + 1
      ensures Noted(log) ==>
                var c := old(dispatches)[d].candidate;
                && end.ToCompleted? && |attempts| == |old(attempts)| + 1
                && Uncertain(attempts[|old(attempts)|])
                && c in status && (status[c].NeedsReview? || status[c].Applied?)
      ensures end.ToDelayed? ==>
                var c := old(dispatches)[d].candidate;
                && |attempts| == |old(attempts)| + 1 && !attempts[|old(attempts)|].fenced
                && c in status && status[c].Queued?
    {
      var ready;
      ready, end, log := Prepare(d, script, s, before);
      if ready {
        end, log := RunAttempt(d, script, s, log);
      }
    }

    /** The worker's outer routine, entered with a job just taken from the queue. */
    method RunJob(d: nat, flagged: bool, laneFree: bool, script: Script) returns (ghost log: Log)
      requires InPhase(Snapshot(), d) && jobs[d].phase.Picked?
      modifies this
      ensures Replay(old(Snapshot()), log) == Some(Snapshot())
      ensures log == JobLog(Waits(old(Snapshot()), d), flagged || !laneFree, CanClaim(old(Snapshot()), d), d, script)
      ensures d in jobs && !jobs[d].Active?
      ensures CanClaim(old(Snapshot()), d) && !flagged && laneFree ==> jobs[d] == EndJob(Ending(script))
      ensures !CanClaim(old(Snapshot()), d) ==> attempts == old(attempts) && status == old(status)
      ensures flagged || !laneFree ==> attempts == old(attempts) && status == old(status)
      ensures old(attempts) <= attempts && |attempts| <= |old(attempts)| + 1
      ensures Noted(log) ==> jobs[d].Completed?
    {
      log := Start;
      assert !Noted(log);
      var c := dispatches[d].candidate;
      if !(c in status && (status[c].Queued? || status[c].Tailored?)) {
        MoveJob(d, Completed);
        log := Then(log, Skip(d));
      } else if flagged || !laneFree {
        MoveJob(d, Delayed);
        log := Then(log, Postpone(d));
      } else {
        log := ClaimAndApply(d, script);
      }
    }

    method ClaimAndApply(d: nat, script: Script) returns (ghost log: Log)
      requires InPhase(Snapshot(), d) && jobs[d].phase.Picked?
      modifies this
      ensures Replay(old(Snapshot()), log) == Some(Snapshot())
      ensures log == JobLog(true, false, CanClaim(old(Snapshot()), d), d, script)
      ensures d in jobs && !jobs[d].Active?
      ensures CanClaim(old(Snapshot()), d) ==> jobs[d] == EndJob(Ending(script))
      ensures !CanClaim(old(Snapshot()), d) ==> attempts == old(attempts) && status == old(status)
      ensures old(attempts) <= attempts && |attempts| <= |old(attempts)| + 1
      ensures Noted(log) ==> jobs[d].Completed?
    {
      ghost var s := Snapshot();
      var claimed := Claim(d);
      if !claimed {
        MoveJob(d, Completed);
        log := Then(Start, Skip(d));
        assert !Noted(Start);
        return;
      }
      log := Then(Start, Step.Claim(d));
      assert Replay(s, Start) == Some(s) && !Noted(Start);
      log := ApplyClaimed(d, script, s, log);
    }

    /** The queue marks the job as the worker's return or exception says. */
    method LeaveJob(d: nat, ghost s: State, ghost before: Log) returns (ghost log: Log)
      requires Replay(s, before) == Some(Snapshot())
      requires InPhase(Snapshot(), d) && jobs[d].phase.Closing?
      modifies this
      ensures Snapshot() == DoLeave(old(Snapshot()), d)
      ensures Replay(s, log) == Some(Snapshot()) && Noted(log) == Noted(before) && log == Then(before, Leave(d))
    {
      var end := jobs[d].phase.end;
      failures := if end.ToFailed? then failures + {d} else failures;
      jobs := jobs[d := EndJob(end)];
      log := Then(before, Leave(d));
    }

    /** The claimed part of the routine, up to the queue's own bookkeeping. */
    method ApplyClaimed(d: nat, script: Script, ghost s: State, ghost before: Log) returns (ghost log: Log)
      requires Replay(s, before) == Some(Snapshot()) && !Noted(before) && IsClaimed(Snapshot(), d)
      modifies this
      ensures Replay(s, log) == Some(Snapshot()) && log == Then(Course(before, d, script), Leave(d))
      ensures d in jobs && jobs[d] == EndJob(Ending(script))
      ensures old(attempts) <= attempts && |attempts| <= |old(attempts)| + 1
      ensures Noted(log) ==> jobs[d].Completed?
    {
      var end;
      end, log := ApplyApprovedCandidate(d, script, s, before);
      log := LeaveJob(d, s, log);
    }

    /** The failure handler goes by candidate: it closes every unfinished row and parks what still waits. */
    method HandleFailedJob(d: nat) returns (counted: bool)
      requires CanHandleFailure(Snapshot(), d)
      modifies this
      ensures Snapshot() == DoHandleFailure(old(Snapshot()), d)
      ensures counted == (status != old(status))
    {
      var c := dispatches[d].candidate;
      attempts := CloseUnfinished(attempts, c, "Application job failed before completion");
      counted := status[c].Queued? || status[c].Applying?;
      if counted {
        status := status[c := NeedsReview];
      }
    }

    /** Cancelling removes waiting work; a job that has started makes the whole transaction roll back. */
    method Cancel(c: Candidate) returns (cancelled: bool)
      modifies this
      ensures cancelled == CanCancel(old(Snapshot()), c)
      ensures Snapshot() == if cancelled then DoCancel(old(Snapshot()), c) else old(Snapshot())
    {
      cancelled :=
        && c in status && (status[c].Approved? || Claimable(status[c]))
        && forall d :: 0 <= d < |dispatches| && Intended(d, c) ==> !(d in jobs && jobs[d].Active?);
      if cancelled {
        var work := map d | d in jobs && !(d < |dispatches| && dispatches[d].candidate == c && !dispatches[d].cancelled) :: jobs[d];
        jobs := work;
        dispatches := CancelAll(dispatches, c);
        status := status[c := Rejected];
      }
    }

    /** A retry is refused on the newest attempt's evidence; otherwise the old intents give way to a new one. */
    method Retry(c: Candidate, appStatus: string, events: seq<RetryPolicy.Event>, confirmed: bool)
      returns (refusal: Option<RetryPolicy.Refusal>, queued: bool)
      requires PipelineSafety.Owned(Snapshot(), c) && c in status
      modifies this
      ensures refusal == RetryPolicy.SafeRetryReason(appStatus, LatestView(old(attempts), c), events, confirmed)
      ensures queued == CanRetry(old(Snapshot()), c, appStatus, events, confirmed)
      ensures Snapshot() == if queued then DoRetry(old(Snapshot()), c, confirmed) else old(Snapshot())
    {
      queued := false;
      refusal := RetryPolicy.SafeRetryReason(appStatus, LatestView(attempts, c), events, confirmed);
      if refusal.Some? || exists d :: 0 <= d < |dispatches| && Intended(d, c) && d in jobs && !jobs[d].Completed? && !jobs[d].Failed? {
        return;
      }
      dispatches := CancelAll(dispatches, c) + [Dispatch(c, false)];
      status := status[c := Queued];
      waivers := if confirmed then waivers + [c] else waivers;
      queued := true;
    }
  }
}
