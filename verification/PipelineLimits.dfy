/**
 * The limit on clicks: the form driver clicks submit before it writes the fence, so a limit on
 * fences is not yet one on clicks. Which retries lead to a second click, exactly; and what a worker
 * that outlives its job can do to the limit on fences.
 */
module PipelineLimits {
  import opened Basics
  import opened Pipeline
  import opened PipelineSafety
  import opened PipelineHolds
  import RetryPolicy

  // ---------------------------------------------------------------- clicks

  /** The attempt a step clicks submit for. */
  function ClickOf(s: State, step: Step): set<nat> {
    if step.Click? && IsOpened(s, step.d) then {s.jobs[step.d].phase.attempt} else {}
  }

  /** The step clicks submit for c. */
  predicate ClicksFor(s: State, step: Step, c: Candidate) {
    step.Click? && IsOpened(s, step.d) && CandidateOf(s, step.d) == c
  }

  /** The attempts for which submit was clicked in a run. */
  function Clicked(posting: map<Candidate, Posting>, steps: seq<Step>): set<nat>
    decreases |steps|
  {
    if steps == [] then {}
    else
      var init := steps[..|steps| - 1];
      Clicked(posting, init) + match Run(Init(posting), init)
                               case None => {}
                               case Some(mid) => ClickOf(mid, steps[|steps| - 1])
  }

  /** The attempts of one candidate for which submit was clicked. */
  function ClickedFor(posting: map<Candidate, Posting>, steps: seq<Step>, attempts: seq<Attempt>, c: Candidate): set<nat> {
    set i | i in Clicked(posting, steps) && i < |attempts| && attempts[i].candidate == c
  }

  /** c was clicked for, and its user has confirmed no retry since. */
  function Unanswered(posting: map<Candidate, Posting>, steps: seq<Step>, c: Candidate): bool
    decreases |steps|
  {
    if steps == [] then false
    else
      var init, last := steps[..|steps| - 1], steps[|steps| - 1];
      match Run(Init(posting), init)
      case None => false
      case Some(mid) => ClicksFor(mid, last, c) || (!Confirms(last, c) && Unanswered(posting, init, c))
  }

  /** No retry of c goes ahead on the program's own judgement while a click for c is unanswered. */
  predicate Careful(posting: map<Candidate, Posting>, steps: seq<Step>, c: Candidate)
    decreases |steps|
  {
    steps == [] ||
    (var init, last := steps[..|steps| - 1], steps[|steps| - 1];
     Careful(posting, init, c) && (Retries(last, c) && !last.confirmed ==> !Unanswered(posting, init, c)))
  }

  /** Rows are added at the end and stay their candidate's. */
  lemma RowsStay(s: State, step: Step)
    requires Inv(s) && Enabled(s, step)
    ensures |s.attempts| <= |Apply(s, step).attempts|
    ensures forall i :: 0 <= i < |s.attempts| ==> Apply(s, step).attempts[i].candidate == s.attempts[i].candidate
  {
  }

  lemma {:induction false} ClickedExist(posting: map<Candidate, Posting>, steps: seq<Step>)
    requires Run(Init(posting), steps).Some?
    ensures forall i :: i in Clicked(posting, steps) ==> i < |Run(Init(posting), steps).value.attempts|
    decreases |steps|
  {
    if steps != [] {
      var init := steps[..|steps| - 1];
      ClickedExist(posting, init);
      RunKeeps(posting, init);
      RowsStay(Run(Init(posting), init).value, steps[|steps| - 1]);
    }
  }

  /** What an unanswered click means for the state: c is held at a clicked attempt. */
  ghost predicate HeldAtClick(posting: map<Candidate, Posting>, steps: seq<Step>, s: State, c: Candidate) {
    exists i: nat :: i in Clicked(posting, steps) && Held(s, c, i)
  }

  lemma {:induction false} UnansweredHolds(posting: map<Candidate, Posting>, steps: seq<Step>, c: Candidate)
    requires Run(Init(posting), steps).Some? && Careful(posting, steps, c) && Unanswered(posting, steps, c)
    ensures HeldAtClick(posting, steps, Run(Init(posting), steps).value, c)
    decreases |steps|
  {
    var init, last := steps[..|steps| - 1], steps[|steps| - 1];
    var mid := Run(Init(posting), init).value;
    RunKeeps(posting, init);
    if ClicksFor(mid, last, c) {
      SessionHolds(mid, last.d);
      assert Held(Apply(mid, last), c, mid.jobs[last.d].phase.attempt);
    } else {
      UnansweredHolds(posting, init, c);
      var i: nat :| i in Clicked(posting, init) && Held(mid, c, i);
      HeldStays(mid, last, c, i);
      assert i in Clicked(posting, steps);
    }
  }

  /** The set of clicked attempts after one more step. */
  lemma ClickedForGrows(posting: map<Candidate, Posting>, steps: seq<Step>, c: Candidate)
    requires steps != [] && Run(Init(posting), steps).Some?
    ensures var init, last := steps[..|steps| - 1], steps[|steps| - 1];
            var mid, s := Run(Init(posting), init).value, Run(Init(posting), steps).value;
            ClickedFor(posting, steps, s.attempts, c) ==
            ClickedFor(posting, init, mid.attempts, c) + if ClicksFor(mid, last, c) then {mid.jobs[last.d].phase.attempt} else {}
  {
    var init, last := steps[..|steps| - 1], steps[|steps| - 1];
    var mid := Run(Init(posting), init).value;
    RunKeeps(posting, init);
    RowsStay(mid, last);
    ClickedExist(posting, init);
    if last.Click? {
      assert InPhase(mid, last.d) && Latest(mid.attempts, CandidateOf(mid, last.d)) == Some(mid.jobs[last.d].phase.attempt);
    }
  }

  lemma WaivedGrows(s: State, step: Step, c: Candidate)
    requires Enabled(s, step)
    ensures Waived(Apply(s, step).waivers, c) == Waived(s.waivers, c) + if Confirms(step, c) then 1 else 0
  {
    if step.Retry? && step.confirmed {
      assert (s.waivers + [step.c])[..|s.waivers|] == s.waivers;
    }
  }

  ghost predicate WithinLimit(posting: map<Candidate, Posting>, steps: seq<Step>, s: State, c: Candidate) {
    var n := |ClickedFor(posting, steps, s.attempts, c)|;
    n <= Waived(s.waivers, c) + 1 && (n == Waived(s.waivers, c) + 1 ==> Unanswered(posting, steps, c))
  }

  lemma {:induction false} LimitKept(posting: map<Candidate, Posting>, steps: seq<Step>, c: Candidate)
    requires Run(Init(posting), steps).Some? && Careful(posting, steps, c)
    ensures WithinLimit(posting, steps, Run(Init(posting), steps).value, c)
    decreases |steps|
  {
    if steps == [] {
      assert ClickedFor(posting, steps, Init(posting).attempts, c) == {};
    } else {
      var init, last := steps[..|steps| - 1], steps[|steps| - 1];
      var mid := Run(Init(posting), init).value;
      LimitKept(posting, init, c);
      ClickedForGrows(posting, steps, c);
      WaivedGrows(mid, last, c);
      if ClicksFor(mid, last, c) && Unanswered(posting, init, c) {
        SameClick(posting, init, mid, last, c);
      }
    }
  }

  /** While a click is unanswered, another click for c is one for the same attempt. */
  lemma SameClick(posting: map<Candidate, Posting>, init: seq<Step>, mid: State, last: Step, c: Candidate)
    requires Run(Init(posting), init) == Some(mid) && Careful(posting, init, c) && Unanswered(posting, init, c)
    requires ClicksFor(mid, last, c)
    ensures mid.jobs[last.d].phase.attempt in ClickedFor(posting, init, mid.attempts, c)
  {
    RunKeeps(posting, init);
    UnansweredHolds(posting, init, c);
    assert InPhase(mid, last.d) && Latest(mid.attempts, c) == Some(mid.jobs[last.d].phase.attempt);
  }

  /**
   * The limit on clicks: a candidate is clicked for at most once more than its user confirmed, in
   * every run that retries it without a confirmation only when no click for it is unanswered.
   */
  lemma ClicksAreBounded(posting: map<Candidate, Posting>, steps: seq<Step>, c: Candidate)
    requires Run(Init(posting), steps).Some? && Careful(posting, steps, c)
    ensures var s := Run(Init(posting), steps).value;
            |ClickedFor(posting, steps, s.attempts, c)| <= Waived(s.waivers, c) + 1
  {
    LimitKept(posting, steps, c);
  }

  // ------------------------------------------------ the rule as a guard

  /** c's newest attempt was clicked and carries no fence: what a careful retry route would look at. */
  ghost predicate ClickedUnfenced(posting: map<Candidate, Posting>, steps: seq<Step>, s: State, c: Candidate) {
    var newest := Latest(s.attempts, c);
    newest.Some? && newest.value in Clicked(posting, steps) && !s.attempts[newest.value].fenced
  }

  /** No retry of c goes ahead unconfirmed while its newest attempt is clicked and unfenced. */
  ghost predicate Watchful(posting: map<Candidate, Posting>, steps: seq<Step>, c: Candidate)
    decreases |steps|
  {
    steps == [] ||
    (var init, last := steps[..|steps| - 1], steps[|steps| - 1];
     && Watchful(posting, init, c)
     && (Retries(last, c) && !last.confirmed && Run(Init(posting), init).Some? ==>
           !ClickedUnfenced(posting, init, Run(Init(posting), init).value, c)))
  }

  /** Looking at the newest attempt is enough: an older click is unanswered only if the newest is. */
  lemma {:induction false} WatchfulIsCareful(posting: map<Candidate, Posting>, steps: seq<Step>, c: Candidate)
    requires Run(Init(posting), steps).Some? && Watchful(posting, steps, c)
    ensures Careful(posting, steps, c)
    decreases |steps|
  {
    if steps != [] {
      var init, last := steps[..|steps| - 1], steps[|steps| - 1];
      var mid := Run(Init(posting), init).value;
      WatchfulIsCareful(posting, init, c);
      if Retries(last, c) && !last.confirmed {
        FencedIsRefused(posting, init, mid, last, c);
      }
    }
  }

  /** The policy refuses a fenced newest attempt, so only an unfenced one can leave a click unanswered. */
  lemma FencedIsRefused(posting: map<Candidate, Posting>, init: seq<Step>, mid: State, last: Step, c: Candidate)
    requires Run(Init(posting), init) == Some(mid) && Careful(posting, init, c)
    requires Retries(last, c) && !last.confirmed && CanRetry(mid, c, last.appStatus, last.events, false)
    requires !ClickedUnfenced(posting, init, mid, c)
    ensures !Unanswered(posting, init, c)
  {
    if Unanswered(posting, init, c) {
      UnansweredHolds(posting, init, c);
      RetryPolicy.UnconfirmedRetryIsUnfenced(last.appStatus, LatestView(mid.attempts, c), last.events);
      assert false;
    }
  }

  // -------------------------------------------- exactly which retries

  /** The last step of a run clicks submit for attempt i of c. */
  predicate EndsInClick(posting: map<Candidate, Posting>, steps: seq<Step>, c: Candidate, i: nat) {
    steps != [] &&
    match Run(Init(posting), steps[..|steps| - 1])
    case None => false
    case Some(s) => ClicksFor(s, steps[|steps| - 1], c) && s.jobs[steps[|steps| - 1].d].phase.attempt == i
  }

  /** The first n steps end in a click for attempt i of c, the first m in one for attempt j, and nothing was confirmed in between. */
  ghost predicate DoubledAt(posting: map<Candidate, Posting>, steps: seq<Step>, c: Candidate, n: nat, m: nat, i: nat, j: nat) {
    && n <= m <= |steps| && i != j
    && EndsInClick(posting, steps[..n], c, i) && EndsInClick(posting, steps[..m], c, j)
    && Unconfirmed(steps, n, m, c)
  }

  ghost predicate Doubled(posting: map<Candidate, Posting>, steps: seq<Step>, c: Candidate) {
    exists n: nat, m: nat, i: nat, j: nat :: DoubledAt(posting, steps, c, n, m, i, j)
  }

  lemma {:induction false} CarefulPrefix(posting: map<Candidate, Posting>, steps: seq<Step>, n: nat, c: Candidate)
    requires n <= |steps| && Careful(posting, steps, c)
    ensures Careful(posting, steps[..n], c)
    decreases |steps|
  {
    if n < |steps| {
      CarefulPrefix(posting, steps[..|steps| - 1], n, c);
      assert steps[..|steps| - 1][..n] == steps[..n];
    } else {
      assert steps[..n] == steps;
    }
  }

  /** A click for c is unanswered, and attempt i is where it is held. */
  ghost predicate HeldAfter(posting: map<Candidate, Posting>, steps: seq<Step>, c: Candidate, i: nat) {
    Run(Init(posting), steps).Some? && Unanswered(posting, steps, c) && Held(Run(Init(posting), steps).value, c, i)
  }

  /** One careful step without a confirmation leaves it there. */
  lemma HeldNext(posting: map<Candidate, Posting>, steps: seq<Step>, c: Candidate, i: nat)
    requires steps != [] && Run(Init(posting), steps).Some? && Careful(posting, steps, c)
    requires HeldAfter(posting, steps[..|steps| - 1], c, i) && !Confirms(steps[|steps| - 1], c)
    ensures HeldAfter(posting, steps, c, i)
  {
    var init := steps[..|steps| - 1];
    RunKeeps(posting, init);
    HeldStays(Run(Init(posting), init).value, steps[|steps| - 1], c, i);
  }

  /** The click itself. */
  lemma HeldAtOnce(posting: map<Candidate, Posting>, steps: seq<Step>, c: Candidate, i: nat)
    requires Run(Init(posting), steps).Some? && EndsInClick(posting, steps, c, i)
    ensures HeldAfter(posting, steps, c, i)
  {
    var init := steps[..|steps| - 1];
    RunKeeps(posting, init);
    SessionHolds(Run(Init(posting), init).value, steps[|steps| - 1].d);
  }

  /** From a click on, the click stays unanswered and its attempt stays the newest, until a confirmation. */
  lemma {:induction false} HeldSinceClick(posting: map<Candidate, Posting>, steps: seq<Step>, c: Candidate, n: nat, i: nat)
    requires n <= |steps| && Run(Init(posting), steps).Some? && Careful(posting, steps, c)
    requires EndsInClick(posting, steps[..n], c, i) && Unconfirmed(steps, n, |steps|, c)
    ensures HeldAfter(posting, steps, c, i)
    decreases |steps|
  {
    if n == |steps| {
      assert steps[..n] == steps;
      HeldAtOnce(posting, steps, c, i);
    } else {
      var init := steps[..|steps| - 1];
      assert init[..n] == steps[..n];
      HeldSinceClick(posting, init, c, n, i);
      HeldNext(posting, steps, c, i);
    }
  }

  /** A careful run never clicks for a second attempt unless the user confirmed that in between. */
  lemma CarefulNeverDoubles(posting: map<Candidate, Posting>, steps: seq<Step>, c: Candidate)
    requires Run(Init(posting), steps).Some? && Careful(posting, steps, c)
    ensures !Doubled(posting, steps, c)
  {
    forall n: nat, m: nat, i: nat, j: nat | DoubledAt(posting, steps, c, n, m, i, j)
      ensures false
    {
      var prefix := steps[..m];
      RunPrefix(Init(posting), steps, m);
      CarefulPrefix(posting, steps, m, c);
      assert prefix[..n] == steps[..n];
      HeldSinceClick(posting, prefix, c, n, i);
      HeldAtOnce(posting, prefix, c, j);
    }
  }

  /** An unanswered click has a place in the run. */
  lemma {:induction false} UnansweredSince(posting: map<Candidate, Posting>, steps: seq<Step>, c: Candidate)
    returns (n: nat, i: nat)
    requires Run(Init(posting), steps).Some? && Unanswered(posting, steps, c)
    ensures n <= |steps| && EndsInClick(posting, steps[..n], c, i) && Unconfirmed(steps, n, |steps|, c)
    decreases |steps|
  {
    var init, last := steps[..|steps| - 1], steps[|steps| - 1];
    var mid := Run(Init(posting), init).value;
    if ClicksFor(mid, last, c) {
      n, i := |steps|, mid.jobs[last.d].phase.attempt;
      assert steps[..n] == steps;
    } else {
      n, i := UnansweredSince(posting, init, c);
      assert init[..n] == steps[..n];
      assert forall k :: n <= k < |steps| - 1 ==> steps[k] == init[k];
    }
  }

  lemma {:induction false} ClickedEarlier(posting: map<Candidate, Posting>, steps: seq<Step>, n: nat)
    requires n <= |steps| && Run(Init(posting), steps).Some?
    ensures Clicked(posting, steps[..n]) <= Clicked(posting, steps)
    decreases |steps|
  {
    if n < |steps| {
      ClickedEarlier(posting, steps[..|steps| - 1], n);
      assert steps[..|steps| - 1][..n] == steps[..n];
    } else {
      assert steps[..n] == steps;
    }
  }

  /** A clicked attempt is one of the rows. */
  lemma EarlierClick(posting: map<Candidate, Posting>, steps: seq<Step>, c: Candidate, n: nat, i: nat)
    requires n <= |steps| && Run(Init(posting), steps).Some? && EndsInClick(posting, steps[..n], c, i)
    ensures i < |Run(Init(posting), steps).value.attempts|
  {
    ClickedEarlier(posting, steps, n);
    ClickedExist(posting, steps);
  }

  /** One more step of a run. */
  lemma Go(posting: map<Candidate, Posting>, steps: seq<Step>, s: State, step: Step) returns (more: seq<Step>, t: State)
    requires Run(Init(posting), steps) == Some(s) && Enabled(s, step)
    ensures more == steps + [step] && t == Apply(s, step) && Run(Init(posting), more) == Some(t)
  {
    more, t := steps + [step], Apply(s, step);
    assert more[..|steps|] == steps;
  }

  /** The steps from a retry of c, whose dispatch is d, to the open form of a new attempt. */
  function WayBack(d: nat): seq<Step> {
    [Publish(d), Pick(d), Claim(d), Open(d), OpenSession(d)]
  }

  /** The state they lead to. */
  function FormOpen(s: State, c: Candidate): State {
    var d, n := |s.dispatches|, |s.attempts|;
    s.(status := s.status[c := Applying], dispatches := CancelAll(s.dispatches, c) + [Dispatch(c, false)],
       jobs := s.jobs[d := Active(Opened(n, true, false))], attempts := s.attempts + [Attempt(c, "submitting", None, false)])
  }

  /** A dispatch without a job is published and picked up. */
  lemma PickedUp(posting: map<Candidate, Posting>, steps: seq<Step>, s: State, d: nat) returns (more: seq<Step>, t: State)
    requires Run(Init(posting), steps) == Some(s) && d < |s.dispatches| && d !in s.jobs
    ensures more == steps + [Publish(d), Pick(d)] && Run(Init(posting), more) == Some(t)
    ensures t == DoMoveJob(s, d, Active(Picked))
  {
    more, t := Go(posting, steps, s, Publish(d));
    more, t := Go(posting, more, t, Pick(d));
    assert s.jobs[d := Waiting][d := Active(Picked)] == s.jobs[d := Active(Picked)];
    assert steps + [Publish(d)] + [Pick(d)] == steps + [Publish(d), Pick(d)];
  }

  /** And claimed, when its candidate waits. */
  lemma Requeued(posting: map<Candidate, Posting>, steps: seq<Step>, s: State, d: nat, c: Candidate)
    returns (more: seq<Step>, t: State)
    requires Run(Init(posting), steps) == Some(s) && c in s.status && s.status[c].Queued?
    requires d < |s.dispatches| && d !in s.jobs && s.dispatches[d] == Dispatch(c, false)
    ensures more == steps + [Publish(d), Pick(d), Claim(d)] && Run(Init(posting), more) == Some(t)
    ensures t == s.(jobs := s.jobs[d := Active(Claimed)], status := s.status[c := Applying])
  {
    more, t := PickedUp(posting, steps, s, d);
    more, t := Go(posting, more, t, Claim(d));
    assert s.jobs[d := Active(Picked)][d := Active(Claimed)] == s.jobs[d := Active(Claimed)];
    assert steps + [Publish(d), Pick(d)] + [Claim(d)] == steps + [Publish(d), Pick(d), Claim(d)];
  }

  lemma Reopened(posting: map<Candidate, Posting>, steps: seq<Step>, s: State, d: nat, c: Candidate) returns (more: seq<Step>, t: State)
    requires Run(Init(posting), steps) == Some(s) && IsClaimed(s, d) && CandidateOf(s, d) == c
    requires c in s.status && s.status[c].Applying?
    ensures more == steps + [Step.Open(d), OpenSession(d)] && Run(Init(posting), more) == Some(t)
    ensures t == s.(jobs := s.jobs[d := Active(Opened(|s.attempts|, true, false))],
                    attempts := s.attempts + [Attempt(c, "submitting", None, false)])
  {
    more, t := Go(posting, steps, s, Step.Open(d));
    assert s.status[c := Applying] == s.status;
    more, t := Go(posting, more, t, OpenSession(d));
    assert s.jobs[d := Active(Opened(|s.attempts|, false, false))][d := Active(Opened(|s.attempts|, true, false))]
        == s.jobs[d := Active(Opened(|s.attempts|, true, false))];
    assert steps + [Step.Open(d)] + [OpenSession(d)] == steps + [Step.Open(d), OpenSession(d)];
  }

  /** A retry that goes ahead queues its candidate under a dispatch without a job. */
  lemma Retried(posting: map<Candidate, Posting>, steps: seq<Step>, s: State, c: Candidate, appStatus: string,
                events: seq<RetryPolicy.Event>) returns (more: seq<Step>, t: State)
    requires Run(Init(posting), steps) == Some(s) && CanRetry(s, c, appStatus, events, false)
    ensures more == steps + [Step.Retry(c, appStatus, events, false)] && Run(Init(posting), more) == Some(t)
    ensures t == DoRetry(s, c, false) && |s.dispatches| !in t.jobs && t.dispatches[|s.dispatches|] == Dispatch(c, false)
  {
    RunKeeps(posting, steps);
    more, t := Go(posting, steps, s, Step.Retry(c, appStatus, events, false));
  }

  /** And leads to the open form of one more attempt. */
  lemma RetryReopens(posting: map<Candidate, Posting>, steps: seq<Step>, s: State, c: Candidate, appStatus: string,
                     events: seq<RetryPolicy.Event>) returns (more: seq<Step>, t: State)
    requires Run(Init(posting), steps) == Some(s) && CanRetry(s, c, appStatus, events, false)
    ensures more == steps + [Step.Retry(c, appStatus, events, false)] + WayBack(|s.dispatches|)
    ensures Run(Init(posting), more) == Some(t) && t == FormOpen(s, c)
  {
    var d := |s.dispatches|;
    var retried, u := Retried(posting, steps, s, c, appStatus, events);
    more, t := Requeued(posting, retried, u, d, c);
    more, t := Reopened(posting, more, t, d, c);
    WayBackIs(s, c, t);
    assert retried + [Publish(d), Pick(d), Claim(d)] + [Step.Open(d), OpenSession(d)] == retried + WayBack(d);
  }

  lemma WayBackIs(s: State, c: Candidate, t: State)
    requires var d, n := |s.dispatches|, |s.attempts|;
             t == DoRetry(s, c, false).(
               jobs := s.jobs[d := Active(Claimed)][d := Active(Opened(n, true, false))],
               status := s.status[c := Queued][c := Applying],
               attempts := s.attempts + [Attempt(c, "submitting", None, false)])
    ensures t == FormOpen(s, c)
  {
    var d, n := |s.dispatches|, |s.attempts|;
    assert s.jobs[d := Active(Claimed)][d := Active(Opened(n, true, false))] == s.jobs[d := Active(Opened(n, true, false))];
    assert s.status[c := Queued][c := Applying] == s.status[c := Applying];
  }

  lemma StillUnconfirmed(steps: seq<Step>, more: seq<Step>, n: nat, c: Candidate)
    requires Unconfirmed(steps, n, |steps|, c) && forall k :: 0 <= k < |more| ==> !Confirms(more[k], c)
    ensures Unconfirmed(steps + more, n, |steps + more|, c)
  {
    forall k | n <= k < |steps + more|
      ensures !Confirms((steps + more)[k], c)
    {
      assert (steps + more)[k] == if k < |steps| then steps[k] else more[k - |steps|];
    }
  }

  /** From the retry to a click for the attempt it leads to. */
  function BackToClick(d: nat): (r: seq<Step>)
    ensures forall k, c :: 0 <= k < |r| ==> !Retries(r[k], c)
  {
    WayBack(d) + [Click(d)]
  }

  /** Along that way back the new attempt's form is clicked. */
  lemma RetryClicks(posting: map<Candidate, Posting>, steps: seq<Step>, s: State, c: Candidate, appStatus: string,
                    events: seq<RetryPolicy.Event>) returns (all: seq<Step>)
    requires Run(Init(posting), steps) == Some(s) && CanRetry(s, c, appStatus, events, false)
    ensures all == steps + ([Step.Retry(c, appStatus, events, false)] + BackToClick(|s.dispatches|))
    ensures Run(Init(posting), all) == Some(FormOpen(s, c)) && EndsInClick(posting, all, c, |s.attempts|)
  {
    var d := |s.dispatches|;
    var open, t := RetryReopens(posting, steps, s, c, appStatus, events);
    var u;
    all, u := Go(posting, open, t, Click(d));
    assert all[..|all| - 1] == open;
    assert t.dispatches[d] == Dispatch(c, false);
  }

  /** Taken while a click is unanswered, an unconfirmed retry leads to a click for a second attempt. */
  lemma CarelessRetryDoubles(posting: map<Candidate, Posting>, steps: seq<Step>, c: Candidate, appStatus: string,
                             events: seq<RetryPolicy.Event>) returns (more: seq<Step>)
    requires Run(Init(posting), steps).Some? && Unanswered(posting, steps, c)
    requires CanRetry(Run(Init(posting), steps).value, c, appStatus, events, false)
    ensures forall k :: 0 <= k < |more| ==> !Retries(more[k], c)
    ensures var all := steps + [Step.Retry(c, appStatus, events, false)] + more;
            && Run(Init(posting), all).Some? && Doubled(posting, all, c)
            && Run(Init(posting), all).value.waivers == Run(Init(posting), steps).value.waivers
  {
    var s := Run(Init(posting), steps).value;
    var retry := Step.Retry(c, appStatus, events, false);
    more := BackToClick(|s.dispatches|);
    var all := RetryClicks(posting, steps, s, c, appStatus, events);
    assert all == steps + [retry] + more;
    ClickedAgain(posting, steps, [retry] + more, c, |s.attempts|);
  }

  /** An unanswered click and one at the end for a new attempt, with no confirmation in between. */
  lemma ClickedAgain(posting: map<Candidate, Posting>, steps: seq<Step>, more: seq<Step>, c: Candidate, j: nat)
    requires Run(Init(posting), steps).Some? && Unanswered(posting, steps, c)
    requires j == |Run(Init(posting), steps).value.attempts| && EndsInClick(posting, steps + more, c, j)
    requires forall k :: 0 <= k < |more| ==> !Confirms(more[k], c)
    ensures Doubled(posting, steps + more, c)
  {
    var n, i := UnansweredSince(posting, steps, c);
    EarlierClick(posting, steps, c, n, i);
    var all := steps + more;
    StillUnconfirmed(steps, more, n, c);
    assert all[..|all|] == all && all[..n] == steps[..n];
    assert DoubledAt(posting, all, c, n, |all|, i, j);
  }

  /** Steps without a retry of c keep a run careful. */
  lemma {:induction false} CarefulFurther(posting: map<Candidate, Posting>, steps: seq<Step>, more: seq<Step>, c: Candidate)
    requires Careful(posting, steps, c) && forall k :: 0 <= k < |more| ==> !Retries(more[k], c)
    ensures Careful(posting, steps + more, c)
    decreases |more|
  {
    if more == [] {
      assert steps + more == steps;
    } else {
      CarefulFurther(posting, steps, more[..|more| - 1], c);
      assert (steps + more)[..|steps + more| - 1] == steps + more[..|more| - 1];
    }
  }

  /**
   * The exact condition. Up to here the run was careful, and the policy lets a retry of c go ahead
   * without a confirmation: it can lead to clicks for two attempts of c with no confirmation in
   * between if and only if a click for c is unanswered at that moment.
   */
  lemma CarelessRetryExactly(posting: map<Candidate, Posting>, steps: seq<Step>, c: Candidate, appStatus: string,
                             events: seq<RetryPolicy.Event>)
    requires Run(Init(posting), steps).Some? && Careful(posting, steps, c)
    requires CanRetry(Run(Init(posting), steps).value, c, appStatus, events, false)
    ensures Unanswered(posting, steps, c) <==>
            exists more: seq<Step> :: LeadsToDouble(posting, steps + [Step.Retry(c, appStatus, events, false)], more, c)
  {
    var retried := steps + [Step.Retry(c, appStatus, events, false)];
    if Unanswered(posting, steps, c) {
      var more := CarelessRetryDoubles(posting, steps, c, appStatus, events);
      assert LeadsToDouble(posting, retried, more, c);
    } else {
      assert retried[..|retried| - 1] == steps;
      forall more: seq<Step>
        ensures !LeadsToDouble(posting, retried, more, c)
      {
        if LeadsToDouble(posting, retried, more, c) {
          CarefulFurther(posting, retried, more, c);
          CarefulNeverDoubles(posting, retried + more, c);
          assert false;
        }
      }
    }
  }

  /** Without a further retry of c the run goes on to a doubled click. */
  ghost predicate LeadsToDouble(posting: map<Candidate, Posting>, steps: seq<Step>, more: seq<Step>, c: Candidate) {
    && (forall k :: 0 <= k < |more| ==> !Retries(more[k], c))
    && Run(Init(posting), steps + more).Some? && Doubled(posting, steps + more, c)
  }

  // ------------------------------------------------------- it does happen

  const ONE_POSTING: map<Candidate, Posting> := map[0 := 0]

  lemma FirstClaim() returns (steps: seq<Step>, s: State)
    ensures Run(Init(ONE_POSTING), steps) == Some(s)
    ensures s == State(ONE_POSTING, map[0 := Applying], map[0 := 0], [], [Dispatch(0, false)], map[0 := Active(Claimed)], {}, [])
  {
    steps, s := Go(ONE_POSTING, [], Init(ONE_POSTING), Enqueue(0));
    assert s == State(ONE_POSTING, map[0 := Queued], map[0 := 0], [], [Dispatch(0, false)], map[], {}, []);
    steps, s := Requeued(ONE_POSTING, steps, s, 0, 0);
    assert map[0 := Queued][0 := Applying] == map[0 := Applying];
  }

  /** The first attempt's form is clicked, and the worker is killed before the fence is written. */
  lemma KilledAfterClick() returns (steps: seq<Step>, s: State)
    ensures Run(Init(ONE_POSTING), steps) == Some(s) && Unanswered(ONE_POSTING, steps, 0)
    ensures s == State(ONE_POSTING, map[0 := Applying], map[0 := 0], [Attempt(0, "submitting", None, false)],
                       [Dispatch(0, false)], map[0 := Failed], {0}, [])
  {
    steps, s := FirstClaim();
    steps, s := Reopened(ONE_POSTING, steps, s, 0, 0);
    assert s == State(ONE_POSTING, map[0 := Applying], map[0 := 0], [Attempt(0, "submitting", None, false)],
                      [Dispatch(0, false)], map[0 := Active(Opened(0, true, false))], {}, []);
    var form, open := steps, s;
    steps, s := Go(ONE_POSTING, form, open, Click(0));
    assert steps[..|steps| - 1] == form && ClicksFor(open, Click(0), 0);
    var clicked := steps;
    steps, s := Go(ONE_POSTING, steps, s, Crash(0));
    assert steps[..|steps| - 1] == clicked;
    assert map[0 := Active(Opened(0, true, false))][0 := Failed] == map[0 := Failed];
  }

  const PARKED := State(ONE_POSTING, map[0 := NeedsReview], map[0 := 0],
                        [Attempt(0, "unknown", Some(INTERRUPTED), false)],
                        [Dispatch(0, false)], map[0 := Failed], {0}, [])

  /** The recovery sweep parks the candidate, and the text it writes lets the retry route go ahead. */
  lemma ParkedAfterClick() returns (steps: seq<Step>)
    ensures Run(Init(ONE_POSTING), steps) == Some(PARKED) && Unanswered(ONE_POSTING, steps, 0)
    ensures CanRetry(PARKED, 0, "needs_review", [], false)
  {
    var before, killed := KilledAfterClick();
    var s;
    steps, s := Go(ONE_POSTING, before, killed, Sweep(0, Some(0)));
    assert steps[..|steps| - 1] == before;
    assert s == PARKED;
    assert Latest(PARKED.attempts, 0) == Some(0);
    InterruptedIsRetriable(PARKED.attempts, 0, "needs_review", []);
  }

  /**
   * So the case is real: a worker killed between the form driver's click and its fence leaves an
   * attempt that may be retried, and submit is clicked for a second attempt, all without any
   * confirmation.
   */
  lemma ClickBeforeFenceBreaksTheLimit() returns (steps: seq<Step>)
    ensures Run(Init(ONE_POSTING), steps).Some? && Run(Init(ONE_POSTING), steps).value.waivers == []
    ensures Doubled(ONE_POSTING, steps, 0)
  {
    var before := ParkedAfterClick();
    var more := CarelessRetryDoubles(ONE_POSTING, before, 0, "needs_review", []);
    steps := before + [Step.Retry(0, "needs_review", [], false)] + more;
  }

  // ------------------------------------- a worker that outlives its job

  /** The fence write of a worker whose job was already judged dead: it checks no attempt status. */
  function LateFence(s: State, i: nat, aborted: bool, flagged: bool): State
    requires i < |s.attempts|
  {
    if aborted || flagged then s
    else s.(attempts := s.attempts[i := s.attempts[i].(status := "submitting", fenced := true)])
  }

  /**
   * What the assumption on dead jobs is worth: a late fence takes its candidate above the limit if
   * and only if neither an abort nor an open flag stops it, its attempt carries no fence yet, and
   * the candidate's fences are used up already. No other candidate is affected.
   */
  lemma LateFenceBreaksExactly(s: State, i: nat, aborted: bool, flagged: bool)
    requires Inv(s) && i < |s.attempts|
    ensures var c, t := s.attempts[i].candidate, LateFence(s, i, aborted, flagged);
            && (Fenced(t.attempts, c) > Waived(t.waivers, c) + 1 <==>
                  !aborted && !flagged && !s.attempts[i].fenced && Spent(s, c))
            && (forall c' :: c' != c ==> Fenced(t.attempts, c') == Fenced(s.attempts, c'))
  {
    assert Owned(s, s.attempts[i].candidate);
    if !aborted && !flagged {
      forall c' ensures Fenced(LateFence(s, i, aborted, flagged).attempts, c') ==
                        Fenced(s.attempts, c') + if c' == s.attempts[i].candidate && !s.attempts[i].fenced then 1 else 0 {
        FenceAttempt(s.attempts, i, LateFence(s, i, aborted, flagged).attempts[i], c');
      }
    }
  }

  /** The case is real as well: the first worker's attempt, unfenced, with the second attempt's fence written. */
  lemma LateFenceIsPossible() returns (steps: seq<Step>, s: State)
    ensures Run(Init(ONE_POSTING), steps) == Some(s) && s.waivers == []
    ensures |s.attempts| == 2 && s.attempts[0].candidate == 0 && !s.attempts[0].fenced && Spent(s, 0)
  {
    var open, t;
    steps := ParkedAfterClick();
    open, t := RetryReopens(ONE_POSTING, steps, PARKED, 0, "needs_review", []);
    RunKeeps(ONE_POSTING, open);
    steps, s := Go(ONE_POSTING, open, t, Fence(1, true));
    FenceLog(t, 1, true);
    assert t.attempts == [PARKED.attempts[0], Attempt(0, "submitting", None, false)];
    TwoRows(t.attempts[0], t.attempts[1]);
  }

  lemma TwoRows(a: Attempt, b: Attempt)
    requires a.candidate == b.candidate
    ensures Fenced([a, b], a.candidate) == (if a.fenced then 1 else 0) + (if b.fenced then 1 else 0)
  {
    assert [a, b] == [] + [a] + [b];
    AppendAttempt([a], b, a.candidate);
    AppendAttempt([], a, a.candidate);
  }
}
