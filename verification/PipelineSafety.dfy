/**
 * Why no posting is submitted twice: the invariant every step of the pipeline keeps, and what it
 * says about whole runs.
 */
module PipelineSafety {
  import opened Basics
  import opened Pipeline
  import RetryPolicy

  // ----------------------------------------------------------- invariant

  ghost predicate Owned(s: State, c: Candidate) {
    c in s.posting && s.posting[c] in s.owner && s.owner[s.posting[c]] == c
  }

  ghost predicate Shape(s: State) {
    && s.status.Keys == s.posting.Keys
    && (forall i :: 0 <= i < |s.attempts| ==> Owned(s, s.attempts[i].candidate))
    && (forall d :: 0 <= d < |s.dispatches| ==> Owned(s, s.dispatches[d].candidate))
    && (forall d :: d in s.jobs ==> d < |s.dispatches|)
  }

  predicate Intends(s: State, d: nat) {
    d < |s.dispatches| && !s.dispatches[d].cancelled
  }

  /** At most one dispatch of a candidate is uncancelled, and none while it can still be selected. */
  ghost predicate OneIntent(s: State) {
    && (forall d: nat, e: nat | Intends(s, d) && Intends(s, e) && CandidateOf(s, d) == CandidateOf(s, e) :: d == e)
    && (forall d: nat | Intends(s, d) && CandidateOf(s, d) in s.status :: !Selectable(s.status[CandidateOf(s, d)]))
  }

  /** A worker past its claim runs an uncancelled dispatch, and its attempt is its candidate's newest. */
  ghost predicate Workers(s: State) {
    && (forall d: nat | IsClaimed(s, d) :: Intends(s, d))
    && (forall d: nat | InPhase(s, d) && s.jobs[d].phase.Opened? ::
          && Intends(s, d)
          && Latest(s.attempts, CandidateOf(s, d)) == Some(s.jobs[d].phase.attempt)
          && (!s.jobs[d].phase.session ==> !s.attempts[s.jobs[d].phase.attempt].fenced)
          && CandidateOf(s, d) in s.status
          && Parked(s.status[CandidateOf(s, d)]))
  }

  /** Statuses from which nothing but a retry leads back to a claim. */
  predicate Parked(status: Status) {
    status.Applying? || status.NeedsReview? || status.Applied?
  }

  ghost predicate Quarantined(s: State, c: Candidate) {
    && c in s.status && Parked(s.status[c])
    && (forall d: nat | IsClaimed(s, d) :: CandidateOf(s, d) != c)
  }

  /** Nothing further may be opened for c without a confirmed retry. */
  ghost predicate Spent(s: State, c: Candidate) {
    Fenced(s.attempts, c) == Waived(s.waivers, c) + 1
  }

  ghost predicate Fences(s: State) {
    forall c :: c in s.posting ==>
      && Fenced(s.attempts, c) <= Waived(s.waivers, c) + 1
      && (Spent(s, c) ==>
            && Quarantined(s, c)
            && Latest(s.attempts, c).Some? && s.attempts[Latest(s.attempts, c).value].fenced)
  }

  /** A recorded submission is its candidate's newest attempt and stays so. */
  ghost predicate Submissions(s: State) {
    forall i :: 0 <= i < |s.attempts| && s.attempts[i].status == "submitted" ==>
      && Latest(s.attempts, s.attempts[i].candidate) == Some(i)
      && Quarantined(s, s.attempts[i].candidate)
      && (forall d: nat | IsOpened(s, d) :: s.jobs[d].phase.attempt != i)
  }

  /** A worker about to write its verdict still runs the one uncancelled dispatch, and requeues only what is free. */
  ghost predicate Verdicts(s: State) {
    forall d: nat | IsRecorded(s, d) ::
      && Intends(s, d) && CandidateOf(s, d) in s.status
      && (if s.jobs[d].phase.verdict.Queued? then Free(s, CandidateOf(s, d)) else Parked(s.jobs[d].phase.verdict))
  }

  ghost predicate Core(s: State) {
    Shape(s) && OneIntent(s) && Workers(s) && Fences(s) && Submissions(s)
  }

  ghost predicate Inv(s: State) {
    Core(s) && Verdicts(s)
  }

  // ------------------------------------------------- lemmas about the log

  lemma {:induction false} SameFencesSameCounts(a: seq<Attempt>, b: seq<Attempt>, c: Candidate)
    requires SameFences(a, b)
    ensures Fenced(a, c) == Fenced(b, c)
    ensures Latest(a, c) == Latest(b, c)
  {
    if a != [] {
      SameFencesSameCounts(a[..|a| - 1], b[..|b| - 1], c);
    }
  }

  lemma AppendAttempt(a: seq<Attempt>, x: Attempt, c: Candidate)
    ensures Fenced(a + [x], c) == Fenced(a, c) + if x.candidate == c && x.fenced then 1 else 0
    ensures Latest(a + [x], c) == if x.candidate == c then Some(|a|) else Latest(a, c)
  {
    assert (a + [x])[..|a|] == a;
  }

  lemma {:induction false} FenceAttempt(a: seq<Attempt>, i: nat, x: Attempt, c: Candidate)
    requires i < |a| && x.candidate == a[i].candidate && x.fenced
    ensures Fenced(a[i := x], c) == Fenced(a, c) + if x.candidate == c && !a[i].fenced then 1 else 0
    ensures Latest(a[i := x], c) == Latest(a, c)
  {
    var b := a[i := x];
    if i == |a| - 1 {
      assert b[..|b| - 1] == a[..|a| - 1];
    } else {
      assert b[..|b| - 1] == a[..|a| - 1][i := x];
      FenceAttempt(a[..|a| - 1], i, x, c);
    }
  }

  lemma {:induction false} FencedHasAttempt(a: seq<Attempt>, c: Candidate)
    ensures Latest(a, c).None? ==> Fenced(a, c) == 0
  {
    if a != [] {
      FencedHasAttempt(a[..|a| - 1], c);
    }
  }

  // ---------------------------------------------------- every step keeps it

  ghost predicate SameAttempt(p: Phase, q: Phase) {
    p.Opened? && q.Opened? && p.attempt == q.attempt && (p.session ==> q.session)
  }

  /** A step that only moves a job, and moves none into the claimed or opened phase. */
  lemma JobMoveKeeps(s: State, t: State)
    requires Core(s)
    requires t == s.(jobs := t.jobs, failures := t.failures)
    requires forall d :: d in t.jobs ==> d < |t.dispatches|
    requires forall d: nat | InPhase(t, d) && (t.jobs[d].phase.Claimed? || t.jobs[d].phase.Opened?) ::
               && InPhase(s, d) && s.jobs[d].phase.Claimed? == t.jobs[d].phase.Claimed?
               && (t.jobs[d].phase.Opened? ==> SameAttempt(s.jobs[d].phase, t.jobs[d].phase))
    ensures Core(t)
  {
    assert forall d: nat :: Intends(t, d) <==> Intends(s, d);
    assert forall d: nat | IsClaimed(t, d) :: IsClaimed(s, d);
    forall c | c in t.posting
      ensures Spent(t, c) ==> Quarantined(t, c)
    {
    }
    forall i | 0 <= i < |t.attempts| && t.attempts[i].status == "submitted"
      ensures Quarantined(t, t.attempts[i].candidate)
      ensures forall d: nat | IsOpened(t, d) :: t.jobs[d].phase.attempt != i
    {
      forall d: nat | IsOpened(t, d)
        ensures t.jobs[d].phase.attempt != i
      {
        assert IsOpened(s, d);
      }
    }
  }

  /** Statuses move to a parked one and rows are rewritten without adding a fence or a submission. */
  lemma ParkingKeeps(s: State, t: State, c: Candidate)
    requires Core(s) && c in s.status && c in t.status && Parked(t.status[c])
    requires t == s.(status := s.status[c := t.status[c]], attempts := t.attempts)
    requires SameFences(s.attempts, t.attempts)
    requires forall i :: 0 <= i < |t.attempts| && t.attempts[i].status == "submitted" ==> s.attempts[i].status == "submitted"
    ensures Core(t)
  {
    var closed := s.(attempts := t.attempts);
    ClosingKeeps(s, closed);
    ParkKeeps(closed, t, c);
  }

  lemma ParkKeeps(s: State, t: State, c: Candidate)
    requires Core(s) && c in s.status && c in t.status && Parked(t.status[c])
    requires t == s.(status := s.status[c := t.status[c]])
    ensures Core(t)
  {
    SamePhases(s, t);
    forall c' | c' in t.posting && Spent(t, c')
      ensures Quarantined(t, c')
    {
      assert Spent(s, c') && Quarantined(s, c');
    }
    forall i | 0 <= i < |t.attempts| && t.attempts[i].status == "submitted"
      ensures Quarantined(t, t.attempts[i].candidate)
    {
      assert Quarantined(s, s.attempts[i].candidate);
    }
  }

  /** Jobs and dispatches are untouched, so every worker is where it was. */
  lemma SamePhases(s: State, t: State)
    requires s.jobs == t.jobs && s.dispatches == t.dispatches && |s.attempts| == |t.attempts|
    ensures forall d: nat :: IsClaimed(t, d) == IsClaimed(s, d) && IsOpened(t, d) == IsOpened(s, d) && Intends(t, d) == Intends(s, d)
  {
  }

  /** While a worker has a claim on c, nothing about c is spent and no other worker is on it. */
  lemma ClaimMeansFree(s: State, d: nat)
    requires Core(s) && IsClaimed(s, d)
    ensures Free(s, CandidateOf(s, d))
    ensures forall e: nat | InPhase(s, e) && s.jobs[e].phase.Opened? :: CandidateOf(s, e) != CandidateOf(s, d)
  {
    var c := CandidateOf(s, d);
    assert Intends(s, d);
    forall e: nat | InPhase(s, e) && s.jobs[e].phase.Opened?
      ensures CandidateOf(s, e) != c
    {
      assert Intends(s, e);
    }
  }

  /** c may be claimed or retried: nothing is spent and no submission is on record. */
  ghost predicate Free(s: State, c: Candidate) {
    c in s.posting && !Spent(s, c) && Unsubmitted(s, c)
  }

  ghost predicate Unsubmitted(s: State, c: Candidate) {
    forall i :: 0 <= i < |s.attempts| && s.attempts[i].candidate == c ==> s.attempts[i].status != "submitted"
  }

  ghost predicate NoWorkerOn(s: State, c: Candidate) {
    forall d: nat | InPhase(s, d) && (s.jobs[d].phase.Claimed? || s.jobs[d].phase.Opened?) :: CandidateOf(s, d) != c
  }

  /** A free candidate without a worker may go back to queued. */
  lemma RequeueKeeps(s: State, t: State, c: Candidate)
    requires Core(s) && Free(s, c) && NoWorkerOn(s, c)
    requires t == s.(status := s.status[c := Queued])
    ensures Core(t)
  {
    SamePhases(s, t);
    forall c' | c' in t.posting && Spent(t, c')
      ensures Quarantined(t, c')
    {
      assert Spent(s, c');
    }
    forall i | 0 <= i < |t.attempts| && t.attempts[i].status == "submitted"
      ensures Quarantined(t, t.attempts[i].candidate)
    {
    }
  }

  /** An unfenced row is added for a free candidate no worker has an attempt open for. */
  ghost predicate Appendable(s: State, t: State, c: Candidate, x: Attempt) {
    && Core(s) && Free(s, c) && Owned(s, c) && c in s.status && Parked(s.status[c])
    && x.candidate == c && !x.fenced && x.status != "submitted"
    && (forall e: nat | InPhase(s, e) && s.jobs[e].phase.Opened? :: CandidateOf(s, e) != c)
    && t == s.(attempts := s.attempts + [x])
  }

  lemma AppendLog(s: State, t: State, c: Candidate, x: Attempt)
    requires Appendable(s, t, c, x)
    ensures forall c' :: Fenced(t.attempts, c') == Fenced(s.attempts, c')
    ensures forall c' :: Latest(t.attempts, c') == if c' == c then Some(|s.attempts|) else Latest(s.attempts, c')
    ensures forall d: nat :: IsClaimed(t, d) == IsClaimed(s, d) && Intends(t, d) == Intends(s, d) && InPhase(t, d) == InPhase(s, d)
  {
    forall c' ensures Fenced(t.attempts, c') == Fenced(s.attempts, c')
                   && Latest(t.attempts, c') == if c' == c then Some(|s.attempts|) else Latest(s.attempts, c') {
      AppendAttempt(s.attempts, x, c');
    }
  }

  lemma AppendKeeps(s: State, t: State, c: Candidate, x: Attempt)
    requires Appendable(s, t, c, x)
    ensures Core(t)
  {
    AppendKeepsWorkers(s, t, c, x);
    AppendKeepsFences(s, t, c, x);
    AppendKeepsSubmissions(s, t, c, x);
  }

  lemma AppendKeepsWorkers(s: State, t: State, c: Candidate, x: Attempt)
    requires Appendable(s, t, c, x)
    ensures Shape(t) && OneIntent(t) && Workers(t)
  {
    AppendLog(s, t, c, x);
    forall d: nat | InPhase(t, d) && t.jobs[d].phase.Opened?
      ensures CandidateOf(t, d) != c && t.attempts[t.jobs[d].phase.attempt] == s.attempts[t.jobs[d].phase.attempt]
    {
      assert InPhase(s, d);
    }
  }

  lemma AppendKeepsFences(s: State, t: State, c: Candidate, x: Attempt)
    requires Appendable(s, t, c, x)
    ensures Fences(t)
  {
    AppendLog(s, t, c, x);
    forall c' | c' in t.posting
      ensures Fenced(t.attempts, c') <= Waived(t.waivers, c') + 1
      ensures Spent(t, c') ==> Quarantined(t, c') && Latest(t.attempts, c').Some? && t.attempts[Latest(t.attempts, c').value].fenced
    {
      assert Spent(t, c') ==> Spent(s, c');
    }
  }

  lemma AppendKeepsSubmissions(s: State, t: State, c: Candidate, x: Attempt)
    requires Appendable(s, t, c, x)
    ensures Submissions(t)
  {
    AppendLog(s, t, c, x);
    forall i | 0 <= i < |t.attempts| && t.attempts[i].status == "submitted"
      ensures Latest(t.attempts, t.attempts[i].candidate) == Some(i)
      ensures Quarantined(t, t.attempts[i].candidate)
      ensures forall d: nat | IsOpened(t, d) :: t.jobs[d].phase.attempt != i
    {
      assert t.attempts[i] == s.attempts[i] && s.attempts[i].candidate != c;
      assert Quarantined(s, s.attempts[i].candidate);
      forall d: nat | IsOpened(t, d)
        ensures t.jobs[d].phase.attempt != i
      {
        assert InPhase(s, d);
      }
    }
  }

  lemma EnqueueKeeps(s: State, c: Candidate)
    requires Core(s) && CanEnqueue(s, c)
    ensures Core(DoEnqueue(s, c))
  {
    var t := DoEnqueue(s, c);
    assert Latest(s.attempts, c).None?;
    FencedHasAttempt(s.attempts, c);
    EnqueueKeepsIntents(s, c);
    EnqueueKeepsWorkers(s, c);
    assert forall d: nat | IsClaimed(t, d) :: IsClaimed(s, d) && CandidateOf(t, d) == CandidateOf(s, d);
    assert forall d: nat | IsOpened(t, d) :: IsOpened(s, d);
    QuarantineCarries(s, t, c);
  }

  lemma EnqueueKeepsIntents(s: State, c: Candidate)
    requires Core(s) && CanEnqueue(s, c)
    ensures Shape(DoEnqueue(s, c)) && OneIntent(DoEnqueue(s, c))
  {
    var t := DoEnqueue(s, c);
    assert forall d: nat | d < |s.dispatches| :: s.dispatches[d].candidate != c && t.dispatches[d] == s.dispatches[d];
    forall d: nat | Intends(t, d) && d < |s.dispatches|
      ensures Intends(s, d) && CandidateOf(t, d) == CandidateOf(s, d) && CandidateOf(t, d) != c
    {
    }
  }

  lemma EnqueueKeepsWorkers(s: State, c: Candidate)
    requires Core(s) && CanEnqueue(s, c)
    ensures Workers(DoEnqueue(s, c))
  {
    var t := DoEnqueue(s, c);
    assert forall d: nat | d < |s.dispatches| :: s.dispatches[d].candidate != c && t.dispatches[d] == s.dispatches[d];
    forall d: nat | InPhase(t, d)
      ensures InPhase(s, d) && CandidateOf(t, d) == CandidateOf(s, d) && CandidateOf(t, d) != c
    {
    }
    assert forall d: nat | IsClaimed(t, d) :: IsClaimed(s, d);
  }

  lemma ClaimKeeps(s: State, d: nat)
    requires Core(s) && CanClaim(s, d)
    ensures Core(DoClaim(s, d))
  {
    ClaimKeepsWorkers(s, d);
    ClaimKeepsFences(s, d);
    ClaimKeepsSubmissions(s, d);
  }

  lemma ClaimKeepsWorkers(s: State, d: nat)
    requires Core(s) && CanClaim(s, d)
    ensures Shape(DoClaim(s, d)) && OneIntent(DoClaim(s, d)) && Workers(DoClaim(s, d))
  {
    var t := DoClaim(s, d);
    assert Intends(s, d);
    assert forall e: nat :: Intends(t, e) == Intends(s, e);
    assert forall e: nat | e != d :: IsClaimed(t, e) == IsClaimed(s, e);
    assert forall e: nat | InPhase(t, e) && t.jobs[e].phase.Opened? :: InPhase(s, e) && s.jobs[e].phase.Opened?;
  }

  lemma ClaimKeepsFences(s: State, d: nat)
    requires Core(s) && CanClaim(s, d)
    ensures Fences(DoClaim(s, d))
  {
    var t := DoClaim(s, d);
    assert forall e: nat | e != d :: IsClaimed(t, e) == IsClaimed(s, e);
    forall c | c in t.posting && Spent(t, c)
      ensures Quarantined(t, c)
    {
      assert Spent(s, c) && c != CandidateOf(s, d);
    }
  }

  lemma ClaimKeepsSubmissions(s: State, d: nat)
    requires Core(s) && CanClaim(s, d)
    ensures Submissions(DoClaim(s, d))
  {
    var t := DoClaim(s, d);
    forall i | 0 <= i < |t.attempts| && t.attempts[i].status == "submitted"
      ensures Quarantined(t, t.attempts[i].candidate)
      ensures forall e: nat | IsOpened(t, e) :: t.jobs[e].phase.attempt != i
    {
      assert Quarantined(s, s.attempts[i].candidate) && s.attempts[i].candidate != CandidateOf(s, d);
      assert forall e: nat | e != d :: IsClaimed(t, e) == IsClaimed(s, e);
      assert forall e: nat | IsOpened(t, e) :: IsOpened(s, e);
    }
  }

  lemma TailorKeeps(s: State, d: nat)
    requires Core(s) && IsClaimed(s, d)
    ensures Core(DoSetStatus(s, CandidateOf(s, d), Tailored))
  {
    var t := DoSetStatus(s, CandidateOf(s, d), Tailored);
    ClaimMeansFree(s, d);
    SamePhases(s, t);
    forall c' | c' in t.posting && Spent(t, c')
      ensures Quarantined(t, c')
    {
      assert Spent(s, c');
    }
    forall i | 0 <= i < |t.attempts| && t.attempts[i].status == "submitted"
      ensures Quarantined(t, t.attempts[i].candidate)
    {
    }
  }

  /** A claimed job takes up the newest row of its candidate, which carries no fence. */
  lemma BeginKeeps(b: State, d: nat, i: nat)
    requires Core(b) && IsClaimed(b, d) && i < |b.attempts|
    requires Latest(b.attempts, CandidateOf(b, d)) == Some(i) && !b.attempts[i].fenced && b.attempts[i].status != "submitted"
    requires CandidateOf(b, d) in b.status && Parked(b.status[CandidateOf(b, d)])
    ensures Core(DoMoveJob(b, d, Active(Opened(i, false, false))))
  {
    var t := DoMoveJob(b, d, Active(Opened(i, false, false)));
    assert forall e: nat :: Intends(t, e) == Intends(b, e);
    assert forall e: nat | IsClaimed(t, e) :: IsClaimed(b, e);
    assert forall e: nat | e != d && InPhase(t, e) && t.jobs[e].phase.Opened? :: InPhase(b, e) && b.jobs[e] == t.jobs[e];
    forall c | c in t.posting && Spent(t, c)
      ensures Quarantined(t, c)
    {
      assert Spent(b, c) && Quarantined(b, c);
    }
    forall j | 0 <= j < |t.attempts| && t.attempts[j].status == "submitted"
      ensures Quarantined(t, t.attempts[j].candidate)
      ensures forall e: nat | IsOpened(t, e) :: t.jobs[e].phase.attempt != j
    {
      assert Quarantined(b, b.attempts[j].candidate);
      assert forall e: nat | IsOpened(t, e) && e != d :: IsOpened(b, e);
    }
  }

  lemma OpenKeeps(s: State, d: nat)
    requires Core(s) && IsClaimed(s, d)
    ensures Core(DoOpen(s, d))
  {
    var c := CandidateOf(s, d);
    ClaimMeansFree(s, d);
    var x := Attempt(c, "submitting", None, false);
    var a := DoSetStatus(s, c, Applying);
    ParkingKeeps(s, a, c);
    var b := a.(attempts := s.attempts + [x]);
    AppendKeeps(a, b, c, x);
    AppendAttempt(s.attempts, x, c);
    BeginKeeps(b, d, |s.attempts|);
    assert DoOpen(s, d) == DoMoveJob(b, d, Active(Opened(|s.attempts|, false, false)));
  }

  lemma FenceLog(s: State, d: nat, noted: bool)
    requires Core(s) && CanFence(s, d)
    ensures var t := DoFence(s, d, noted);
            var a := s.attempts[s.jobs[d].phase.attempt];
            && (forall c' :: Fenced(t.attempts, c') == Fenced(s.attempts, c') + if c' == CandidateOf(s, d) && !a.fenced then 1 else 0)
            && (forall c' :: Latest(t.attempts, c') == Latest(s.attempts, c'))
            && (forall e: nat :: Intends(t, e) == Intends(s, e) && IsClaimed(t, e) == IsClaimed(s, e) && IsOpened(t, e) == IsOpened(s, e))
  {
    var t := DoFence(s, d, noted);
    var i := s.jobs[d].phase.attempt;
    assert Intends(s, d);
    forall c'
      ensures Fenced(t.attempts, c') == Fenced(s.attempts, c') + if c' == CandidateOf(s, d) && !s.attempts[i].fenced then 1 else 0
      ensures Latest(t.attempts, c') == Latest(s.attempts, c')
    {
      FenceAttempt(s.attempts, i, t.attempts[i], c');
    }
  }

  /** The worker about to fence is the only one on its candidate. */
  lemma OpenedIsAlone(s: State, d: nat)
    requires Core(s) && IsOpened(s, d)
    ensures forall e: nat | IsClaimed(s, e) :: CandidateOf(s, e) != CandidateOf(s, d)
    ensures forall e: nat | IsOpened(s, e) && e != d :: CandidateOf(s, e) != CandidateOf(s, d)
    ensures Quarantined(s, CandidateOf(s, d))
  {
    assert Intends(s, d);
    forall e: nat | (IsClaimed(s, e) || IsOpened(s, e)) && e != d
      ensures CandidateOf(s, e) != CandidateOf(s, d)
    {
      assert InPhase(s, e) && Intends(s, e);
    }
  }

  /** The fence lands on the newest attempt of a candidate that has not been spent yet. */
  lemma FenceKeeps(s: State, d: nat, noted: bool)
    requires Core(s) && CanFence(s, d)
    ensures Core(DoFence(s, d, noted))
  {
    FenceKeepsWorkers(s, d, noted);
    FenceKeepsFences(s, d, noted);
    FenceKeepsSubmissions(s, d, noted);
  }

  lemma FenceKeepsWorkers(s: State, d: nat, noted: bool)
    requires Core(s) && CanFence(s, d)
    ensures Shape(DoFence(s, d, noted)) && OneIntent(DoFence(s, d, noted)) && Workers(DoFence(s, d, noted))
  {
    var t := DoFence(s, d, noted);
    FenceLog(s, d, noted);
    OpenedIsAlone(s, d);
    forall e: nat | InPhase(t, e) && t.jobs[e].phase.Opened? && e != d
      ensures t.jobs[e].phase.attempt < |s.attempts| && t.attempts[t.jobs[e].phase.attempt] == s.attempts[t.jobs[e].phase.attempt]
    {
      assert InPhase(s, e) && IsOpened(s, e);
    }
  }

  lemma FenceKeepsFences(s: State, d: nat, noted: bool)
    requires Core(s) && CanFence(s, d)
    ensures Fences(DoFence(s, d, noted))
  {
    var t := DoFence(s, d, noted);
    var c := CandidateOf(s, d);
    FenceLog(s, d, noted);
    OpenedIsAlone(s, d);
    assert Owned(s, c) && Latest(s.attempts, c) == Some(s.jobs[d].phase.attempt);
    forall c' | c' in t.posting
      ensures Fenced(t.attempts, c') <= Waived(t.waivers, c') + 1
      ensures Spent(t, c') ==> Quarantined(t, c') && Latest(t.attempts, c').Some? && t.attempts[Latest(t.attempts, c').value].fenced
    {
      if c' != c {
        assert Spent(t, c') ==> Spent(s, c');
      }
    }
  }

  lemma FenceKeepsSubmissions(s: State, d: nat, noted: bool)
    requires Core(s) && CanFence(s, d)
    ensures Submissions(DoFence(s, d, noted))
  {
    var t := DoFence(s, d, noted);
    FenceLog(s, d, noted);
    forall j | 0 <= j < |t.attempts| && t.attempts[j].status == "submitted"
      ensures Latest(t.attempts, t.attempts[j].candidate) == Some(j)
      ensures Quarantined(t, t.attempts[j].candidate)
      ensures forall e: nat | IsOpened(t, e) :: t.jobs[e].phase.attempt != j
    {
      assert t.attempts[j] == s.attempts[j];
      assert Quarantined(s, s.attempts[j].candidate);
    }
  }

  /** Rewriting the row a just-closed job had open, perhaps into a recorded submission. */
  ghost predicate Recordable(b: State, t: State, i: nat, c: Candidate) {
    && Core(b) && Quarantined(b, c) && i < |b.attempts| && Latest(b.attempts, c) == Some(i)
    && (forall e: nat | IsOpened(b, e) :: CandidateOf(b, e) != c)
    && t == b.(attempts := t.attempts) && SameFences(b.attempts, t.attempts)
    && (forall j :: 0 <= j < |b.attempts| && j != i ==> t.attempts[j] == b.attempts[j])
  }

  lemma RecordLog(b: State, t: State, i: nat, c: Candidate)
    requires Recordable(b, t, i, c)
    ensures forall c' :: Fenced(t.attempts, c') == Fenced(b.attempts, c') && Latest(t.attempts, c') == Latest(b.attempts, c')
  {
    forall c' ensures Fenced(t.attempts, c') == Fenced(b.attempts, c') && Latest(t.attempts, c') == Latest(b.attempts, c') {
      SameFencesSameCounts(b.attempts, t.attempts, c');
    }
  }

  lemma RecordKeeps(b: State, t: State, i: nat, c: Candidate)
    requires Recordable(b, t, i, c)
    ensures Core(t)
  {
    RecordLog(b, t, i, c);
    SamePhases(b, t);
    forall c' | c' in t.posting && Spent(t, c')
      ensures Quarantined(t, c')
    {
      assert Spent(b, c');
    }
    RecordKeepsSubmissions(b, t, i, c);
  }

  lemma RecordKeepsSubmissions(b: State, t: State, i: nat, c: Candidate)
    requires Recordable(b, t, i, c)
    ensures Submissions(t)
  {
    RecordLog(b, t, i, c);
    SamePhases(b, t);
    forall j | 0 <= j < |t.attempts| && t.attempts[j].status == "submitted"
      ensures Latest(t.attempts, t.attempts[j].candidate) == Some(j)
      ensures Quarantined(t, t.attempts[j].candidate)
      ensures forall e: nat | IsOpened(t, e) :: t.jobs[e].phase.attempt != j
    {
      assert Quarantined(b, b.attempts[j].candidate);
      forall e: nat | IsOpened(t, e)
        ensures t.jobs[e].phase.attempt != j
      {
        assert InPhase(b, e);
      }
    }
  }

  lemma EndKeeps(s: State, d: nat, outcome: Outcome)
    requires Core(s) && CanEnd(s, d, outcome)
    ensures Core(DoEnd(s, d, outcome))
  {
    var job := Active(Recorded(OutcomeEnd(outcome), OutcomeCandidate(outcome)));
    var i := s.jobs[d].phase.attempt;
    RowIsRecordable(s, d, job, Closed(s.attempts[i], outcome));
    RecordKeeps(DoMoveJob(s, d, job), DoEnd(s, d, outcome), i, CandidateOf(s, d));
  }

  /** The row of the attempt at work may be rewritten, once its worker records that. */
  lemma RowIsRecordable(s: State, d: nat, job: Job, row: Attempt)
    requires Core(s) && IsOpened(s, d) && job.Active? && job.phase.Recorded?
    requires var was := s.attempts[s.jobs[d].phase.attempt];
             row.candidate == was.candidate && row.fenced == was.fenced
    ensures var b, i := DoMoveJob(s, d, job), s.jobs[d].phase.attempt;
            Recordable(b, b.(attempts := s.attempts[i := row]), i, CandidateOf(s, d))
  {
    var b := DoMoveJob(s, d, job);
    RecordedMoves(s, d, job);
    OpenedIsAlone(s, d);
    assert Latest(s.attempts, CandidateOf(s, d)) == Some(s.jobs[d].phase.attempt);
    assert forall e: nat | IsClaimed(b, e) :: IsClaimed(s, e);
    assert forall e: nat | IsOpened(b, e) :: IsOpened(s, e) && e != d;
  }

  lemma RecordedMoves(s: State, d: nat, job: Job)
    requires Core(s) && IsOpened(s, d) && job.Active? && job.phase.Recorded?
    ensures Core(DoMoveJob(s, d, job))
  {
    JobMoveKeeps(s, DoMoveJob(s, d, job));
  }

  lemma DeferKeeps(s: State, d: nat)
    requires Core(s) && CanDefer(s, d)
    ensures Core(DoDefer(s, d))
  {
    var a := DoMoveJob(s, d, Active(Recorded(ToDelayed, Queued)));
    RecordedMoves(s, d, Active(Recorded(ToDelayed, Queued)));
    ClosingKeeps(a, DoDefer(s, d));
  }

  lemma VerdictKeeps(s: State, d: nat)
    requires Inv(s) && IsRecorded(s, d)
    ensures Core(DoWriteVerdict(s, d))
  {
    var c := CandidateOf(s, d);
    assert Intends(s, d);
    var a := DoMoveJob(s, d, Active(Closing(s.jobs[d].phase.end)));
    JobMoveKeeps(s, a);
    if s.jobs[d].phase.verdict.Queued? {
      forall e: nat | InPhase(a, e) && (a.jobs[e].phase.Claimed? || a.jobs[e].phase.Opened?)
        ensures CandidateOf(a, e) != c
      {
        assert e != d && InPhase(s, e) && (IsClaimed(s, e) || s.jobs[e].phase.Opened?);
        assert Intends(s, e);
      }
      RequeueKeeps(a, DoWriteVerdict(s, d), c);
    } else {
      ParkingKeeps(a, DoWriteVerdict(s, d), c);
    }
  }

  /** Before its browser opened, the attempt cannot have been fenced, so nothing is spent. */
  lemma UnfencedIsFree(s: State, d: nat)
    requires Core(s) && IsOpened(s, d) && !s.jobs[d].phase.session
    ensures Free(s, CandidateOf(s, d))
  {
    var c := CandidateOf(s, d);
    assert Intends(s, d) && Owned(s, c);
    assert forall j :: 0 <= j < |s.attempts| && s.attempts[j].candidate == c && s.attempts[j].status == "submitted" ==>
        Latest(s.attempts, c) == Some(j);
  }

  lemma CancelKeeps(s: State, c: Candidate)
    requires Core(s) && CanCancel(s, c)
    ensures Core(DoCancel(s, c))
  {
    var t := DoCancel(s, c);
    CancelKeepsWorkers(s, c);
    assert !Quarantined(s, c);
    QuarantineCarries(s, t, c);
  }

  lemma CancelKeepsWorkers(s: State, c: Candidate)
    requires Core(s) && CanCancel(s, c)
    ensures var t := DoCancel(s, c);
            && Shape(t) && OneIntent(t) && Workers(t)
            && (forall d: nat | IsClaimed(t, d) :: IsClaimed(s, d) && CandidateOf(t, d) == CandidateOf(s, d))
            && (forall d: nat | IsOpened(t, d) :: IsOpened(s, d) && s.jobs[d] == t.jobs[d])
  {
    var t := DoCancel(s, c);
    assert forall d: nat | Intends(t, d) :: Intends(s, d) && CandidateOf(s, d) != c;
    forall d: nat | InPhase(t, d) && (t.jobs[d].phase.Claimed? || t.jobs[d].phase.Opened?)
      ensures InPhase(s, d) && s.jobs[d] == t.jobs[d] && CandidateOf(s, d) != c
    {
      assert IsClaimed(s, d) || (InPhase(s, d) && s.jobs[d].phase.Opened?);
      assert Intends(s, d);
    }
    assert forall d: nat | IsClaimed(t, d) :: IsClaimed(s, d);
  }

  /** The guard that looks at the newest attempt alone is enough. */
  lemma RetryFindsItFree(s: State, c: Candidate, appStatus: string, events: seq<RetryPolicy.Event>, confirmed: bool)
    requires Core(s) && CanRetry(s, c, appStatus, events, confirmed)
    ensures confirmed || !Spent(s, c)
    ensures Unsubmitted(s, c)
  {
    var view := LatestView(s.attempts, c);
    RetryPolicy.RetryAllowedExactly(appStatus, view, events, confirmed);
    if !confirmed {
      RetryPolicy.UnconfirmedRetryIsUnfenced(appStatus, view, events);
    }
  }

  lemma RetryKeeps(s: State, c: Candidate, confirmed: bool)
    requires Core(s) && Retriable(s, c) && Unsubmitted(s, c)
    requires confirmed || !Spent(s, c)
    ensures Core(DoRetry(s, c, confirmed))
  {
    var t := DoRetry(s, c, confirmed);
    assert confirmed ==> t.waivers[..|t.waivers| - 1] == s.waivers;
    assert forall c' :: Waived(t.waivers, c') == Waived(s.waivers, c') + if confirmed && c' == c then 1 else 0;
    RetryKeepsWorkers(s, c, confirmed);
    QuarantineCarries(s, t, c);
  }

  lemma RetryKeepsWorkers(s: State, c: Candidate, confirmed: bool)
    requires Core(s) && Retriable(s, c)
    ensures var t := DoRetry(s, c, confirmed);
            && Shape(t) && OneIntent(t) && Workers(t)
            && (forall d: nat | IsClaimed(t, d) :: IsClaimed(s, d) && CandidateOf(t, d) == CandidateOf(s, d))
            && (forall d: nat | IsOpened(t, d) :: IsOpened(s, d))
  {
    var t := DoRetry(s, c, confirmed);
    var n := |s.dispatches|;
    assert forall d: nat | d < n :: t.dispatches[d].candidate == s.dispatches[d].candidate;
    assert forall d: nat | d < n && Intends(t, d) :: Intends(s, d) && CandidateOf(s, d) != c;
    forall d: nat | InPhase(t, d) && (t.jobs[d].phase.Claimed? || t.jobs[d].phase.Opened?)
      ensures InPhase(s, d) && CandidateOf(s, d) != c && Intends(t, d)
    {
      assert d in s.jobs && d < n;
      assert IsClaimed(s, d) || (InPhase(s, d) && s.jobs[d].phase.Opened?);
      assert Intends(s, d);
    }
  }

  /** When spent candidates and recorded submissions carry over, so do the last two invariants. */
  lemma QuarantineCarries(s: State, t: State, c: Candidate)
    requires Core(s) && t.posting == s.posting && t.attempts == s.attempts
    requires forall c' | c' in s.posting :: Fenced(t.attempts, c') <= Waived(t.waivers, c') + 1
    requires forall c' | c' in s.posting && Spent(t, c') :: c' != c && Spent(s, c')
    requires forall c' | c' != c && c' in s.status :: c' in t.status && t.status[c'] == s.status[c']
    requires Unsubmitted(s, c)
    requires forall d: nat | IsClaimed(t, d) && CandidateOf(t, d) != c :: IsClaimed(s, d) && CandidateOf(t, d) == CandidateOf(s, d)
    requires forall d: nat | IsOpened(t, d) :: IsOpened(s, d) && s.jobs[d].phase.attempt == t.jobs[d].phase.attempt
    ensures Fences(t) && Submissions(t)
  {
    forall c' | c' in t.posting && Spent(t, c')
      ensures Quarantined(t, c')
    {
      assert Quarantined(s, c');
    }
    forall i | 0 <= i < |t.attempts| && t.attempts[i].status == "submitted"
      ensures Quarantined(t, t.attempts[i].candidate)
      ensures forall d: nat | IsOpened(t, d) :: t.jobs[d].phase.attempt != i
    {
      assert Quarantined(s, s.attempts[i].candidate);
    }
  }

  /** The steps that move a job without entering or leaving an attempt of another row. */
  predicate OnlyMovesJob(step: Step) {
    || step.Publish? || step.Forget? || step.Pick? || step.Postpone? || step.Skip? || step.StopEarly?
    || step.OpenSession? || step.NoteSubmission? || step.Click? || step.ThrowUnrecorded? || step.Leave? || step.Crash?
  }

  predicate MovesInQueue(step: Step) {
    step.Publish? || step.Forget? || step.Pick? || step.Postpone? || step.Skip?
  }

  lemma QueueStepKeeps(s: State, step: Step)
    requires Core(s) && Enabled(s, step) && MovesInQueue(step)
    ensures Core(Apply(s, step))
  {
    JobMoveKeeps(s, Apply(s, step));
  }

  lemma WorkStepKeeps(s: State, step: Step)
    requires Core(s) && Enabled(s, step) && OnlyMovesJob(step) && !MovesInQueue(step)
    ensures Core(Apply(s, step))
  {
    JobMoveKeeps(s, Apply(s, step));
  }

  lemma JobStepKeeps(s: State, step: Step)
    requires Core(s) && Enabled(s, step) && OnlyMovesJob(step)
    ensures Core(Apply(s, step))
  {
    if MovesInQueue(step) {
      QueueStepKeeps(s, step);
    } else {
      WorkStepKeeps(s, step);
    }
  }

  /** The steps of a worker that writes rows. */
  predicate WritesRows(step: Step) {
    || step.Claim? || step.Tailor? || step.AlreadyApplied? || step.AccountNeeded? || step.Open? || step.Fence?
    || step.End? || step.Defer? || step.WriteVerdict?
  }

  lemma WorkerStepKeeps(s: State, step: Step)
    requires Inv(s) && Enabled(s, step) && WritesRows(step)
    ensures Core(Apply(s, step))
  {
    match step
    case Claim(d) => ClaimKeeps(s, d);
    case Tailor(d) => TailorKeeps(s, d);
    case AlreadyApplied(d) => SettleKeeps(s, d, Applied);
    case AccountNeeded(d) => AccountKeeps(s, d);
    case Open(d) => OpenKeeps(s, d);
    case Fence(d, noted) => FenceKeeps(s, d, noted);
    case End(d, outcome) => EndKeeps(s, d, outcome);
    case Defer(d) => DeferKeeps(s, d);
    case WriteVerdict(d) => VerdictKeeps(s, d);
  }

  lemma TableStepKeeps(s: State, step: Step)
    requires Inv(s) && Enabled(s, step) && !OnlyMovesJob(step) && !WritesRows(step)
    ensures Core(Apply(s, step))
  {
    match step
    case Enqueue(c) => EnqueueKeeps(s, c);
    case ParkUnapplyable(c) => ParkingKeeps(s, DoSetStatus(s, c, NeedsReview), c);
    case ReturnToDiscovered(c) => ReturnKeeps(s, c);
    case HandleFailure(d) => HandlerKeeps(s, d);
    case Sweep(c, attempt) => SweepKeeps(s, c, attempt);
    case Cancel(c) => CancelKeeps(s, c);
    case Retry(c, appStatus, events, confirmed) =>
      RetryFindsItFree(s, c, appStatus, events, confirmed);
      RetryKeeps(s, c, confirmed);
  }

  lemma StepKeeps(s: State, step: Step)
    requires Inv(s) && Enabled(s, step)
    ensures Inv(Apply(s, step))
  {
    VerdictsKept(s, step);
    if OnlyMovesJob(step) {
      JobStepKeeps(s, step);
    } else if WritesRows(step) {
      WorkerStepKeeps(s, step);
    } else {
      TableStepKeeps(s, step);
    }
  }

  lemma SweepKeeps(s: State, c: Candidate, attempt: Option<nat>)
    requires Core(s) && CanSweep(s, c, attempt)
    ensures Core(DoSweep(s, c, attempt))
  {
    ParkingKeeps(s, DoSweep(s, c, attempt), c);
  }

  lemma SettleKeeps(s: State, d: nat, status: Status)
    requires Core(s) && IsClaimed(s, d) && Parked(status)
    ensures Core(DoSettle(s, d, status))
  {
    var a := DoMoveJob(s, d, Active(Closing(ToCompleted)));
    JobMoveKeeps(s, a);
    ParkingKeeps(a, DoSettle(s, d, status), CandidateOf(s, d));
  }

  lemma ReturnKeeps(s: State, c: Candidate)
    requires Core(s) && CanReselect(s, c)
    ensures Core(DoSetStatus(s, c, Discovered))
  {
    var t := DoSetStatus(s, c, Discovered);
    SamePhases(s, t);
    forall c' | c' in t.posting && Spent(t, c')
      ensures Quarantined(t, c')
    {
      assert Spent(s, c');
    }
    forall i | 0 <= i < |t.attempts| && t.attempts[i].status == "submitted"
      ensures Quarantined(t, t.attempts[i].candidate)
    {
      assert Quarantined(s, s.attempts[i].candidate);
    }
  }

  lemma AccountKeeps(s: State, d: nat)
    requires Core(s) && IsClaimed(s, d)
    ensures Core(DoAccountNeeded(s, d))
  {
    var c := CandidateOf(s, d);
    ClaimMeansFree(s, d);
    var b := DoSettle(s, d, NeedsReview);
    SettleKeeps(s, d, NeedsReview);
    assert forall e: nat | InPhase(b, e) && b.jobs[e].phase.Opened? :: InPhase(s, e) && s.jobs[e] == b.jobs[e];
    AppendKeeps(b, DoAccountNeeded(s, d), c, Attempt(c, "needs_review", None, false));
  }

  lemma HandlerKeeps(s: State, d: nat)
    requires Core(s) && CanHandleFailure(s, d)
    ensures Core(DoHandleFailure(s, d))
  {
    var t := DoHandleFailure(s, d);
    var c := CandidateOf(s, d);
    if s.status[c].Queued? || s.status[c].Applying? {
      ParkingKeeps(s, t, c);
    } else {
      ClosingKeeps(s, t);
    }
  }

  lemma ClosingKeeps(s: State, t: State)
    requires Core(s) && t == s.(attempts := t.attempts) && SameFences(s.attempts, t.attempts)
    requires forall i :: 0 <= i < |t.attempts| && t.attempts[i].status == "submitted" ==> s.attempts[i].status == "submitted"
    ensures Core(t)
  {
    SameFencesForAll(s.attempts, t.attempts);
    SamePhases(s, t);
    forall c' | c' in t.posting && Spent(t, c')
      ensures Quarantined(t, c')
    {
      assert Spent(s, c');
    }
    ClosingKeepsSubmissions(s, t);
  }

  lemma SameFencesForAll(a: seq<Attempt>, b: seq<Attempt>)
    requires SameFences(a, b)
    ensures forall c :: Fenced(b, c) == Fenced(a, c) && Latest(b, c) == Latest(a, c)
  {
    forall c ensures Fenced(b, c) == Fenced(a, c) && Latest(b, c) == Latest(a, c) {
      SameFencesSameCounts(a, b, c);
    }
  }

  lemma ClosingKeepsSubmissions(s: State, t: State)
    requires Core(s) && t == s.(attempts := t.attempts) && SameFences(s.attempts, t.attempts)
    requires forall i :: 0 <= i < |t.attempts| && t.attempts[i].status == "submitted" ==> s.attempts[i].status == "submitted"
    ensures Submissions(t)
  {
    SameFencesForAll(s.attempts, t.attempts);
    SamePhases(s, t);
    forall i | 0 <= i < |t.attempts| && t.attempts[i].status == "submitted"
      ensures Quarantined(t, t.attempts[i].candidate)
    {
      assert s.attempts[i].status == "submitted";
    }
  }

  /** Verdicts in the making carry over as long as their candidates stay free. */
  lemma VerdictsCarry(s: State, t: State)
    requires Verdicts(s)
    requires forall d: nat | IsRecorded(t, d) ::
               && IsRecorded(s, d) && t.jobs[d] == s.jobs[d] && Intends(t, d) && CandidateOf(t, d) == CandidateOf(s, d)
               && CandidateOf(t, d) in t.status
               && (Free(s, CandidateOf(s, d)) ==> Free(t, CandidateOf(s, d)))
    ensures Verdicts(t)
  {
  }

  lemma VerdictsKept(s: State, step: Step)
    requires Inv(s) && Enabled(s, step)
    ensures Verdicts(Apply(s, step))
  {
    if MovesInQueue(step) {
      VerdictsKeptInQueue(s, step);
    } else if OnlyMovesJob(step) {
      VerdictsKeptAtWork(s, step);
    } else if step.Claim? || step.Tailor? || step.AlreadyApplied? || step.WriteVerdict? {
      VerdictsKeptInPlace(s, step);
    } else if step.Enqueue? || step.ParkUnapplyable? || step.ReturnToDiscovered? || step.Cancel? || step.Retry? {
      VerdictsKeptByTables(s, step);
    } else if step.HandleFailure? {
      VerdictsKeptByRepair(s, DoHandleFailure(s, step.d));
    } else if step.Sweep? {
      VerdictsKeptByRepair(s, DoSweep(s, step.c, step.attempt));
    } else if step.End? {
      EndMakesVerdict(s, step.d, step.outcome);
    } else if step.Defer? {
      DeferMakesVerdict(s, step.d);
    } else if step.Fence? {
      VerdictsKeptByFence(s, step.d, step.noted);
    } else if step.Open? {
      VerdictsKeptByOpening(s, DoOpen(s, step.d), step.d, Attempt(CandidateOf(s, step.d), "submitting", None, false));
    } else {
      VerdictsKeptByOpening(s, DoAccountNeeded(s, step.d), step.d, Attempt(CandidateOf(s, step.d), "needs_review", None, false));
    }
  }

  /** Steps that touch neither rows, dispatches nor waivers, and record no verdict. */
  lemma VerdictsStay(s: State, t: State)
    requires Inv(s)
    requires t == s.(jobs := t.jobs, status := t.status, failures := t.failures) && s.status.Keys <= t.status.Keys
    requires forall d :: d in t.jobs && t.jobs[d].Active? && t.jobs[d].phase.Recorded? ==> d in s.jobs && s.jobs[d] == t.jobs[d]
    ensures Verdicts(t)
  {
    forall d: nat | IsRecorded(t, d)
      ensures IsRecorded(s, d) && Intends(t, d)
    {
      assert IsRecorded(s, d) && Intends(s, d);
    }
    VerdictsCarry(s, t);
  }

  lemma VerdictsKeptInQueue(s: State, step: Step)
    requires Inv(s) && Enabled(s, step) && MovesInQueue(step)
    ensures Verdicts(Apply(s, step))
  {
    VerdictsStay(s, Apply(s, step));
  }

  lemma VerdictsKeptAtWork(s: State, step: Step)
    requires Inv(s) && Enabled(s, step) && OnlyMovesJob(step) && !MovesInQueue(step)
    ensures Verdicts(Apply(s, step))
  {
    VerdictsStay(s, Apply(s, step));
  }

  lemma VerdictsKeptInPlace(s: State, step: Step)
    requires Inv(s) && Enabled(s, step)
    requires step.Claim? || step.Tailor? || step.AlreadyApplied? || step.WriteVerdict?
    ensures Verdicts(Apply(s, step))
  {
    VerdictsStay(s, Apply(s, step));
  }

  lemma VerdictsKeptByTables(s: State, step: Step)
    requires Inv(s) && Enabled(s, step)
    requires step.Enqueue? || step.ParkUnapplyable? || step.ReturnToDiscovered? || step.Cancel? || step.Retry?
    ensures Verdicts(Apply(s, step))
  {
    var t := Apply(s, step);
    if step.Retry? && step.confirmed {
      assert t.waivers[..|t.waivers| - 1] == s.waivers;
    }
    forall d: nat | IsRecorded(t, d)
      ensures IsRecorded(s, d) && t.jobs[d] == s.jobs[d] && Intends(t, d) && CandidateOf(t, d) == CandidateOf(s, d)
      ensures CandidateOf(t, d) in t.status
      ensures Free(s, CandidateOf(s, d)) ==> Free(t, CandidateOf(s, d))
    {
      assert IsRecorded(s, d) && Intends(s, d);
    }
    VerdictsCarry(s, t);
  }

  lemma VerdictsKeptByRepair(s: State, t: State)
    requires Inv(s) && t == s.(status := t.status, attempts := t.attempts)
    requires s.status.Keys == t.status.Keys && SameFences(s.attempts, t.attempts)
    requires forall i :: 0 <= i < |s.attempts| ==> t.attempts[i] == s.attempts[i] || t.attempts[i].status == "unknown"
    ensures Verdicts(t)
  {
    forall d: nat | IsRecorded(t, d)
      ensures Free(s, CandidateOf(s, d)) ==> Free(t, CandidateOf(s, d))
    {
      SameFencesSameCounts(s.attempts, t.attempts, CandidateOf(s, d));
    }
    VerdictsCarry(s, t);
  }

  /** Rows opened belong to another candidate, whose dispatch is another one. */
  lemma VerdictsKeptByOpening(s: State, t: State, d: nat, x: Attempt)
    requires Inv(s) && IsClaimed(s, d) && x.candidate == CandidateOf(s, d)
    requires d in t.jobs && t.jobs[d].Active? && !t.jobs[d].phase.Recorded?
    requires t == s.(jobs := s.jobs[d := t.jobs[d]], status := t.status, attempts := s.attempts + [x])
    requires s.status.Keys <= t.status.Keys
    ensures Verdicts(t)
  {
    assert Intends(s, d);
    forall e: nat | IsRecorded(t, e)
      ensures IsRecorded(s, e) && Intends(t, e) && (Free(s, CandidateOf(s, e)) ==> Free(t, CandidateOf(s, e)))
    {
      assert IsRecorded(s, e) && Intends(s, e) && e != d;
      AppendAttempt(s.attempts, x, CandidateOf(s, e));
    }
    VerdictsCarry(s, t);
  }

  lemma VerdictsKeptByFence(s: State, d: nat, noted: bool)
    requires Inv(s) && CanFence(s, d)
    ensures Verdicts(DoFence(s, d, noted))
  {
    var t := DoFence(s, d, noted);
    FenceLog(s, d, noted);
    assert Intends(s, d);
    forall e: nat | IsRecorded(t, e)
      ensures IsRecorded(s, e) && Intends(t, e) && (Free(s, CandidateOf(s, e)) ==> Free(t, CandidateOf(s, e)))
    {
      assert IsRecorded(s, e) && Intends(s, e) && e != d;
    }
    VerdictsCarry(s, t);
  }

  /** Closing an attempt puts one job into the recorded phase and leaves the others' candidates alone. */
  lemma VerdictMade(s: State, t: State, d: nat)
    requires Inv(s) && IsOpened(s, d)
    requires d in t.jobs && t == s.(jobs := s.jobs[d := t.jobs[d]], attempts := t.attempts)
    requires |t.attempts| == |s.attempts| && SameFences(s.attempts, t.attempts)
    requires forall i :: 0 <= i < |s.attempts| && i != s.jobs[d].phase.attempt ==> t.attempts[i] == s.attempts[i]
    requires IsRecorded(t, d)
    requires var verdict := t.jobs[d].phase.verdict;
             if verdict.Queued? then Free(t, CandidateOf(s, d)) else Parked(verdict)
    ensures Verdicts(t)
  {
    assert Intends(s, d) && Latest(s.attempts, CandidateOf(s, d)) == Some(s.jobs[d].phase.attempt);
    forall e: nat | IsRecorded(t, e) && e != d
      ensures IsRecorded(s, e) && Intends(s, e) && (Free(s, CandidateOf(s, e)) ==> Free(t, CandidateOf(s, e)))
    {
      assert IsRecorded(s, e) && CandidateOf(s, e) != CandidateOf(s, d);
      SameFencesSameCounts(s.attempts, t.attempts, CandidateOf(s, e));
    }
  }

  lemma EndMakesVerdict(s: State, d: nat, outcome: Outcome)
    requires Inv(s) && CanEnd(s, d, outcome)
    ensures Verdicts(DoEnd(s, d, outcome))
  {
    VerdictMade(s, DoEnd(s, d, outcome), d);
  }

  lemma DeferMakesVerdict(s: State, d: nat)
    requires Inv(s) && CanDefer(s, d)
    ensures Verdicts(DoDefer(s, d))
  {
    UnfencedIsFree(s, d);
    SameFencesSameCounts(s.attempts, DoDefer(s, d).attempts, CandidateOf(s, d));
    VerdictMade(s, DoDefer(s, d), d);
  }

  // ------------------------------------------------------------ whole runs

  lemma {:induction false} RunKeeps(posting: map<Candidate, Posting>, steps: seq<Step>)
    requires Run(Init(posting), steps).Some?
    ensures Inv(Run(Init(posting), steps).value)
    ensures Run(Init(posting), steps).value.posting == posting
    decreases |steps|
  {
    if steps != [] {
      var mid := Run(Init(posting), steps[..|steps| - 1]).value;
      RunKeeps(posting, steps[..|steps| - 1]);
      StepKeeps(mid, steps[|steps| - 1]);
    }
  }

  /** Only a retry under confirmation is recorded as a waiver. */
  lemma {:induction false} NoConfirmationNoWaiver(posting: map<Candidate, Posting>, steps: seq<Step>, c: Candidate)
    requires Run(Init(posting), steps).Some?
    requires forall i :: 0 <= i < |steps| && steps[i].Retry? && steps[i].c == c ==> !steps[i].confirmed
    ensures Waived(Run(Init(posting), steps).value.waivers, c) == 0
    decreases |steps|
  {
    if steps != [] {
      NoConfirmationNoWaiver(posting, steps[..|steps| - 1], c);
      WaiversOnlyByRetry(Run(Init(posting), steps[..|steps| - 1]).value, steps[|steps| - 1], c);
    }
  }

  lemma WaiversOnlyByRetry(s: State, step: Step, c: Candidate)
    requires Enabled(s, step) && (step.Retry? && step.c == c ==> !step.confirmed)
    ensures Waived(Apply(s, step).waivers, c) == Waived(s.waivers, c)
  {
    if step.Retry? && step.confirmed {
      assert (s.waivers + [step.c])[..|s.waivers|] == s.waivers;
    }
  }

  /**
   * The limit on irreversible submits: over every run, a candidate carries at most one fenced
   * attempt more than the user has explicitly confirmed as not submitted.
   */
  lemma FencesAreBounded(posting: map<Candidate, Posting>, steps: seq<Step>, c: Candidate)
    requires c in posting && Run(Init(posting), steps).Some?
    ensures var s := Run(Init(posting), steps).value;
            Fenced(s.attempts, c) <= Waived(s.waivers, c) + 1
  {
    RunKeeps(posting, steps);
  }

  /**
   * Without such a confirmation at most one attempt of a candidate was ever fenced, and it is the
   * newest: every older attempt is unfenced, which is why the retry rule need only read the newest.
   */
  lemma OnlyTheNewestIsFenced(posting: map<Candidate, Posting>, steps: seq<Step>, c: Candidate)
    requires c in posting && Run(Init(posting), steps).Some?
    requires forall i :: 0 <= i < |steps| && steps[i].Retry? && steps[i].c == c ==> !steps[i].confirmed
    ensures var s := Run(Init(posting), steps).value;
            && Fenced(s.attempts, c) <= 1
            && (forall i :: 0 <= i < |s.attempts| && s.attempts[i].candidate == c && s.attempts[i].fenced ==>
                  Latest(s.attempts, c) == Some(i))
  {
    RunKeeps(posting, steps);
    NoConfirmationNoWaiver(posting, steps, c);
    NewestOnly(Run(Init(posting), steps).value, c);
  }

  lemma NewestOnly(s: State, c: Candidate)
    requires Fences(s) && c in s.posting && Waived(s.waivers, c) == 0
    ensures forall i :: 0 <= i < |s.attempts| && s.attempts[i].candidate == c && s.attempts[i].fenced ==>
              Latest(s.attempts, c) == Some(i)
  {
    forall i | 0 <= i < |s.attempts| && s.attempts[i].candidate == c && s.attempts[i].fenced
      ensures Latest(s.attempts, c) == Some(i)
    {
      FencedCountsBoth(s.attempts, i, Latest(s.attempts, c).value, c);
    }
  }

  lemma {:induction false} FencedCountsBoth(a: seq<Attempt>, i: nat, j: nat, c: Candidate)
    requires i <= j < |a| && a[i].candidate == c && a[j].candidate == c && a[i].fenced
    ensures Fenced(a, c) >= 1
    ensures i < j && a[j].fenced ==> Fenced(a, c) >= 2
  {
    var init := a[..|a| - 1];
    if j < |a| - 1 {
      FencedCountsBoth(init, i, j, c);
    } else if i < j {
      FencedCountsBoth(init, i, i, c);
    }
  }

  predicate SamePosting(posting: map<Candidate, Posting>, a: Attempt, b: Attempt) {
    a.candidate in posting && b.candidate in posting && posting[a.candidate] == posting[b.candidate]
  }

  /** Candidates of one posting share its application row, so the limit is one per posting. */
  lemma OneFencePerPosting(posting: map<Candidate, Posting>, steps: seq<Step>)
    requires Run(Init(posting), steps).Some?
    requires forall i :: 0 <= i < |steps| && steps[i].Retry? ==> !steps[i].confirmed
    ensures var a := Run(Init(posting), steps).value.attempts;
            forall i, j | 0 <= i < |a| && 0 <= j < |a| && a[i].fenced && a[j].fenced && SamePosting(posting, a[i], a[j]) ::
              i == j
  {
    var s := Run(Init(posting), steps).value;
    RunKeeps(posting, steps);
    forall i, j | 0 <= i < |s.attempts| && 0 <= j < |s.attempts| && s.attempts[i].fenced && s.attempts[j].fenced
                  && SamePosting(posting, s.attempts[i], s.attempts[j])
      ensures i == j
    {
      assert Owned(s, s.attempts[i].candidate) && Owned(s, s.attempts[j].candidate);
      OnlyTheNewestIsFenced(posting, steps, s.attempts[i].candidate);
    }
  }

  /**
   * A recorded submission is final for its posting, confirmations or not: no run records a second
   * one, and no attempt is ever opened after it.
   */
  lemma SubmittedOncePerPosting(posting: map<Candidate, Posting>, steps: seq<Step>, i: nat, j: nat)
    requires Run(Init(posting), steps).Some?
    requires var a := Run(Init(posting), steps).value.attempts;
             i < |a| && j < |a| && a[i].status == "submitted" && SamePosting(posting, a[i], a[j])
    ensures j <= i
    ensures Run(Init(posting), steps).value.attempts[j].status == "submitted" ==> i == j
  {
    var s := Run(Init(posting), steps).value;
    RunKeeps(posting, steps);
    assert Owned(s, s.attempts[i].candidate) && Owned(s, s.attempts[j].candidate);
    assert Latest(s.attempts, s.attempts[i].candidate) == Some(i);
  }

  // ------------------------------------------------ what the texts say

  lemma {:induction false} ContainsAt(text: string, i: nat, needle: string)
    requires i <= |text| && needle <= text[i..]
    ensures Contains(text, needle)
    decreases i
  {
    if i > 0 {
      assert text[1..][i - 1..] == text[i..];
      ContainsAt(text[1..], i - 1, needle);
    }
  }

  lemma {:induction false} ContainedLetters(text: string, needle: string, letter: char)
    requires Contains(text, needle) && letter in needle
    ensures letter in text
  {
    if !(needle <= text) {
      ContainedLetters(text[1..], needle, letter);
    }
  }

  predicate Plain(text: string) {
    forall i :: 0 <= i < |text| ==> text[i] !in {'N', 'w', 'W'}
  }

  lemma PlainJoins(a: string, b: string)
    requires Plain(a) && Plain(b)
    ensures Plain(a + b)
  {
  }

  lemma UncertainLetters()
    ensures Plain(UNCERTAIN)
  {
    var reached, advice, rest := REACHED, ADVICE, " taking further action.";
    assert Plain(reached) && Plain(advice) && Plain(rest);
    PlainJoins(advice, rest);
    PlainJoins(reached, advice + rest);
  }

  /** A plain text matches none of the phrases by which the policy recognises a harmless attempt. */
  lemma PlainIsNotHarmless(text: string)
    requires Plain(text)
    ensures !RetryPolicy.HeldBackText(text) && !RetryPolicy.InterruptedText(text)
  {
    NotContained(text, "Not submitted: invalid_fields", 0);
    NotContained(text, "Not submitted: no_form", 0);
    NotContained(text, "Not submitted: dry_run", 0);
    NotContained(text, "Not submitted: kill_switch", 0);
    NotContained(text, "Not submitted: no_submit_control", 0);
    NotContained(text, "Not submitted: posting_closed", 0);
    assert 'w' !in Lower(text);
    NotContained(Lower(text), RetryPolicy.INTERRUPTED_PHRASE, 0);
  }

  lemma UncertainIsRefused(view: seq<RetryPolicy.AttemptView>, appStatus: string, events: seq<RetryPolicy.Event>)
    requires |view| == 1 && view[0].status == "unknown" && view[0].error == Some(UNCERTAIN)
    ensures RetryPolicy.SafeRetryReason(appStatus, view, events, false).Some?
  {
    UncertainLetters();
    PlainIsNotHarmless(UNCERTAIN);
    RetryPolicy.RetryAllowedExactly(appStatus, view, events, false);
  }

  lemma InterruptedReads(text: string, head: string, phrase: string, tail: string)
    requires phrase == RetryPolicy.INTERRUPTED_PHRASE && text == head + phrase + tail
    ensures RetryPolicy.InterruptedText(text)
  {
    PhraseIsLower(phrase);
    LowerContains(head, phrase, tail);
  }

  predicate NoCapitals(text: string) {
    forall i :: 0 <= i < |text| ==> !('A' <= text[i] <= 'Z')
  }

  lemma PhraseIsLower(phrase: string)
    requires phrase == RetryPolicy.INTERRUPTED_PHRASE
    ensures NoCapitals(phrase)
  {
  }

  /** A phrase in lower case is found in any text around it. */
  lemma LowerContains(head: string, phrase: string, tail: string)
    requires NoCapitals(phrase)
    ensures Contains(Lower(head + phrase + tail), phrase)
  {
    LowerJoins(head + phrase, tail);
    LowerJoins(head, phrase);
    AlreadyLower(phrase);
    ContainsMiddle(Lower(head), phrase, Lower(tail));
  }

  lemma ContainsMiddle(head: string, phrase: string, tail: string)
    ensures Contains(head + phrase + tail, phrase)
  {
    var text := head + phrase + tail;
    assert text[|head|..] == phrase + tail;
    ContainsAt(text, |head|, phrase);
  }

  lemma LowerJoins(a: string, b: string)
    ensures Lower(a + b) == Lower(a) + Lower(b)
  {
  }

  lemma AlreadyLower(text: string)
    requires NoCapitals(text)
    ensures Lower(text) == text
  {
  }

  predicate Avoids(text: string) {
    forall i :: 0 <= i < |text| ==> text[i] !in {'g', 'G', 'j', 'J'}
  }

  lemma AvoidsLower(text: string)
    requires Avoids(text)
    ensures 'g' !in Lower(text) && 'j' !in Lower(text)
  {
  }

  lemma InterruptedLetters()
    ensures Avoids(INTERRUPTED)
  {
    var phrase := RetryPolicy.INTERRUPTED_PHRASE;
    assert Avoids("Application ");
    assert Avoids(phrase);
    AvoidsJoin("Application ", phrase);
    AvoidsJoin("Application " + phrase, ".");
  }

  lemma AvoidsJoin(a: string, b: string)
    requires Avoids(a) && Avoids(b)
    ensures Avoids(a + b)
  {
  }

  lemma NotSpamWithout(text: string)
    requires 'g' !in Lower(text) && 'j' !in Lower(text)
    ensures !RetryPolicy.SpamText(text)
  {
    NotContained(Lower(text), "flagged as possible spam", 3);
    NotContained(Lower(text), "rejected this submission as possible spam", 2);
  }

  lemma NotContained(text: string, needle: string, i: nat)
    requires i < |needle| && needle[i] !in text
    ensures !Contains(text, needle)
  {
    if Contains(text, needle) {
      ContainedLetters(text, needle, needle[i]);
    }
  }

  /** The events record nothing that could be a submit. */
  predicate NoSubmitIn(events: seq<RetryPolicy.Event>) {
    && !RetryPolicy.BlockedByProvider(events)
    && !RetryPolicy.Happened(events, "submitted")
    && !RetryPolicy.SubmittingLive(events)
  }

  /**
   * The sweep's own error text is what makes an interrupted attempt retriable: whenever the newest
   * attempt is as the sweep leaves it and unfenced, and the events record no submit, the application
   * at rest may be retried.
   */
  lemma InterruptedIsRetriable(attempts: seq<Attempt>, c: Candidate, appStatus: string, events: seq<RetryPolicy.Event>)
    requires Latest(attempts, c).Some?
    requires var newest := attempts[Latest(attempts, c).value];
             newest.status == "unknown" && newest.error == Some(INTERRUPTED) && !newest.fenced
    requires appStatus in ["failed", "needs_review", "closed"] && NoSubmitIn(events)
    ensures RetryPolicy.SafeRetryReason(appStatus, LatestView(attempts, c), events, false) == None
  {
    var view := LatestView(attempts, c);
    InterruptedReads(view[0].error.value, "Application ", RetryPolicy.INTERRUPTED_PHRASE, ".");
    InterruptedLetters();
    AvoidsLower(INTERRUPTED);
    NotSpamWithout(INTERRUPTED);
    RetryPolicy.RetryAllowedExactly(appStatus, view, events, false);
  }
}
