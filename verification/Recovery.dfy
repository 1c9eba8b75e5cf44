/** The recovery sweep over applications whose worker is gone. */
module Recovery {
  import opened Basics
  import opened Pipeline
  import Sizes

  datatype RunStatus = RunApplying | RunFailed | RunOther

  datatype RunRow = RunRow(status: RunStatus, needsReview: nat)

  datatype Row = Row(run: nat, posting: Posting, status: Status, updatedAt: int)

  datatype AppStatus = Waiting | Review | Else

  datatype Desk = Desk(
    runs: map<nat, RunRow>,
    rows: map<Candidate, Row>,
    apps: map<Posting, AppStatus>,
    attempts: seq<Attempt>)

  /** One line of the left join of stale candidates with their unfinished attempts. */
  datatype Line = Line(c: Candidate, attempt: Option<nat>)

  /** What the query looks for: `mine` are the candidates whose dispatches belong to this queue. */
  datatype Look = Look(live: set<Candidate>, mine: set<Candidate>, cutoff: int, now: int)

  predicate Repairable(status: Status) {
    status.Queued? || status.Applying?
  }

  predicate StillOpen(status: Status) {
    status.Approved? || status.Tailored? || status.Queued? || status.Applying?
  }

  predicate Stale(d: Desk, look: Look, c: Candidate) {
    && c in d.rows && c in look.mine
    && d.rows[c].run in d.runs && d.runs[d.rows[c].run].status.RunApplying?
    && Repairable(d.rows[c].status) && d.rows[c].updatedAt < look.cutoff
  }

  predicate UnfinishedOf(d: Desk, c: Candidate, i: nat) {
    i < |d.attempts| && d.attempts[i].candidate == c && Unfinished(d.attempts[i])
  }

  ghost predicate IsLine(d: Desk, look: Look, line: Line) {
    && Stale(d, look, line.c)
    && match line.attempt
       case Some(i) => UnfinishedOf(d, line.c, i)
       case None => forall i: nat :: !UnfinishedOf(d, line.c, i)
  }

  /** The lines the query returns, in any order. */
  ghost predicate IsJoin(d: Desk, look: Look, lines: seq<Line>) {
    && (forall k :: 0 <= k < |lines| ==> IsLine(d, look, lines[k]))
    && (forall c :: Stale(d, look, c) ==> exists k :: 0 <= k < |lines| && lines[k].c == c)
  }

  // -------------------------------------------------------- specification

  /** The candidates a sweep repairs: stale, and without a live job. */
  function Targets(d: Desk, look: Look): set<Candidate> {
    set c | c in d.rows && Stale(d, look, c) && c !in look.live
  }

  function RowsAfter(rows: map<Candidate, Row>, done: set<Candidate>, now: int): map<Candidate, Row> {
    map c | c in rows :: if c in done then rows[c].(status := NeedsReview, updatedAt := now) else rows[c]
  }

  /** The repaired candidates of one run. */
  function OfRun(rows: map<Candidate, Row>, done: set<Candidate>, run: nat): set<Candidate> {
    set c | c in done && c in rows && rows[c].run == run
  }

  function RunsCounted(d: Desk, done: set<Candidate>): map<nat, RunRow> {
    map r | r in d.runs :: d.runs[r].(needsReview := d.runs[r].needsReview + |OfRun(d.rows, done, r)|)
  }

  predicate Settled(rows: map<Candidate, Row>, run: nat) {
    forall c :: c in rows && rows[c].run == run ==> !StillOpen(rows[c].status)
  }

  /** Runs touched by the sweep fail once nothing of theirs is in flight. */
  predicate Fails(d: Desk, rows: map<Candidate, Row>, done: set<Candidate>, run: nat) {
    run in d.runs && OfRun(d.rows, done, run) != {} && Settled(rows, run) && d.runs[run].status.RunApplying?
  }

  function RunsAfter(d: Desk, done: set<Candidate>, now: int): map<nat, RunRow> {
    map r | r in d.runs ::
      var counted := RunRow(d.runs[r].status, d.runs[r].needsReview + |OfRun(d.rows, done, r)|);
      if Fails(d, RowsAfter(d.rows, done, now), done, r) then counted.(status := RunFailed) else counted
  }

  function AppsAfter(d: Desk, done: set<Candidate>): map<Posting, AppStatus> {
    map p | p in d.apps ::
      if d.apps[p].Waiting? && exists c :: c in done && c in d.rows && d.rows[c].posting == p then Review else d.apps[p]
  }

  /** `closed` names the one unfinished attempt closed for each repaired candidate that has any. */
  function AttemptsAfter(attempts: seq<Attempt>, closed: map<Candidate, nat>): (r: seq<Attempt>)
    ensures |r| == |attempts|
  {
    seq(|attempts|, i requires 0 <= i < |attempts| =>
      if attempts[i].candidate in closed && closed[attempts[i].candidate] == i
      then attempts[i].(status := "unknown", error := Some(INTERRUPTED)) else attempts[i])
  }

  ghost predicate Closes(d: Desk, done: set<Candidate>, closed: map<Candidate, nat>) {
    && closed.Keys <= done
    && (forall c :: c in closed ==> UnfinishedOf(d, c, closed[c]))
    && (forall c, i: nat :: c in done && UnfinishedOf(d, c, i) ==> c in closed)
  }

  /** A whole sweep, given which unfinished attempt the query listed first for each candidate. */
  function Swept(d: Desk, look: Look, closed: map<Candidate, nat>): Desk {
    var done := Targets(d, look);
    Desk(RunsAfter(d, done, look.now), RowsAfter(d.rows, done, look.now), AppsAfter(d, done), AttemptsAfter(d.attempts, closed))
  }

  // ------------------------------------------------------------ properties

  /** A candidate with a live job is never touched. */
  lemma LiveIsSafe(d: Desk, look: Look, closed: map<Candidate, nat>, c: Candidate)
    requires c in d.rows && c in look.live && Closes(d, Targets(d, look), closed)
    ensures Swept(d, look, closed).rows[c] == d.rows[c]
    ensures forall i :: 0 <= i < |d.attempts| && d.attempts[i].candidate == c ==>
              Swept(d, look, closed).attempts[i] == d.attempts[i]
  {
    assert c !in Targets(d, look) && c !in closed;
  }

  /** Only a run with nothing approved, tailored, queued or applying is failed, and only from applying. */
  lemma FailsOnlySettled(d: Desk, look: Look, closed: map<Candidate, nat>, run: nat)
    requires run in d.runs && Swept(d, look, closed).runs[run].status != d.runs[run].status
    ensures d.runs[run].status.RunApplying? && Swept(d, look, closed).runs[run].status.RunFailed?
    ensures Settled(Swept(d, look, closed).rows, run)
  {
  }

  /** The review counters rise by exactly the number of repaired candidates. */
  lemma {:induction false} CountersAddUp(d: Desk, runs: set<nat>, done: set<Candidate>)
    requires forall c :: c in done ==> c in d.rows && d.rows[c].run in runs
    ensures Total(d, runs, done) == |done|
    decreases runs
  {
    if runs == {} {
      assert done == {};
    } else {
      var r := Least(runs);
      var own := OfRun(d.rows, done, r);
      var rest := done - own;
      CountersAddUp(d, runs - {r}, rest);
      TotalRest(d, runs - {r}, done, rest);
      assert done == own + rest;
      Sizes.UnionSize(own, rest);
    }
  }

  function Least(runs: set<nat>): (r: nat)
    requires runs != {}
    ensures r in runs && forall x :: x in runs ==> r <= x
  {
    LeastExists(runs);
    var r :| r in runs && forall x :: x in runs ==> r <= x;
    r
  }

  lemma {:induction false} LeastExists(runs: set<nat>)
    requires runs != {}
    ensures exists r :: r in runs && forall x :: x in runs ==> r <= x
    decreases runs
  {
    var r :| r in runs;
    if runs - {r} != {} {
      LeastExists(runs - {r});
      var m :| m in runs - {r} && forall x :: x in runs - {r} ==> m <= x;
      var least := Min(r, m);
      assert forall x :: x in runs ==> x == r || x in runs - {r};
      assert least in runs && forall x :: x in runs ==> least <= x;
    } else {
      assert forall x :: x in runs ==> x in runs - {r} || x == r;
    }
  }

  function Total(d: Desk, runs: set<nat>, done: set<Candidate>): nat
    decreases runs
  {
    if runs == {} then 0
    else
      var r := Least(runs);
      |OfRun(d.rows, done, r)| + Total(d, runs - {r}, done)
  }

  lemma {:induction false} TotalRest(d: Desk, runs: set<nat>, done: set<Candidate>, rest: set<Candidate>)
    requires forall r :: r in runs ==> OfRun(d.rows, done, r) == OfRun(d.rows, rest, r)
    ensures Total(d, runs, done) == Total(d, runs, rest)
    decreases runs
  {
    if runs != {} {
      TotalRest(d, runs - {Least(runs)}, done, rest);
    }
  }

  /**
   * A later sweep, whatever its cutoff and whichever jobs it finds alive, repairs exactly what it
   * would have repaired before the first one, less what the first one did.
   */
  lemma LaterSweep(d: Desk, look: Look, closed: map<Candidate, nat>, later: Look)
    requires Closes(d, Targets(d, look), closed)
    ensures Targets(Swept(d, look, closed), later) == Targets(d, later) - Targets(d, look)
  {
    var t, done := Swept(d, look, closed), Targets(d, look);
    forall c
      ensures c in Targets(t, later) <==> c in Targets(d, later) && c !in done
    {
      if c in d.rows && c !in done && Repairable(d.rows[c].status) {
        assert t.rows[c] == d.rows[c];
        assert t.rows[c].run == d.rows[c].run && !Settled(t.rows, d.rows[c].run);
      }
    }
  }

  /** In particular the same sweep right again finds nothing left to repair and changes nothing. */
  lemma SecondSweepIsIdle(d: Desk, look: Look, closed: map<Candidate, nat>)
    requires Closes(d, Targets(d, look), closed)
    ensures Targets(Swept(d, look, closed), look) == {}
    ensures Swept(Swept(d, look, closed), look, map[]) == Swept(d, look, closed)
  {
    LaterSweep(d, look, closed, look);
    IdleChangesNothing(Swept(d, look, closed), look);
  }

  lemma IdleChangesNothing(t: Desk, look: Look)
    requires Targets(t, look) == {}
    ensures Swept(t, look, map[]) == t
  {
    var u := Swept(t, look, map[]);
    assert u.rows == t.rows;
    assert u.apps == t.apps;
    assert u.attempts == t.attempts;
    assert forall r :: OfRun(t.rows, {}, r) == {};
    assert u.runs == t.runs;
  }

  // ------------------------------------------------------- the loop itself

  /** After some lines: `done` are the candidates repaired so far. */
  ghost predicate Midway(d: Desk, look: Look, lines: seq<Line>, i: nat, done: set<Candidate>, closed: map<Candidate, nat>) {
    && IsJoin(d, look, lines) && i <= |lines|
    && done <= Targets(d, look)
    && (forall k :: 0 <= k < i && lines[k].c !in look.live ==> lines[k].c in done)
    && closed.Keys <= done
    && (forall c :: c in closed ==> UnfinishedOf(d, c, closed[c]))
    && (forall c, j: nat :: c in done && UnfinishedOf(d, c, j) ==> c in closed)
  }

  /** The next line repairs its candidate, or was answered already. */
  lemma MidwayRepairs(d: Desk, look: Look, lines: seq<Line>, i: nat, done: set<Candidate>, closed: map<Candidate, nat>)
    requires Midway(d, look, lines, i, done, closed) && i < |lines|
    requires lines[i].c !in look.live && lines[i].c !in done
    ensures Midway(d, look, lines, i + 1, done + {lines[i].c}, Noted(closed, lines[i]))
  {
    assert IsLine(d, look, lines[i]);
  }

  lemma MidwaySkips(d: Desk, look: Look, lines: seq<Line>, i: nat, done: set<Candidate>, closed: map<Candidate, nat>)
    requires Midway(d, look, lines, i, done, closed) && i < |lines|
    requires lines[i].c in look.live || lines[i].c in done
    ensures Midway(d, look, lines, i + 1, done, closed)
  {
  }

  lemma MidwayEnds(d: Desk, look: Look, lines: seq<Line>, done: set<Candidate>, closed: map<Candidate, nat>)
    requires Midway(d, look, lines, |lines|, done, closed)
    ensures done == Targets(d, look) && Closes(d, done, closed)
  {
    forall c | c in Targets(d, look)
      ensures c in done
    {
      assert Stale(d, look, c);
      var k :| 0 <= k < |lines| && lines[k].c == c;
    }
  }

  /** One more repair, table by table. */
  lemma OneMore(d: Desk, done: set<Candidate>, c: Candidate, now: int)
    requires c in d.rows && c !in done && done <= d.rows.Keys && d.rows[c].run in d.runs
    ensures RowsAfter(d.rows, done + {c}, now) == RowsAfter(d.rows, done, now)[c := d.rows[c].(status := NeedsReview, updatedAt := now)]
    ensures var runs, run := RunsCounted(d, done), d.rows[c].run;
            RunsCounted(d, done + {c}) == runs[run := runs[run].(needsReview := runs[run].needsReview + 1)]
    ensures var apps, p := AppsAfter(d, done), d.rows[c].posting;
            AppsAfter(d, done + {c}) == if p in apps && apps[p].Waiting? then apps[p := Review] else apps
  {
    OneMoreRun(d, done, c);
    OneMoreApp(d, done, c);
  }

  lemma OneMoreRun(d: Desk, done: set<Candidate>, c: Candidate)
    requires c in d.rows && c !in done && d.rows[c].run in d.runs
    ensures var runs, run := RunsCounted(d, done), d.rows[c].run;
            RunsCounted(d, done + {c}) == runs[run := runs[run].(needsReview := runs[run].needsReview + 1)]
  {
    forall r
      ensures OfRun(d.rows, done + {c}, r) == if r == d.rows[c].run then OfRun(d.rows, done, r) + {c} else OfRun(d.rows, done, r)
    {
    }
  }

  lemma OneMoreApp(d: Desk, done: set<Candidate>, c: Candidate)
    requires c in d.rows && c !in done
    ensures var apps, p := AppsAfter(d, done), d.rows[c].posting;
            AppsAfter(d, done + {c}) == if p in apps && apps[p].Waiting? then apps[p := Review] else apps
  {
    var p := d.rows[c].posting;
    forall q | q in d.apps
      ensures (exists e :: e in done + {c} && e in d.rows && d.rows[e].posting == q) <==>
              q == p || exists e :: e in done && e in d.rows && d.rows[e].posting == q
    {
      if q == p {
        assert c in done + {c};
      }
    }
  }

  lemma OneMoreAttempt(attempts: seq<Attempt>, closed: map<Candidate, nat>, c: Candidate, i: nat)
    requires c !in closed && i < |attempts| && attempts[i].candidate == c
    ensures AttemptsAfter(attempts, closed[c := i]) ==
            AttemptsAfter(attempts, closed)[i := AttemptsAfter(attempts, closed)[i].(status := "unknown", error := Some(INTERRUPTED))]
  {
  }

  /** The runs of the repaired candidates. */
  ghost function Touched(d: Desk, done: set<Candidate>): set<nat> {
    set c | c in done && c in d.rows :: d.rows[c].run
  }

  lemma TouchedMore(d: Desk, done: set<Candidate>, c: Candidate)
    requires c in d.rows
    ensures Touched(d, done + {c}) == Touched(d, done) + {d.rows[c].run}
  {
  }

  lemma StartDesk(d: Desk, now: int)
    ensures RowsAfter(d.rows, {}, now) == d.rows && RunsCounted(d, {}) == d.runs && AppsAfter(d, {}) == d.apps
    ensures AttemptsAfter(d.attempts, map[]) == d.attempts && Touched(d, {}) == {}
  {
    assert forall r :: OfRun(d.rows, {}, r) == {};
  }

  lemma TouchedIs(d: Desk, done: set<Candidate>)
    requires done <= d.rows.Keys
    ensures forall r :: r in Touched(d, done) <==> OfRun(d.rows, done, r) != {}
  {
    forall r | r in Touched(d, done)
      ensures OfRun(d.rows, done, r) != {}
    {
      var c :| c in done && d.rows[c].run == r;
      assert c in OfRun(d.rows, done, r);
    }
    assert forall r, c :: c in OfRun(d.rows, done, r) ==> r in Touched(d, done);
  }

  /** The writes for one line whose candidate is still waiting. */
  function Repaired(desk: Desk, line: Line, now: int): Desk
    requires line.c in desk.rows && desk.rows[line.c].run in desk.runs
    requires line.attempt.Some? ==> line.attempt.value < |desk.attempts|
  {
    var row := desk.rows[line.c];
    Desk(desk.runs[row.run := desk.runs[row.run].(needsReview := desk.runs[row.run].needsReview + 1)],
         desk.rows[line.c := row.(status := NeedsReview, updatedAt := now)],
         if row.posting in desk.apps && desk.apps[row.posting].Waiting? then desk.apps[row.posting := Review] else desk.apps,
         match line.attempt
         case None => desk.attempts
         case Some(i) => desk.attempts[i := desk.attempts[i].(status := "unknown", error := Some(INTERRUPTED))])
  }

  /** The desk as the loop leaves it when `done` are repaired. */
  ghost predicate Here(d: Desk, look: Look, lines: seq<Line>, i: nat, done: set<Candidate>, closed: map<Candidate, nat>, desk: Desk) {
    && Midway(d, look, lines, i, done, closed)
    && desk.rows == RowsAfter(d.rows, done, look.now)
    && desk.runs == RunsCounted(d, done)
    && desk.apps == AppsAfter(d, done)
    && desk.attempts == AttemptsAfter(d.attempts, closed)
  }

  lemma HereStarts(d: Desk, look: Look, lines: seq<Line>)
    requires IsJoin(d, look, lines)
    ensures Here(d, look, lines, 0, {}, map[], d)
  {
    StartDesk(d, look.now);
  }

  /** A candidate still reads as waiting exactly when its line is the first of its lines. */
  lemma HereReads(d: Desk, look: Look, lines: seq<Line>, i: nat, done: set<Candidate>, closed: map<Candidate, nat>, desk: Desk)
    requires Here(d, look, lines, i, done, closed, desk) && i < |lines|
    ensures lines[i].c in desk.rows && desk.rows[lines[i].c].run in desk.runs
    ensures lines[i].attempt.Some? ==> lines[i].attempt.value < |desk.attempts|
    ensures Repairable(desk.rows[lines[i].c].status) <==> lines[i].c !in done
  {
    assert IsLine(d, look, lines[i]);
  }

  lemma HereRepairs(d: Desk, look: Look, lines: seq<Line>, i: nat, done: set<Candidate>, closed: map<Candidate, nat>, desk: Desk)
    requires Here(d, look, lines, i, done, closed, desk) && i < |lines|
    requires lines[i].c !in look.live && lines[i].c !in done
    requires lines[i].c in desk.rows && desk.rows[lines[i].c].run in desk.runs
    requires lines[i].attempt.Some? ==> lines[i].attempt.value < |desk.attempts|
    ensures Here(d, look, lines, i + 1, done + {lines[i].c}, Noted(closed, lines[i]), Repaired(desk, lines[i], look.now))
  {
    assert IsLine(d, look, lines[i]);
    MidwayRepairs(d, look, lines, i, done, closed);
    RepairedTables(d, done, closed, desk, lines[i], look.now);
  }

  /** Which attempt was closed for whom, with one more line. */
  function Noted(closed: map<Candidate, nat>, line: Line): map<Candidate, nat> {
    if line.attempt.Some? then closed[line.c := line.attempt.value] else closed
  }

  lemma RepairedTables(d: Desk, done: set<Candidate>, closed: map<Candidate, nat>, desk: Desk, line: Line, now: int)
    requires line.c in d.rows && line.c !in done && done <= d.rows.Keys && d.rows[line.c].run in d.runs
    requires line.attempt.Some? ==> UnfinishedOf(d, line.c, line.attempt.value)
    requires line.c !in closed
    requires desk == Desk(RunsCounted(d, done), RowsAfter(d.rows, done, now), AppsAfter(d, done), AttemptsAfter(d.attempts, closed))
    ensures Repaired(desk, line, now) ==
            Desk(RunsCounted(d, done + {line.c}), RowsAfter(d.rows, done + {line.c}, now), AppsAfter(d, done + {line.c}),
                 AttemptsAfter(d.attempts, Noted(closed, line)))
  {
    OneMore(d, done, line.c, now);
    if line.attempt.Some? {
      OneMoreAttempt(d.attempts, closed, line.c, line.attempt.value);
    }
  }

  class Sweeper {
    var runs: map<nat, RunRow>
    var rows: map<Candidate, Row>
    var apps: map<Posting, AppStatus>
    var attempts: seq<Attempt>

    ghost function Snapshot(): Desk
      reads this
    {
      Desk(runs, rows, apps, attempts)
    }

    /** Parks every stale candidate without a live job, then fails the runs that have nothing left in flight. */
    method Reconcile(look: Look, lines: seq<Line>) returns (repaired: nat, ghost closed: map<Candidate, nat>)
      requires IsJoin(Snapshot(), look, lines)
      modifies this
      ensures Closes(old(Snapshot()), Targets(old(Snapshot()), look), closed)
      ensures Snapshot() == Swept(old(Snapshot()), look, closed)
      ensures repaired == |Targets(old(Snapshot()), look)|
    {
      ghost var d := Snapshot();
      var touched;
      ghost var done;
      repaired, touched, done, closed := ParkStale(look, lines);
      MidwayEnds(d, look, lines, done, closed);
      FailSettled(d, done, look.now, touched);
    }

    /** The first loop: parks, counts, closes attempts and collects the runs touched. */
    method ParkStale(look: Look, lines: seq<Line>)
      returns (repaired: nat, touched: set<nat>, ghost done: set<Candidate>, ghost closed: map<Candidate, nat>)
      requires IsJoin(Snapshot(), look, lines)
      modifies this
      ensures Here(old(Snapshot()), look, lines, |lines|, done, closed, Snapshot())
      ensures touched == Touched(old(Snapshot()), done) && repaired == |done|
    {
      ghost var d := Snapshot();
      done, closed, touched, repaired := {}, map[], {}, 0;
      var i := 0;
      HereStarts(d, look, lines);
      while i < |lines|
        invariant i <= |lines|
        invariant Here(d, look, lines, i, done, closed, Snapshot())
        invariant touched == Touched(d, done)
        invariant repaired == |done|
      {
        HereReads(d, look, lines, i, done, closed, Snapshot());
        var line := lines[i];
        if line.c in look.live || !Repairable(rows[line.c].status) {
          MidwaySkips(d, look, lines, i, done, closed);
        } else {
          HereRepairs(d, look, lines, i, done, closed, Snapshot());
          TouchedMore(d, done, line.c);
          touched, repaired := touched + {rows[line.c].run}, repaired + 1;
          Repair(line, look.now);
          closed, done := Noted(closed, line), done + {line.c};
        }
        i := i + 1;
      }
    }

    method Repair(line: Line, now: int)
      requires line.c in rows && rows[line.c].run in runs
      requires line.attempt.Some? ==> line.attempt.value < |attempts|
      modifies this
      ensures Snapshot() == Repaired(old(Snapshot()), line, now)
    {
      var row := rows[line.c];
      rows := rows[line.c := row.(status := NeedsReview, updatedAt := now)];
      if line.attempt.Some? {
        var i := line.attempt.value;
        attempts := attempts[i := attempts[i].(status := "unknown", error := Some(INTERRUPTED))];
      }
      if row.posting in apps && apps[row.posting].Waiting? {
        apps := apps[row.posting := Review];
      }
      runs := runs[row.run := runs[row.run].(needsReview := runs[row.run].needsReview + 1)];
    }

    /** The closing loop over the touched runs. */
    method FailSettled(ghost d: Desk, ghost done: set<Candidate>, ghost now: int, touched: set<nat>)
      requires rows == RowsAfter(d.rows, done, now) && runs == RunsCounted(d, done)
      requires done <= d.rows.Keys && touched == Touched(d, done) && touched <= runs.Keys
      modifies this`runs
      ensures runs == RunsAfter(d, done, now)
    {
      TouchedIs(d, done);
      var todo := touched;
      while todo != {}
        invariant todo <= touched
        invariant runs.Keys == d.runs.Keys
        invariant forall r :: r in d.runs ==> runs[r] == if r in todo then RunsCounted(d, done)[r] else RunsAfter(d, done, now)[r]
        decreases todo
      {
        var r :| r in todo;
        assert OfRun(d.rows, done, r) != {};
        if runs[r].status.RunApplying? && Settled(rows, r) {
          runs := runs[r := runs[r].(status := RunFailed)];
        }
        todo := todo - {r};
      }
      assert runs == RunsAfter(d, done, now);
    }
  }
}
