/** Queueing batches of approved candidates under the daily budget: one user's books. */
module Budget {
  import opened Basics
  import opened Pipeline
  import Orders
  import PlanOrder
  import RetryPolicy
  import Sizes

  /** Milliseconds in a day; the clock counts from a UTC midnight. */
  const DAY: nat := 86_400_000

  /** One hunt_candidates row; `aggregator` says that only an aggregator's address is known for it. */
  datatype Row = Row(run: nat, posting: Posting, portal: string, aggregator: bool, status: Status)

  /** One applications row; `cancelled` is the closed status with the cancellation note. */
  datatype App = App(run: nat, queuedAt: nat, cancelled: bool)

  datatype Books = Books(
    clock: nat,
    rows: map<Candidate, Row>,
    apps: map<Posting, App>,
    dispatches: seq<Dispatch>)

  function DayStart(now: nat): nat {
    now - now % DAY
  }

  predicate Counted(app: App, start: nat) {
    app.queuedAt >= start && !app.cancelled
  }

  /** What the budget query counts: uncancelled applications queued since the day began. */
  function Charged(apps: map<Posting, App>, start: nat): set<Posting> {
    set p | p in apps && Counted(apps[p], start)
  }

  /** The uncancelled applications of one UTC day. */
  function OnDay(apps: map<Posting, App>, day: nat): set<Posting> {
    set p | p in apps && !apps[p].cancelled && apps[p].queuedAt / DAY == day
  }

  function Used(b: Books): nat {
    |Charged(b.apps, DayStart(b.clock))|
  }

  // ------------------------------------------------------------- selection

  predicate Eligible(b: Books, run: nat, c: Candidate) {
    c in b.rows && b.rows[c].run == run && Selectable(b.rows[c].status) && b.rows[c].posting !in b.apps
  }

  /** The applyable selected candidates in the order of the request; a repeated id counts where it comes last. */
  function Applyable(b: Books, run: nat, ids: seq<Candidate>): seq<PlanOrder.Row> {
    if ids == [] then []
    else if Eligible(b, run, ids[0]) && !b.rows[ids[0]].aggregator && ids[0] !in ids[1..] then
      [PlanOrder.Row(b.rows[ids[0]].portal, ids[0])] + Applyable(b, run, ids[1..])
    else Applyable(b, run, ids[1..])
  }

  predicate IsApplyable(b: Books, run: nat, ids: seq<Candidate>, row: PlanOrder.Row) {
    && row.id in ids && Eligible(b, run, row.id)
    && !b.rows[row.id].aggregator && row.portal == b.rows[row.id].portal
  }

  /** Each applyable selected candidate appears once. */
  lemma {:induction false} ApplyableAre(b: Books, run: nat, ids: seq<Candidate>)
    ensures forall k :: 0 <= k < |Applyable(b, run, ids)| ==> IsApplyable(b, run, ids, Applyable(b, run, ids)[k])
    ensures forall j, k :: 0 <= j < k < |Applyable(b, run, ids)| ==> Applyable(b, run, ids)[j].id != Applyable(b, run, ids)[k].id
  {
    if ids != [] {
      ApplyableAre(b, run, ids[1..]);
      var rest := Applyable(b, run, ids[1..]);
      forall k | 0 <= k < |rest|
        ensures IsApplyable(b, run, ids, rest[k]) && (ids[0] !in ids[1..] ==> rest[k].id != ids[0])
      {
        assert IsApplyable(b, run, ids[1..], rest[k]);
      }
    }
  }

  /** And every applyable selected candidate does appear. */
  lemma {:induction false} ApplyableHas(b: Books, run: nat, ids: seq<Candidate>, c: Candidate) returns (k: nat)
    requires c in ids && Eligible(b, run, c) && !b.rows[c].aggregator
    ensures k < |Applyable(b, run, ids)| && Applyable(b, run, ids)[k].id == c
  {
    if c in ids[1..] {
      k := ApplyableHas(b, run, ids[1..], c);
      if Applyable(b, run, ids) != Applyable(b, run, ids[1..]) {
        k := k + 1;
      }
    } else {
      k := 0;
    }
  }

  function Ids(rows: seq<PlanOrder.Row>): (r: seq<Candidate>)
    ensures |r| == |rows|
    ensures forall k :: 0 <= k < |r| ==> r[k] == rows[k].id
  {
    seq(|rows|, k requires 0 <= k < |rows| => rows[k].id)
  }

  /** `plan` is what the planner makes of the applyable candidates. */
  ghost predicate Planned(applyable: seq<PlanOrder.Row>, target: int, plan: seq<PlanOrder.Row>) {
    exists order ::
      && PlanOrder.IsSchedule(PlanOrder.Capped(applyable), order)
      && plan == Orders.Pick(PlanOrder.Capped(applyable), order)
                   [..PlanOrder.SliceEnd(|PlanOrder.Capped(applyable)|, Min(target, RetryPolicy.MAX_DAILY))]
  }

  function Target(b: Books, runTarget: int, configured: int): int {
    Min(Max(0, runTarget), RetryPolicy.Remaining(Used(b), configured))
  }

  // ------------------------------------------------------------- the batch

  /** What one batch does to the status of candidate c. */
  function StatusAfter(b: Books, run: nat, ids: seq<Candidate>, queued: seq<Candidate>, c: Candidate): Status
    requires c in b.rows
  {
    var before := b.rows[c].status;
    if c in ids && Eligible(b, run, c) && b.rows[c].aggregator then NeedsReview
    else if queued == [] then (if c in ids && before.Approved? then Discovered else before)
    else if c in ids && Eligible(b, run, c) then (if c in queued then Queued else Discovered)
    else before
  }

  function RowsAfter(b: Books, run: nat, ids: seq<Candidate>, queued: seq<Candidate>): map<Candidate, Row> {
    map c | c in b.rows :: b.rows[c].(status := StatusAfter(b, run, ids, queued, c))
  }

  predicate Known(b: Books, queued: seq<Candidate>) {
    forall c :: c in queued ==> c in b.rows
  }

  predicate AllEligible(b: Books, run: nat, queued: seq<Candidate>) {
    Known(b, queued) && forall c :: c in queued ==> Eligible(b, run, c)
  }

  function Postings(b: Books, queued: seq<Candidate>): set<Posting>
    requires Known(b, queued)
  {
    set c | c in queued :: b.rows[c].posting
  }

  function AppsAfter(b: Books, run: nat, queued: seq<Candidate>): map<Posting, App>
    requires Known(b, queued)
  {
    b.apps + map p | p in Postings(b, queued) :: App(run, b.clock, false)
  }

  function Intents(queued: seq<Candidate>): (r: seq<Dispatch>)
    ensures |r| == |queued|
    ensures forall k :: 0 <= k < |r| ==> r[k] == Dispatch(queued[k], false)
  {
    seq(|queued|, k requires 0 <= k < |queued| => Dispatch(queued[k], false))
  }

  function DoBatch(b: Books, run: nat, ids: seq<Candidate>, queued: seq<Candidate>): Books
    requires Known(b, queued)
  {
    b.(rows := RowsAfter(b, run, ids, queued), apps := AppsAfter(b, run, queued),
       dispatches := b.dispatches + Intents(queued))
  }

  // -------------------------------------------------------- cancel and retry

  predicate CanCancelApp(b: Books, c: Candidate) {
    && c in b.rows && (b.rows[c].status.Approved? || Claimable(b.rows[c].status))
    && b.rows[c].posting in b.apps && b.apps[b.rows[c].posting].run == b.rows[c].run
  }

  function DoCancelApp(b: Books, c: Candidate): Books
    requires CanCancelApp(b, c)
  {
    var p := b.rows[c].posting;
    b.(rows := b.rows[c := b.rows[c].(status := Rejected)],
       apps := b.apps[p := b.apps[p].(cancelled := true)],
       dispatches := CancelAll(b.dispatches, c))
  }

  /** An application already charged to today keeps its place; any other needs room. */
  predicate CanRetryApp(b: Books, c: Candidate, configured: int) {
    && c in b.rows && b.rows[c].posting in b.apps && b.apps[b.rows[c].posting].run == b.rows[c].run
    && (Counted(b.apps[b.rows[c].posting], DayStart(b.clock)) || RetryPolicy.Remaining(Used(b), configured) != 0)
  }

  function DoRetryApp(b: Books, c: Candidate): Books
    requires c in b.rows && b.rows[c].posting in b.apps
  {
    var p := b.rows[c].posting;
    b.(rows := b.rows[c := b.rows[c].(status := Queued)],
       apps := b.apps[p := b.apps[p].(queuedAt := b.clock, cancelled := false)],
       dispatches := CancelAll(b.dispatches, c) + [Dispatch(c, false)])
  }

  // ------------------------------------------------------------ whole runs

  datatype Op =
    | Wait(until: nat)
    | Batch(run: nat, runTarget: int, ids: seq<Candidate>, configured: int, plan: seq<PlanOrder.Row>)
    | CancelApp(c: Candidate)
    | RetryApp(c: Candidate, configured: int)
    | Work(c: Candidate, status: Status)

  ghost predicate Enabled(b: Books, op: Op) {
    match op
    case Wait(until) => b.clock <= until
    case Batch(run, runTarget, ids, configured, plan) =>
      Planned(Applyable(b, run, ids), Target(b, runTarget, configured), plan)
      && Known(b, Ids(plan))
    case CancelApp(c) => CanCancelApp(b, c)
    case RetryApp(c, configured) => CanRetryApp(b, c, configured)
    case Work(c, status) => c in b.rows && (InFlight(status) ==> InFlight(b.rows[c].status))
  }

  ghost function Apply(b: Books, op: Op): Books
    requires Enabled(b, op)
  {
    match op
    case Wait(until) => b.(clock := until)
    case Batch(run, _, ids, _, plan) => DoBatch(b, run, ids, Ids(plan))
    case CancelApp(c) => DoCancelApp(b, c)
    case RetryApp(c, _) => DoRetryApp(b, c)
    case Work(c, status) => b.(rows := b.rows[c := b.rows[c].(status := status)])
  }

  ghost function Run(b: Books, ops: seq<Op>): Option<Books>
    decreases |ops|
  {
    if ops == [] then Some(b)
    else
      match Run(b, ops[..|ops| - 1])
      case None => None
      case Some(mid) => if Enabled(mid, ops[|ops| - 1]) then Some(Apply(mid, ops[|ops| - 1])) else None
  }

  /** Queued or taken up by a worker. */
  predicate InFlight(status: Status) {
    status.Queued? || status.Tailored? || status.Applying?
  }

  /** The books of a user who has not queued anything yet. */
  predicate Fresh(b: Books) {
    && b.apps == map[] && b.dispatches == [] && OnePerRun(b.rows)
    && (forall c :: c in b.rows ==> !InFlight(b.rows[c].status))
  }

  /** A run lists a posting once. */
  predicate OnePerRun(rows: map<Candidate, Row>) {
    forall c, d :: c in rows && d in rows && rows[c].run == rows[d].run && rows[c].posting == rows[d].posting ==> c == d
  }

  // ------------------------------------------------------------- invariant

  ghost predicate WithinBudget(b: Books) {
    && (forall p :: p in b.apps ==> b.apps[p].queuedAt <= b.clock)
    && (forall day: nat :: |OnDay(b.apps, day)| <= RetryPolicy.MAX_DAILY)
  }

  /** The dispatches that still count for c. */
  function Live(dispatches: seq<Dispatch>, c: Candidate): nat {
    if dispatches == [] then 0
    else
      var last := dispatches[|dispatches| - 1];
      Live(dispatches[..|dispatches| - 1], c) + if last.candidate == c && !last.cancelled then 1 else 0
  }

  /** A candidate in flight has its application and exactly one dispatch; a candidate without an application has none. */
  ghost predicate Backed(b: Books) {
    && (forall c :: c in b.rows && InFlight(b.rows[c].status) ==> b.rows[c].posting in b.apps && Live(b.dispatches, c) == 1)
    && (forall c :: c in b.rows && b.rows[c].posting !in b.apps ==> Live(b.dispatches, c) == 0)
  }

  ghost predicate Inv(b: Books) {
    OnePerRun(b.rows) && WithinBudget(b) && Backed(b)
  }

  // ---------------------------------------------------------- plan facts

  lemma PlanFacts(applyable: seq<PlanOrder.Row>, target: nat, plan: seq<PlanOrder.Row>)
    requires Planned(applyable, target, plan)
    requires forall j, k :: 0 <= j < k < |applyable| ==> applyable[j].id != applyable[k].id
    ensures |plan| <= target && |plan| <= RetryPolicy.MAX_DAILY && |plan| <= |applyable|
    ensures forall k :: 0 <= k < |plan| ==> plan[k] in applyable
    ensures forall j, k :: 0 <= j < k < |plan| ==> plan[j].id != plan[k].id
  {
    var kept := PlanOrder.Capped(applyable);
    CappedIsPart(applyable);
    var order :| PlanOrder.IsSchedule(kept, order)
              && plan == Orders.Pick(kept, order)[..PlanOrder.SliceEnd(|kept|, Min(target, RetryPolicy.MAX_DAILY))];
    PlanOrder.SortedIsDistinct(kept, order);
    forall j, k | 0 <= j < k < |plan|
      ensures plan[j].id != plan[k].id
    {
      assert plan[j] == kept[order[j]] && plan[k] == kept[order[k]] && order[j] != order[k];
    }
    forall k | 0 <= k < |plan|
      ensures plan[k] in applyable
    {
      assert plan[k] == kept[order[k]];
    }
  }

  lemma {:induction false} CappedIsPart(rows: seq<PlanOrder.Row>)
    requires forall j, k :: 0 <= j < k < |rows| ==> rows[j].id != rows[k].id
    ensures var kept := PlanOrder.Capped(rows);
            && |kept| <= |rows|
            && (forall k :: 0 <= k < |kept| ==> kept[k] in rows)
            && (forall j, k :: 0 <= j < k < |kept| ==> kept[j].id != kept[k].id)
  {
    if rows != [] {
      var init := rows[..|rows| - 1];
      CappedIsPart(init);
      assert forall x :: x in init ==> exists k :: 0 <= k < |rows| - 1 && rows[k] == x;
    }
  }

  lemma {:induction false} PostingsSize(b: Books, run: nat, queued: seq<Candidate>)
    requires OnePerRun(b.rows) && AllEligible(b, run, queued)
    requires forall j, k :: 0 <= j < k < |queued| ==> queued[j] != queued[k]
    ensures |Postings(b, queued)| == |queued|
  {
    if queued == [] {
      assert Postings(b, queued) == {};
    } else {
      var init, last := queued[..|queued| - 1], queued[|queued| - 1];
      assert queued == init + [last];
      assert last !in init by {
        assert forall j :: 0 <= j < |init| ==> init[j] == queued[j];
      }
      PostingsSize(b, run, init);
      PostingsGrow(b, run, init, last);
    }
  }

  lemma PostingsGrow(b: Books, run: nat, init: seq<Candidate>, last: Candidate)
    requires OnePerRun(b.rows) && AllEligible(b, run, init) && Eligible(b, run, last) && last !in init
    ensures Known(b, init + [last])
    ensures |Postings(b, init + [last])| == |Postings(b, init)| + 1
  {
    assert Postings(b, init + [last]) == Postings(b, init) + {b.rows[last].posting};
    forall c | c in init
      ensures b.rows[c].posting != b.rows[last].posting
    {
      assert Eligible(b, run, c);
    }
    assert b.rows[last].posting !in Postings(b, init);
  }

  /** Today's uncancelled applications are exactly what the budget query counts. */
  lemma TodayIsUsed(b: Books)
    requires forall p :: p in b.apps ==> b.apps[p].queuedAt <= b.clock
    ensures OnDay(b.apps, b.clock / DAY) == Charged(b.apps, DayStart(b.clock))
  {
    forall p | p in b.apps
      ensures b.apps[p].queuedAt / DAY == b.clock / DAY <==> b.apps[p].queuedAt >= DayStart(b.clock)
    {
      SameDay(b.apps[p].queuedAt, b.clock);
    }
  }

  lemma SameDay(t: nat, now: nat)
    requires t <= now
    ensures t / DAY == now / DAY <==> t >= DayStart(now)
  {
  }

  lemma AppsAre(b: Books, run: nat, queued: seq<Candidate>)
    requires AllEligible(b, run, queued)
    ensures Extends(b.apps, AppsAfter(b, run, queued), Postings(b, queued), App(run, b.clock, false))
  {
    forall p | p in Postings(b, queued)
      ensures p !in b.apps
    {
      var c :| c in queued && b.rows[c].posting == p;
      assert Eligible(b, run, c);
    }
  }

  /** The batch charges one application per queued candidate to the day, and to no other. */
  lemma BatchCharges(b: Books, run: nat, queued: seq<Candidate>, day: nat)
    requires OnePerRun(b.rows) && AllEligible(b, run, queued)
    requires forall j, k :: 0 <= j < k < |queued| ==> queued[j] != queued[k]
    ensures |OnDay(AppsAfter(b, run, queued), day)| == |OnDay(b.apps, day)| + if day == b.clock / DAY then |queued| else 0
  {
    PostingsSize(b, run, queued);
    AppsAre(b, run, queued);
    var after := AppsAfter(b, run, queued);
    DayMembers(b.apps, after, Postings(b, queued), App(run, b.clock, false), day);
    SizeGrows(OnDay(b.apps, day), OnDay(after, day), Postings(b, queued), day == b.clock / DAY);
  }

  ghost predicate Extends(before: map<Posting, App>, after: map<Posting, App>, added: set<Posting>, app: App) {
    && added !! before.Keys && after.Keys == before.Keys + added
    && (forall p :: p in before ==> after[p] == before[p])
    && (forall p :: p in added ==> after[p] == app)
  }

  lemma DayMembers(before: map<Posting, App>, after: map<Posting, App>, added: set<Posting>, app: App, day: nat)
    requires Extends(before, after, added, app) && !app.cancelled
    ensures forall p :: p in OnDay(after, day) <==> p in OnDay(before, day) || (p in added && day == app.queuedAt / DAY)
  {
    forall p
      ensures p in OnDay(after, day) <==> p in OnDay(before, day) || (p in added && day == app.queuedAt / DAY)
    {
      assert p in after <==> p in before || p in added;
    }
  }

  lemma SizeGrows(x: set<Posting>, y: set<Posting>, added: set<Posting>, falls: bool)
    requires x !! added && forall p :: p in y <==> p in x || (p in added && falls)
    ensures |y| == |x| + if falls then |added| else 0
  {
    if falls {
      assert y == x + added;
      Sizes.UnionSize(x, added);
    } else {
      assert y == x;
    }
  }

  /** What the guard of a batch gives: distinct, eligible candidates within today's room. */
  lemma BatchFacts(b: Books, run: nat, runTarget: int, ids: seq<Candidate>, configured: int, plan: seq<PlanOrder.Row>)
    requires Planned(Applyable(b, run, ids), Target(b, runTarget, configured), plan)
    ensures |plan| <= RetryPolicy.Remaining(Used(b), configured)
    ensures |plan| <= |Applyable(b, run, ids)|
    ensures forall c :: c in Ids(plan) ==>
              c in ids && Eligible(b, run, c) && !b.rows[c].aggregator && c in Ids(Applyable(b, run, ids))
    ensures forall j, k :: 0 <= j < k < |plan| ==> Ids(plan)[j] != Ids(plan)[k]
  {
    var applyable := Applyable(b, run, ids);
    ApplyableAre(b, run, ids);
    PlanFacts(applyable, Target(b, runTarget, configured), plan);
    forall c | c in Ids(plan)
      ensures c in ids && Eligible(b, run, c) && !b.rows[c].aggregator && c in Ids(applyable)
    {
      var k :| 0 <= k < |plan| && Ids(plan)[k] == c;
      assert plan[k] in applyable;
      var j :| 0 <= j < |applyable| && applyable[j] == plan[k];
      assert IsApplyable(b, run, ids, applyable[j]);
      assert Ids(applyable)[j] == c;
    }
  }

  lemma BatchKeepsBudget(b: Books, run: nat, runTarget: int, ids: seq<Candidate>, configured: int, plan: seq<PlanOrder.Row>)
    requires Inv(b) && Planned(Applyable(b, run, ids), Target(b, runTarget, configured), plan)
    ensures AllEligible(b, run, Ids(plan))
    ensures WithinBudget(DoBatch(b, run, ids, Ids(plan)))
    ensures Used(DoBatch(b, run, ids, Ids(plan))) == Used(b) + |plan|
    ensures plan != [] ==> Used(DoBatch(b, run, ids, Ids(plan))) <= RetryPolicy.DailyLimit(configured)
  {
    BatchFacts(b, run, runTarget, ids, configured, plan);
    var t := DoBatch(b, run, ids, Ids(plan));
    TodayIsUsed(b);
    TodayIsUsed(t);
    forall day: nat
      ensures |OnDay(t.apps, day)| <= RetryPolicy.MAX_DAILY
      ensures day == b.clock / DAY ==> |OnDay(t.apps, day)| == Used(b) + |plan|
    {
      BatchCharges(b, run, Ids(plan), day);
    }
  }

  // --------------------------------------------------- dispatch bookkeeping

  lemma {:induction false} LiveAppended(dispatches: seq<Dispatch>, queued: seq<Candidate>, c: Candidate)
    requires forall j, k :: 0 <= j < k < |queued| ==> queued[j] != queued[k]
    ensures Live(dispatches + Intents(queued), c) == Live(dispatches, c) + if c in queued then 1 else 0
  {
    var all := dispatches + Intents(queued);
    if queued == [] {
      assert all == dispatches;
    } else {
      var init := queued[..|queued| - 1];
      LiveAppended(dispatches, init, c);
      assert all[..|all| - 1] == dispatches + Intents(init);
      assert queued == init + [queued[|queued| - 1]];
    }
  }

  lemma {:induction false} LiveCancelled(dispatches: seq<Dispatch>, gone: Candidate, c: Candidate)
    ensures Live(CancelAll(dispatches, gone), c) == if c == gone then 0 else Live(dispatches, c)
  {
    if dispatches != [] {
      var init := dispatches[..|dispatches| - 1];
      LiveCancelled(init, gone, c);
      assert CancelAll(dispatches, gone)[..|dispatches| - 1] == CancelAll(init, gone);
    }
  }

  lemma BatchKeepsBacking(b: Books, run: nat, ids: seq<Candidate>, queued: seq<Candidate>)
    requires Inv(b)
    requires AllEligible(b, run, queued)
    requires forall j, k :: 0 <= j < k < |queued| ==> queued[j] != queued[k]
    ensures Backed(DoBatch(b, run, ids, queued)) && OnePerRun(DoBatch(b, run, ids, queued).rows)
  {
    var t := DoBatch(b, run, ids, queued);
    forall c | c in b.rows
      ensures Live(t.dispatches, c) == Live(b.dispatches, c) + if c in queued then 1 else 0
      ensures c in queued ==> b.rows[c].posting in t.apps && Live(b.dispatches, c) == 0
    {
      LiveAppended(b.dispatches, queued, c);
    }
  }

  lemma CancelKeepsBooks(b: Books, c: Candidate)
    requires Inv(b) && CanCancelApp(b, c)
    ensures Inv(DoCancelApp(b, c))
  {
    var t := DoCancelApp(b, c);
    forall day: nat ensures |OnDay(t.apps, day)| <= RetryPolicy.MAX_DAILY {
      Sizes.SubsetSize(OnDay(t.apps, day), OnDay(b.apps, day));
    }
    forall d ensures Live(t.dispatches, d) == if d == c then 0 else Live(b.dispatches, d) {
      LiveCancelled(b.dispatches, c, d);
    }
  }

  lemma RetryKeepsBooks(b: Books, c: Candidate, configured: int)
    requires Inv(b) && CanRetryApp(b, c, configured)
    ensures Inv(DoRetryApp(b, c))
  {
    var t := DoRetryApp(b, c);
    RetryKeepsBudget(b, c, configured);
    forall d ensures Live(t.dispatches, d) == if d == c then 1 else Live(b.dispatches, d) {
      LiveCancelled(b.dispatches, c, d);
      LiveAppended(CancelAll(b.dispatches, c), [c], d);
      assert Intents([c]) == [Dispatch(c, false)];
    }
  }

  lemma RetryKeepsBudget(b: Books, c: Candidate, configured: int)
    requires Inv(b) && CanRetryApp(b, c, configured)
    ensures WithinBudget(DoRetryApp(b, c))
  {
    var t := DoRetryApp(b, c);
    var p := b.rows[c].posting;
    TodayIsUsed(b);
    forall day: nat ensures |OnDay(t.apps, day)| <= RetryPolicy.MAX_DAILY {
      if day == b.clock / DAY && p !in OnDay(b.apps, day) {
        assert OnDay(t.apps, day) <= OnDay(b.apps, day) + {p};
        Sizes.SubsetSize(OnDay(t.apps, day), OnDay(b.apps, day) + {p});
      } else {
        Sizes.SubsetSize(OnDay(t.apps, day), OnDay(b.apps, day));
      }
    }
  }

  lemma OpKeeps(b: Books, op: Op)
    requires Inv(b) && Enabled(b, op)
    ensures Inv(Apply(b, op))
  {
    match op
    case Wait(_) =>
    case Batch(run, runTarget, ids, configured, plan) =>
      BatchIsSound(b, run, runTarget, ids, configured, plan);
    case CancelApp(c) => CancelKeepsBooks(b, c);
    case RetryApp(c, configured) => RetryKeepsBooks(b, c, configured);
    case Work(_, _) =>
  }

  /**
   * Over any sequence of batches, cancellations, retries and worker writes: no UTC day ever holds
   * more than 100 uncancelled applications, and whatever is in flight has one application and
   * exactly one uncancelled dispatch.
   */
  lemma {:induction false} BudgetHolds(b: Books, ops: seq<Op>)
    requires Fresh(b) && Run(b, ops).Some?
    ensures Inv(Run(b, ops).value)
    decreases |ops|
  {
    if ops == [] {
      forall day: nat ensures |OnDay(b.apps, day)| == 0 {
        assert OnDay(b.apps, day) == {};
      }
    } else {
      BudgetHolds(b, ops[..|ops| - 1]);
      OpKeeps(Run(b, ops[..|ops| - 1]).value, ops[|ops| - 1]);
    }
  }

  /** The batch says `capped` exactly when some applyable candidate was left out. */
  lemma CappedExactly(b: Books, run: nat, runTarget: int, ids: seq<Candidate>, configured: int, plan: seq<PlanOrder.Row>)
    requires Planned(Applyable(b, run, ids), Target(b, runTarget, configured), plan)
    ensures |Applyable(b, run, ids)| > |plan| <==>
            exists c :: c in Ids(Applyable(b, run, ids)) && c !in Ids(plan)
  {
    BatchFacts(b, run, runTarget, ids, configured, plan);
    ApplyableAre(b, run, ids);
    PartOf(Ids(plan), Ids(Applyable(b, run, ids)));
  }

  /** Distinct entries taken from a distinct list are fewer exactly when one is left out. */
  lemma PartOf(some: seq<Candidate>, all: seq<Candidate>)
    requires forall j, k :: 0 <= j < k < |some| ==> some[j] != some[k]
    requires forall j, k :: 0 <= j < k < |all| ==> all[j] != all[k]
    requires forall c :: c in some ==> c in all
    ensures |some| < |all| <==> exists c :: c in all && c !in some
  {
    Members(all);
    Members(some);
    if c :| c in all && c !in some {
      Sizes.SubsetSize(Names(some), Names(all) - {c});
    } else {
      Sizes.SubsetSize(Names(all), Names(some));
    }
  }

  ghost function Names(list: seq<Candidate>): set<Candidate> {
    set c | c in list
  }

  lemma {:induction false} Members(list: seq<Candidate>)
    requires forall j, k :: 0 <= j < k < |list| ==> list[j] != list[k]
    ensures |Names(list)| == |list|
  {
    if list != [] {
      var init, last := list[..|list| - 1], list[|list| - 1];
      Members(init);
      assert list == init + [last];
      assert last !in Names(init) by {
        assert forall j :: 0 <= j < |init| ==> init[j] == list[j];
      }
      assert Names(list) == Names(init) + {last};
    }
  }

  /** Everything a batch that went through guarantees about the books before and after it. */
  ghost predicate BatchHolds(b: Books, t: Books, run: nat, runTarget: int, ids: seq<Candidate>, configured: int,
                             plan: seq<PlanOrder.Row>, capped: bool) {
    && Planned(Applyable(b, run, ids), Target(b, runTarget, configured), plan)
    && Known(b, Ids(plan)) && t == DoBatch(b, run, ids, Ids(plan)) && Inv(t)
    && Used(t) == Used(b) + |plan|
    && (plan != [] ==> Used(t) <= RetryPolicy.DailyLimit(configured))
    && (capped <==> exists c :: c in Ids(Applyable(b, run, ids)) && c !in Ids(plan))
  }

  lemma BatchIsSound(b: Books, run: nat, runTarget: int, ids: seq<Candidate>, configured: int, plan: seq<PlanOrder.Row>)
    requires Inv(b) && Planned(Applyable(b, run, ids), Target(b, runTarget, configured), plan)
    ensures Known(b, Ids(plan))
    ensures BatchHolds(b, DoBatch(b, run, ids, Ids(plan)), run, runTarget, ids, configured, plan,
                       |Applyable(b, run, ids)| > |plan|)
  {
    BatchFacts(b, run, runTarget, ids, configured, plan);
    BatchKeepsBudget(b, run, runTarget, ids, configured, plan);
    BatchKeepsBacking(b, run, ids, Ids(plan));
    CappedExactly(b, run, runTarget, ids, configured, plan);
  }

  // ----------------------------------------------- the books kept in place

  datatype Report = NoSuchRun | Report(queued: nat, capped: bool)

  class Ledger {
    var clock: nat
    var rows: map<Candidate, Row>
    var apps: map<Posting, App>
    var dispatches: seq<Dispatch>

    ghost function Snapshot(): Books
      reads this
    {
      Books(clock, rows, apps, dispatches)
    }

    constructor (rows: map<Candidate, Row>)
      ensures Snapshot() == Books(0, rows, map[], [])
    {
      clock, this.rows, apps, dispatches := 0, rows, map[], [];
    }

    /** One transaction: all the selected candidates are judged and written together. */
    method EnqueueApproved(runs: map<nat, int>, run: nat, ids: seq<Candidate>, configured: int)
      returns (report: Report, ghost plan: seq<PlanOrder.Row>)
      requires Inv(Snapshot())
      modifies this
      ensures Inv(Snapshot())
      ensures run !in runs ==> report.NoSuchRun? && Snapshot() == old(Snapshot())
      ensures run in runs ==>
                && report.Report? && report.queued == |plan|
                && BatchHolds(old(Snapshot()), Snapshot(), run, runs[run], ids, configured, plan, report.capped)
    {
      ghost var before := Snapshot();
      plan := [];
      if run !in runs {
        report := NoSuchRun;
        return;
      }
      var books := Books(clock, rows, apps, dispatches);
      var target := Target(books, runs[run], configured);
      var applyable := Applyable(books, run, ids);
      var ordered;
      ghost var order;
      ordered, order := PlanOrder.PlanApplicationOrder(applyable, target);
      plan := ordered;
      assert Planned(applyable, target, ordered);
      BatchIsSound(before, run, runs[run], ids, configured, plan);
      var queued := Ids(ordered);
      apps := AppsAfter(books, run, queued);
      dispatches := dispatches + Intents(queued);
      rows := RowsAfter(books, run, ids, queued);
      assert Snapshot() == DoBatch(before, run, ids, queued);
      report := Report(|queued|, |applyable| > |ordered|);
    }
  }
}
