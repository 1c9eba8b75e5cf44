/** Outreach under the rails: sliding-window caps, one invitation per prospect, asks only after acceptance. */
module Outreach {
  import opened Basics
  import Sizes

  const DAY := 86_400_000
  const WEEK := 7 * DAY
  const PER_DAY := 15
  const PER_WEEK := 60
  const PER_COMPANY := 5
  const START_HOUR := 9
  const END_HOUR := 19
  const BREAKER_PAUSE := 72 * 3_600_000

  // ------------------------------------------------------------- the gate

  datatype Refusal = NotApproved | BreakerOpen | OutsideWindow | WeeklyCap | DailyCap | CompanyCap

  datatype Request = Request(
    now: int,
    hour: int,
    today: nat,
    week: nat,
    companyToday: nat,
    pausedUntil: Option<int>,
    approved: bool)

  /** The single gate, and the reason it gives first. */
  function CanSend(r: Request): Option<Refusal> {
    if !r.approved then Some(NotApproved)
    else if r.pausedUntil.Some? && r.pausedUntil.value > r.now then Some(BreakerOpen)
    else if r.hour < START_HOUR || r.hour >= END_HOUR then Some(OutsideWindow)
    else if r.week >= PER_WEEK then Some(WeeklyCap)
    else if r.today >= PER_DAY then Some(DailyCap)
    else if r.companyToday >= PER_COMPANY then Some(CompanyCap)
    else None
  }

  const MIN_GAP := 240_000.0
  const MAX_GAP := 720_000.0

  function Round(x: real): int {
    (x + 0.5).Floor
  }

  function NextGap(random: real): int {
    Round(MIN_GAP + random * (MAX_GAP - MIN_GAP))
  }

  /** Whatever the random source gives, the pause between sends is four to twelve minutes. */
  lemma GapInRange(random: real)
    requires 0.0 <= random < 1.0
    ensures 240_000 <= NextGap(random) <= 720_000
  {
    assert 0.0 <= random * 480_000.0 <= 480_000.0;
  }

  // ------------------------------------------------------------- the rows

  datatype Stage = Identified | Drafted | Approved | Invited | Accepted | Asked | Withdrawn | Closed

  datatype Prospect = Prospect(stage: Stage, company: string, invitedAt: Option<int>)

  datatype Kind = Invite | Ask | FollowUp

  datatype Message = Message(prospect: nat, kind: Kind, approved: bool, sentAt: Option<int>)

  /** A message handed out under the user's lock and not answered for yet. */
  datatype Pending = Pending(message: nat, prospect: nat, kind: Kind)

  datatype Book = Book(
    clock: int,
    prospects: map<nat, Prospect>,
    messages: map<nat, Message>,
    pausedUntil: Option<int>,
    pending: Option<Pending>)

  predicate InWindow(p: Prospect, company: Option<string>, from: int, length: nat) {
    && p.invitedAt.Some? && from <= p.invitedAt.value <= from + length
    && (company.Some? ==> p.company == company.value)
  }

  /** The prospects invited in the closed span [from, from + length], of one company or of all. */
  function Sent(prospects: map<nat, Prospect>, company: Option<string>, from: int, length: nat): set<nat> {
    set i | i in prospects && InWindow(prospects[i], company, from, length)
  }

  /** What the counting queries see: everything recorded at or after `from`. */
  function Since(prospects: map<nat, Prospect>, company: Option<string>, from: int): set<nat> {
    set i | i in prospects && prospects[i].invitedAt.Some? && prospects[i].invitedAt.value >= from
            && (company.Some? ==> prospects[i].company == company.value)
  }

  predicate RightStage(kind: Kind, stage: Stage) {
    if kind.Invite? then stage.Drafted? || stage.Approved? else stage.Accepted?
  }

  predicate Waiting(b: Book, m: nat) {
    m in b.messages && b.messages[m].approved && b.messages[m].sentAt.None? && b.messages[m].prospect in b.prospects
  }

  function RequestFor(b: Book, m: nat, readAt: int, hour: int): Request
    requires Waiting(b, m)
  {
    var company := b.prospects[b.messages[m].prospect].company;
    Request(b.clock, hour, |Since(b.prospects, None, readAt - DAY)|, |Since(b.prospects, None, readAt - WEEK)|,
            |Since(b.prospects, Some(company), b.clock - DAY)|, b.pausedUntil, true)
  }

  /** A waiting message of the right kind for its prospect's stage. */
  predicate Fitting(b: Book, m: nat) {
    Waiting(b, m) && RightStage(b.messages[m].kind, b.prospects[b.messages[m].prospect].stage)
  }

  predicate FirstFitting(b: Book, rows: seq<nat>, k: nat) {
    k < |rows| && Fitting(b, rows[k]) && forall j :: 0 <= j < k ==> !Fitting(b, rows[j])
  }

  predicate Refused(b: Book, m: nat, readAt: int, hour: int, refusal: Refusal) {
    Fitting(b, m) && CanSend(RequestFor(b, m, readAt, hour)) == Some(refusal)
  }

  /** The message may go: the right kind for its prospect, and the gate lets it through. */
  predicate Sendable(b: Book, m: nat, readAt: int, hour: int) {
    && Fitting(b, m) && readAt <= b.clock
    && CanSend(RequestFor(b, m, readAt, hour)).None?
  }

  // ----------------------------------------------------------------- steps

  datatype Step =
    | Wait(until: int)
    | Discover(prospect: nat, company: string, firstDegree: bool)
    | Draft(prospect: nat)
    | Write(message: nat, prospect: nat, kind: Kind)
    | ApproveMessage(message: nat)
    | Edit(message: nat)
    | Respond(prospect: nat, stage: Stage)
    | Offer(message: nat, readAt: int, hour: int)
    | MarkSent(ok: bool)
    | LetGo
    | Trip

  predicate Enabled(b: Book, step: Step) {
    match step
    case Wait(until) => b.clock <= until
    case Discover(i, _, _) => i !in b.prospects
    case Draft(i) => i in b.prospects && b.prospects[i].stage.Identified?
    case Write(m, i, _) => m !in b.messages && i in b.prospects
    case ApproveMessage(m) => m in b.messages && !b.messages[m].approved
    case Edit(m) => m in b.messages && b.messages[m].sentAt.None?
    case Respond(i, stage) =>
      i in b.prospects && b.prospects[i].stage !in {Identified, Drafted, Approved} && stage !in {Identified, Drafted, Approved}
    case Offer(m, readAt, hour) => b.pending.None? && Sendable(b, m, readAt, hour)
    case MarkSent(_) => b.pending.Some?
    case LetGo => b.pending.Some?
    case Trip => true
  }

  function DoApprove(b: Book, m: nat): Book
    requires m in b.messages
  {
    var i := b.messages[m].prospect;
    var t := b.(messages := b.messages[m := b.messages[m].(approved := true)]);
    if i in b.prospects && b.prospects[i].stage.Drafted? then
      t.(prospects := b.prospects[i := b.prospects[i].(stage := Approved)])
    else t
  }

  /** Records a send that happened; a failed one leaves the message approved and unsent. */
  function DoMarkSent(b: Book, ok: bool): Book
    requires b.pending.Some?
  {
    var Pending(m, i, kind) := b.pending.value;
    var over := b.(pending := None);
    if !ok then over
    else
      var t := if m in b.messages then over.(messages := b.messages[m := b.messages[m].(sentAt := Some(b.clock))]) else over;
      if i !in b.prospects then t
      else if kind.Invite? then
        t.(prospects := b.prospects[i := b.prospects[i].(stage := Invited, invitedAt := Some(b.clock))])
      else t.(prospects := b.prospects[i := b.prospects[i].(stage := Asked)])
  }

  function Apply(b: Book, step: Step): Book
    requires Enabled(b, step)
  {
    match step
    case Wait(until) => b.(clock := until)
    case Discover(i, company, firstDegree) =>
      b.(prospects := b.prospects[i := Prospect(if firstDegree then Accepted else Identified, company, None)])
    case Draft(i) => b.(prospects := b.prospects[i := b.prospects[i].(stage := Drafted)])
    case Write(m, i, kind) => b.(messages := b.messages[m := Message(i, kind, false, None)])
    case ApproveMessage(m) => DoApprove(b, m)
    case Edit(m) => b.(messages := b.messages[m := b.messages[m].(approved := false)])
    case Respond(i, stage) => b.(prospects := b.prospects[i := b.prospects[i].(stage := stage)])
    case Offer(m, _, _) => b.(pending := Some(Pending(m, b.messages[m].prospect, b.messages[m].kind)))
    case MarkSent(ok) => DoMarkSent(b, ok)
    case LetGo => b.(pending := None)
    case Trip => b.(pausedUntil := Some(b.clock + BREAKER_PAUSE))
  }

  const EMPTY := Book(0, map[], map[], None, None)

  function Run(steps: seq<Step>): Option<Book>
    decreases |steps|
  {
    if steps == [] then Some(EMPTY)
    else
      match Run(steps[..|steps| - 1])
      case None => None
      case Some(mid) => if Enabled(mid, steps[|steps| - 1]) then Some(Apply(mid, steps[|steps| - 1])) else None
  }

  // ------------------------------------------------------------- invariant

  ghost predicate Capped(prospects: map<nat, Prospect>, company: Option<string>, length: nat, cap: nat) {
    forall from: int :: |Sent(prospects, company, from, length)| <= cap
  }

  ghost predicate AllCapped(prospects: map<nat, Prospect>) {
    && Capped(prospects, None, DAY, PER_DAY)
    && Capped(prospects, None, WEEK, PER_WEEK)
    && (forall company: string :: Capped(prospects, Some(company), DAY, PER_COMPANY))
  }

  /** Invitations lie in the past, and whoever has not been reached yet has none. */
  ghost predicate Dated(b: Book) {
    forall i :: i in b.prospects ==>
      && (b.prospects[i].invitedAt.Some? ==> b.prospects[i].invitedAt.value <= b.clock)
      && (b.prospects[i].stage in {Identified, Drafted, Approved} ==> b.prospects[i].invitedAt.None?)
  }

  /** An offered invitation still has room, and its prospect has not been invited. */
  ghost predicate RoomFor(b: Book) {
    b.pending.Some? && b.pending.value.kind.Invite? ==>
      var i := b.pending.value.prospect;
      && i in b.prospects && (b.prospects[i].stage.Drafted? || b.prospects[i].stage.Approved?)
      && |Since(b.prospects, None, b.clock - DAY)| < PER_DAY
      && |Since(b.prospects, None, b.clock - WEEK)| < PER_WEEK
      && |Since(b.prospects, Some(b.prospects[i].company), b.clock - DAY)| < PER_COMPANY
  }

  ghost predicate Inv(b: Book) {
    AllCapped(b.prospects) && Dated(b) && RoomFor(b)
  }

  /** Same invitations, whatever else differs. */
  ghost predicate SameDates(a: map<nat, Prospect>, b: map<nat, Prospect>) {
    && (forall i :: i in a && a[i].invitedAt.Some? ==> i in b && b[i].invitedAt == a[i].invitedAt && b[i].company == a[i].company)
    && (forall i :: i in b && b[i].invitedAt.Some? ==> i in a && b[i].invitedAt == a[i].invitedAt && b[i].company == a[i].company)
  }

  lemma SameCounts(a: map<nat, Prospect>, b: map<nat, Prospect>)
    requires SameDates(a, b)
    ensures forall company, from :: Since(a, company, from) == Since(b, company, from)
    ensures AllCapped(a) ==> AllCapped(b)
  {
    forall company, from, length: nat ensures Sent(a, company, from, length) == Sent(b, company, from, length) {
    }
    if AllCapped(a) {
      assert Capped(b, None, DAY, PER_DAY);
      assert Capped(b, None, WEEK, PER_WEEK);
      forall company: string ensures Capped(b, Some(company), DAY, PER_COMPANY) {
        assert Capped(a, Some(company), DAY, PER_COMPANY);
      }
    }
  }

  lemma SinceShrinks(prospects: map<nat, Prospect>, company: Option<string>, early: int, late: int)
    requires early <= late
    ensures |Since(prospects, company, late)| <= |Since(prospects, company, early)|
  {
    Sizes.SubsetSize(Since(prospects, company, late), Since(prospects, company, early));
  }

  /** One more invitation now keeps a cap that still had room over the span ending now. */
  lemma CapKept(a: map<nat, Prospect>, i: nat, now: int, company: Option<string>, length: nat, cap: nat)
    requires i in a && a[i].invitedAt.None?
    requires forall j :: j in a && a[j].invitedAt.Some? ==> a[j].invitedAt.value <= now
    requires Capped(a, company, length, cap)
    requires (company.Some? ==> a[i].company == company.value) ==> |Since(a, company, now - length)| < cap
    ensures Capped(a[i := a[i].(stage := Invited, invitedAt := Some(now))], company, length, cap)
  {
    var b := a[i := a[i].(stage := Invited, invitedAt := Some(now))];
    forall from: int
      ensures |Sent(b, company, from, length)| <= cap
    {
      if InWindow(b[i], company, from, length) {
        assert Sent(b, company, from, length) <= Since(a, company, now - length) + {i};
        Sizes.SubsetSize(Sent(b, company, from, length), Since(a, company, now - length) + {i});
      } else {
        assert Sent(b, company, from, length) == Sent(a, company, from, length);
      }
    }
  }

  lemma InviteKeeps(b: Book)
    requires Inv(b) && b.pending.Some? && b.pending.value.kind.Invite?
    ensures Inv(DoMarkSent(b, true))
  {
    var i := b.pending.value.prospect;
    var a := b.prospects;
    CapKept(a, i, b.clock, None, DAY, PER_DAY);
    CapKept(a, i, b.clock, None, WEEK, PER_WEEK);
    forall company: string
      ensures Capped(DoMarkSent(b, true).prospects, Some(company), DAY, PER_COMPANY)
    {
      CapKept(a, i, b.clock, Some(company), DAY, PER_COMPANY);
    }
  }

  lemma WaitKeeps(b: Book, until: int)
    requires Inv(b) && b.clock <= until
    ensures Inv(b.(clock := until))
  {
    if b.pending.Some? && b.pending.value.kind.Invite? {
      var company := b.prospects[b.pending.value.prospect].company;
      SinceShrinks(b.prospects, None, b.clock - DAY, until - DAY);
      SinceShrinks(b.prospects, None, b.clock - WEEK, until - WEEK);
      SinceShrinks(b.prospects, Some(company), b.clock - DAY, until - DAY);
    }
  }

  lemma OfferKeeps(b: Book, m: nat, readAt: int, hour: int)
    requires Inv(b) && Enabled(b, Offer(m, readAt, hour))
    ensures Inv(Apply(b, Offer(m, readAt, hour)))
  {
    SinceShrinks(b.prospects, None, readAt - DAY, b.clock - DAY);
    SinceShrinks(b.prospects, None, readAt - WEEK, b.clock - WEEK);
  }

  /** Steps that record no invitation and move nobody back to be invited again. */
  lemma QuietKeeps(b: Book, t: Book)
    requires Inv(b) && t.clock == b.clock && t.pending == b.pending
    requires SameDates(b.prospects, t.prospects)
    requires forall i :: i in t.prospects && t.prospects[i].stage in {Identified, Drafted, Approved} ==> t.prospects[i].invitedAt.None?
    requires forall i :: i in b.prospects && (b.prospects[i].stage.Drafted? || b.prospects[i].stage.Approved?) ==>
               && i in t.prospects && t.prospects[i].company == b.prospects[i].company
               && (t.prospects[i].stage.Drafted? || t.prospects[i].stage.Approved?)
    ensures Inv(t)
  {
    SameCounts(b.prospects, t.prospects);
  }

  /** An ask that went out, or a send that failed, frees the lock and records no invitation. */
  lemma OtherSendKeeps(b: Book, ok: bool)
    requires Inv(b) && b.pending.Some? && !(ok && b.pending.value.kind.Invite?)
    ensures Inv(DoMarkSent(b, ok))
  {
    SameCounts(b.prospects, DoMarkSent(b, ok).prospects);
  }

  lemma QuietStepKeeps(b: Book, step: Step)
    requires Inv(b) && Enabled(b, step)
    requires step.Discover? || step.Draft? || step.ApproveMessage? || step.Respond?
    ensures Inv(Apply(b, step))
  {
    QuietKeeps(b, Apply(b, step));
  }

  lemma StepKeeps(b: Book, step: Step)
    requires Inv(b) && Enabled(b, step)
    ensures Inv(Apply(b, step))
  {
    match step
    case Wait(until) => WaitKeeps(b, until);
    case Offer(m, readAt, hour) => OfferKeeps(b, m, readAt, hour);
    case MarkSent(ok) =>
      if ok && b.pending.value.kind.Invite? {
        InviteKeeps(b);
      } else {
        OtherSendKeeps(b, ok);
      }
    case Discover(_, _, _) => QuietStepKeeps(b, step);
    case Draft(_) => QuietStepKeeps(b, step);
    case ApproveMessage(_) => QuietStepKeeps(b, step);
    case Respond(_, _) => QuietStepKeeps(b, step);
    case _ =>
  }

  lemma {:induction false} RunKeeps(steps: seq<Step>)
    requires Run(steps).Some?
    ensures Inv(Run(steps).value)
    decreases |steps|
  {
    if steps == [] {
      forall company, from, length: nat ensures Sent(EMPTY.prospects, company, from, length) == {} {
      }
    } else {
      RunKeeps(steps[..|steps| - 1]);
      StepKeeps(Run(steps[..|steps| - 1]).value, steps[|steps| - 1]);
    }
  }

  // ------------------------------------------------------------- theorems

  /**
   * The caps hold in every closed span of time, not only per calendar day: at most 15 recorded
   * invitations in 24 hours, 60 in 7 days, and 5 to one company in 24 hours.
   */
  lemma CapsHold(steps: seq<Step>, from: int, company: string)
    requires Run(steps).Some?
    ensures var p := Run(steps).value.prospects;
            && |Sent(p, None, from, DAY)| <= 15
            && |Sent(p, None, from, WEEK)| <= 60
            && |Sent(p, Some(company), from, DAY)| <= 5
  {
    RunKeeps(steps);
    var p := Run(steps).value.prospects;
    assert Capped(p, None, DAY, PER_DAY) && Capped(p, None, WEEK, PER_WEEK);
    assert Capped(p, Some(company), DAY, PER_COMPANY);
  }

  lemma InvitationStays(b: Book, step: Step, i: nat)
    requires Inv(b) && Enabled(b, step) && i in b.prospects && b.prospects[i].invitedAt.Some?
    ensures i in Apply(b, step).prospects && Apply(b, step).prospects[i].invitedAt == b.prospects[i].invitedAt
  {
  }

  /** A prospect's invitation is recorded at most once: once set, it never changes. */
  lemma {:induction false} InvitedOnce(steps: seq<Step>, n: nat, i: nat)
    requires n <= |steps| && Run(steps).Some? && Run(steps[..n]).Some?
    requires i in Run(steps[..n]).value.prospects && Run(steps[..n]).value.prospects[i].invitedAt.Some?
    ensures i in Run(steps).value.prospects
    ensures Run(steps).value.prospects[i].invitedAt == Run(steps[..n]).value.prospects[i].invitedAt
    decreases |steps|
  {
    if n < |steps| {
      var init := steps[..|steps| - 1];
      assert init[..n] == steps[..n];
      InvitedOnce(init, n, i);
      RunKeeps(init);
      InvitationStays(Run(init).value, steps[|steps| - 1], i);
    } else {
      assert steps[..n] == steps;
    }
  }

  // ------------------------------------- what was sent, and when it was offered

  lemma {:induction false} RunPrefix(steps: seq<Step>, n: nat)
    requires n <= |steps| && Run(steps).Some?
    ensures Run(steps[..n]).Some?
    decreases |steps|
  {
    if n < |steps| {
      RunPrefix(steps[..|steps| - 1], n);
      assert steps[..|steps| - 1][..n] == steps[..n];
    } else {
      assert steps[..n] == steps;
    }
  }

  lemma RunStep(steps: seq<Step>, n: nat)
    requires n < |steps| && Run(steps).Some?
    ensures Run(steps[..n]).Some? && Run(steps[..n + 1]).Some? && Enabled(Run(steps[..n]).value, steps[n])
    ensures Run(steps[..n + 1]).value == Apply(Run(steps[..n]).value, steps[n])
  {
    RunPrefix(steps, n);
    RunPrefix(steps, n + 1);
    assert steps[..n + 1][..n] == steps[..n];
  }

  /** Step j offers message m, which then belongs to prospect i and is of this kind. */
  ghost predicate OfferedAt(steps: seq<Step>, j: nat, m: nat, i: nat, kind: Kind) {
    && j < |steps| && steps[j].Offer? && steps[j].message == m
    && Run(steps[..j]).Some?
    && var b := Run(steps[..j]).value;
       && Sendable(b, m, steps[j].readAt, steps[j].hour)
       && b.messages[m].prospect == i && b.messages[m].kind == kind
  }

  lemma OfferedEarlier(steps: seq<Step>, j: nat, m: nat, i: nat, kind: Kind)
    requires steps != [] && OfferedAt(steps[..|steps| - 1], j, m, i, kind)
    ensures OfferedAt(steps, j, m, i, kind)
  {
    assert steps[..|steps| - 1][..j] == steps[..j];
  }

  /** What is pending was offered, and not answered for since. */
  lemma {:induction false} PendingSince(steps: seq<Step>) returns (j: nat)
    requires Run(steps).Some? && Run(steps).value.pending.Some?
    ensures var p := Run(steps).value.pending.value; OfferedAt(steps, j, p.message, p.prospect, p.kind)
    ensures forall k :: j < k < |steps| ==> !steps[k].MarkSent? && !steps[k].LetGo?
    decreases |steps|
  {
    var init, last := steps[..|steps| - 1], steps[|steps| - 1];
    if last.Offer? {
      j := |steps| - 1;
    } else {
      PendingBefore(Run(init).value, last);
      j := PendingSince(init);
      var p := Run(init).value.pending.value;
      OfferedEarlier(steps, j, p.message, p.prospect, p.kind);
      assert forall k :: j < k < |steps| - 1 ==> steps[k] == init[k];
    }
  }

  /** What is pending and was not offered just now was pending before. */
  lemma PendingBefore(b: Book, step: Step)
    requires Enabled(b, step) && Apply(b, step).pending.Some? && !step.Offer?
    ensures b.pending == Apply(b, step).pending && !step.MarkSent? && !step.LetGo?
  {
  }

  /** A message keeps its prospect and its kind, and once sent its time. */
  lemma MessageStays(b: Book, step: Step, m: nat)
    requires Enabled(b, step) && m in b.messages
    ensures var t := Apply(b, step);
            && m in t.messages && t.messages[m].prospect == b.messages[m].prospect && t.messages[m].kind == b.messages[m].kind
            && (t.messages[m].sentAt.Some? ==>
                  b.messages[m].sentAt.Some? || (step == MarkSent(true) && b.pending.Some? && b.pending.value.message == m))
  {
  }

  /** The pending message's prospect and kind are the message's own. */
  lemma {:induction false} PendingIsOwn(steps: seq<Step>)
    requires Run(steps).Some? && Run(steps).value.pending.Some?
    ensures var b := Run(steps).value;
            var p := b.pending.value;
            p.message in b.messages && b.messages[p.message].prospect == p.prospect && b.messages[p.message].kind == p.kind
    decreases |steps|
  {
    var init, last := steps[..|steps| - 1], steps[|steps| - 1];
    if !last.Offer? {
      PendingIsOwn(init);
      MessageStays(Run(init).value, last, Run(init).value.pending.value.message);
    }
  }

  /** Whatever was sent had been offered, to the prospect and of the kind the message has. */
  lemma {:induction false} SentWasOffered(steps: seq<Step>, m: nat) returns (j: nat)
    requires Run(steps).Some? && m in Run(steps).value.messages && Run(steps).value.messages[m].sentAt.Some?
    ensures var message := Run(steps).value.messages[m]; OfferedAt(steps, j, m, message.prospect, message.kind)
    decreases |steps|
  {
    var init, last := steps[..|steps| - 1], steps[|steps| - 1];
    var b := Run(init).value;
    assert m in b.messages;
    MessageStays(b, last, m);
    if b.messages[m].sentAt.Some? {
      j := SentWasOffered(init, m);
    } else {
      j := PendingSince(init);
      PendingIsOwn(init);
    }
    OfferedEarlier(steps, j, m, b.messages[m].prospect, b.messages[m].kind);
  }

  /**
   * No stranger is ever asked: in every reachable book, a message that was sent and is no
   * invitation was offered at a moment when its prospect had accepted.
   */
  lemma AskedOnlyOnceAccepted(steps: seq<Step>, m: nat)
    requires Run(steps).Some? && m in Run(steps).value.messages
    requires Run(steps).value.messages[m].sentAt.Some? && !Run(steps).value.messages[m].kind.Invite?
    ensures var i := Run(steps).value.messages[m].prospect;
            exists j: nat :: && j < |steps| && steps[j].Offer? && steps[j].message == m && Run(steps[..j]).Some?
                             && i in Run(steps[..j]).value.prospects && Run(steps[..j]).value.prospects[i].stage.Accepted?
  {
    var j := SentWasOffered(steps, m);
    assert steps[j].message == m;
  }

  lemma {:induction false} PausedSince(steps: seq<Step>, k: nat, n: nat)
    requires k < n <= |steps| && Run(steps).Some? && steps[k].Trip?
    ensures Run(steps[..k]).Some? && Run(steps[..n]).Some?
    ensures Run(steps[..k]).value.clock <= Run(steps[..n]).value.clock
    ensures var paused := Run(steps[..n]).value.pausedUntil;
            paused.Some? && paused.value >= Run(steps[..k]).value.clock + BREAKER_PAUSE
    decreases n
  {
    RunStep(steps, n - 1);
    if k < n - 1 {
      PausedSince(steps, k, n - 1);
    }
  }

  /** For 72 hours after the breaker tripped nothing is offered. */
  lemma NothingOfferedAfterTrip(steps: seq<Step>, k: nat, j: nat)
    requires k < j < |steps| && Run(steps).Some? && steps[k].Trip? && steps[j].Offer?
    ensures Run(steps[..k]).Some? && Run(steps[..j]).Some?
    ensures Run(steps[..j]).value.clock >= Run(steps[..k]).value.clock + BREAKER_PAUSE
  {
    PausedSince(steps, k, j);
    RunStep(steps, j);
  }

  /**
   * So a send that is recorded while the breaker is open was under way before it tripped: it was
   * offered before the trip, and nothing else was pending since.
   */
  lemma OnlyWhatWasUnderWay(steps: seq<Step>, k: nat, n: nat) returns (j: nat)
    requires k < n < |steps| && Run(steps).Some? && steps[k].Trip? && steps[n].MarkSent?
    requires Run(steps[..k]).Some? && Run(steps[..n]).Some?
    requires Run(steps[..n]).value.clock < Run(steps[..k]).value.clock + BREAKER_PAUSE
    ensures j < k && steps[j].Offer? && Run(steps[..n]).value.pending.Some?
    ensures steps[j].message == Run(steps[..n]).value.pending.value.message
    ensures forall l :: j < l < n ==> !steps[l].MarkSent? && !steps[l].LetGo?
  {
    RunStep(steps, n);
    j := PendingSince(steps[..n]);
    if k < j {
      NothingOfferedAfterTrip(steps, k, j);
      ClockGoesOn(steps, j, n);
    }
  }

  lemma {:induction false} ClockGoesOn(steps: seq<Step>, j: nat, n: nat)
    requires j <= n <= |steps| && Run(steps).Some?
    ensures Run(steps[..j]).Some? && Run(steps[..n]).Some? && Run(steps[..j]).value.clock <= Run(steps[..n]).value.clock
    decreases n
  {
    RunPrefix(steps, n);
    if j < n {
      RunStep(steps, n - 1);
      ClockGoesOn(steps, j, n - 1);
    }
  }

  // ------------------------------------------------------- the rows in place

  datatype Offered = Ready(message: nat) | Blocked(refusal: Refusal) | NothingWaiting | SwitchedOff

  class Desk {
    var book: Book

    /** Walks the waiting rows: the first one of the right kind decides, and the gate has the last word. */
    method NextSendable(enabled: bool, rows: seq<nat>, readAt: int, hour: int) returns (offer: Offered)
      requires Inv(book) && book.pending.None? && readAt <= book.clock
      requires forall k :: 0 <= k < |rows| ==> Waiting(book, rows[k])
      modifies this
      ensures Inv(book)
      ensures !enabled <==> offer.SwitchedOff?
      ensures offer.Ready? ==>
                && (exists k: nat :: FirstFitting(old(book), rows, k) && rows[k] == offer.message)
                && Sendable(old(book), offer.message, readAt, hour)
                && book == Apply(old(book), Offer(offer.message, readAt, hour))
      ensures !offer.Ready? ==> book == old(book)
      ensures offer.NothingWaiting? ==>
                forall k :: 0 <= k < |rows| ==>
                  !Fitting(book, rows[k])
      ensures offer.Blocked? ==>
                exists k: nat :: FirstFitting(book, rows, k) && Refused(book, rows[k], readAt, hour, offer.refusal)
    {
      if !enabled {
        return SwitchedOff;
      }
      var today := |Since(book.prospects, None, readAt - DAY)|;
      var week := |Since(book.prospects, None, readAt - WEEK)|;
      var k := 0;
      while k < |rows|
        invariant k <= |rows| && book == old(book)
        invariant forall j :: 0 <= j < k ==>
                    !Fitting(book, rows[j])
      {
        var message := book.messages[rows[k]];
        var prospect := book.prospects[message.prospect];
        if RightStage(message.kind, prospect.stage) {
          assert FirstFitting(book, rows, k);
          var company := |Since(book.prospects, Some(prospect.company), book.clock - DAY)|;
          var verdict := CanSend(Request(book.clock, hour, today, week, company, book.pausedUntil, true));
          assert verdict == CanSend(RequestFor(book, rows[k], readAt, hour));
          if verdict.Some? {
            assert Refused(book, rows[k], readAt, hour, verdict.value);
            return Blocked(verdict.value);
          }
          OfferKeeps(book, rows[k], readAt, hour);
          book := book.(pending := Some(Pending(rows[k], message.prospect, message.kind)));
          return Ready(rows[k]);
        }
        k := k + 1;
      }
      offer := NothingWaiting;
    }

    /** The send that happened is recorded with the current time. */
    method Record(ok: bool)
      requires Inv(book) && book.pending.Some?
      modifies this
      ensures Inv(book) && book == DoMarkSent(old(book), ok)
    {
      StepKeeps(book, MarkSent(ok));
      var pending := book.pending.value;
      book := book.(pending := None);
      if ok {
        if pending.message in book.messages {
          book := book.(messages := book.messages[pending.message := book.messages[pending.message].(sentAt := Some(book.clock))]);
        }
        if pending.prospect in book.prospects {
          var p := book.prospects[pending.prospect];
          var after := if pending.kind.Invite? then p.(stage := Invited, invitedAt := Some(book.clock)) else p.(stage := Asked);
          book := book.(prospects := book.prospects[pending.prospect := after]);
        }
      }
    }

    /** What the pause is good for: NothingOfferedAfterTrip. */
    method TripBreaker()
      requires Inv(book)
      modifies this
      ensures Inv(book) && book == Apply(old(book), Trip)
    {
      StepKeeps(book, Trip);
      book := book.(pausedUntil := Some(book.clock + BREAKER_PAUSE));
    }
  }
}
