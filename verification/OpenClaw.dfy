/**
 * One OpenClaw run and everything that races to end it: the monitor, the deadline and wait
 * timers, cancel and close. Each step is what happens between two awaits of the client.
 */
module OpenClaw {
  import opened Basics
  import Sizes

  type Id = string

  const NUDGE_LIMIT := 8

  datatype Status = Fine | Error | Timeout | Cancelled

  datatype Result = Result(status: Status, confirmed: bool)

  /** The child runs asked to stop, those that have not answered yet, and whether all answers were terminal. */
  datatype Poll = Poll(asked: set<Id>, left: set<Id>, good: bool)

  datatype Start = Connecting | InFlight | Up | Over

  datatype Monitor = Off | Waiting | Children(primary: Id, status: Status, poll: Poll) | Done

  datatype Stopper =
    | Quiet
    | Aborting(status: Status)
    | Primary(status: Status, asked: Id)
    | Kids(status: Status, primary: Id, primaryEnded: bool, poll: Poll)
    | Stopped

  /** What a confirmed result rests on. */
  datatype Evidence = NothingSent | Unproven | Ended(primary: Id, kids: set<Id>, byStop: bool)

  /**
   * `ended` are the ids a terminal reply was received for, `nudges` the ids of the nudges
   * accepted, `evidence` what the result was based on; the last two are history.
   */
  datatype Run = Run(
    id: Id,
    start: Start,
    sent: bool,
    children: set<Id>,
    monitor: Monitor,
    stopper: Stopper,
    result: Option<Result>,
    ended: set<Id>,
    nudges: set<Id>,
    evidence: Option<Evidence>)

  datatype Reply = Terminal(status: Status) | NotYet(pastDeadline: bool) | Broken

  datatype Step =
    | Send
    | Started(id: Id)
    | RefusedBeforeSend
    | InvalidCall
    | StartBroken
    | WaitReply(reply: Reply)
    | MonitorChild(child: Id, terminal: bool)
    | MonitorEnds
    | BeginStop(status: Status)
    | AbortReply(ok: bool)
    | PrimaryReply(ok: bool, terminal: bool)
    | StopChild(child: Id, terminal: bool)
    | StopEnds
    | Nudge(id: Id, pastDeadline: bool)
    | NudgeReply(id: Id)

  function Fresh(attempt: Id): Run {
    Run(attempt, Connecting, false, {}, Off, Quiet, None, {}, {}, None)
  }

  /** `stopping` in the client. */
  predicate Stopping(r: Run) {
    !r.stopper.Quiet?
  }

  /** Only the first result counts. */
  function Finish(r: Run, result: Result, evidence: Evidence): Run {
    if r.result.Some? then r else r.(result := Some(result), evidence := Some(evidence))
  }

  /** Stopping starts once, and not after a result. */
  function Stop(r: Run, status: Status): Run {
    if r.result.Some? || Stopping(r) then r else r.(stopper := Aborting(status))
  }

  function Answer(poll: Poll, child: Id, terminal: bool): Poll {
    poll.(left := poll.left - {child}, good := poll.good && terminal)
  }

  function Saw(r: Run, id: Id, terminal: bool): Run {
    if terminal then r.(ended := r.ended + {id}) else r
  }

  predicate Enabled(r: Run, step: Step) {
    match step
    case Send => r.start.Connecting?
    case Started(_) => r.start.InFlight?
    case RefusedBeforeSend => r.start.Connecting?
    case InvalidCall => r.start.Connecting?
    case StartBroken => r.start.Connecting? || r.start.InFlight?
    case WaitReply(_) => r.monitor.Waiting?
    case MonitorChild(child, _) => r.monitor.Children? && child in r.monitor.poll.left
    case MonitorEnds => r.monitor.Children? && r.monitor.poll.left == {}
    case BeginStop(_) => true
    case AbortReply(_) => r.stopper.Aborting?
    case PrimaryReply(_, _) => r.stopper.Primary?
    case StopChild(child, _) => r.stopper.Kids? && child in r.stopper.poll.left
    case StopEnds => r.stopper.Kids? && r.stopper.poll.left == {}
    case Nudge(id, pastDeadline) =>
      r.result.None? && !Stopping(r) && !pastDeadline && |r.children| < NUDGE_LIMIT && id !in r.children
    case NudgeReply(_) => r.nudges != {}
  }

  function OnWaitReply(r: Run, reply: Reply): Run
    requires r.monitor.Waiting?
  {
    match reply
    case Broken => Stop(r, Error).(monitor := Done)
    case NotYet(pastDeadline) =>
      if Stopping(r) || r.result.Some? then r.(monitor := Done)
      else if pastDeadline then Stop(r, Timeout).(monitor := Done)
      else r
    case Terminal(status) =>
      var seen := Saw(r, r.id, true);
      if Stopping(r) || r.result.Some? then seen.(monitor := Done)
      else seen.(monitor := Children(r.id, status, Poll(r.children, r.children, true)))
  }

  function OnMonitorEnds(r: Run): Run
    requires r.monitor.Children?
  {
    var Children(primary, status, poll) := r.monitor;
    var over := r.(monitor := Done);
    if Stopping(r) || r.result.Some? then over
    else Finish(over, if poll.good then Result(status, true) else Result(Error, false), Ended(primary, poll.asked, false))
  }

  function OnAbortReply(r: Run, ok: bool): Run
    requires r.stopper.Aborting?
  {
    var status := r.stopper.status;
    if ok then r.(stopper := Primary(status, r.id))
    else Finish(r.(stopper := Stopped), Result(status, false), Unproven)
  }

  function OnPrimaryReply(r: Run, ok: bool, terminal: bool): Run
    requires r.stopper.Primary?
  {
    var Primary(status, asked) := r.stopper;
    if !ok then Finish(r.(stopper := Stopped), Result(status, false), Unproven)
    else Saw(r, asked, terminal).(stopper := Kids(status, asked, terminal, Poll(r.children, r.children, true)))
  }

  function OnStopEnds(r: Run): Run
    requires r.stopper.Kids?
  {
    var Kids(status, primary, primaryEnded, poll) := r.stopper;
    Finish(r.(stopper := Stopped), Result(status, primaryEnded && poll.good), Ended(primary, poll.asked, true))
  }

  function Apply(r: Run, step: Step): Run
    requires Enabled(r, step)
  {
    match step
    case Send => r.(start := InFlight, sent := true)
    case Started(id) => r.(start := Up, id := id, monitor := if r.result.Some? || Stopping(r) then Done else Waiting)
    case RefusedBeforeSend => Finish(r.(start := Over), Result(Error, true), NothingSent)
    case InvalidCall => r.(start := Over)
    case StartBroken => Stop(r.(start := Over), Error)
    case WaitReply(reply) => OnWaitReply(r, reply)
    case MonitorChild(child, terminal) =>
      Saw(r, child, terminal).(monitor := r.monitor.(poll := Answer(r.monitor.poll, child, terminal)))
    case MonitorEnds => OnMonitorEnds(r)
    case BeginStop(status) => Stop(r, status)
    case AbortReply(ok) => OnAbortReply(r, ok)
    case PrimaryReply(ok, terminal) => OnPrimaryReply(r, ok, terminal)
    case StopChild(child, terminal) =>
      Saw(r, child, terminal).(stopper := r.stopper.(poll := Answer(r.stopper.poll, child, terminal)))
    case StopEnds => OnStopEnds(r)
    case Nudge(id, _) => r.(children := r.children + {id}, nudges := r.nudges + {id})
    case NudgeReply(id) => r.(children := r.children + {id})
  }

  function Play(attempt: Id, steps: seq<Step>): Option<Run>
    decreases |steps|
  {
    if steps == [] then Some(Fresh(attempt))
    else
      match Play(attempt, steps[..|steps| - 1])
      case None => None
      case Some(mid) => if Enabled(mid, steps[|steps| - 1]) then Some(Apply(mid, steps[|steps| - 1])) else None
  }

  // ------------------------------------------------------------- invariant

  /** Children that answered with a terminal reply were seen to end. */
  ghost predicate Polled(r: Run, poll: Poll) {
    poll.left <= poll.asked && (poll.good ==> poll.asked - poll.left <= r.ended)
  }

  ghost predicate Justified(r: Run) {
    && (r.result.Some? <==> r.evidence.Some?)
    && (r.result.Some? && r.result.value.confirmed ==>
          match r.evidence.value
          case NothingSent => !r.sent && r.start.Over?
          case Unproven => false
          case Ended(primary, kids, byStop) => primary in r.ended && kids <= r.ended && (byStop ==> r.nudges <= kids))
  }

  ghost predicate Inv(r: Run) {
    && Justified(r)
    && (r.start.Connecting? ==> !r.sent)
    && r.nudges <= r.children && |r.nudges| <= NUDGE_LIMIT
    && (r.monitor.Children? ==> Polled(r, r.monitor.poll) && r.monitor.primary in r.ended)
    && (r.stopper.Kids? ==>
          && Polled(r, r.stopper.poll) && r.nudges <= r.stopper.poll.asked
          && (r.stopper.primaryEnded ==> r.stopper.primary in r.ended))
  }

  lemma StopKeeps(r: Run, status: Status)
    requires Inv(r)
    ensures Inv(Stop(r, status))
  {
  }

  lemma MonitorKeeps(r: Run, step: Step)
    requires Inv(r) && Enabled(r, step) && (step.WaitReply? || step.MonitorChild? || step.MonitorEnds?)
    ensures Inv(Apply(r, step))
  {
  }

  lemma StopperKeeps(r: Run, step: Step)
    requires Inv(r) && Enabled(r, step) && (step.AbortReply? || step.PrimaryReply? || step.StopChild? || step.StopEnds?)
    ensures Inv(Apply(r, step))
  {
  }

  lemma NudgeKeeps(r: Run, id: Id)
    requires Inv(r) && Enabled(r, Nudge(id, false))
    ensures Inv(Apply(r, Nudge(id, false)))
  {
    Sizes.SubsetSize(r.nudges, r.children);
  }

  lemma StepKeeps(r: Run, step: Step)
    requires Inv(r) && Enabled(r, step)
    ensures Inv(Apply(r, step))
  {
    match step
    case WaitReply(_) => MonitorKeeps(r, step);
    case MonitorChild(_, _) => MonitorKeeps(r, step);
    case MonitorEnds => MonitorKeeps(r, step);
    case AbortReply(_) => StopperKeeps(r, step);
    case PrimaryReply(_, _) => StopperKeeps(r, step);
    case StopChild(_, _) => StopperKeeps(r, step);
    case StopEnds => StopperKeeps(r, step);
    case BeginStop(status) => StopKeeps(r, status);
    case StartBroken => StopKeeps(r.(start := Over), Error);
    case Nudge(id, _) => NudgeKeeps(r, id);
    case _ =>
  }

  lemma {:induction false} PlayKeeps(attempt: Id, steps: seq<Step>)
    requires Play(attempt, steps).Some?
    ensures Inv(Play(attempt, steps).value)
    decreases |steps|
  {
    if steps != [] {
      PlayKeeps(attempt, steps[..|steps| - 1]);
      StepKeeps(Play(attempt, steps[..|steps| - 1]).value, steps[|steps| - 1]);
    }
  }

  // ------------------------------------------------------------- theorems

  /** Whoever wins, the result is set once and never changes. */
  lemma {:induction false} ResultIsFinal(attempt: Id, steps: seq<Step>, n: nat)
    requires n <= |steps| && Play(attempt, steps).Some?
    ensures Play(attempt, steps[..n]).Some?
    ensures Play(attempt, steps[..n]).value.result.Some? ==> Play(attempt, steps).value.result == Play(attempt, steps[..n]).value.result
    decreases |steps|
  {
    if n == |steps| {
      assert steps[..n] == steps;
    } else {
      var init := steps[..|steps| - 1];
      ResultIsFinal(attempt, init, n);
      assert init[..n] == steps[..n];
      if Play(attempt, init).value.result.Some? {
        ResultStays(Play(attempt, init).value, steps[|steps| - 1]);
      }
    }
  }

  lemma ResultStays(r: Run, step: Step)
    requires Enabled(r, step) && r.result.Some?
    ensures Apply(r, step).result == r.result
  {
  }

  /**
   * A confirmed result means what it says: either the agent call was never sent and never will
   * be, or terminal replies were received for the primary run and for every child that was polled;
   * and when it was the stopping task that finished, every nudge ever accepted was among those.
   */
  lemma ConfirmedMeansEnded(attempt: Id, steps: seq<Step>)
    requires Play(attempt, steps).Some?
    requires var r := Play(attempt, steps).value; r.result.Some? && r.result.value.confirmed
    ensures var r := Play(attempt, steps).value;
            || (!r.sent && !r.start.Connecting?)
            || (exists primary, kids, byStop ::
                  && r.evidence == Some(Ended(primary, kids, byStop))
                  && primary in r.ended && kids <= r.ended && (byStop ==> r.nudges <= kids))
  {
    PlayKeeps(attempt, steps);
    var r := Play(attempt, steps).value;
    if r.evidence.value.Ended? {
      var Ended(primary, kids, byStop) := r.evidence.value;
      assert r.evidence == Some(Ended(primary, kids, byStop));
    }
  }

  /** At most eight nudges are ever accepted for a run. */
  lemma NudgesAreBounded(attempt: Id, steps: seq<Step>)
    requires Play(attempt, steps).Some?
    ensures |Play(attempt, steps).value.nudges| <= NUDGE_LIMIT
  {
    PlayKeeps(attempt, steps);
  }

  function Sends(steps: seq<Step>): nat {
    if steps == [] then 0
    else Sends(steps[..|steps| - 1]) + if steps[|steps| - 1].Send? then 1 else 0
  }

  /** The agent call goes out at most once per run. */
  lemma {:induction false} SentAtMostOnce(attempt: Id, steps: seq<Step>)
    requires Play(attempt, steps).Some?
    ensures Sends(steps) <= 1
    ensures Play(attempt, steps).value.start.Connecting? ==> Sends(steps) == 0
    decreases |steps|
  {
    if steps != [] {
      SentAtMostOnce(attempt, steps[..|steps| - 1]);
    }
  }

  // ------------------------------------------------ all runs of a client

  datatype Key = Key(tenant: nat, attempt: Id)

  /** What happens at a client: a call to start an attempt, or a step of an attempt's run. */
  datatype Event = StartRun(key: Key) | Advance(key: Key, step: Step)

  /** The first call makes the run; a later one gets the same run. No run is ever dropped. */
  function Begin(runs: map<Key, Run>, key: Key): map<Key, Run> {
    if key in runs then runs else runs[key := Fresh(key.attempt)]
  }

  predicate Possible(runs: map<Key, Run>, event: Event) {
    event.Advance? ==> event.key in runs && Enabled(runs[event.key], event.step)
  }

  function Follow(runs: map<Key, Run>, event: Event): map<Key, Run>
    requires Possible(runs, event)
  {
    match event
    case StartRun(key) => Begin(runs, key)
    case Advance(key, step) => runs[key := Apply(runs[key], step)]
  }

  function Serve(events: seq<Event>): Option<map<Key, Run>>
    decreases |events|
  {
    if events == [] then Some(map[])
    else
      match Serve(events[..|events| - 1])
      case None => None
      case Some(runs) =>
        if Possible(runs, events[|events| - 1]) then Some(Follow(runs, events[|events| - 1])) else None
  }

  /** The steps taken for one key, in order. */
  function StepsOf(events: seq<Event>, key: Key): seq<Step>
    decreases |events|
  {
    if events == [] then []
    else
      var before := StepsOf(events[..|events| - 1], key);
      var last := events[|events| - 1];
      if last.Advance? && last.key == key then before + [last.step] else before
  }

  lemma PlayOn(attempt: Id, steps: seq<Step>, step: Step)
    requires Play(attempt, steps).Some? && Enabled(Play(attempt, steps).value, step)
    ensures Play(attempt, steps + [step]) == Some(Apply(Play(attempt, steps).value, step))
  {
    assert (steps + [step])[..|steps|] == steps;
  }

  /** However calls and steps of all attempts mix, the steps of one key are one play of one run. */
  lemma {:induction false} OneRunPerKey(events: seq<Event>, key: Key)
    requires Serve(events).Some?
    ensures var runs := Serve(events).value;
            if key in runs then Play(key.attempt, StepsOf(events, key)) == Some(runs[key]) else StepsOf(events, key) == []
    decreases |events|
  {
    if events != [] {
      var init, last := events[..|events| - 1], events[|events| - 1];
      OneRunPerKey(init, key);
      if last.Advance? && last.key == key {
        PlayOn(key.attempt, StepsOf(init, key), last.step);
      }
    }
  }

  /** One agent call per tenant and attempt, whatever is asked of the client and in whatever order. */
  lemma SentOncePerKey(events: seq<Event>, key: Key)
    requires Serve(events).Some?
    ensures Sends(StepsOf(events, key)) <= 1
    ensures key in Serve(events).value && Serve(events).value[key].start.Connecting? ==> Sends(StepsOf(events, key)) == 0
  {
    OneRunPerKey(events, key);
    if key in Serve(events).value {
      SentAtMostOnce(key.attempt, StepsOf(events, key));
    }
  }

  // ------------------------------------------------- the client in place

  /** One run object; its fields change only through the methods below. */
  class Session {
    const key: Key
    ghost var steps: seq<Step>
    var run: Run

    ghost predicate Valid()
      reads this
    {
      Play(key.attempt, steps) == Some(run)
    }

    constructor (key: Key)
      ensures Valid() && this.key == key && steps == [] && run == Fresh(key.attempt)
    {
      this.key, steps, run := key, [], Fresh(key.attempt);
    }

    /** The children are asked one after the other here; the answers are the gateway's. */
    method StopChildRuns(answers: map<Id, bool>)
      requires Valid() && run.stopper.Kids? && run.stopper.poll.left <= answers.Keys
      modifies this
      ensures Valid() && old(steps) <= steps
      ensures run.stopper.Kids? && run.stopper.poll.left == {} && run.stopper.poll.asked == old(run).stopper.poll.asked
      ensures run.stopper.poll.good <==>
                old(run).stopper.poll.good && forall child :: child in old(run).stopper.poll.left ==> answers[child]
      ensures run.result == old(run).result
    {
      while run.stopper.poll.left != {}
        invariant Valid() && old(steps) <= steps
        invariant run.stopper.Kids? && run.stopper.poll.left <= old(run).stopper.poll.left
        invariant run.stopper.poll.asked == old(run).stopper.poll.asked
        invariant run.stopper.poll.good <==>
                    old(run).stopper.poll.good
                    && forall child :: child in old(run).stopper.poll.left - run.stopper.poll.left ==> answers[child]
        invariant run.result == old(run).result
        decreases run.stopper.poll.left
      {
        var child :| child in run.stopper.poll.left;
        Take(StopChild(child, answers[child]));
      }
    }

    method Take(step: Step)
      requires Valid() && Enabled(run, step)
      modifies this
      ensures Valid() && steps == old(steps) + [step] && run == Apply(old(run), step)
    {
      run := Apply(run, step);
      steps := steps + [step];
      assert steps[..|steps| - 1] == old(steps);
    }

    /** A nudge is refused once the run is over, stopping or past its deadline, or has eight children. */
    method NudgeRun(id: Id, pastDeadline: bool) returns (accepted: bool)
      requires Valid() && id !in run.children
      modifies this
      ensures Valid()
      ensures accepted <==>
                old(run).result.None? && !Stopping(old(run)) && !pastDeadline && |old(run).children| < NUDGE_LIMIT
      ensures run == if accepted then Apply(old(run), Nudge(id, pastDeadline)) else old(run)
    {
      accepted := run.result.None? && run.stopper.Quiet? && !pastDeadline && |run.children| < 8;
      if accepted {
        Take(Nudge(id, pastDeadline));
      }
    }
  }

  class Client {
    var attempts: map<Key, Session>

    constructor ()
      ensures attempts == map[]
    {
      attempts := map[];
    }

    ghost function Runs(): map<Key, Run>
      reads this, attempts.Values
    {
      map key | key in attempts :: attempts[key].run
    }

    /** Starting the same attempt of the same tenant again returns the first session and sends nothing. */
    method StartRun(key: Key) returns (session: Session)
      modifies this
      ensures Runs() == Begin(old(Runs()), key)
      ensures key in attempts && attempts[key] == session
      ensures key in old(attempts) ==> session == old(attempts)[key] && attempts == old(attempts)
      ensures key !in old(attempts) ==> fresh(session) && session.Valid() && session.steps == [] && session.key == key
      ensures attempts == old(attempts)[key := session]
    {
      if key in attempts {
        session := attempts[key];
        assert attempts == attempts[key := session];
      } else {
        session := new Session(key);
        attempts := attempts[key := session];
      }
    }
  }
}
