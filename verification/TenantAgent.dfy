/** The VM agent: operations of a tenant one at a time, its browser process, and its attempt policy. */
module TenantAgent {
  import opened Basics

  // ------------------------------------------------- one operation at a time

  type Tenant = nat

  datatype Stage = Waiting | Running | Settled

  /** An operation waits for the one that was the tenant's latest when it arrived. */
  datatype Operation = Operation(tenant: Tenant, prior: Option<nat>, stage: Stage)

  /** `latest` is the map of promises: the tenant's newest operation, until that one has been cleaned up. */
  datatype Line = Line(ops: seq<Operation>, latest: map<Tenant, nat>)

  datatype Step = Arrive(tenant: Tenant) | Begin(op: nat) | Settle(op: nat) | Clean(op: nat)

  predicate Ready(l: Line, op: nat) {
    && op < |l.ops| && l.ops[op].stage.Waiting?
    && (l.ops[op].prior.None? || (l.ops[op].prior.value < |l.ops| && l.ops[l.ops[op].prior.value].stage.Settled?))
  }

  predicate Enabled(l: Line, step: Step) {
    match step
    case Arrive(_) => true
    case Begin(op) => Ready(l, op)
    case Settle(op) => op < |l.ops| && l.ops[op].stage.Running?
    case Clean(op) => op < |l.ops| && l.ops[op].stage.Settled?
  }

  function Apply(l: Line, step: Step): Line
    requires Enabled(l, step)
  {
    match step
    case Arrive(t) =>
      var prior := if t in l.latest then Some(l.latest[t]) else None;
      Line(l.ops + [Operation(t, prior, Waiting)], l.latest[t := |l.ops|])
    case Begin(op) => l.(ops := l.ops[op := l.ops[op].(stage := Running)])
    case Settle(op) => l.(ops := l.ops[op := l.ops[op].(stage := Settled)])
    case Clean(op) =>
      var t := l.ops[op].tenant;
      if t in l.latest && l.latest[t] == op then l.(latest := l.latest - {t}) else l
  }

  function Run(steps: seq<Step>): Option<Line>
    decreases |steps|
  {
    if steps == [] then Some(Line([], map[]))
    else
      match Run(steps[..|steps| - 1])
      case None => None
      case Some(mid) => if Enabled(mid, steps[|steps| - 1]) then Some(Apply(mid, steps[|steps| - 1])) else None
  }

  /** Every operation of the tenant that arrived before the n-th has settled. */
  ghost predicate Before(l: Line, t: Tenant, n: nat) {
    forall k: nat | k < n && k < |l.ops| && l.ops[k].tenant == t :: l.ops[k].stage.Settled?
  }

  /** An operation's wait covers everything of its tenant that came earlier. */
  ghost predicate Covers(l: Line, op: nat)
    requires op < |l.ops|
  {
    match l.ops[op].prior
    case None => Before(l, l.ops[op].tenant, op)
    case Some(p) =>
      && p < op && l.ops[p].tenant == l.ops[op].tenant
      && (forall k: nat | p < k < op :: l.ops[k].tenant != l.ops[op].tenant)
  }

  ghost predicate Inv(l: Line) {
    && (forall op: nat | op < |l.ops| :: Covers(l, op))
    && (forall op: nat | op < |l.ops| && !l.ops[op].stage.Waiting? :: Before(l, l.ops[op].tenant, op))
    && (forall t :: t in l.latest ==>
          l.latest[t] < |l.ops| && l.ops[l.latest[t]].tenant == t && NoneAfter(l, t, l.latest[t]))
    && (forall t: nat | t !in l.latest :: Before(l, t, |l.ops|))
  }

  ghost predicate NoneAfter(l: Line, t: Tenant, op: nat) {
    forall k: nat | op < k < |l.ops| :: l.ops[k].tenant != t
  }

  /** Settling more never spoils what had settled. */
  lemma SettledStays(l: Line, m: Line, t: Tenant, n: nat)
    requires |l.ops| <= |m.ops| && n <= |l.ops| && Before(l, t, n)
    requires forall k :: 0 <= k < |l.ops| ==> m.ops[k].tenant == l.ops[k].tenant
    requires forall k :: 0 <= k < |l.ops| && l.ops[k].stage.Settled? ==> m.ops[k].stage.Settled?
    ensures Before(m, t, n)
  {
  }

  lemma ArriveKeeps(l: Line, t: Tenant)
    requires Inv(l)
    ensures Inv(Apply(l, Arrive(t)))
  {
    var m := Apply(l, Arrive(t));
    forall op: nat | op < |m.ops|
      ensures Covers(m, op)
    {
      if op < |l.ops| {
        assert Covers(l, op);
      }
    }
    forall op: nat | op < |m.ops| && !m.ops[op].stage.Waiting?
      ensures Before(m, m.ops[op].tenant, op)
    {
      assert Before(l, l.ops[op].tenant, op);
    }
    forall u: nat | u !in m.latest
      ensures Before(m, u, |m.ops|)
    {
      assert Before(l, u, |l.ops|);
    }
  }

  lemma StageKeeps(l: Line, op: nat, stage: Stage)
    requires Inv(l) && op < |l.ops| && !stage.Waiting?
    requires l.ops[op].stage.Settled? ==> stage.Settled?
    requires Before(l, l.ops[op].tenant, op)
    ensures Inv(l.(ops := l.ops[op := l.ops[op].(stage := stage)]))
  {
    var m := l.(ops := l.ops[op := l.ops[op].(stage := stage)]);
    forall k: nat | k < |m.ops|
      ensures Covers(m, k)
      ensures !m.ops[k].stage.Waiting? ==> Before(m, m.ops[k].tenant, k)
    {
      assert Covers(l, k);
      if l.ops[k].prior.None? {
        SettledStays(l, m, l.ops[k].tenant, k);
      }
      if !m.ops[k].stage.Waiting? {
        SettledStays(l, m, l.ops[k].tenant, k);
      }
    }
    forall t: nat | t !in m.latest
      ensures Before(m, t, |m.ops|)
    {
      SettledStays(l, m, t, |l.ops|);
    }
  }

  /** An operation that may begin has nothing of its tenant unsettled before it. */
  lemma ReadyIsNext(l: Line, op: nat)
    requires Inv(l) && Ready(l, op)
    ensures Before(l, l.ops[op].tenant, op)
  {
    assert Covers(l, op);
    if l.ops[op].prior.Some? {
      var p := l.ops[op].prior.value;
      assert Before(l, l.ops[p].tenant, p);
    }
  }

  lemma CleanKeeps(l: Line, op: nat)
    requires Inv(l) && Enabled(l, Clean(op))
    ensures Inv(Apply(l, Clean(op)))
  {
    var t := l.ops[op].tenant;
    var m := Apply(l, Clean(op));
    assert Before(l, t, op);
    if t in l.latest && l.latest[t] == op {
      assert NoneAfter(l, t, op);
      assert Before(l, t, |l.ops|);
    }
    forall k: nat | k < |m.ops|
      ensures Covers(m, k) && (!m.ops[k].stage.Waiting? ==> Before(m, m.ops[k].tenant, k))
    {
      assert Covers(l, k);
      assert !l.ops[k].stage.Waiting? ==> Before(l, l.ops[k].tenant, k);
    }
    forall u: nat | u !in m.latest
      ensures Before(m, u, |m.ops|)
    {
      assert u != t ==> Before(l, u, |l.ops|);
    }
  }

  lemma StepKeeps(l: Line, step: Step)
    requires Inv(l) && Enabled(l, step)
    ensures Inv(Apply(l, step))
  {
    match step
    case Arrive(t) => ArriveKeeps(l, t);
    case Begin(op) =>
      ReadyIsNext(l, op);
      StageKeeps(l, op, Running);
    case Settle(op) => StageKeeps(l, op, Settled);
    case Clean(op) => CleanKeeps(l, op);
  }

  lemma {:induction false} RunKeeps(steps: seq<Step>)
    requires Run(steps).Some?
    ensures Inv(Run(steps).value)
    decreases |steps|
  {
    if steps != [] {
      RunKeeps(steps[..|steps| - 1]);
      StepKeeps(Run(steps[..|steps| - 1]).value, steps[|steps| - 1]);
    }
  }

  /** A tenant's operations run one at a time, in the order they arrived, whether or not the earlier ones failed. */
  lemma OneAtATime(steps: seq<Step>, a: nat, b: nat)
    requires Run(steps).Some? && a < b < |Run(steps).value.ops|
    requires Run(steps).value.ops[a].tenant == Run(steps).value.ops[b].tenant
    ensures !Run(steps).value.ops[b].stage.Waiting? ==> Run(steps).value.ops[a].stage.Settled?
  {
    RunKeeps(steps);
    var l := Run(steps).value;
    if !l.ops[b].stage.Waiting? {
      assert Before(l, l.ops[b].tenant, b);
    }
  }

  // ------------------------------------------------ the browser and its policy

  datatype Mode = Idle | Connect | ApplyMode

  datatype Policy = Policy(attempt: string, deadline: int)

  datatype Answer = Done | Busy | DifferentAttempt

  /** What one tenant's operations and its browser's exit do. */
  datatype Event =
    | Launch(mode: Mode, child: nat)
    | Stop
    | Exit(child: nat)
    | Install(policy: Policy, now: int)
    | Revoke(attempt: string)

  datatype Unit = Unit(mode: Mode, child: Option<nat>, policy: Option<Policy>)

  function Installed(policy: Option<Policy>, wanted: Policy, now: int): Option<Policy> {
    if policy.None? then Some(wanted)
    else if policy.value.deadline > now && policy.value.attempt != wanted.attempt then policy
    else if policy.value.attempt == wanted.attempt then Some(Policy(wanted.attempt, Min(policy.value.deadline, wanted.deadline)))
    else Some(wanted)
  }

  function After(u: Unit, e: Event): Unit {
    match e
    case Launch(mode, child) => if u.mode.Idle? && !mode.Idle? then u.(mode := mode, child := Some(child)) else u
    case Stop => Unit(Idle, None, None)
    case Exit(child) => if u.child == Some(child) then u.(mode := Idle, child := None) else u
    case Install(wanted, now) => if u.mode.ApplyMode? then u.(policy := Installed(u.policy, wanted, now)) else u
    case Revoke(attempt) => if u.policy.Some? && u.policy.value.attempt == attempt then u.(policy := None) else u
  }

  function Afterwards(u: Unit, events: seq<Event>): Unit {
    if events == [] then u
    else After(Afterwards(u, events[..|events| - 1]), events[|events| - 1])
  }

  /** The policy file is removed by the events that may remove it. */
  predicate Removes(attempt: string, e: Event) {
    e.Stop? || (e.Revoke? && e.attempt == attempt)
  }

  predicate Replaces(p: Policy, e: Event) {
    e.Install? && e.policy.attempt != p.attempt && p.deadline <= e.now
  }

  /** The k-th event installs another attempt's policy over one whose deadline has passed. */
  predicate ReplacedAt(u: Unit, events: seq<Event>, k: nat)
    requires k < |events|
  {
    Afterwards(u, events[..k]).policy.Some? && Replaces(Afterwards(u, events[..k]).policy.value, events[k])
  }

  /**
   * While an attempt's policy is not removed or past its deadline for a newcomer, it stays that
   * attempt's and its deadline never moves later, whoever asks for what.
   */
  lemma {:induction false} PolicyHolds(u: Unit, events: seq<Event>, p: Policy)
    requires u.policy == Some(p)
    requires forall k :: 0 <= k < |events| ==> !Removes(p.attempt, events[k])
    requires forall k :: 0 <= k < |events| ==> !ReplacedAt(u, events, k)
    ensures var after := Afterwards(u, events).policy;
            after.Some? && after.value.attempt == p.attempt && after.value.deadline <= p.deadline
  {
    if events != [] {
      var init := events[..|events| - 1];
      forall k | 0 <= k < |init| ensures init[k] == events[k] && !ReplacedAt(u, init, k) {
        assert init[..k] == events[..k] && !ReplacedAt(u, events, k);
      }
      PolicyHolds(u, init, p);
      assert !ReplacedAt(u, events, |events| - 1);
    }
  }

  /** A browser is up exactly outside idle mode, and the exit of an earlier browser never touches a later one. */
  lemma {:induction false} ModeMeansChild(events: seq<Event>)
    ensures var u := Afterwards(Unit(Idle, None, None), events);
            && (u.mode.Idle? <==> u.child.None?)
            && (forall child: nat :: u.child != Some(child) ==> After(u, Exit(child)) == u)
  {
    if events != [] {
      ModeMeansChild(events[..|events| - 1]);
    }
  }

  class State {
    var mode: Mode
    var child: Option<nat>
    var policy: Option<Policy>

    ghost function Snapshot(): Unit
      reads this
    {
      Unit(mode, child, policy)
    }

    constructor ()
      ensures Snapshot() == Unit(Idle, None, None)
    {
      mode, child, policy := Idle, None, None;
    }

    /** `ready` says whether the browser came up: an application browser that did not is stopped, a connect browser has exited. */
    method Launch(wanted: Mode, process: nat, ready: bool) returns (answer: Answer)
      requires !wanted.Idle?
      modifies this
      ensures answer.Busy? <==> !old(mode).Idle?
      ensures answer.Busy? ==> Snapshot() == old(Snapshot())
      ensures !answer.Busy? && ready ==> Snapshot() == After(old(Snapshot()), Event.Launch(wanted, process))
      ensures !answer.Busy? && !ready ==>
                Snapshot() == After(After(old(Snapshot()), Event.Launch(wanted, process)), if wanted.ApplyMode? then Stop else Exit(process))
    {
      if !mode.Idle? {
        return Busy;
      }
      mode, child := wanted, Some(process);
      if !ready {
        if wanted.ApplyMode? {
          StopProcess();
        } else {
          OnExit(process);
        }
      }
      answer := Done;
    }

    method StopProcess()
      modifies this
      ensures Snapshot() == After(old(Snapshot()), Stop)
    {
      mode, child := Idle, None;
      policy := None;
    }

    method OnExit(process: nat)
      modifies this
      ensures Snapshot() == After(old(Snapshot()), Exit(process))
    {
      if child == Some(process) {
        mode, child := Idle, None;
      }
    }

    method InstallPolicy(wanted: Policy, now: int) returns (answer: Answer)
      modifies this
      ensures Snapshot() == After(old(Snapshot()), Install(wanted, now))
      ensures answer.Busy? <==>
                !old(mode).ApplyMode?
                || (old(policy).Some? && old(policy).value.deadline > now && old(policy).value.attempt != wanted.attempt)
      ensures !answer.Busy? ==> policy.Some? && policy.value.attempt == wanted.attempt && policy.value.deadline <= wanted.deadline
    {
      if !mode.ApplyMode? {
        return Busy;
      }
      var deadline := wanted.deadline;
      if policy.Some? {
        if policy.value.deadline > now && policy.value.attempt != wanted.attempt {
          return Busy;
        }
        if policy.value.attempt == wanted.attempt {
          deadline := Min(policy.value.deadline, deadline);
        }
      }
      policy := Some(Policy(wanted.attempt, deadline));
      answer := Done;
    }

    method RevokePolicy(attempt: string) returns (answer: Answer)
      modifies this
      ensures Snapshot() == After(old(Snapshot()), Revoke(attempt))
      ensures answer.DifferentAttempt? <==> old(policy).Some? && old(policy).value.attempt != attempt
    {
      if policy.Some? {
        if policy.value.attempt != attempt {
          return DifferentAttempt;
        }
        policy := None;
      }
      answer := Done;
    }
  }
}
