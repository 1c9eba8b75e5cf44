/**
 * Token leases on one key: set if absent with a time to live, renewed on a timer while the token
 * matches, deleted only while the token matches. Times are milliseconds; the key is gone from its
 * expiry on. Lanes and the approval lock are of this kind; UserLock renews without looking.
 */
module Leases {
  import opened Basics

  type Token = nat

  /**
   * `latency` bounds how long the reply to a successful set may take, `window` how long after a
   * tick a renewal may stay unanswered before the holder is told that the lease is lost.
   */
  datatype Params = Params(ttl: nat, tick: nat, window: nat, latency: nat)

  predicate Sensible(p: Params) {
    p.ttl > 0 && p.window < p.tick
  }

  /** The lease of a lane, with the reply bound left open. */
  function Lane(latency: nat): Params {
    Params(120_000, 20_000, 5_000, latency)
  }

  datatype Lock = Lock(token: Token, expires: nat)

  predicate Alive(key: Option<Lock>, now: nat) {
    key.Some? && now < key.value.expires
  }

  predicate Mine(key: Option<Lock>, now: nat, t: Token) {
    Alive(key, now) && key.value.token == t
  }

  /** The renewal script: extends the key only while it still carries the caller's token. */
  function RenewIfMine(key: Option<Lock>, now: nat, t: Token, ttl: nat): Option<Lock> {
    if Mine(key, now, t) then Some(Lock(t, now + ttl)) else key
  }

  /** The release script: deletes the key only while it still carries the caller's token. */
  function DeleteIfMine(key: Option<Lock>, now: nat, t: Token): Option<Lock> {
    if Mine(key, now, t) then None else key
  }

  datatype Renewal = NoneSent | Sent | Executed(ok: bool)

  /** Told: the holder's abort signal was raised; Released: it let go by itself. */
  datatype Stage =
    | Asking
    | Granted(at: nat)
    | Held(next: nat, renewal: Renewal)
    | Told
    | Released
    | Refused

  datatype State = State(now: nat, store: Option<Lock>, holders: map<Token, Stage>)

  datatype Step =
    | Ask(t: Token)
    | Grant(t: Token)
    | Reply(t: Token)
    | Tick(t: Token)
    | Execute(t: Token)
    | Settle(t: Token)
    | GiveUp(t: Token)
    | LateRenew(t: Token)
    | Release(t: Token)
    | Delete(t: Token)
    | Wait(until: nat)

  predicate Taken(s: State) {
    Alive(s.store, s.now)
  }

  predicate Owns(s: State, t: Token) {
    Mine(s.store, s.now, t)
  }

  function StageOf(s: State, t: Token): Stage {
    if t in s.holders then s.holders[t] else Refused
  }

  predicate Holds(s: State, t: Token) {
    StageOf(s, t).Held?
  }

  /** Timers fire on time: no clock step may jump over a due tick or an unanswered renewal's deadline. */
  predicate OnTime(p: Params, stage: Stage, until: nat) {
    stage.Held? ==> until <= (if stage.renewal.NoneSent? then stage.next else stage.next - p.tick + p.window)
  }

  predicate Enabled(p: Params, s: State, step: Step) {
    match step
    case Ask(t) => t !in s.holders
    case Grant(t) => StageOf(s, t).Asking?
    case Reply(t) => StageOf(s, t).Granted? && s.now <= StageOf(s, t).at + p.latency
    case Tick(t) => Holds(s, t) && StageOf(s, t).renewal.NoneSent? && s.now == StageOf(s, t).next
    case Execute(t) => Holds(s, t) && StageOf(s, t).renewal.Sent?
    case Settle(t) => Holds(s, t) && StageOf(s, t).renewal.Executed?
    case GiveUp(t) =>
      Holds(s, t) && !StageOf(s, t).renewal.NoneSent? && s.now == StageOf(s, t).next - p.tick + p.window
    case LateRenew(t) => StageOf(s, t).Told? || StageOf(s, t).Released?
    case Release(t) => Holds(s, t) || StageOf(s, t).Told?
    case Delete(t) => StageOf(s, t).Released?
    case Wait(until) => s.now <= until && forall t :: t in s.holders ==> OnTime(p, s.holders[t], until)
  }

  function Enter(s: State, t: Token, stage: Stage): State {
    s.(holders := s.holders[t := stage])
  }

  function Apply(p: Params, s: State, step: Step): State
    requires Enabled(p, s, step)
  {
    match step
    case Ask(t) => Enter(s, t, Asking)
    case Grant(t) =>
      if Taken(s) then Enter(s, t, Refused)
      else Enter(s, t, Granted(s.now)).(store := Some(Lock(t, s.now + p.ttl)))
    case Reply(t) => Enter(s, t, Held(s.now + p.tick, NoneSent))
    case Tick(t) => Enter(s, t, Held(StageOf(s, t).next + p.tick, Sent))
    case Execute(t) =>
      Enter(s, t, StageOf(s, t).(renewal := Executed(Owns(s, t)))).(store := RenewIfMine(s.store, s.now, t, p.ttl))
    case Settle(t) => Enter(s, t, if StageOf(s, t).renewal.ok then StageOf(s, t).(renewal := NoneSent) else Told)
    case GiveUp(t) => Enter(s, t, Told)
    case LateRenew(t) => s.(store := RenewIfMine(s.store, s.now, t, p.ttl))
    case Release(t) => Enter(s, t, Released)
    case Delete(t) => s.(store := DeleteIfMine(s.store, s.now, t))
    case Wait(until) => s.(now := until)
  }

  const START := State(0, None, map[])

  function Run(p: Params, steps: seq<Step>): Option<State>
    decreases |steps|
  {
    if steps == [] then Some(START)
    else
      match Run(p, steps[..|steps| - 1])
      case None => None
      case Some(mid) => if Enabled(p, mid, steps[|steps| - 1]) then Some(Apply(p, mid, steps[|steps| - 1])) else None
  }

  // ------------------------------------------------------------- exclusion

  /** No two holders are at work under the lease: neither told nor released. */
  ghost predicate Exclusive(s: State) {
    forall a, b :: Holds(s, a) && Holds(s, b) ==> a == b
  }

  ghost predicate AlwaysExclusive(p: Params) {
    forall steps: seq<Step> :: Run(p, steps).Some? ==> Exclusive(Run(p, steps).value)
  }

  predicate Timely(p: Params) {
    p.latency + p.tick + p.window < p.ttl
  }

  /** What holds of one token's key while its holder has not been told. */
  predicate Covered(p: Params, s: State, t: Token, stage: Stage) {
    match stage
    case Granted(at) => at <= s.now && (s.now < at + p.ttl ==> s.store == Some(Lock(t, at + p.ttl)))
    case Held(next, renewal) =>
      && p.tick <= next && s.store.Some? && s.store.value.token == t
      && (match renewal
          case NoneSent => s.now <= next && next + p.window < s.store.value.expires
          case Sent => next - p.tick <= s.now <= next - p.tick + p.window < s.store.value.expires
          case Executed(ok) =>
            ok && next - p.tick <= s.now <= next - p.tick + p.window && next + p.window < s.store.value.expires)
    case _ => true
  }

  ghost predicate Inv(p: Params, s: State) {
    forall t :: t in s.holders ==> Covered(p, s, t, s.holders[t])
  }

  /** A holder with a live claim keeps everyone else's set, renewal and deletion off the key. */
  lemma OthersKeep(p: Params, s: State, t: Token)
    requires Sensible(p) && Timely(p) && t in s.holders && Covered(p, s, t, s.holders[t])
    ensures Holds(s, t) ==> Owns(s, t)
    ensures s.holders[t].Granted? && s.now < s.holders[t].at + p.ttl ==> Owns(s, t)
  {
  }

  /** Only a free key can be set, and only its owner's scripts change it: other tokens' steps leave a claim alone. */
  lemma OtherStepKeeps(p: Params, s: State, step: Step, t: Token)
    requires Sensible(p) && Timely(p) && Enabled(p, s, step) && !step.Wait? && step.t != t
    requires t in s.holders && Covered(p, s, t, s.holders[t])
    ensures var u := Apply(p, s, step);
            u.holders[t] == s.holders[t] && Covered(p, u, t, u.holders[t])
  {
    var u := Apply(p, s, step);
    OthersKeep(p, s, t);
    assert Owns(s, t) ==> u.store == s.store;
  }

  lemma OwnStepKeeps(p: Params, s: State, step: Step)
    requires Sensible(p) && Timely(p) && Enabled(p, s, step) && !step.Wait?
    requires step.t in s.holders ==> Covered(p, s, step.t, s.holders[step.t])
    ensures var u := Apply(p, s, step);
            step.t in u.holders ==> Covered(p, u, step.t, u.holders[step.t])
  {
  }

  lemma WaitKeeps(p: Params, s: State, until: nat)
    requires Inv(p, s) && Enabled(p, s, Wait(until))
    ensures Inv(p, Apply(p, s, Wait(until)))
  {
  }

  lemma StepKeeps(p: Params, s: State, step: Step)
    requires Sensible(p) && Timely(p) && Inv(p, s) && Enabled(p, s, step)
    ensures Inv(p, Apply(p, s, step))
  {
    if step.Wait? {
      WaitKeeps(p, s, step.until);
    } else {
      var u := Apply(p, s, step);
      OwnStepKeeps(p, s, step);
      forall t | t in u.holders
        ensures Covered(p, u, t, u.holders[t])
      {
        if t != step.t {
          OtherStepKeeps(p, s, step, t);
        }
      }
    }
  }

  lemma {:induction false} RunKeeps(p: Params, steps: seq<Step>)
    requires Sensible(p) && Timely(p) && Run(p, steps).Some?
    ensures Inv(p, Run(p, steps).value)
    decreases |steps|
  {
    if steps != [] {
      RunKeeps(p, steps[..|steps| - 1]);
      StepKeeps(p, Run(p, steps[..|steps| - 1]).value, steps[|steps| - 1]);
    }
  }

  lemma Exclusion(p: Params, steps: seq<Step>)
    requires Sensible(p) && Timely(p) && Run(p, steps).Some?
    ensures Exclusive(Run(p, steps).value)
  {
    RunKeeps(p, steps);
    var s := Run(p, steps).value;
    forall a, b | Holds(s, a) && Holds(s, b)
      ensures a == b
    {
      assert Covered(p, s, a, s.holders[a]) && Covered(p, s, b, s.holders[b]);
    }
  }

  // ------------------------------------------- when the bound does not hold

  /** A reply delay after which the first renewal can stay unanswered past the key's expiry. */
  function LateReply(p: Params): nat {
    if p.ttl >= p.tick + p.window then p.ttl - p.tick - p.window else 0
  }

  /** One more step of a run. */
  lemma Then(p: Params, steps: seq<Step>, s: State, step: Step) returns (more: seq<Step>, t: State)
    requires Run(p, steps) == Some(s) && Enabled(p, s, step)
    ensures Run(p, more) == Some(t) && t == Apply(p, s, step)
  {
    more, t := steps + [step], Apply(p, s, step);
    assert more[..|steps|] == steps;
  }

  /** A caller obtains the free key. */
  lemma Obtain(p: Params, steps: seq<Step>, s: State, t: Token) returns (more: seq<Step>, u: State)
    requires Run(p, steps) == Some(s) && t !in s.holders && !Taken(s)
    ensures Run(p, more) == Some(u)
    ensures u == State(s.now, Some(Lock(t, s.now + p.ttl)), s.holders[t := Granted(s.now)])
  {
    more, u := Then(p, steps, s, Ask(t));
    more, u := Then(p, more, u, Grant(t));
    assert s.holders[t := Asking][t := Granted(s.now)] == s.holders[t := Granted(s.now)];
  }

  /** The only holder's reply is late: it starts its timer after `replied` milliseconds. */
  lemma SlowReply(p: Params) returns (steps: seq<Step>, s: State)
    requires Sensible(p) && !Timely(p)
    ensures Run(p, steps) == Some(s)
    ensures s == State(LateReply(p), Some(Lock(0, p.ttl)), map[0 := Held(LateReply(p) + p.tick, NoneSent)])
  {
    steps, s := Obtain(p, [], START, 0);
    steps, s := Then(p, steps, s, Wait(LateReply(p)));
    steps, s := Then(p, steps, s, Reply(0));
    assert s.holders == map[0 := Held(LateReply(p) + p.tick, NoneSent)];
  }

  /** Its first renewal is still unanswered when the key expires. */
  lemma Unanswered(p: Params) returns (steps: seq<Step>, s: State)
    requires Sensible(p) && !Timely(p)
    ensures Run(p, steps) == Some(s)
    ensures !Taken(s) && s.holders.Keys == {0} && Holds(s, 0)
  {
    steps, s := SlowReply(p);
    steps, s := Then(p, steps, s, Wait(LateReply(p) + p.tick));
    steps, s := Then(p, steps, s, Tick(0));
    steps, s := Then(p, steps, s, Wait(LateReply(p) + p.tick + p.window));
  }

  /** A second caller then obtains the key while the first is still at work. */
  lemma Overlap(p: Params) returns (steps: seq<Step>, s: State)
    requires Sensible(p) && !Timely(p)
    ensures Run(p, steps) == Some(s) && !Exclusive(s)
  {
    steps, s := Unanswered(p);
    steps, s := Obtain(p, steps, s, 1);
    steps, s := Then(p, steps, s, Reply(1));
    assert Holds(s, 0) && Holds(s, 1);
  }

  /**
   * With timers on time, two holders that have neither released nor been told of loss never
   * coexist exactly when the reply delay, the renewal interval and the unanswered window together
   * stay below the time to live.
   */
  lemma ExclusiveExactly(p: Params)
    requires Sensible(p)
    ensures AlwaysExclusive(p) <==> Timely(p)
  {
    if Timely(p) {
      forall steps: seq<Step> | Run(p, steps).Some?
        ensures Exclusive(Run(p, steps).value)
      {
        Exclusion(p, steps);
      }
    } else {
      var steps, s := Overlap(p);
    }
  }

  /** For a lane's own timings: safe exactly while the reply to the set takes less than 95 seconds. */
  lemma LaneExclusiveExactly(latency: nat)
    ensures AlwaysExclusive(Lane(latency)) <==> latency < 95_000
  {
    ExclusiveExactly(Lane(latency));
  }

  // --------------------------------------------- without trusting any timer

  /** Another token's key is never extended, replaced while alive, or deleted. */
  lemma ForeignKeyUntouched(p: Params, s: State, step: Step, t: Token)
    requires Enabled(p, s, step) && Owns(s, t) && !step.Wait? && step.t != t
    ensures Apply(p, s, step).store == s.store
  {
  }

  /** A key once granted to t and lost is never t's again. */
  lemma NeverRegained(p: Params, s: State, step: Step, t: Token)
    requires Enabled(p, s, step) && t in s.holders && !s.holders[t].Asking? && !Owns(s, t)
    ensures var u := Apply(p, s, step);
            t in u.holders && !u.holders[t].Asking? && !Owns(u, t)
  {
  }

  lemma {:induction false} LostForGood(p: Params, steps: seq<Step>, j: nat, k: nat, t: Token)
    requires j <= k <= |steps| && Run(p, steps[..j]).Some? && Run(p, steps[..k]).Some?
    requires var s := Run(p, steps[..j]).value; t in s.holders && !s.holders[t].Asking? && !Owns(s, t)
    ensures var s := Run(p, steps[..k]).value; t in s.holders && !s.holders[t].Asking? && !Owns(s, t)
    decreases k - j
  {
    if j < k {
      assert steps[..k][..k - 1] == steps[..k - 1];
      LostForGood(p, steps, j, k - 1, t);
      NeverRegained(p, Run(p, steps[..k - 1]).value, steps[k - 1], t);
    }
  }

  lemma {:induction false} RunPrefix(p: Params, steps: seq<Step>, i: nat, j: nat)
    requires i <= j <= |steps| && Run(p, steps[..j]).Some?
    ensures Run(p, steps[..i]).Some?
    decreases j - i
  {
    if i < j {
      assert steps[..j][..j - 1] == steps[..j - 1];
      RunPrefix(p, steps, i, j - 1);
    }
  }

  lemma {:induction false} OwnerWasGranted(p: Params, steps: seq<Step>)
    requires Run(p, steps).Some?
    ensures var s := Run(p, steps).value;
            s.store.Some? ==> s.store.value.token in s.holders && !s.holders[s.store.value.token].Asking?
    decreases |steps|
  {
    if steps != [] {
      OwnerWasGranted(p, steps[..|steps| - 1]);
    }
  }

  /**
   * What the approval lock's two checks buy, however late its timer fires: if the key carries the
   * holder's token at one moment and again at a later one, it did so all the time in between, so
   * nobody else ran under the lock.
   */
  lemma OwnedThroughout(p: Params, steps: seq<Step>, i: nat, k: nat, j: nat, t: Token)
    requires i <= k <= j <= |steps| && Run(p, steps[..j]).Some? && Run(p, steps[..i]).Some?
    requires Owns(Run(p, steps[..i]).value, t) && Owns(Run(p, steps[..j]).value, t)
    ensures Run(p, steps[..k]).Some? && Owns(Run(p, steps[..k]).value, t)
  {
    RunPrefix(p, steps, k, j);
    OwnerWasGranted(p, steps[..i]);
    StaysGranted(p, steps, i, k, t);
    if !Owns(Run(p, steps[..k]).value, t) {
      LostForGood(p, steps, k, j, t);
      assert false;
    }
  }

  lemma GrantedStays(p: Params, s: State, step: Step, t: Token)
    requires Enabled(p, s, step) && t in s.holders && !s.holders[t].Asking?
    ensures var u := Apply(p, s, step);
            t in u.holders && !u.holders[t].Asking?
  {
  }

  lemma {:induction false} StaysGranted(p: Params, steps: seq<Step>, i: nat, k: nat, t: Token)
    requires i <= k <= |steps| && Run(p, steps[..i]).Some? && Run(p, steps[..k]).Some?
    requires var s := Run(p, steps[..i]).value; t in s.holders && !s.holders[t].Asking?
    ensures var s := Run(p, steps[..k]).value; t in s.holders && !s.holders[t].Asking?
    decreases k - i
  {
    if i < k {
      assert steps[..k][..k - 1] == steps[..k - 1];
      RunPrefix(p, steps, k - 1, k);
      StaysGranted(p, steps, i, k - 1, t);
      GrantedStays(p, Run(p, steps[..k - 1]).value, steps[k - 1], t);
    }
  }

  // ------------------------------------------------------- the key in place

  /** The key and its users; each script the program sends is one step of the system above. */
  class Table {
    const p: Params
    var now: nat
    var store: Option<Lock>
    var holders: map<Token, Stage>

    ghost function Snapshot(): State
      reads this
    {
      State(now, store, holders)
    }

    constructor (p: Params)
      ensures Snapshot() == START && this.p == p
    {
      this.p, now, store, holders := p, 0, None, map[];
    }

    /** A lane is asked for once, by SET with NX and PX. */
    method AcquireLane(t: Token) returns (granted: bool)
      requires StageOf(Snapshot(), t).Asking?
      modifies this`store, this`holders
      ensures granted <==> !Taken(old(Snapshot()))
      ensures Snapshot() == Apply(p, old(Snapshot()), Grant(t))
    {
      granted := !(store.Some? && now < store.value.expires);
      if granted {
        store := Some(Lock(t, now + p.ttl));
        holders := holders[t := Granted(now)];
      } else {
        holders := holders[t := Refused];
      }
    }

    /** The renewal script, sent by a timer that is still running. */
    method Renew(t: Token) returns (ok: bool)
      requires Enabled(p, Snapshot(), Execute(t))
      modifies this`store, this`holders
      ensures ok <==> Owns(old(Snapshot()), t)
      ensures Snapshot() == Apply(p, old(Snapshot()), Execute(t))
    {
      ok := store.Some? && now < store.value.expires && store.value.token == t;
      if ok {
        store := Some(Lock(t, now + p.ttl));
      }
      holders := holders[t := holders[t].(renewal := Executed(ok))];
    }

    /** The release script, sent after the timer was cleared. */
    method DeleteMine(t: Token)
      requires Enabled(p, Snapshot(), Delete(t))
      modifies this`store
      ensures Snapshot() == Apply(p, old(Snapshot()), Delete(t))
    {
      if store.Some? && now < store.value.expires && store.value.token == t {
        store := None;
      }
    }

    /** The check before and after a batch: it passes exactly for an owner that was not told of loss. */
    method AssertLease(t: Token) returns (ok: bool)
      requires t in holders
      ensures ok <==> Owns(Snapshot(), t) && !StageOf(Snapshot(), t).Told?
    {
      var lost := holders[t].Told?;
      ok := !lost && store.Some? && now < store.value.expires && store.value.token == t;
    }
  }
}
