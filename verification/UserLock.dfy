/**
 * The per-user resource lock: a token lease whose holder renews it at a third of its time to live
 * and is never told that a renewal failed. Renewals of one holder reach Redis in the order they
 * were sent.
 */
module UserLock {
  import opened Basics
  import opened Leases

  /**
   * `latency` bounds how long the reply to a successful set may take, `missed` how many renewals in
   * a row may get lost, and `delay` how long after its beat a renewal that is not lost may execute.
   */
  datatype Network = Network(latency: nat, missed: nat, delay: nat)

  datatype Timing = Timing(ttl: nat, tick: nat, net: Network)

  predicate Ticking(p: Timing) {
    p.ttl > 0 && p.tick > 0
  }

  /** The heartbeat of a lock with this time to live. */
  function TickOf(ttl: nat): nat {
    if ttl / 3 < 1_000 then 1_000 else ttl / 3
  }

  function Times(n: nat, tick: nat): nat {
    if n == 0 then 0 else Times(n - 1, tick) + tick
  }

  /**
   * Working: the oldest renewal that has neither executed nor got lost is that of the beat at
   * `head`, `flying` of them were sent so far, and `lost` got lost since one executed.
   */
  datatype Phase =
    | Waiting
    | Locked(at: nat)
    | Working(head: nat, flying: nat, lost: nat)
    | Finished
    | Busy

  datatype World = World(now: nat, store: Option<Lock>, users: map<Token, Phase>)

  datatype Action =
    | Come(t: Token)
    | Set(t: Token)
    | Quit(t: Token)
    | Answer(t: Token)
    | Beat(t: Token)
    | Renew(t: Token)
    | Lose(t: Token)
    | Finish(t: Token)
    | RenewLate(t: Token)
    | Unlock(t: Token)
    | Pass(until: nat)

  function PhaseOf(s: World, t: Token): Phase {
    if t in s.users then s.users[t] else Busy
  }

  predicate Works(s: World, t: Token) {
    PhaseOf(s, t).Working?
  }

  function NextBeat(p: Timing, phase: Phase): nat
    requires phase.Working?
  {
    phase.head + Times(phase.flying, p.tick)
  }

  /** Beats come on time, and a renewal's fate is settled within the delay. */
  predicate InTime(p: Timing, phase: Phase, until: nat) {
    phase.Working? ==> until <= NextBeat(p, phase) && (phase.flying > 0 ==> until <= phase.head + p.net.delay)
  }

  predicate Can(p: Timing, s: World, action: Action) {
    match action
    case Come(t) => t !in s.users
    case Set(t) => PhaseOf(s, t).Waiting?
    case Quit(t) => PhaseOf(s, t).Waiting?
    case Answer(t) => PhaseOf(s, t).Locked? && s.now <= PhaseOf(s, t).at + p.net.latency
    case Beat(t) => Works(s, t) && s.now == NextBeat(p, PhaseOf(s, t))
    case Renew(t) => Works(s, t) && PhaseOf(s, t).flying > 0
    case Lose(t) => Works(s, t) && PhaseOf(s, t).flying > 0 && PhaseOf(s, t).lost < p.net.missed
    case Finish(t) => Works(s, t)
    case RenewLate(t) => PhaseOf(s, t).Finished?
    case Unlock(t) => PhaseOf(s, t).Finished?
    case Pass(until) => s.now <= until && forall t :: t in s.users ==> InTime(p, s.users[t], until)
  }

  function With(s: World, t: Token, phase: Phase): World {
    s.(users := s.users[t := phase])
  }

  function Do(p: Timing, s: World, action: Action): World
    requires Can(p, s, action)
  {
    match action
    case Come(t) => With(s, t, Waiting)
    case Set(t) => if Alive(s.store, s.now) then s else With(s, t, Locked(s.now)).(store := Some(Lock(t, s.now + p.ttl)))
    case Quit(t) => With(s, t, Busy)
    case Answer(t) => With(s, t, Working(s.now + p.tick, 0, 0))
    case Beat(t) => With(s, t, PhaseOf(s, t).(flying := PhaseOf(s, t).flying + 1))
    case Renew(t) =>
      With(s, t, Working(PhaseOf(s, t).head + p.tick, PhaseOf(s, t).flying - 1, 0)).(store := RenewIfMine(s.store, s.now, t, p.ttl))
    case Lose(t) =>
      With(s, t, Working(PhaseOf(s, t).head + p.tick, PhaseOf(s, t).flying - 1, PhaseOf(s, t).lost + 1))
    case Finish(t) => With(s, t, Finished)
    case RenewLate(t) => s.(store := RenewIfMine(s.store, s.now, t, p.ttl))
    case Unlock(t) => s.(store := DeleteIfMine(s.store, s.now, t))
    case Pass(until) => s.(now := until)
  }

  const EMPTY := World(0, None, map[])

  function Trace(p: Timing, actions: seq<Action>): Option<World>
    decreases |actions|
  {
    if actions == [] then Some(EMPTY)
    else
      match Trace(p, actions[..|actions| - 1])
      case None => None
      case Some(mid) =>
        if Can(p, mid, actions[|actions| - 1]) then Some(Do(p, mid, actions[|actions| - 1])) else None
  }

  // ------------------------------------------------------------- exclusion

  /** No two users work under the lock. */
  ghost predicate Alone(s: World) {
    forall a, b :: Works(s, a) && Works(s, b) ==> a == b
  }

  ghost predicate AlwaysAlone(p: Timing) {
    forall actions: seq<Action> :: Trace(p, actions).Some? ==> Alone(Trace(p, actions).value)
  }

  /** Even after the most renewals in a row got lost, the next one executes before the key expires. */
  predicate Bridged(p: Timing) {
    p.net.latency + Times(p.net.missed + 1, p.tick) + p.net.delay < p.ttl
  }

  /** What holds of the key while one user may be at work. */
  predicate Safe(p: Timing, s: World, t: Token, phase: Phase) {
    match phase
    case Locked(at) => at <= s.now && (s.now < at + p.ttl ==> s.store == Some(Lock(t, at + p.ttl)))
    case Working(head, flying, lost) =>
      && lost <= p.net.missed && s.store.Some? && s.store.value.token == t
      && head + Times(p.net.missed - lost, p.tick) + p.net.delay < s.store.value.expires
      && s.now <= NextBeat(p, phase)
      && (flying > 0 ==> head + Times(flying - 1, p.tick) <= s.now <= head + p.net.delay)
    case _ => true
  }

  ghost predicate AllSafe(p: Timing, s: World) {
    forall t :: t in s.users ==> Safe(p, s, t, s.users[t])
  }

  lemma SafeOwns(p: Timing, s: World, t: Token)
    requires t in s.users && Safe(p, s, t, s.users[t])
    ensures Works(s, t) ==> Mine(s.store, s.now, t)
    ensures s.users[t].Locked? && s.now < s.users[t].at + p.ttl ==> Mine(s.store, s.now, t)
  {
  }

  /** Only a free key can be set, and only its owner's scripts change it. */
  lemma OtherActionKeeps(p: Timing, s: World, action: Action, t: Token)
    requires Can(p, s, action) && !action.Pass? && action.t != t
    requires t in s.users && Safe(p, s, t, s.users[t])
    ensures var u := Do(p, s, action);
            u.users[t] == s.users[t] && Safe(p, u, t, u.users[t])
  {
    SafeOwns(p, s, t);
    assert Mine(s.store, s.now, t) ==> Do(p, s, action).store == s.store;
  }

  lemma AnswerKeeps(p: Timing, s: World, t: Token)
    requires Bridged(p) && Can(p, s, Answer(t)) && Safe(p, s, t, s.users[t])
    ensures Safe(p, Do(p, s, Answer(t)), t, Do(p, s, Answer(t)).users[t])
  {
  }

  lemma BeatKeeps(p: Timing, s: World, t: Token)
    requires Can(p, s, Beat(t)) && Safe(p, s, t, s.users[t])
    ensures Safe(p, Do(p, s, Beat(t)), t, Do(p, s, Beat(t)).users[t])
  {
  }

  lemma RenewKeeps(p: Timing, s: World, t: Token)
    requires Bridged(p) && Can(p, s, Renew(t)) && Safe(p, s, t, s.users[t])
    ensures Safe(p, Do(p, s, Renew(t)), t, Do(p, s, Renew(t)).users[t])
  {
    SafeOwns(p, s, t);
  }

  lemma LoseKeeps(p: Timing, s: World, t: Token)
    requires Can(p, s, Lose(t)) && Safe(p, s, t, s.users[t])
    ensures Safe(p, Do(p, s, Lose(t)), t, Do(p, s, Lose(t)).users[t])
  {
  }

  lemma OwnActionKeeps(p: Timing, s: World, action: Action)
    requires Bridged(p) && Can(p, s, action) && !action.Pass?
    requires action.t in s.users ==> Safe(p, s, action.t, s.users[action.t])
    ensures var u := Do(p, s, action);
            action.t in u.users ==> Safe(p, u, action.t, u.users[action.t])
  {
    match action
    case Answer(t) => AnswerKeeps(p, s, t);
    case Beat(t) => BeatKeeps(p, s, t);
    case Renew(t) => RenewKeeps(p, s, t);
    case Lose(t) => LoseKeeps(p, s, t);
    case _ =>
  }

  lemma PassKeeps(p: Timing, s: World, until: nat)
    requires AllSafe(p, s) && Can(p, s, Pass(until))
    ensures AllSafe(p, Do(p, s, Pass(until)))
  {
  }

  lemma ActionKeeps(p: Timing, s: World, action: Action)
    requires Bridged(p) && AllSafe(p, s) && Can(p, s, action)
    ensures AllSafe(p, Do(p, s, action))
  {
    if action.Pass? {
      PassKeeps(p, s, action.until);
    } else {
      var u := Do(p, s, action);
      OwnActionKeeps(p, s, action);
      forall t | t in u.users
        ensures Safe(p, u, t, u.users[t])
      {
        if t != action.t {
          OtherActionKeeps(p, s, action, t);
        }
      }
    }
  }

  lemma {:induction false} TraceKeeps(p: Timing, actions: seq<Action>)
    requires Bridged(p) && Trace(p, actions).Some?
    ensures AllSafe(p, Trace(p, actions).value)
    decreases |actions|
  {
    if actions != [] {
      TraceKeeps(p, actions[..|actions| - 1]);
      ActionKeeps(p, Trace(p, actions[..|actions| - 1]).value, actions[|actions| - 1]);
    }
  }

  lemma AloneWhenBridged(p: Timing, actions: seq<Action>)
    requires Bridged(p) && Trace(p, actions).Some?
    ensures Alone(Trace(p, actions).value)
  {
    TraceKeeps(p, actions);
    var s := Trace(p, actions).value;
    forall a, b | Works(s, a) && Works(s, b)
      ensures a == b
    {
      SafeOwns(p, s, a);
      SafeOwns(p, s, b);
    }
  }

  // -------------------------------------------- when the gap is not bridged

  lemma Then(p: Timing, actions: seq<Action>, s: World, action: Action) returns (more: seq<Action>, t: World)
    requires Trace(p, actions) == Some(s) && Can(p, s, action)
    ensures Trace(p, more) == Some(t) && t == Do(p, s, action)
  {
    more, t := actions + [action], Do(p, s, action);
    assert more[..|actions|] == actions;
  }

  lemma Obtain(p: Timing, actions: seq<Action>, s: World, t: Token) returns (more: seq<Action>, u: World)
    requires Trace(p, actions) == Some(s) && t !in s.users && !Alive(s.store, s.now)
    ensures Trace(p, more) == Some(u)
    ensures u == World(s.now, Some(Lock(t, s.now + p.ttl)), s.users[t := Locked(s.now)])
  {
    more, u := Then(p, actions, s, Come(t));
    more, u := Then(p, more, u, Set(t));
    assert s.users[t := Waiting][t := Locked(s.now)] == s.users[t := Locked(s.now)];
  }

  /** User 0 alone holds the key it set at 0 and has not renewed it. */
  predicate Unrenewed(p: Timing, s: World, phase: Phase) {
    s.now <= p.ttl && s.store == Some(Lock(0, p.ttl)) && s.users == map[0 := phase]
  }

  lemma Move(p: Timing, actions: seq<Action>, s: World, phase: Phase, action: Action, next: Phase)
    returns (more: seq<Action>, u: World)
    requires Trace(p, actions) == Some(s) && Unrenewed(p, s, phase) && Can(p, s, action)
    requires Do(p, s, action) == With(s, 0, next)
    ensures Trace(p, more) == Some(u) && Unrenewed(p, u, next) && u.now == s.now
  {
    more, u := Then(p, actions, s, action);
    assert map[0 := phase][0 := next] == map[0 := next];
  }

  lemma Idle(p: Timing, actions: seq<Action>, s: World, phase: Phase, until: nat)
    returns (more: seq<Action>, u: World)
    requires Trace(p, actions) == Some(s) && Unrenewed(p, s, phase)
    requires s.now <= until <= p.ttl && InTime(p, phase, until)
    ensures Trace(p, more) == Some(u) && Unrenewed(p, u, phase) && u.now == until
  {
    more, u := Then(p, actions, s, Pass(until));
  }

  /** The oldest renewal stays on its way while later ones are sent, until the key expires. */
  lemma {:induction false} Stuck(p: Timing, actions: seq<Action>, s: World, phase: Phase)
    returns (more: seq<Action>, u: World)
    requires Ticking(p) && Trace(p, actions) == Some(s) && Unrenewed(p, s, phase)
    requires phase.Working? && phase.flying > 0 && s.now <= NextBeat(p, phase) && p.ttl <= phase.head + p.net.delay
    ensures Trace(p, more) == Some(u) && u.now == p.ttl && u.users.Keys == {0} && Works(u, 0) && !Alive(u.store, u.now)
    decreases if NextBeat(p, phase) < p.ttl then p.ttl - NextBeat(p, phase) else 0
  {
    if p.ttl <= NextBeat(p, phase) {
      more, u := Idle(p, actions, s, phase, p.ttl);
    } else {
      more, u := Idle(p, actions, s, phase, NextBeat(p, phase));
      more, u := Move(p, more, u, phase, Beat(0), phase.(flying := phase.flying + 1));
      more, u := Stuck(p, more, u, phase.(flying := phase.flying + 1));
    }
  }

  /** As many renewals get lost as may, and the next one comes too late. */
  lemma {:induction false} Starved(p: Timing, actions: seq<Action>, s: World, phase: Phase)
    returns (more: seq<Action>, u: World)
    requires Ticking(p) && Trace(p, actions) == Some(s) && Unrenewed(p, s, phase)
    requires phase.Working? && phase.flying == 0 && s.now <= phase.head && phase.lost <= p.net.missed
    requires p.ttl <= phase.head + Times(p.net.missed - phase.lost, p.tick) + p.net.delay
    ensures Trace(p, more) == Some(u) && u.now == p.ttl && u.users.Keys == {0} && Works(u, 0) && !Alive(u.store, u.now)
    decreases p.net.missed - phase.lost
  {
    if p.ttl <= phase.head {
      more, u := Idle(p, actions, s, phase, p.ttl);
    } else {
      more, u := Idle(p, actions, s, phase, phase.head);
      more, u := Move(p, more, u, phase, Beat(0), phase.(flying := 1));
      if phase.lost < p.net.missed {
        var next := Working(phase.head + p.tick, 0, phase.lost + 1);
        more, u := Move(p, more, u, phase.(flying := 1), Lose(0), next);
        more, u := Starved(p, more, u, next);
      } else {
        more, u := Stuck(p, more, u, phase.(flying := 1));
      }
    }
  }

  /** The first user is at work when its key expires. */
  lemma Expires(p: Timing) returns (actions: seq<Action>, s: World)
    requires Ticking(p) && !Bridged(p)
    ensures Trace(p, actions) == Some(s) && s.users.Keys == {0} && Works(s, 0) && !Alive(s.store, s.now)
  {
    actions, s := Obtain(p, [], EMPTY, 0);
    assert Unrenewed(p, s, Locked(0));
    var reply := if p.net.latency < p.ttl then p.net.latency else p.ttl;
    actions, s := Idle(p, actions, s, Locked(0), reply);
    actions, s := Move(p, actions, s, Locked(0), Answer(0), Working(reply + p.tick, 0, 0));
    actions, s := Starved(p, actions, s, Working(reply + p.tick, 0, 0));
  }

  /** Then a second user gets the lock and works beside it. */
  lemma TwoAtWork(p: Timing) returns (actions: seq<Action>, s: World)
    requires Ticking(p) && !Bridged(p)
    ensures Trace(p, actions) == Some(s) && !Alone(s)
  {
    actions, s := Expires(p);
    actions, s := Obtain(p, actions, s, 1);
    actions, s := Then(p, actions, s, Answer(1));
    assert Works(s, 0) && Works(s, 1);
  }

  /**
   * With beats on time, nobody ever works beside the holder exactly when the reply delay, one more
   * heartbeat than may get lost in a row, and the execution delay together stay below the time to
   * live.
   */
  lemma AloneExactly(p: Timing)
    requires Ticking(p)
    ensures AlwaysAlone(p) <==> p.net.latency + (p.net.missed + 1) * p.tick + p.net.delay < p.ttl
  {
    TimesIs(p.net.missed + 1, p.tick);
    if Bridged(p) {
      forall actions: seq<Action> | Trace(p, actions).Some?
        ensures Alone(Trace(p, actions).value)
      {
        AloneWhenBridged(p, actions);
      }
    } else {
      var actions, s := TwoAtWork(p);
    }
  }

  lemma {:induction false} TimesIs(n: nat, tick: nat)
    ensures Times(n, tick) == n * tick
  {
    if n > 0 {
      TimesIs(n - 1, tick);
      assert n * tick == (n - 1) * tick + tick;
    }
  }

  /** Every caller of the lock uses its default of a minute, which leaves room for one lost renewal, not for two. */
  lemma MinuteExactly(net: Network)
    ensures AlwaysAlone(Timing(60_000, TickOf(60_000), net)) <==>
              || (net.missed == 0 && net.latency + net.delay < 40_000)
              || (net.missed == 1 && net.latency + net.delay < 20_000)
  {
    AloneExactly(Timing(60_000, TickOf(60_000), net));
  }

  /** Room for two lost renewals in a row is at most the remainder of the division by three. */
  lemma TwoLostExactly(ttl: nat, net: Network)
    requires ttl > 0 && net.missed == 2
    ensures AlwaysAlone(Timing(ttl, TickOf(ttl), net)) <==> ttl >= 3_000 && net.latency + net.delay < ttl % 3
  {
    AloneExactly(Timing(ttl, TickOf(ttl), net));
  }

  // ------------------------------------------------------- the key in place

  /** One turn of the acquisition loop: the time, and the key as the others left it. */
  datatype Poll = Poll(now: nat, key: Option<Lock>)

  datatype Acquisition = Acquired(turn: nat) | TooBusy(turn: nat) | StillWaiting

  class Table {
    const p: Timing
    var now: nat
    var store: Option<Lock>
    var users: map<Token, Phase>

    ghost function Snapshot(): World
      reads this
    {
      World(now, store, users)
    }

    constructor (p: Timing)
      ensures Snapshot() == EMPTY && this.p == p
    {
      this.p, now, store, users := p, 0, None, map[];
    }

    /** Polls until the key is free or the deadline has passed. */
    method AcquireWithin(t: Token, start: nat, wait: nat, polls: seq<Poll>) returns (r: Acquisition)
      requires PhaseOf(Snapshot(), t).Waiting?
      modifies this
      ensures r.Acquired? ==>
                && r.turn < |polls| && !Alive(polls[r.turn].key, polls[r.turn].now)
                && Snapshot() == Do(p, World(polls[r.turn].now, polls[r.turn].key, old(users)), Set(t))
                && (forall k :: 0 <= k < r.turn ==> Alive(polls[k].key, polls[k].now) && polls[k].now < start + wait)
      ensures r.TooBusy? ==>
                && r.turn < |polls| && polls[r.turn].now >= start + wait
                && Snapshot() == Do(p, World(polls[r.turn].now, polls[r.turn].key, old(users)), Quit(t))
                && (forall k :: 0 <= k <= r.turn ==> Alive(polls[k].key, polls[k].now))
      ensures r.StillWaiting? ==> forall k :: 0 <= k < |polls| ==> Alive(polls[k].key, polls[k].now) && polls[k].now < start + wait
    {
      var i := 0;
      while i < |polls|
        invariant i <= |polls| && users == old(users)
        invariant forall k :: 0 <= k < i ==> Alive(polls[k].key, polls[k].now) && polls[k].now < start + wait
      {
        now, store := polls[i].now, polls[i].key;
        if !(store.Some? && now < store.value.expires) {
          store := Some(Lock(t, now + p.ttl));
          users := users[t := Locked(now)];
          return Acquired(i);
        }
        if polls[i].now >= start + wait {
          users := users[t := Busy];
          return TooBusy(i);
        }
        i := i + 1;
      }
      r := StillWaiting;
    }

    /** A heartbeat's script as Redis executes it; nobody looks at what it returns. */
    method ExecuteRenewal(t: Token)
      requires Can(p, Snapshot(), Renew(t))
      modifies this`store, this`users
      ensures Snapshot() == Do(p, old(Snapshot()), Renew(t))
    {
      if store.Some? && now < store.value.expires && store.value.token == t {
        store := Some(Lock(t, now + p.ttl));
      }
      users := users[t := Working(users[t].head + p.tick, users[t].flying - 1, 0)];
    }
  }
}
