/**
 * The process-wide browser ceiling: a first-come, first-served semaphore whose release hands the
 * slot straight to the next waiter.
 */
module SemaphoreSpec {

  /** Calls of acquire, numbered in the order they arrive; a slot is named after its holder's call. */
  type Ticket = nat

  /**
   * `slots` holds the released flag of every slot handed out; `calls`, `grants` and `expired` are
   * history: how many calls arrived, which were served in order, and which gave up waiting.
   */
  datatype State = State(
    limit: nat,
    active: int,
    queue: seq<Ticket>,
    slots: map<Ticket, bool>,
    calls: nat,
    grants: seq<Ticket>,
    expired: set<Ticket>)

  datatype Event = Acquire | Release(slot: Ticket) | Timeout(waiter: Ticket)

  function Init(limit: nat): State {
    State(limit, 0, [], map[], 0, [], {})
  }

  function Without(queue: seq<Ticket>, t: Ticket): (r: seq<Ticket>)
    ensures t !in queue ==> r == queue
  {
    if queue == [] then []
    else if queue[0] == t then queue[1..]
    else [queue[0]] + Without(queue[1..], t)
  }

  function Step(s: State, e: Event): State {
    match e
    case Acquire =>
      if s.active < s.limit then
        s.(active := s.active + 1, slots := s.slots[s.calls := false], grants := s.grants + [s.calls], calls := s.calls + 1)
      else s.(queue := s.queue + [s.calls], calls := s.calls + 1)
    case Release(t) =>
      if t !in s.slots || s.slots[t] then s
      else if s.queue != [] then
        var next := s.queue[0];
        s.(slots := s.slots[t := true][next := false], queue := s.queue[1..], grants := s.grants + [next])
      else s.(slots := s.slots[t := true], active := s.active - 1)
    case Timeout(t) =>
      if t in s.queue then s.(queue := Without(s.queue, t), expired := s.expired + {t}) else s
  }

  function Run(s: State, events: seq<Event>): State {
    if events == [] then s
    else Step(Run(s, events[..|events| - 1]), events[|events| - 1])
  }

  /** The slots in use. */
  ghost function Live(s: State): set<Ticket> {
    set t | t in s.slots && !s.slots[t]
  }

  /** The first n calls in order, without those that gave up. */
  ghost function Survivors(n: nat, expired: set<Ticket>): seq<Ticket> {
    if n == 0 then []
    else if n - 1 in expired then Survivors(n - 1, expired)
    else Survivors(n - 1, expired) + [n - 1]
  }

  lemma {:induction false} SurvivorsAre(n: nat, expired: set<Ticket>)
    ensures var r := Survivors(n, expired);
            && (forall i :: 0 <= i < |r| ==> r[i] < n && r[i] !in expired)
            && (forall i, j :: 0 <= i < j < |r| ==> r[i] < r[j])
            && (forall t :: 0 <= t < n && t !in expired ==> t in r)
  {
    if n > 0 {
      SurvivorsAre(n - 1, expired);
    }
  }

  /** The counter is the number of slots in use, within the limit, and nobody waits beside a free slot. */
  ghost predicate Counted(s: State) {
    && s.active == |Live(s)|
    && s.active <= s.limit
    && (s.queue != [] ==> s.active == s.limit)
  }

  ghost predicate Ordered(s: State) {
    && s.grants + s.queue == Survivors(s.calls, s.expired)
    && s.slots.Keys == Served(s.grants)
    && (forall t :: t in s.expired ==> t < s.calls)
  }

  ghost function Served(grants: seq<Ticket>): set<Ticket> {
    set t | t in grants
  }

  ghost predicate Inv(s: State) {
    Counted(s) && Ordered(s)
  }

  lemma InOrder(s: State)
    requires Ordered(s)
    ensures forall t :: t in s.queue ==> t !in s.slots && t !in s.expired && t < s.calls
    ensures forall t :: t in s.slots ==> t < s.calls && t !in s.expired
    ensures forall i, j :: 0 <= i < j < |s.queue| ==> s.queue[i] < s.queue[j]
  {
    var all := Survivors(s.calls, s.expired);
    SurvivorsAre(s.calls, s.expired);
    assert forall j :: 0 <= j < |s.queue| ==> s.queue[j] == all[|s.grants| + j];
    assert forall i :: 0 <= i < |s.grants| ==> s.grants[i] == all[i];
  }

  lemma AcquireKeeps(s: State)
    requires Inv(s)
    ensures Inv(Step(s, Acquire))
  {
    InOrder(s);
    AcquireKeepsOrder(s);
    if s.active < s.limit {
      assert Live(Step(s, Acquire)) == Live(s) + {s.calls};
    }
  }

  lemma AcquireKeepsOrder(s: State)
    requires Inv(s)
    ensures Ordered(Step(s, Acquire))
  {
    var t := Step(s, Acquire);
    assert s.calls !in s.expired;
    assert t.grants + t.queue == (s.grants + s.queue) + [s.calls];
    if s.active < s.limit {
      assert Served(t.grants) == Served(s.grants) + {s.calls};
      assert t.slots.Keys == s.slots.Keys + {s.calls};
    }
  }

  lemma ReleaseKeeps(s: State, slot: Ticket)
    requires Inv(s)
    ensures Inv(Step(s, Release(slot)))
  {
    if slot in s.slots && !s.slots[slot] {
      if s.queue != [] {
        HandOverKeeps(s, slot);
      } else {
        var t := Step(s, Release(slot));
        assert Live(t) == Live(s) - {slot};
        assert t.slots.Keys == s.slots.Keys;
      }
    }
  }

  /** The released slot becomes the first waiter's. */
  lemma HandOverKeeps(s: State, slot: Ticket)
    requires Inv(s) && slot in s.slots && !s.slots[slot] && s.queue != []
    ensures Inv(Step(s, Release(slot)))
  {
    var t := Step(s, Release(slot));
    var next := s.queue[0];
    InOrder(s);
    assert next !in s.slots;
    assert Live(t) == Live(s) - {slot} + {next};
    assert s.queue == [next] + s.queue[1..];
    assert t.grants + t.queue == s.grants + s.queue;
    assert Served(t.grants) == Served(s.grants) + {next};
    assert t.slots.Keys == s.slots.Keys + {next};
  }

  /** Forgetting a call removes it from the order and nothing else. */
  lemma {:induction false} SurvivorsWithout(n: nat, expired: set<Ticket>, more: set<Ticket>, t: Ticket)
    requires t < n && more == expired + {t}
    ensures Survivors(n, more) == Without(Survivors(n, expired), t)
  {
    if n - 1 == t {
      NewestGone(n, expired, more, t);
    } else {
      SurvivorsWithout(n - 1, expired, more, t);
      if n - 1 !in expired {
        WithoutAppend(Survivors(n - 1, expired), n - 1, t);
      }
    }
  }

  lemma NewestGone(n: nat, expired: set<Ticket>, more: set<Ticket>, t: Ticket)
    requires t == n - 1 && more == expired + {t}
    ensures Survivors(n, more) == Without(Survivors(n, expired), t)
  {
    var less := Survivors(n - 1, expired);
    SurvivorsSame(n - 1, expired, t);
    NotYet(n - 1, expired, t);
    if t !in expired {
      WithoutLast(less, t);
    }
  }

  lemma NotYet(n: nat, expired: set<Ticket>, t: Ticket)
    requires n <= t
    ensures t !in Survivors(n, expired)
  {
    SurvivorsAre(n, expired);
  }

  lemma {:induction false} SurvivorsSame(n: nat, expired: set<Ticket>, t: Ticket)
    requires n <= t
    ensures Survivors(n, expired + {t}) == Survivors(n, expired)
  {
    if n > 0 {
      SurvivorsSame(n - 1, expired, t);
    }
  }

  lemma {:induction false} WithoutLast(q: seq<Ticket>, t: Ticket)
    requires t !in q
    ensures Without(q + [t], t) == q
  {
    if q != [] {
      assert (q + [t])[1..] == q[1..] + [t];
      WithoutLast(q[1..], t);
    }
  }

  lemma {:induction false} WithoutAppend(q: seq<Ticket>, x: Ticket, t: Ticket)
    requires x != t
    ensures Without(q + [x], t) == Without(q, t) + [x]
  {
    if q != [] {
      assert (q + [x])[1..] == q[1..] + [x];
      WithoutAppend(q[1..], x, t);
    } else {
      assert q + [x] == [x];
    }
  }

  lemma {:induction false} WithoutSuffix(p: seq<Ticket>, q: seq<Ticket>, t: Ticket)
    requires t !in p
    ensures Without(p + q, t) == p + Without(q, t)
  {
    if p != [] {
      assert (p + q)[1..] == p[1..] + q;
      WithoutSuffix(p[1..], q, t);
    } else {
      assert p + q == q;
    }
  }

  lemma {:induction false} WithoutKeeps(q: seq<Ticket>, t: Ticket)
    ensures Without(q, t) == [] || q != []
  {
    if q != [] && q[0] != t {
      WithoutKeeps(q[1..], t);
    }
  }

  lemma TimeoutKeeps(s: State, waiter: Ticket)
    requires Inv(s)
    ensures Inv(Step(s, Timeout(waiter)))
  {
    var t := Step(s, Timeout(waiter));
    InOrder(s);
    if waiter in s.queue {
      SurvivorsWithout(s.calls, s.expired, s.expired + {waiter}, waiter);
      WithoutSuffix(s.grants, s.queue, waiter);
      WithoutKeeps(s.queue, waiter);
      assert Live(t) == Live(s);
    }
  }

  lemma StepKeeps(s: State, e: Event)
    requires Inv(s)
    ensures Inv(Step(s, e))
  {
    match e
    case Acquire => AcquireKeeps(s);
    case Release(t) => ReleaseKeeps(s, t);
    case Timeout(t) => TimeoutKeeps(s, t);
  }

  lemma {:induction false} RunKeeps(limit: nat, events: seq<Event>)
    ensures Inv(Run(Init(limit), events)) && Run(Init(limit), events).limit == limit
  {
    if events == [] {
      assert Live(Init(limit)) == {};
    } else {
      RunKeeps(limit, events[..|events| - 1]);
      StepKeeps(Run(Init(limit), events[..|events| - 1]), events[|events| - 1]);
    }
  }

  /**
   * Whatever order calls, releases (repeated ones too) and timeouts come in: the counter is the
   * number of slots in use and never passes the limit; nobody waits while a slot is free; and the
   * calls served followed by those waiting are the calls in order of arrival without those that
   * timed out, so no call is overtaken, lost or answered twice.
   */
  lemma FairAndBounded(limit: nat, events: seq<Event>)
    ensures var s := Run(Init(limit), events);
            && s.active == |Live(s)| && s.active <= limit
            && (s.queue != [] ==> s.active == limit)
            && s.grants + s.queue == Survivors(s.calls, s.expired)
            && (forall i, j :: 0 <= i < j < |s.grants| ==> s.grants[i] < s.grants[j])
            && (forall t :: t in s.grants ==> t !in s.queue && t !in s.expired)
  {
    RunKeeps(limit, events);
    var s := Run(Init(limit), events);
    InOrder(s);
    var all := Survivors(s.calls, s.expired);
    SurvivorsAre(s.calls, s.expired);
    assert forall i :: 0 <= i < |s.grants| ==> s.grants[i] == all[i];
  }

  /** No slot leaks: once every holder has let go, nobody waits and every call was answered. */
  lemma NothingLeaks(limit: nat, events: seq<Event>)
    requires limit > 0
    requires forall t :: t in Run(Init(limit), events).slots ==> Run(Init(limit), events).slots[t]
    ensures var s := Run(Init(limit), events);
            && s.active == 0 && s.queue == []
            && (forall t :: 0 <= t < s.calls ==> t in s.grants || t in s.expired)
  {
    RunKeeps(limit, events);
    var s := Run(Init(limit), events);
    assert Live(s) == {};
    SurvivorsAre(s.calls, s.expired);
    assert s.grants == Survivors(s.calls, s.expired);
  }
}

/** The semaphore as the program keeps it: a counter, a waiter queue and one flag per slot. */
module Semaphore {
  import opened SemaphoreSpec

  class Slot {
    const ticket: Ticket
    var released: bool

    constructor (ticket: Ticket)
      ensures this.ticket == ticket && !released
    {
      this.ticket := ticket;
      released := false;
    }
  }

  class Semaphore {
    const limit: nat
    var active: int
    var queue: seq<Ticket>
    var calls: nat
    ghost var handed: map<Ticket, Slot>
    ghost var grants: seq<Ticket>
    ghost var expired: set<Ticket>

    ghost predicate Valid()
      reads this, handed.Values
    {
      && (forall t :: t in handed ==> handed[t].ticket == t)
      && Inv(Snapshot())
    }

    ghost function Snapshot(): State
      reads this, handed.Values
    {
      State(limit, active, queue, map t | t in handed :: handed[t].released, calls, grants, expired)
    }

    constructor (limit: nat)
      ensures Valid() && Snapshot() == Init(limit)
    {
      this.limit := limit;
      active, queue, calls := 0, [], 0;
      handed, grants, expired := map[], [], {};
      new;
      assert Live(Snapshot()) == {};
      assert Snapshot().slots == map[];
    }

    /** Returns a slot at once when one is free, and queues the caller otherwise. */
    method Acquire() returns (ticket: Ticket, slot: Slot?)
      requires Valid()
      modifies this
      ensures Valid() && Snapshot() == Step(old(Snapshot()), Event.Acquire)
      ensures ticket == old(calls)
      ensures slot != null <==> old(active) < limit
      ensures slot != null ==> fresh(slot) && handed == old(handed)[ticket := slot]
      ensures slot == null ==> handed == old(handed) && queue == old(queue) + [ticket]
    {
      ticket := calls;
      if active < limit {
        slot := Admit();
      } else {
        Wait();
        slot := null;
      }
    }

    /** A free slot goes to the caller. */
    method Admit() returns (slot: Slot)
      requires Valid() && active < limit
      modifies this
      ensures Valid() && Snapshot() == Step(old(Snapshot()), Event.Acquire)
      ensures fresh(slot) && handed == old(handed)[old(calls) := slot]
    {
      ghost var before := Snapshot();
      AcquireKeeps(before);
      InOrder(before);
      slot := new Slot(calls);
      handed := handed[calls := slot];
      active, calls, grants := active + 1, calls + 1, grants + [calls];
      assert Snapshot().slots == before.slots[before.calls := false];
    }

    /** No slot is free: the caller waits behind all others. */
    method Wait()
      requires Valid() && active >= limit
      modifies this
      ensures Valid() && Snapshot() == Step(old(Snapshot()), Event.Acquire)
      ensures handed == old(handed) && queue == old(queue) + [old(calls)]
    {
      ghost var before := Snapshot();
      AcquireKeeps(before);
      queue, calls := queue + [calls], calls + 1;
      assert Snapshot().slots == before.slots;
    }

    /** Idempotent; hands the slot to the longest-waiting caller, if any. */
    method Release(slot: Slot) returns (served: Slot?)
      requires Valid() && slot.ticket in handed && handed[slot.ticket] == slot
      modifies this, slot
      ensures Valid() && Snapshot() == Step(old(Snapshot()), Event.Release(slot.ticket))
      ensures served != null <==> !old(slot.released) && old(queue) != []
      ensures served != null ==> served.ticket == old(queue)[0] && !served.released
      ensures slot.ticket in handed && handed[slot.ticket] == slot
    {
      if slot.released {
        return null;
      }
      if queue != [] {
        served := HandOver(slot);
      } else {
        LetGo(slot);
        served := null;
      }
    }

    /** The slot goes straight to the first waiter. */
    method HandOver(slot: Slot) returns (served: Slot)
      requires Valid() && slot.ticket in handed && handed[slot.ticket] == slot && !slot.released && queue != []
      modifies this, slot
      ensures Valid() && Snapshot() == Step(old(Snapshot()), Event.Release(slot.ticket))
      ensures served.ticket == old(queue)[0] && !served.released
      ensures slot.ticket in handed && handed[slot.ticket] == slot
    {
      ghost var before := Snapshot();
      HandOverKeeps(before, slot.ticket);
      InOrder(before);
      var next := queue[0];
      assert next in before.queue && next !in before.slots && next != slot.ticket;
      slot.released := true;
      queue := queue[1..];
      served := new Slot(next);
      handed := handed[next := served];
      grants := grants + [next];
      assert Snapshot().slots == before.slots[slot.ticket := true][next := false];
    }

    /** Nobody waits: one slot fewer is in use. */
    method LetGo(slot: Slot)
      requires Valid() && slot.ticket in handed && handed[slot.ticket] == slot && !slot.released && queue == []
      modifies this, slot
      ensures Valid() && Snapshot() == Step(old(Snapshot()), Event.Release(slot.ticket))
      ensures slot.ticket in handed && handed[slot.ticket] == slot
    {
      ghost var before := Snapshot();
      ReleaseKeeps(before, slot.ticket);
      slot.released := true;
      active := active - 1;
      assert Snapshot().slots == before.slots[slot.ticket := true];
    }

    /** The waiter's own deadline: it leaves the queue before its promise is rejected. */
    method Timeout(waiter: Ticket) returns (rejected: bool)
      requires Valid()
      modifies this
      ensures Valid() && Snapshot() == Step(old(Snapshot()), Event.Timeout(waiter))
      ensures rejected <==> waiter in old(queue)
      ensures rejected ==> waiter !in queue
    {
      ghost var before := Snapshot();
      TimeoutKeeps(before, waiter);
      InOrder(before);
      var index := IndexOf(waiter);
      rejected := index < |queue|;
      if rejected {
        queue := queue[..index] + queue[index + 1..];
        WithoutIndex(before.queue, index);
        expired := expired + {waiter};
      }
      assert Snapshot().slots == before.slots;
    }

    method IndexOf(waiter: Ticket) returns (index: nat)
      ensures index <= |queue| && waiter !in queue[..index]
      ensures index < |queue| ==> queue[index] == waiter
    {
      index := 0;
      while index < |queue|
        invariant index <= |queue| && waiter !in queue[..index]
      {
        if queue[index] == waiter {
          return;
        }
        index := index + 1;
      }
    }
  }

  /** An open browser session; its close runs in a `finally` and may run again. */
  class Session {
    const slot: Slot
    var closed: bool

    constructor (slot: Slot)
      ensures this.slot == slot && !closed
    {
      this.slot, closed := slot, false;
    }

    /** Only the first close reaches the semaphore. */
    method Close(browsers: Semaphore)
      requires browsers.Valid() && slot.ticket in browsers.handed && browsers.handed[slot.ticket] == slot
      modifies this, browsers, slot
      ensures browsers.Valid() && closed && slot.ticket in browsers.handed && browsers.handed[slot.ticket] == slot
      ensures old(closed) ==> browsers.Snapshot() == old(browsers.Snapshot())
      ensures !old(closed) ==> browsers.Snapshot() == Step(old(browsers.Snapshot()), Event.Release(slot.ticket))
    {
      if closed {
        return;
      }
      closed := true;
      var served := browsers.Release(slot);
    }
  }

  /** However opening and working end, the slot goes back exactly once. */
  method WithSession(browsers: Semaphore, slot: Slot, opens: bool, closesAgain: bool)
    requires browsers.Valid() && slot.ticket in browsers.handed && browsers.handed[slot.ticket] == slot
    modifies browsers, slot
    ensures browsers.Valid()
    ensures browsers.Snapshot() == Step(old(browsers.Snapshot()), Event.Release(slot.ticket))
  {
    if !opens {
      var served := browsers.Release(slot);
      return;
    }
    var session := new Session(slot);
    session.Close(browsers);
    if closesAgain {
      session.Close(browsers);
    }
  }

  lemma {:induction false} WithoutIndex(q: seq<Ticket>, index: nat)
    requires index < |q| && q[index] !in q[..index]
    ensures Without(q, q[index]) == q[..index] + q[index + 1..]
  {
    if index > 0 {
      assert q[0] == q[..index][0];
      assert q[1..][..index - 1] == q[..index][1..];
      WithoutIndex(q[1..], index - 1);
      assert q[1..][index..] == q[index + 1..];
    }
  }
}
