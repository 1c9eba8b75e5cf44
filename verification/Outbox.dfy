/** The outbox: durable dispatches become queue jobs, and delivered ones are swept again page by page. */
module Outbox {
  import opened Basics

  const PAGE := 200

  /** `newestAttempt` is when the candidate's newest attempt was created, if there is one. */
  datatype Row = Row(created: nat, delivered: bool, cancelled: bool, waiting: bool, newestAttempt: Option<nat>)

  /** Still worth a job: not cancelled, its candidate queued, and no attempt at or after it. */
  predicate Runnable(row: Row) {
    !row.cancelled && row.waiting && !(row.newestAttempt.Some? && row.newestAttempt.value >= row.created)
  }

  function Undelivered(rows: map<nat, Row>): set<nat> {
    set id | id in rows && Runnable(rows[id]) && !rows[id].delivered
  }

  function Delivered(rows: map<nat, Row>): set<nat> {
    set id | id in rows && Runnable(rows[id]) && rows[id].delivered
  }

  // ---------------------------------------------------------------- paging

  predicate Past(cursor: Option<nat>, id: nat) {
    cursor.Some? ==> cursor.value < id
  }

  ghost predicate Rising(page: seq<nat>) {
    forall i, j :: 0 <= i < j < |page| ==> page[i] < page[j]
  }

  /** The first PAGE of `ids` beyond the cursor, in order. */
  ghost predicate IsPage(ids: set<nat>, cursor: Option<nat>, page: seq<nat>) {
    && |page| <= PAGE && Rising(page)
    && (forall k :: 0 <= k < |page| ==> page[k] in ids && Past(cursor, page[k]))
    && (forall id :: id in ids && Past(cursor, id) && (|page| < PAGE || id <= page[PAGE - 1]) ==> id in page)
  }

  function Next(page: seq<nat>): Option<nat> {
    if |page| == PAGE then Some(page[PAGE - 1]) else None
  }

  function CursorAt(pages: seq<seq<nat>>, i: nat): Option<nat>
    requires i <= |pages|
  {
    if i == 0 then None else Next(pages[i - 1])
  }

  /** Successive sweeps from a null cursor; tables[i] are the ids in question when sweep i runs. */
  ghost predicate Sweeps(tables: seq<set<nat>>, pages: seq<seq<nat>>) {
    |tables| == |pages| && forall i {:trigger tables[i]} :: 0 <= i < |pages| ==> IsPage(tables[i], CursorAt(pages, i), pages[i])
  }

  /** The first n sweeps are a full cycle: the cursor is back at null, for the first time. */
  ghost predicate Cycle(tables: seq<set<nat>>, pages: seq<seq<nat>>, n: nat) {
    Sweeps(tables, pages) && 0 < n <= |pages| && CursorAt(pages, n).None? && Under(pages, n)
  }

  /** The cursor is set between the first n sweeps. */
  ghost predicate Under(pages: seq<seq<nat>>, n: nat) {
    n <= |pages| && forall i :: 0 < i < n ==> CursorAt(pages, i).Some?
  }

  /** How many of the first n pages hold id. */
  function Looks(pages: seq<seq<nat>>, n: nat, id: nat): nat
    requires n <= |pages|
  {
    if n == 0 then 0 else Looks(pages, n - 1, id) + if id in pages[n - 1] then 1 else 0
  }

  /** The cursor has left id behind (or the cycle is over). */
  predicate Passed(cursor: Option<nat>, id: nat) {
    cursor.None? || id <= cursor.value
  }

  /** One page holds an id of the table exactly when the cursor passes it there. */
  lemma PageStep(ids: set<nat>, cursor: Option<nat>, page: seq<nat>, id: nat)
    requires IsPage(ids, cursor, page) && id in ids
    ensures Past(cursor, id) ==> (id in page <==> Passed(Next(page), id))
    ensures !Past(cursor, id) ==> id !in page && Passed(Next(page), id)
  {
    if |page| == PAGE {
      assert Past(cursor, page[PAGE - 1]);
    }
  }

  /** Midway through a cycle an id that stays has been looked at once if the cursor has passed it, and not yet otherwise. */
  lemma {:induction false} LooksSoFar(tables: seq<set<nat>>, pages: seq<seq<nat>>, n: nat, id: nat)
    requires Sweeps(tables, pages) && Under(pages, n)
    requires forall i :: 0 <= i < n ==> id in tables[i]
    ensures Looks(pages, n, id) == if n > 0 && Passed(CursorAt(pages, n), id) then 1 else 0
  {
    if n > 0 {
      LooksSoFar(tables, pages, n - 1, id);
      assert id in tables[n - 1];
      PageStep(tables[n - 1], CursorAt(pages, n - 1), pages[n - 1], id);
    }
  }

  /**
   * Whatever is enqueued, delivered or cancelled between the sweeps of one cycle: a dispatch that
   * stays delivered and runnable throughout is looked at exactly once in it.
   */
  lemma LookedAtOnce(tables: seq<set<nat>>, pages: seq<seq<nat>>, n: nat, id: nat)
    requires Cycle(tables, pages, n)
    requires forall i :: 0 <= i < n ==> id in tables[i]
    ensures Looks(pages, n, id) == 1
  {
    LooksSoFar(tables, pages, n, id);
  }

  // ------------------------------------------------------ unchanged tables

  ghost predicate Unchanged(tables: seq<set<nat>>, ids: set<nat>) {
    forall i :: 0 <= i < |tables| ==> tables[i] == ids
  }

  function Joined(pages: seq<seq<nat>>, n: nat): seq<nat>
    requires n <= |pages|
  {
    if n == 0 then [] else Joined(pages, n - 1) + pages[n - 1]
  }

  ghost predicate From(list: seq<nat>, ids: set<nat>) {
    Rising(list) && forall k :: 0 <= k < |list| ==> list[k] in ids
  }

  ghost predicate UpTo(list: seq<nat>, cursor: Option<nat>) {
    cursor.Some? ==> forall k :: 0 <= k < |list| ==> list[k] <= cursor.value
  }

  lemma PageJoins(ids: set<nat>, cursor: Option<nat>, before: seq<nat>, page: seq<nat>)
    requires From(before, ids) && UpTo(before, cursor) && (cursor.None? ==> before == []) && IsPage(ids, cursor, page)
    ensures From(before + page, ids) && UpTo(before + page, Next(page))
  {
    if |page| == PAGE {
      assert Past(cursor, page[PAGE - 1]);
    }
  }

  /** Pages line up: their concatenation rises and stays within what the cursor has passed. */
  lemma {:induction false} JoinedRises(tables: seq<set<nat>>, ids: set<nat>, pages: seq<seq<nat>>, n: nat)
    requires Sweeps(tables, pages) && Unchanged(tables, ids) && Under(pages, n)
    ensures From(Joined(pages, n), ids) && UpTo(Joined(pages, n), CursorAt(pages, n))
    ensures n > 0 ==> |Joined(pages, n)| == PAGE * (n - 1) + |pages[n - 1]|
  {
    if n > 0 {
      JoinedRises(tables, ids, pages, n - 1);
      assert tables[n - 1] == ids;
      PageJoins(ids, CursorAt(pages, n - 1), Joined(pages, n - 1), pages[n - 1]);
    }
  }

  lemma {:induction false} RisingSize(list: seq<nat>, ids: set<nat>)
    requires From(list, ids)
    ensures |list| <= |ids|
    ensures (forall id :: id in ids ==> id in list) ==> |list| == |ids|
  {
    if list == [] {
      if forall id :: id in ids ==> id in list {
        assert ids == {};
      }
    } else {
      var init, last := list[..|list| - 1], list[|list| - 1];
      assert list == init + [last];
      RisingSize(init, ids - {last});
    }
  }

  lemma {:induction false} JoinedHas(pages: seq<seq<nat>>, n: nat, id: nat)
    requires n <= |pages|
    ensures id in Joined(pages, n) <==> Looks(pages, n, id) > 0
  {
    if n > 0 {
      JoinedHas(pages, n - 1, id);
    }
  }

  /** n full pages in a row need PAGE * n ids. */
  lemma FullPages(tables: seq<set<nat>>, ids: set<nat>, pages: seq<seq<nat>>, n: nat)
    requires Sweeps(tables, pages) && Unchanged(tables, ids) && Under(pages, n)
    requires n > 0 && CursorAt(pages, n).Some?
    ensures PAGE * n <= |ids|
  {
    JoinedRises(tables, ids, pages, n);
    RisingSize(Joined(pages, n), ids);
  }

  lemma CycleCovers(tables: seq<set<nat>>, ids: set<nat>, pages: seq<seq<nat>>, n: nat)
    requires Cycle(tables, pages, n) && Unchanged(tables, ids)
    ensures forall id :: id in ids ==> id in Joined(pages, n) && Looks(pages, n, id) == 1
  {
    forall id | id in ids
      ensures id in Joined(pages, n) && Looks(pages, n, id) == 1
    {
      LookedAtOnce(tables, pages, n, id);
      JoinedHas(pages, n, id);
    }
  }

  /** Over an unchanged table a cycle takes exactly |ids| / PAGE + 1 sweeps. */
  lemma CycleLength(tables: seq<set<nat>>, ids: set<nat>, pages: seq<seq<nat>>, n: nat)
    requires Cycle(tables, pages, n) && Unchanged(tables, ids)
    ensures n == |ids| / PAGE + 1
  {
    JoinedRises(tables, ids, pages, n);
    CycleCovers(tables, ids, pages, n);
    RisingSize(Joined(pages, n), ids);
    assert IsPage(tables[n - 1], CursorAt(pages, n - 1), pages[n - 1]);
  }

  /**
   * Over an unchanged table of N delivered runnable dispatches, N / 200 + 1 sweeps from a null
   * cursor look at each exactly once and leave the cursor at null again, and no fewer do.
   */
  lemma UnchangedTable(tables: seq<set<nat>>, ids: set<nat>, pages: seq<seq<nat>>)
    requires Sweeps(tables, pages) && Unchanged(tables, ids) && |pages| == |ids| / PAGE + 1
    ensures Cycle(tables, pages, |pages|)
    ensures forall id :: id in ids ==> Looks(pages, |pages|, id) == 1
  {
    EarlyCursors(tables, ids, pages, |pages|);
    assert CursorAt(pages, |pages|).None? by {
      if CursorAt(pages, |pages|).Some? {
        FullPages(tables, ids, pages, |pages|);
        assert false;
      }
    }
    CycleCovers(tables, ids, pages, |pages|);
  }

  /** The cursor cannot be back at null any earlier. */
  lemma {:induction false} EarlyCursors(tables: seq<set<nat>>, ids: set<nat>, pages: seq<seq<nat>>, n: nat)
    requires Sweeps(tables, pages) && Unchanged(tables, ids) && |pages| == |ids| / PAGE + 1 && n <= |pages|
    ensures Under(pages, n)
  {
    if n > 1 {
      EarlyCursors(tables, ids, pages, n - 1);
      if CursorAt(pages, n - 1).None? {
        CycleLength(tables, ids, pages, n - 1);
        assert false;
      }
    }
  }

  // -------------------------------------------------------------- one sweep

  /** The oldest PAGE undelivered intents. */
  ghost predicate IsPending(rows: map<nat, Row>, pending: seq<nat>) {
    && |pending| <= PAGE
    && (forall k :: 0 <= k < |pending| ==> pending[k] in Undelivered(rows))
    && (forall i, j :: 0 <= i < j < |pending| ==>
          pending[i] != pending[j] && pending[i] in rows && pending[j] in rows && rows[pending[i]].created <= rows[pending[j]].created)
    && (forall id :: id in Undelivered(rows) && id !in pending ==>
          |pending| == PAGE && forall k :: 0 <= k < |pending| ==> pending[k] in rows && rows[pending[k]].created <= rows[id].created)
  }

  function Deliver(rows: map<nat, Row>, ids: set<nat>): map<nat, Row> {
    map id | id in rows :: if id in ids then rows[id].(delivered := true) else rows[id]
  }

  function Members(list: seq<nat>): set<nat> {
    set id | id in list
  }

  /** No dispatch is on both lists, and none is on one twice. */
  lemma OnceEach(rows: map<nat, Row>, cursor: Option<nat>, pending: seq<nat>, page: seq<nat>)
    requires IsPending(rows, pending) && IsPage(Delivered(rows), cursor, page)
    ensures forall i, j :: 0 <= i < j < |pending + page| ==> (pending + page)[i] != (pending + page)[j]
    ensures forall i :: 0 <= i < |pending + page| ==>
              && (pending + page)[i] in rows && Runnable(rows[(pending + page)[i]])
              && (rows[(pending + page)[i]].delivered <==> i >= |pending|)
  {
    var all := pending + page;
    forall i | 0 <= i < |all|
      ensures all[i] in rows && Runnable(rows[all[i]]) && (rows[all[i]].delivered <==> i >= |pending|)
    {
      if i < |pending| {
        assert pending[i] in Undelivered(rows);
      } else {
        assert page[i - |pending|] in Delivered(rows);
      }
    }
  }

  predicate Listed(all: seq<nat>, first: nat, had: set<nat>, i: nat, id: nat)
    requires i <= |all| && first <= |all|
  {
    id in all[..i] && (id in all[..first] || id !in had)
  }

  /** After i of the rows, of which the first `first` are undelivered ones. */
  ghost predicate Published(before: map<nat, Row>, had: set<nat>, all: seq<nat>, first: nat, i: nat,
                            rows: map<nat, Row>, jobs: set<nat>, added: seq<nat>) {
    && i <= |all| && first <= |all|
    && (forall a, b :: 0 <= a < b < |all| ==> all[a] != all[b])
    && (forall k :: 0 <= k < |all| ==> all[k] in before && Runnable(before[all[k]]) && (before[all[k]].delivered <==> k >= first))
    && jobs == had + Members(all[..i])
    && rows == Deliver(before, Members(all[..Min(i, first)]))
    && (forall a, b :: 0 <= a < b < |added| ==> added[a] != added[b])
    && (forall id: nat :: id in added <==> Listed(all, first, had, i, id))
  }

  lemma Nothing(before: map<nat, Row>, had: set<nat>)
    ensures Deliver(before, Members([])) == before && had + Members([]) == had
  {
  }

  lemma ListedMore(all: seq<nat>, first: nat, had: set<nat>, i: nat)
    requires i < |all| && first <= |all| && forall a, b :: 0 <= a < b < |all| ==> all[a] != all[b]
    ensures forall x: nat :: Listed(all, first, had, i + 1, x) <==>
              Listed(all, first, had, i, x) || (x == all[i] && (i < first || x !in had))
  {
    NotBefore(all, i);
    forall x: nat
      ensures Listed(all, first, had, i + 1, x) <==>
              Listed(all, first, had, i, x) || (x == all[i] && (i < first || x !in had))
    {
      assert all[..i + 1] == all[..i] + [all[i]];
      if x == all[i] {
        assert i < first <==> x in all[..first];
      } else {
        assert x in all[..i + 1] <==> x in all[..i];
      }
    }
  }

  lemma DeliverMore(before: map<nat, Row>, ids: set<nat>, id: nat)
    requires id in before && id !in ids
    ensures Deliver(before, ids + {id}) == Deliver(before, ids)[id := before[id].(delivered := true)]
    ensures Deliver(before, ids)[id] == before[id]
  {
  }

  /** An undelivered row is published whether or not its job exists. */
  lemma OneMoreNew(before: map<nat, Row>, had: set<nat>, all: seq<nat>, first: nat, i: nat,
                   rows: map<nat, Row>, jobs: set<nat>, added: seq<nat>)
    requires Published(before, had, all, first, i, rows, jobs, added) && i < first
    ensures all[i] in rows && !rows[all[i]].delivered
    ensures Published(before, had, all, first, i + 1, rows[all[i] := rows[all[i]].(delivered := true)], jobs + {all[i]}, added + [all[i]])
  {
    var id := all[i];
    NotBefore(all, i);
    assert all[..i + 1] == all[..i] + [id];
    assert Members(all[..i + 1]) == Members(all[..i]) + {id};
    DeliverMore(before, Members(all[..i]), id);
    ListedMore(all, first, had, i);
    Appended(added, id);
  }

  /** A delivered row is published again only when its job is gone. */
  lemma OneMoreAgain(before: map<nat, Row>, had: set<nat>, all: seq<nat>, first: nat, i: nat,
                     rows: map<nat, Row>, jobs: set<nat>, added: seq<nat>)
    requires Published(before, had, all, first, i, rows, jobs, added) && first <= i < |all|
    ensures all[i] in rows && rows[all[i]].delivered
    ensures all[i] in jobs ==> Published(before, had, all, first, i + 1, rows, jobs, added)
    ensures all[i] !in jobs ==>
              Published(before, had, all, first, i + 1, rows[all[i] := rows[all[i]].(delivered := true)], jobs + {all[i]}, added + [all[i]])
  {
    var id := all[i];
    NotBefore(all, i);
    assert all[..i + 1] == all[..i] + [id];
    assert Members(all[..i + 1]) == Members(all[..i]) + {id};
    assert rows[id := rows[id].(delivered := true)] == rows;
    assert id in jobs <==> id in had;
    ListedMore(all, first, had, i);
    Appended(added, id);
  }

  lemma Appended(list: seq<nat>, id: nat)
    ensures forall x: nat :: x in list + [id] <==> x in list || x == id
    ensures id !in list && (forall a, b :: 0 <= a < b < |list| ==> list[a] != list[b]) ==>
              forall a, b :: 0 <= a < b < |list + [id]| ==> (list + [id])[a] != (list + [id])[b]
  {
  }

  lemma NotBefore(all: seq<nat>, i: nat)
    requires i < |all| && forall a, b :: 0 <= a < b < |all| ==> all[a] != all[b]
    ensures forall k :: 0 <= k <= i ==> all[i] !in all[..k]
    ensures forall k :: i < k <= |all| ==> all[i] in all[..k]
  {
    forall k | i < k <= |all| ensures all[i] in all[..k] {
      assert all[..k][i] == all[i];
    }
  }

  lemma AllPublished(before: map<nat, Row>, had: set<nat>, pending: seq<nat>, page: seq<nat>,
                     rows: map<nat, Row>, jobs: set<nat>, added: seq<nat>)
    requires Published(before, had, pending + page, |pending|, |pending + page|, rows, jobs, added)
    ensures jobs == had + Members(pending) + Members(page)
    ensures rows == Deliver(before, Members(pending))
    ensures forall id :: id in added <==> id in pending || (id in page && id !in had)
    ensures forall id :: id in added ==> id in before && Runnable(before[id])
  {
    var all := pending + page;
    assert all[..|all|] == all && all[..|pending|] == pending;
    forall id | id in added
      ensures id in before && Runnable(before[id])
    {
      assert Listed(all, |pending|, had, |all|, id);
      var k :| 0 <= k < |all| && all[k] == id;
    }
  }

  class Publisher {
    var rows: map<nat, Row>
    var jobs: set<nat>
    var cursor: Option<nat>

    /**
     * One call. `added` are the publish calls it makes: each is for a dispatch that is still
     * runnable and has no job (or was never delivered), and none is made twice.
     */
    method DispatchPending(pending: seq<nat>, page: seq<nat>) returns (looked: nat, ghost added: seq<nat>)
      requires IsPending(rows, pending) && IsPage(Delivered(rows), cursor, page)
      modifies this
      ensures looked == |pending| + |page| && cursor == Next(page)
      ensures jobs == old(jobs) + Members(pending) + Members(page)
      ensures rows == Deliver(old(rows), Members(pending))
      ensures forall i, j :: 0 <= i < j < |added| ==> added[i] != added[j]
      ensures forall id :: id in added <==> id in pending || (id in page && id !in old(jobs))
      ensures forall id :: id in added ==> id in old(rows) && Runnable(old(rows)[id])
    {
      cursor := if |page| == PAGE then Some(page[PAGE - 1]) else None;
      var all := pending + page;
      looked := |all|;
      added := [];
      ghost var before, had := rows, jobs;
      OnceEach(rows, old(cursor), pending, page);
      var i := 0;
      Nothing(before, had);
      while i < |all|
        invariant i <= |all|
        invariant Published(before, had, all, |pending|, i, rows, jobs, added)
        modifies this`rows, this`jobs
      {
        added := PublishRow(all, i, before, had, |pending|, added);
        i := i + 1;
      }
      AllPublished(before, had, pending, page, rows, jobs, added);
    }

    /** The queue ignores a job id it already holds. */
    method PublishRow(all: seq<nat>, i: nat, ghost before: map<nat, Row>, ghost had: set<nat>, ghost first: nat, ghost added: seq<nat>)
      returns (ghost more: seq<nat>)
      requires i < |all| && Published(before, had, all, first, i, rows, jobs, added)
      modifies this`rows, this`jobs
      ensures Published(before, had, all, first, i + 1, rows, jobs, more)
    {
      if i < first {
        OneMoreNew(before, had, all, first, i, rows, jobs, added);
      } else {
        OneMoreAgain(before, had, all, first, i, rows, jobs, added);
      }
      var id := all[i];
      more := added;
      if !rows[id].delivered || id !in jobs {
        jobs := jobs + {id};
        rows := rows[id := rows[id].(delivered := true)];
        more := added + [id];
      }
    }
  }
}
