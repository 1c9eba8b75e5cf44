/** Facts about arranging the positions 0, 1, ... of a list by a strict order. */
module Orders {

  ghost predicate Asymmetric(less: (nat, nat) -> bool) {
    forall i: nat, j: nat :: !(less(i, j) && less(j, i))
  }

  ghost predicate SortedBy(order: seq<nat>, less: (nat, nat) -> bool) {
    forall a, b :: 0 <= a < b < |order| ==> less(order[a], order[b])
  }

  /** `order` names every position below n exactly once. */
  ghost predicate Permutes(order: seq<nat>, n: nat) {
    && |order| == n
    && (forall i :: 0 <= i < n ==> i in order)
    && (forall k :: 0 <= k < |order| ==> order[k] < n)
  }

  /** The items at the positions `order` names, in its order. */
  function Pick<T>(items: seq<T>, order: seq<nat>): (r: seq<T>)
    requires forall k :: 0 <= k < |order| ==> order[k] < |items|
    ensures |r| == |order|
    ensures forall k :: 0 <= k < |r| ==> r[k] == items[order[k]]
  {
    seq(|order|, k requires 0 <= k < |order| => items[order[k]])
  }

  /** A strict order leaves one way to arrange a set of positions. */
  lemma {:induction false} SortedUnique(a: seq<nat>, b: seq<nat>, less: (nat, nat) -> bool)
    requires Asymmetric(less) && SortedBy(a, less) && SortedBy(b, less)
    requires forall i :: i in a <==> i in b
    ensures a == b
  {
    if a == [] {
      assert b == [] by {
        assert forall k :: 0 <= k < |b| ==> b[k] in b;
      }
    } else {
      assert a[0] in b;
      var k :| 0 <= k < |b| && b[k] == a[0];
      assert b[0] in a;
      var j :| 0 <= j < |a| && a[j] == b[0];
      assert a[0] == b[0];
      forall i ensures i in a[1..] <==> i in b[1..] {
        TailMembers(a, i, less);
        TailMembers(b, i, less);
      }
      SortedUnique(a[1..], b[1..], less);
      assert a == [a[0]] + a[1..] && b == [b[0]] + b[1..];
    }
  }

  lemma TailMembers(a: seq<nat>, i: nat, less: (nat, nat) -> bool)
    requires a != [] && Asymmetric(less) && SortedBy(a, less)
    ensures i in a[1..] <==> i in a && i != a[0]
  {
    if i in a[1..] {
      var k :| 0 <= k < |a[1..]| && a[1..][k] == i;
      assert less(a[0], a[k + 1]);
      assert !less(i, i);
    }
  }

  ghost predicate Distinct(order: seq<nat>) {
    forall a, b :: 0 <= a < b < |order| ==> order[a] != order[b]
  }

  function Drop(order: seq<nat>, k: nat): seq<nat>
    requires k < |order|
  {
    order[..k] + order[k + 1..]
  }

  lemma DropMembers(order: seq<nat>, k: nat, i: nat)
    requires k < |order| && i != order[k]
    ensures i in Drop(order, k) <==> i in order
  {
    if i in order {
      var j :| 0 <= j < |order| && order[j] == i;
      assert Drop(order, k)[if j < k then j else j - 1] == i;
    }
  }

  /** Distinct positions below n number at most n, and n of them are all of them. */
  lemma {:induction false} Pigeonhole(order: seq<nat>, n: nat)
    requires Distinct(order) && forall i :: i in order ==> i < n
    ensures |order| <= n
    ensures |order| == n ==> Permutes(order, n)
    decreases n
  {
    if order == [] {
    } else if k :| 0 <= k < |order| && order[k] == n - 1 {
      forall i | i in Drop(order, k)
        ensures i < n - 1
      {
        assert i in order;
      }
      Pigeonhole(Drop(order, k), n - 1);
      if |order| == n {
        forall i: nat | i < n - 1
          ensures i in order
        {
          DropMembers(order, k, i);
        }
        assert forall j :: 0 <= j < |order| ==> order[j] in order;
      }
    } else {
      assert order[0] in order;
      Pigeonhole(order, n - 1);
    }
  }

  /** A list that names every position below n has at least n entries. */
  lemma {:induction false} AllNamed(order: seq<nat>, n: nat)
    requires forall i: nat :: i < n ==> i in order
    ensures n <= |order|
    decreases n
  {
    if n > 0 {
      assert n - 1 in order;
      var k :| 0 <= k < |order| && order[k] == n - 1;
      forall i: nat | i < n - 1
        ensures i in Drop(order, k)
      {
        DropMembers(order, k, i);
      }
      AllNamed(Drop(order, k), n - 1);
    }
  }
}

/** The fair application plan: portal caps, round robin over portals, and the daily cut. */
module PlanOrder {
  import opened Basics
  import opened Orders
  import RetryPolicy

  type Portal = string

  datatype Row = Row(portal: Portal, id: nat)

  const DEFAULT_CAP := 30

  function Cap(portal: Portal): nat {
    if portal == "greenhouse" then 35
    else if portal == "ashby" || portal == "lever" then 30
    else if portal == "wellfound" || portal == "instahyre" then 15
    else DEFAULT_CAP
  }

  // ------------------------------------------------- ranks within a portal

  function Count(rows: seq<Row>, portal: Portal): nat {
    if rows == [] then 0
    else Count(rows[..|rows| - 1], portal) + if rows[|rows| - 1].portal == portal then 1 else 0
  }

  /** How many rows of its own portal come before row i. */
  function Rank(rows: seq<Row>, i: nat): nat
    requires i < |rows|
  {
    Count(rows[..i], rows[i].portal)
  }

  /** The position of the portal's k-th row. */
  function Nth(rows: seq<Row>, portal: Portal, k: nat): nat
    requires k < Count(rows, portal)
  {
    if k < Count(rows[..|rows| - 1], portal) then Nth(rows[..|rows| - 1], portal, k) else |rows| - 1
  }

  lemma {:induction false} NthIs(rows: seq<Row>, portal: Portal, k: nat)
    requires k < Count(rows, portal)
    ensures var i := Nth(rows, portal, k);
            i < |rows| && rows[i].portal == portal && Rank(rows, i) == k
  {
    var init := rows[..|rows| - 1];
    if k < Count(init, portal) {
      NthIs(init, portal, k);
      var i := Nth(init, portal, k);
      assert rows[..i] == init[..i];
    }
  }

  lemma {:induction false} NthOf(rows: seq<Row>, i: nat)
    requires i < |rows|
    ensures Rank(rows, i) < Count(rows, rows[i].portal)
    ensures Nth(rows, rows[i].portal, Rank(rows, i)) == i
  {
    var init := rows[..|rows| - 1];
    if i < |rows| - 1 {
      NthOf(init, i);
      assert rows[..i] == init[..i];
    }
  }

  /** Where the row's portal appeared first. */
  function First(rows: seq<Row>, i: nat): nat
    requires i < |rows|
  {
    NthOf(rows, i);
    Nth(rows, rows[i].portal, 0)
  }

  /** The order the round robin is meant to produce: by rank within the portal, then by the portal's first appearance. */
  predicate Before(rows: seq<Row>, i: nat, j: nat) {
    && i < |rows| && j < |rows|
    && (Rank(rows, i) < Rank(rows, j) || (Rank(rows, i) == Rank(rows, j) && First(rows, i) < First(rows, j)))
  }

  ghost predicate IsSchedule(rows: seq<Row>, order: seq<nat>) {
    Permutes(order, |rows|) && SortedBy(order, (i: nat, j: nat) => Before(rows, i, j))
  }

  ghost predicate Spread(rows: seq<Row>, ordered: seq<Row>) {
    exists order :: IsSchedule(rows, order) && ordered == Pick(rows, order)
  }

  /** There is only one schedule. */
  lemma ScheduleUnique(rows: seq<Row>, a: seq<nat>, b: seq<nat>)
    requires IsSchedule(rows, a) && IsSchedule(rows, b)
    ensures a == b
  {
    assert forall i :: i in a <==> i in b by {
      forall i: nat | i in a ensures i in b { assert i < |rows|; }
      forall i: nat | i in b ensures i in a { assert i < |rows|; }
    }
    SortedUnique(a, b, (i: nat, j: nat) => Before(rows, i, j));
  }

  /** Different rows are always ordered: same rank and same first appearance mean the same row. */
  lemma BeforeIsTotal(rows: seq<Row>, i: nat, j: nat)
    requires i < |rows| && j < |rows| && i != j
    ensures Before(rows, i, j) || Before(rows, j, i)
  {
    NthOf(rows, i);
    NthOf(rows, j);
    NthIs(rows, rows[i].portal, 0);
    NthIs(rows, rows[j].portal, 0);
  }

  // -------------------------------------------------------------- grouping

  /** names are the portals in order of first appearance; queues hold their rows in order. */
  ghost predicate Grouped(rows: seq<Row>, names: seq<Portal>, queues: seq<seq<Row>>) {
    && |names| == |queues|
    && (forall i :: 0 <= i < |rows| ==> rows[i].portal in names)
    && (forall g :: 0 <= g < |names| ==> |queues[g]| == Count(rows, names[g]) && queues[g] != [])
    && (forall g, h :: 0 <= g < h < |names| ==> Nth(rows, names[g], 0) < Nth(rows, names[h], 0))
    && (forall g, k :: 0 <= g < |names| && 0 <= k < |queues[g]| ==> queues[g][k] == rows[NthAt(rows, names[g], k)])
  }

  function NthAt(rows: seq<Row>, portal: Portal, k: nat): (i: nat)
    requires k < Count(rows, portal)
    ensures i < |rows|
  {
    NthIs(rows, portal, k);
    Nth(rows, portal, k)
  }

  lemma {:induction false} CountAbsent(rows: seq<Row>, portal: Portal)
    requires forall i :: 0 <= i < |rows| ==> rows[i].portal != portal
    ensures Count(rows, portal) == 0
  {
    if rows != [] {
      CountAbsent(rows[..|rows| - 1], portal);
    }
  }

  /** The next row joins its portal's queue. */
  lemma GroupedJoins(rows: seq<Row>, row: Row, names: seq<Portal>, queues: seq<seq<Row>>, g: nat)
    requires Grouped(rows, names, queues) && g < |names| && names[g] == row.portal
    ensures Grouped(rows + [row], names, queues[g := queues[g] + [row]])
  {
    assert (rows + [row])[..|rows|] == rows;
    forall h, i | 0 <= h < i < |names| ensures names[h] != names[i] {
    }
  }

  lemma GroupedOpens(rows: seq<Row>, row: Row, names: seq<Portal>, queues: seq<seq<Row>>)
    requires Grouped(rows, names, queues) && row.portal !in names
    ensures Grouped(rows + [row], names + [row.portal], queues + [[row]])
  {
    assert (rows + [row])[..|rows|] == rows;
    forall i | 0 <= i < |rows| ensures rows[i].portal != row.portal {
    }
    CountAbsent(rows, row.portal);
    forall g | 0 <= g < |names| ensures Nth(rows, names[g], 0) < |rows| {
      NthIs(rows, names[g], 0);
    }
  }

  method Group(rows: seq<Row>) returns (names: seq<Portal>, queues: seq<seq<Row>>)
    ensures Grouped(rows, names, queues)
  {
    names, queues := [], [];
    var n := 0;
    while n < |rows|
      invariant n <= |rows|
      invariant Grouped(rows[..n], names, queues)
    {
      var g := Find(names, rows[n].portal);
      assert rows[..n + 1] == rows[..n] + [rows[n]];
      if g < |names| {
        GroupedJoins(rows[..n], rows[n], names, queues, g);
        queues := queues[g := queues[g] + [rows[n]]];
      } else {
        GroupedOpens(rows[..n], rows[n], names, queues);
        names, queues := names + [rows[n].portal], queues + [[rows[n]]];
      }
      n := n + 1;
    }
    assert rows[..n] == rows;
  }

  method Find(names: seq<Portal>, portal: Portal) returns (g: nat)
    ensures g <= |names|
    ensures g < |names| ==> names[g] == portal
    ensures g == |names| ==> portal !in names
  {
    g := 0;
    while g < |names|
      invariant g <= |names| && portal !in names[..g]
    {
      if names[g] == portal {
        return;
      }
      g := g + 1;
    }
  }

  // ----------------------------------------------------------- round robin

  /** The rows served after r full rounds and the first g portals of the next one. */
  predicate Served(rows: seq<Row>, names: seq<Portal>, r: nat, g: nat, i: nat) {
    && i < |rows| && g <= |names|
    && (Rank(rows, i) < r || (Rank(rows, i) == r && rows[i].portal in names[..g]))
  }

  /** `order` serves exactly those rows, in schedule order. */
  ghost predicate Serves(rows: seq<Row>, names: seq<Portal>, r: nat, g: nat, order: seq<nat>) {
    && (forall i: nat :: i in order <==> Served(rows, names, r, g, i))
    && SortedBy(order, (i: nat, j: nat) => Before(rows, i, j))
  }

  /** What is left of each queue at that point. */
  ghost predicate Left(rows: seq<Row>, all: seq<seq<Row>>, queues: seq<seq<Row>>, r: nat, g: nat) {
    && |queues| == |all|
    && (forall h :: 0 <= h < |all| ==> queues[h] == Rest(all[h], if h < g then r + 1 else r))
  }

  function Rest(queue: seq<Row>, taken: nat): seq<Row> {
    if taken <= |queue| then queue[taken..] else []
  }

  /** The g-th portal has a row of rank r: it comes after everything served so far. */
  lemma ServeNext(rows: seq<Row>, names: seq<Portal>, all: seq<seq<Row>>, r: nat, g: nat, order: seq<nat>)
    requires Grouped(rows, names, all) && Serves(rows, names, r, g, order) && g < |names| && r < |all[g]|
    ensures Serves(rows, names, r, g + 1, order + [NthAt(rows, names[g], r)])
  {
    var x := NthAt(rows, names[g], r);
    NthIs(rows, names[g], r);
    forall i: nat
      ensures i in order + [x] <==> Served(rows, names, r, g + 1, i)
    {
      assert names[..g + 1] == names[..g] + [names[g]];
      if i < |rows| {
        NthOf(rows, i);
      }
    }
    forall y | y in order
      ensures Before(rows, y, x)
    {
      assert Served(rows, names, r, g, y);
      NthOf(rows, y);
    }
  }

  /** It has none: nothing changes. */
  lemma SkipNext(rows: seq<Row>, names: seq<Portal>, all: seq<seq<Row>>, r: nat, g: nat, order: seq<nat>)
    requires Grouped(rows, names, all) && Serves(rows, names, r, g, order) && g < |names| && |all[g]| <= r
    ensures Serves(rows, names, r, g + 1, order)
  {
    forall i: nat
      ensures Served(rows, names, r, g, i) <==> Served(rows, names, r, g + 1, i)
    {
      assert names[..g + 1] == names[..g] + [names[g]];
      if i < |rows| {
        NthOf(rows, i);
      }
    }
  }

  /** A full round over all portals is the next rank complete. */
  lemma RoundDone(rows: seq<Row>, names: seq<Portal>, all: seq<seq<Row>>, r: nat, order: seq<nat>)
    requires Grouped(rows, names, all) && Serves(rows, names, r, |names|, order)
    ensures Serves(rows, names, r + 1, 0, order)
  {
    assert names[..|names|] == names;
  }

  /** While rows are left, a round serves at least one more. */
  lemma RoundServes(rows: seq<Row>, names: seq<Portal>, r: nat, before: seq<nat>, after: seq<nat>)
    requires Serves(rows, names, r, 0, before) && Serves(rows, names, r + 1, 0, after)
    requires |before| < |rows| && before <= after
    ensures |before| < |after|
  {
    if forall i: nat :: i < |rows| ==> i in before {
      AllNamed(before, |rows|);
    } else {
      var i: nat :| i < |rows| && i !in before;
      NthOf(rows, i);
      var x := NthAt(rows, rows[i].portal, r);
      NthIs(rows, rows[i].portal, r);
      assert Served(rows, names, r + 1, 0, x) && !Served(rows, names, r, 0, x);
    }
  }

  lemma AllServed(rows: seq<Row>, names: seq<Portal>, r: nat, order: seq<nat>)
    requires Serves(rows, names, r, 0, order) && |rows| <= |order|
    ensures IsSchedule(rows, order)
  {
    SortedIsDistinct(rows, order);
    Pigeonhole(order, |rows|);
  }

  lemma SortedIsDistinct(rows: seq<Row>, order: seq<nat>)
    requires SortedBy(order, (i: nat, j: nat) => Before(rows, i, j))
    ensures Distinct(order)
  {
    forall a, b | 0 <= a < b < |order|
      ensures order[a] != order[b]
    {
      assert Before(rows, order[a], order[b]);
    }
  }

  /** Where the nested loops stand: r full rounds and g portals of the next one. */
  ghost predicate Progress(rows: seq<Row>, names: seq<Portal>, all: seq<seq<Row>>, queues: seq<seq<Row>>,
                           r: nat, g: nat, ordered: seq<Row>, order: seq<nat>) {
    && Grouped(rows, names, all) && g <= |names|
    && Serves(rows, names, r, g, order)
    && Left(rows, all, queues, r, g)
    && (forall k :: 0 <= k < |order| ==> order[k] < |rows|)
    && ordered == Pick(rows, order)
  }

  lemma ProgressServes(rows: seq<Row>, names: seq<Portal>, all: seq<seq<Row>>, queues: seq<seq<Row>>,
                       r: nat, g: nat, ordered: seq<Row>, order: seq<nat>)
    requires Progress(rows, names, all, queues, r, g, ordered, order) && g < |names| && queues[g] != []
    ensures r < |all[g]|
    ensures Progress(rows, names, all, queues[g := queues[g][1..]], r, g + 1,
                     ordered + [queues[g][0]], order + [NthAt(rows, names[g], r)])
  {
    ServeNext(rows, names, all, r, g, order);
    assert queues[g] == all[g][r..];
    assert queues[g][0] == all[g][r];
  }

  lemma ProgressSkips(rows: seq<Row>, names: seq<Portal>, all: seq<seq<Row>>, queues: seq<seq<Row>>,
                      r: nat, g: nat, ordered: seq<Row>, order: seq<nat>)
    requires Progress(rows, names, all, queues, r, g, ordered, order) && g < |names| && queues[g] == []
    ensures Progress(rows, names, all, queues, r, g + 1, ordered, order)
  {
    SkipNext(rows, names, all, r, g, order);
  }

  lemma ProgressTurns(rows: seq<Row>, names: seq<Portal>, all: seq<seq<Row>>, queues: seq<seq<Row>>,
                      r: nat, ordered: seq<Row>, order: seq<nat>)
    requires Progress(rows, names, all, queues, r, |names|, ordered, order)
    ensures Progress(rows, names, all, queues, r + 1, 0, ordered, order)
  {
    RoundDone(rows, names, all, r, order);
  }

  /** The schedule is a permutation of the input, each portal's rows spread one per round. */
  method RoundRobin(rows: seq<Row>) returns (ordered: seq<Row>, ghost order: seq<nat>)
    ensures Spread(rows, ordered)
    ensures IsSchedule(rows, order) && ordered == Pick(rows, order)
  {
    var names, queues := Group(rows);
    ghost var all := queues;
    ghost var r := 0;
    ordered, order := [], [];
    while |ordered| < |rows|
      invariant Progress(rows, names, all, queues, r, 0, ordered, order)
      decreases |rows| - |ordered|
    {
      ghost var before := order;
      var g := 0;
      while g < |queues|
        invariant Progress(rows, names, all, queues, r, g, ordered, order) && before <= order
      {
        if queues[g] != [] {
          ProgressServes(rows, names, all, queues, r, g, ordered, order);
          ordered := ordered + [queues[g][0]];
          order := order + [NthAt(rows, names[g], r)];
          queues := queues[g := queues[g][1..]];
        } else {
          ProgressSkips(rows, names, all, queues, r, g, ordered, order);
        }
        g := g + 1;
      }
      ProgressTurns(rows, names, all, queues, r, ordered, order);
      RoundServes(rows, names, r, before, order);
      r := r + 1;
    }
    AllServed(rows, names, r, order);
  }

  // ------------------------------------------------------ caps and the cut

  /** The first Cap(portal) rows of every portal, in order. */
  function Capped(rows: seq<Row>): seq<Row> {
    if rows == [] then []
    else
      var init := rows[..|rows| - 1];
      if Rank(rows, |rows| - 1) < Cap(rows[|rows| - 1].portal) then Capped(init) + [rows[|rows| - 1]] else Capped(init)
  }

  lemma {:induction false} CappedCount(rows: seq<Row>, portal: Portal)
    ensures Count(Capped(rows), portal) == Min(Count(rows, portal), Cap(portal))
  {
    if rows != [] {
      var init, last := rows[..|rows| - 1], rows[|rows| - 1];
      CappedCount(init, portal);
      assert (Capped(init) + [last])[..|Capped(init)|] == Capped(init);
    }
  }

  function Tallied(counts: map<Portal, nat>, portal: Portal): nat {
    if portal in counts then counts[portal] else 0
  }

  /** counts holds how many rows of each portal were kept. */
  ghost predicate Tally(rows: seq<Row>, counts: map<Portal, nat>) {
    forall portal :: Tallied(counts, portal) == Min(Count(rows, portal), Cap(portal))
  }

  lemma {:induction false} CountSnoc(rows: seq<Row>, row: Row, portal: Portal)
    ensures Count(rows + [row], portal) == Count(rows, portal) + if row.portal == portal then 1 else 0
  {
    assert (rows + [row])[..|rows|] == rows;
  }

  lemma {:induction false} CappedSnoc(rows: seq<Row>, row: Row)
    ensures Rank(rows + [row], |rows|) == Count(rows, row.portal)
    ensures Capped(rows + [row]) ==
            if Count(rows, row.portal) < Cap(row.portal) then Capped(rows) + [row] else Capped(rows)
  {
    assert (rows + [row])[..|rows|] == rows;
  }

  /** The counts after one more row. */
  function Counted(counts: map<Portal, nat>, portal: Portal): map<Portal, nat> {
    if Tallied(counts, portal) < Cap(portal) then counts[portal := Tallied(counts, portal) + 1] else counts
  }

  lemma {:induction false} TallyStep(rows: seq<Row>, row: Row, counts: map<Portal, nat>)
    requires Tally(rows, counts)
    ensures Tallied(counts, row.portal) < Cap(row.portal) <==> Count(rows, row.portal) < Cap(row.portal)
    ensures Tally(rows + [row], Counted(counts, row.portal))
  {
    assert Tallied(counts, row.portal) == Min(Count(rows, row.portal), Cap(row.portal));
    forall portal
      ensures Tallied(Counted(counts, row.portal), portal) == Min(Count(rows + [row], portal), Cap(portal))
    {
      CountSnoc(rows, row, portal);
      assert Tallied(counts, portal) == Min(Count(rows, portal), Cap(portal));
    }
  }

  /** The running count per portal keeps exactly the rows whose rank is below the cap. */
  method ApplyPortalCaps(rows: seq<Row>) returns (kept: seq<Row>)
    ensures kept == Capped(rows)
    ensures forall portal :: Count(kept, portal) == Min(Count(rows, portal), Cap(portal))
  {
    kept := [];
    var counts: map<Portal, nat> := map[];
    var n := 0;
    while n < |rows|
      invariant n <= |rows|
      invariant kept == Capped(rows[..n])
      invariant Tally(rows[..n], counts)
    {
      var portal := rows[n].portal;
      assert rows[..n + 1] == rows[..n] + [rows[n]];
      CappedSnoc(rows[..n], rows[n]);
      TallyStep(rows[..n], rows[n], counts);
      var count := Tallied(counts, portal);
      if count < Cap(portal) {
        counts := counts[portal := count + 1];
        kept := kept + [rows[n]];
      }
      n := n + 1;
    }
    assert rows[..n] == rows;
    forall portal ensures Count(kept, portal) == Min(Count(rows, portal), Cap(portal)) {
      CappedCount(rows, portal);
    }
  }

  /** The end index of slice(0, end) on a list of `length` items: a negative end counts from the back. */
  function SliceEnd(length: nat, end: int): (r: nat)
    ensures r <= length
  {
    if end < 0 then Max(0, length + end) else Min(end, length)
  }

  /** Caps, round robin, cut. */
  method PlanApplicationOrder(rows: seq<Row>, target: int) returns (plan: seq<Row>, ghost order: seq<nat>)
    ensures IsSchedule(Capped(rows), order)
    ensures plan == Pick(Capped(rows), order)[..SliceEnd(|Capped(rows)|, Min(target, RetryPolicy.MAX_DAILY))]
    ensures target >= 0 ==> |plan| == Min(|Capped(rows)|, Min(target, RetryPolicy.MAX_DAILY))
  {
    var kept := ApplyPortalCaps(rows);
    var ordered;
    ordered, order := RoundRobin(kept);
    plan := ordered[..SliceEnd(|ordered|, Min(target, RetryPolicy.MAX_DAILY))];
  }

  // -------------------------------------------------------------- fairness

  /** A prefix of the schedule holds, of each portal, exactly the rows of the lowest ranks. */
  lemma {:induction false} PrefixRanks(rows: seq<Row>, order: seq<nat>, m: nat, portal: Portal)
    requires IsSchedule(rows, order) && m <= |rows|
    ensures forall i :: 0 <= i < |rows| && rows[i].portal == portal ==>
              (i in order[..m] <==> Rank(rows, i) < Count(Pick(rows, order[..m]), portal))
  {
    if m > 0 {
      PrefixRanks(rows, order, m - 1, portal);
      var x := order[m - 1];
      assert order[..m] == order[..m - 1] + [x];
      assert Pick(rows, order[..m])[..m - 1] == Pick(rows, order[..m - 1]);
      if rows[x].portal == portal {
        NextRank(rows, order, m, portal);
        forall i | 0 <= i < |rows| && rows[i].portal == portal && Rank(rows, i) == Rank(rows, x)
          ensures i == x
        {
          NthOf(rows, i);
          NthOf(rows, x);
        }
      }
    }
  }

  /** The next row of a portal in the schedule has the next rank. */
  lemma NextRank(rows: seq<Row>, order: seq<nat>, m: nat, portal: Portal)
    requires IsSchedule(rows, order) && 0 < m <= |rows| && rows[order[m - 1]].portal == portal
    requires forall i :: 0 <= i < |rows| && rows[i].portal == portal ==>
               (i in order[..m - 1] <==> Rank(rows, i) < Count(Pick(rows, order[..m - 1]), portal))
    ensures Rank(rows, order[m - 1]) == Count(Pick(rows, order[..m - 1]), portal)
  {
    var x := order[m - 1];
    var c := Count(Pick(rows, order[..m - 1]), portal);
    assert x !in order[..m - 1] by {
      SortedIsDistinct(rows, order);
      assert forall k :: 0 <= k < m - 1 ==> order[..m - 1][k] == order[k];
    }
    NthOf(rows, x);
    var y := NthAt(rows, portal, c);
    NthIs(rows, portal, c);
    if y != x {
      assert order[..m] == order[..m - 1] + [x];
      PrefixFirst(rows, order, m, x, y);
    }
  }

  /** What is served before the cut comes before what is not. */
  lemma PrefixFirst(rows: seq<Row>, order: seq<nat>, m: nat, x: nat, y: nat)
    requires IsSchedule(rows, order) && m <= |rows| && x in order[..m] && y < |rows| && y !in order[..m]
    ensures Before(rows, x, y)
  {
    assert y in order && order == order[..m] + order[m..];
    var a :| 0 <= a < m && order[a] == x;
    var b :| 0 <= b < |order| - m && order[m..][b] == y;
    assert order[m + b] == y;
  }

  /**
   * After any cut the plan is max-min fair: no portal is more than one application ahead of a
   * portal that still has an allowed row left out.
   */
  lemma MaxMinFair(rows: seq<Row>, order: seq<nat>, m: nat, p: Portal, q: Portal)
    requires IsSchedule(rows, order) && m <= |rows|
    requires Count(Pick(rows, order)[..m], q) < Count(rows, q)
    ensures Count(Pick(rows, order)[..m], p) <= Count(Pick(rows, order)[..m], q) + 1
  {
    assert Pick(rows, order)[..m] == Pick(rows, order[..m]);
    CutIsFair(rows, order, m, p, q);
  }

  lemma CutIsFair(rows: seq<Row>, order: seq<nat>, m: nat, p: Portal, q: Portal)
    requires IsSchedule(rows, order) && m <= |rows|
    requires Count(Pick(rows, order[..m]), q) < Count(rows, q)
    ensures Count(Pick(rows, order[..m]), p) <= Count(Pick(rows, order[..m]), q) + 1
  {
    var c := Count(Pick(rows, order[..m]), q);
    var d := Count(Pick(rows, order[..m]), p);
    if d > 0 {
      var y := FirstLeftOut(rows, order, m, q);
      var x := LastTaken(rows, order, m, p);
      PrefixFirst(rows, order, m, x, y);
    }
  }

  lemma FirstLeftOut(rows: seq<Row>, order: seq<nat>, m: nat, q: Portal) returns (y: nat)
    requires IsSchedule(rows, order) && m <= |rows|
    requires Count(Pick(rows, order[..m]), q) < Count(rows, q)
    ensures y < |rows| && y !in order[..m] && Rank(rows, y) == Count(Pick(rows, order[..m]), q)
  {
    PrefixRanks(rows, order, m, q);
    y := NthAt(rows, q, Count(Pick(rows, order[..m]), q));
    NthIs(rows, q, Count(Pick(rows, order[..m]), q));
  }

  lemma LastTaken(rows: seq<Row>, order: seq<nat>, m: nat, p: Portal) returns (x: nat)
    requires IsSchedule(rows, order) && m <= |rows|
    requires Count(Pick(rows, order[..m]), p) > 0
    ensures x < |rows| && x in order[..m] && Rank(rows, x) == Count(Pick(rows, order[..m]), p) - 1
  {
    PrefixRanks(rows, order, m, p);
    PickedCount(rows, order, m, p);
    x := NthAt(rows, p, Count(Pick(rows, order[..m]), p) - 1);
    NthIs(rows, p, Count(Pick(rows, order[..m]), p) - 1);
  }

  /** A cut never holds more of a portal than there is. */
  lemma {:induction false} PickedCount(rows: seq<Row>, order: seq<nat>, m: nat, portal: Portal)
    requires IsSchedule(rows, order) && m <= |rows|
    ensures Count(Pick(rows, order[..m]), portal) <= Count(rows, portal)
  {
    if m > 0 {
      PickedCount(rows, order, m - 1, portal);
      assert Pick(rows, order[..m])[..m - 1] == Pick(rows, order[..m - 1]);
      if rows[order[m - 1]].portal == portal {
        PrefixRanks(rows, order, m - 1, portal);
        NextRank(rows, order, m, portal);
        NthOf(rows, order[m - 1]);
      }
    }
  }

  /** Nothing is duplicated or invented: what a plan takes of a portal is what its cap allows, or less. */
  lemma PlanWithinCaps(rows: seq<Row>, order: seq<nat>, m: nat, portal: Portal)
    requires IsSchedule(Capped(rows), order) && m <= |Capped(rows)|
    ensures Count(Pick(Capped(rows), order)[..m], portal) <= Min(Count(rows, portal), Cap(portal))
  {
    assert Pick(Capped(rows), order)[..m] == Pick(Capped(rows), order[..m]);
    PickedCount(Capped(rows), order, m, portal);
    CappedCount(rows, portal);
  }
}
