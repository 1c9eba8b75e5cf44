/** The nightly refit: one bounded step per component, rescaled to 100. */
module Learn {
  import opened Basics
  import opened Ranking

  const MAX_STEP := 0.25
  const MIN_EXAMPLES := 8

  /** A choice with its feature values; pairwise choices carry differences and mark 1. */
  datatype Example = Example(features: Vector, mark: int)

  // ---------------------------------------------------------------- signal

  function FeatureSum(examples: seq<Example>, mark: int, key: nat): real
    requires key < 5
  {
    if examples == [] then 0.0
    else
      var last := examples[|examples| - 1];
      FeatureSum(examples[..|examples| - 1], mark, key) + if last.mark == mark then last.features[key] else 0.0
  }

  function Labelled(examples: seq<Example>, mark: int): nat {
    if examples == [] then 0
    else Labelled(examples[..|examples| - 1], mark) + if examples[|examples| - 1].mark == mark then 1 else 0
  }

  function Mean(examples: seq<Example>, mark: int, key: nat): real
    requires key < 5
  {
    if Labelled(examples, mark) == 0 then 0.0 else FeatureSum(examples, mark, key) / Labelled(examples, mark) as real
  }

  /** Wanted against unwanted; a one-sided set of approvals says nothing. */
  function Signal(examples: seq<Example>, pairwise: nat, key: nat): real
    requires key < 5
  {
    if Labelled(examples, 0) == 0 && pairwise == 0 then 0.0 else Mean(examples, 1, key) - Mean(examples, 0, key)
  }

  function Sign(x: real): real {
    if x > 0.0 then 1.0 else if x < 0.0 then -1.0 else 0.0
  }

  function Abs(x: real): real {
    if x < 0.0 then -x else x
  }

  function Least(a: real, b: real): real {
    if a <= b then a else b
  }

  /** One step as the loop computes it. */
  function Step(x: real, signal: real): (r: real)
    ensures r == Part(x, Factor(signal))
  {
    var direction := Sign(signal);
    var magnitude := Least(Abs(signal) / 100.0, 1.0);
    x * (1.0 + direction * magnitude * MAX_STEP)
  }

  /** How one component is moved: a quarter at most, up or down. */
  function Factor(signal: real): real {
    1.0 + Sign(signal) * Least(Abs(signal) / 100.0, 1.0) * MAX_STEP
  }

  lemma FactorInRange(signal: real)
    ensures 0.75 <= Factor(signal) <= 1.25
    ensures signal == 0.0 ==> Factor(signal) == 1.0
  {
  }

  // ----------------------------------------------------------- one refit

  function Positive(x: real): real {
    if x > 0.0 then x else 0.0
  }

  function Clipped(v: Vector): Vector {
    [Positive(v[0]), Positive(v[1]), Positive(v[2]), Positive(v[3]), Positive(v[4])]
  }

  function Normalise(v: Vector): Vector {
    if Total(Clipped(v)) <= 0.0 then DEFAULTS else Scaled(Clipped(v), 100.0 / Total(Clipped(v)))
  }

  /** Component k after its step. */
  function MovedAt(current: Vector, examples: seq<Example>, pairwise: nat, k: nat): real
    requires k < 5
  {
    Part(current[k], Factor(Signal(examples, pairwise, k)))
  }

  function Moved(current: Vector, examples: seq<Example>, pairwise: nat): Vector {
    [MovedAt(current, examples, pairwise, 0), MovedAt(current, examples, pairwise, 1), MovedAt(current, examples, pairwise, 2),
     MovedAt(current, examples, pairwise, 3), MovedAt(current, examples, pairwise, 4)]
  }

  predicate Differs(a: Vector, b: Vector) {
    exists k :: 0 <= k < 5 && Abs(a[k] - b[k]) > 0.5
  }

  /** The weights one night leaves stored: unchanged below eight examples or without a visible change. */
  function Refit(stored: Option<Raw>, examples: seq<Example>, pairwise: nat): Option<Raw> {
    var current := Read(stored);
    var next := Normalise(Moved(current, examples, pairwise));
    if |examples| < MIN_EXAMPLES || !Differs(next, current) then stored else Some(Stored(next))
  }

  // -------------------------------------------------------------- bounds

  lemma MovedInRange(current: Vector, examples: seq<Example>, pairwise: nat, k: nat)
    requires k < 5 && current[k] >= 0.0
    ensures 0.75 * current[k] <= MovedAt(current, examples, pairwise, k) <= 1.25 * current[k]
    ensures MovedAt(current, examples, pairwise, k) >= 0.0
    ensures Signal(examples, pairwise, k) == 0.0 ==> MovedAt(current, examples, pairwise, k) == current[k]
  {
    var x, f := current[k], Factor(Signal(examples, pairwise, k));
    FactorInRange(Signal(examples, pairwise, k));
    NonNegative(x, f - 0.75);
    NonNegative(x, 1.25 - f);
  }

  lemma Between(low: Vector, m: Vector)
    requires forall k :: 0 <= k < 5 ==> 0.75 * low[k] <= m[k] <= 1.25 * low[k]
    ensures 0.75 * Total(low) <= Total(m) <= 1.25 * Total(low)
  {
  }

  lemma NothingToClip(m: Vector)
    requires forall k :: 0 <= k < 5 ==> m[k] >= 0.0
    ensures Clipped(m) == m
  {
  }

  /** Moving keeps every component within a quarter of itself, so the total stays between 75 and 125. */
  lemma MovedTotals(current: Vector, examples: seq<Example>, pairwise: nat)
    requires Balanced(current)
    ensures var m := Moved(current, examples, pairwise);
            && (forall k :: 0 <= k < 5 ==> 0.75 * current[k] <= m[k] <= 1.25 * current[k] && m[k] >= 0.0)
            && Clipped(m) == m && 75.0 <= Total(m) <= 125.0
  {
    var m := Moved(current, examples, pairwise);
    forall k | 0 <= k < 5
      ensures 0.75 * current[k] <= m[k] <= 1.25 * current[k] && m[k] >= 0.0
    {
      MovedInRange(current, examples, pairwise, k);
      assert m[k] == MovedAt(current, examples, pairwise, k);
    }
    Between(current, m);
    NothingToClip(m);
  }

  lemma ScaleInRange(total: real)
    requires 75.0 <= total <= 125.0
    ensures 0.8 <= 100.0 / total <= 4.0 / 3.0
  {
    var scale := 100.0 / total;
    assert scale * total == 100.0;
    NonNegative(scale, total - 75.0);
    NonNegative(scale, 125.0 - total);
  }

  lemma Rescaled(x: real, m: real, scale: real)
    requires x >= 0.0 && 0.75 * x <= m <= 1.25 * x && 0.8 <= scale <= 4.0 / 3.0
    ensures 0.6 * x <= m * scale <= 5.0 / 3.0 * x
  {
    NonNegative(m, scale - 0.8);
    NonNegative(m, 4.0 / 3.0 - scale);
  }

  lemma ScaledAt(v: Vector, scale: real, k: nat)
    requires k < 5
    ensures Scaled(v, scale)[k] == v[k] * scale
  {
  }

  /** The weights after one refit stay balanced, and each has been multiplied by a factor between 3/5 and 5/3. */
  lemma RefitBounds(current: Vector, examples: seq<Example>, pairwise: nat)
    requires Balanced(current)
    ensures var next := Normalise(Moved(current, examples, pairwise));
            && Balanced(next)
            && (forall k :: 0 <= k < 5 ==> 0.6 * current[k] <= next[k] <= 5.0 / 3.0 * current[k])
  {
    var m := Moved(current, examples, pairwise);
    MovedTotals(current, examples, pairwise);
    ScaleBalances(m);
    ScaleInRange(Total(m));
    forall k | 0 <= k < 5
      ensures 0.6 * current[k] <= Scaled(m, 100.0 / Total(m))[k] <= 5.0 / 3.0 * current[k]
    {
      ScaledInRange(current[k], m, 100.0 / Total(m), k);
    }
  }

  lemma ScaledInRange(x: real, m: Vector, scale: real, k: nat)
    requires k < 5 && x >= 0.0 && 0.75 * x <= m[k] <= 1.25 * x && 0.8 <= scale <= 4.0 / 3.0
    ensures 0.6 * x <= Scaled(m, scale)[k] <= 5.0 / 3.0 * x
  {
    ScaledAt(m, scale, k);
    Rescaled(x, m[k], scale);
  }

  /** Without any rejection or pairwise choice a refit changes nothing. */
  lemma ApprovalsAloneSayNothing(stored: Option<Raw>, examples: seq<Example>)
    requires Labelled(examples, 0) == 0
    ensures Refit(stored, examples, 0) == stored
  {
    var current := Read(stored);
    ReadIsBalanced(stored);
    forall k | 0 <= k < 5 ensures Moved(current, examples, 0)[k] == current[k] {
      assert Signal(examples, 0, k) == 0.0;
      MovedInRange(current, examples, 0, k);
    }
    assert Moved(current, examples, 0) == current;
    StaysNormal(current);
  }

  lemma StaysNormal(v: Vector)
    requires Balanced(v)
    ensures Normalise(v) == v
  {
    NothingToClip(v);
    forall k | 0 <= k < 5 ensures Scaled(v, 1.0)[k] == v[k] {
      ScaledAt(v, 1.0, k);
    }
    assert Scaled(v, 1.0) == v;
    assert 100.0 / Total(v) == 1.0;
  }

  // ------------------------------------------------------------ many nights

  datatype Night = Night(examples: seq<Example>, pairwise: nat)

  function Refits(stored: Option<Raw>, nights: seq<Night>): Option<Raw> {
    if nights == [] then stored
    else Refit(Refits(stored, nights[..|nights| - 1]), nights[|nights| - 1].examples, nights[|nights| - 1].pairwise)
  }

  /** What is left of a weight that shrinks to three fifths every night. */
  function Shrunk(start: real, n: nat): real {
    if n == 0 then start else 0.6 * Shrunk(start, n - 1)
  }

  lemma {:induction false} ShrunkIsPositive(start: real, n: nat)
    requires start > 0.0
    ensures Shrunk(start, n) > 0.0
  {
    if n > 0 {
      ShrunkIsPositive(start, n - 1);
    }
  }

  lemma NightBounds(stored: Option<Raw>, night: Night, k: nat)
    requires k < 5
    ensures 0.6 * Read(stored)[k] <= Read(Refit(stored, night.examples, night.pairwise))[k] <= 5.0 / 3.0 * Read(stored)[k]
  {
    ReadIsBalanced(stored);
    RefitBounds(Read(stored), night.examples, night.pairwise);
    ReadKeeps(Normalise(Moved(Read(stored), night.examples, night.pairwise)));
  }

  /**
   * Over any number of nights the weights in force stay non-negative and sum to 100, and after n
   * of them no weight has fallen below (3/5)^n of where it began: none is ever lost.
   */
  lemma {:induction false} DriftIsBounded(stored: Option<Raw>, nights: seq<Night>, k: nat)
    requires k < 5
    ensures Balanced(Read(Refits(stored, nights)))
    ensures Read(Refits(stored, nights))[k] >= Shrunk(Read(stored)[k], |nights|)
    ensures Read(stored)[k] > 0.0 ==> Read(Refits(stored, nights))[k] > 0.0
  {
    ReadIsBalanced(Refits(stored, nights));
    if nights != [] {
      var init := nights[..|nights| - 1];
      DriftIsBounded(stored, init, k);
      NightBounds(Refits(stored, init), nights[|nights| - 1], k);
    }
    if Read(stored)[k] > 0.0 {
      ShrunkIsPositive(Read(stored)[k], |nights|);
    }
  }

  // ------------------------------------------------------ the loop in place

  /** One night as the program runs it. */
  method RefitWeights(stored: Option<Raw>, examples: seq<Example>, pairwise: nat)
    returns (weights: Vector, changed: bool, after: Option<Raw>)
    ensures after == Refit(stored, examples, pairwise)
    ensures Balanced(weights)
    ensures changed <==> |examples| >= MIN_EXAMPLES && Differs(weights, Read(stored))
    ensures |examples| < MIN_EXAMPLES ==> weights == Read(stored)
    ensures |examples| >= MIN_EXAMPLES ==> weights == Normalise(Moved(Read(stored), examples, pairwise))
  {
    var current := ReadWeights(stored);
    weights, changed, after := current, false, stored;
    if |examples| < MIN_EXAMPLES {
      return;
    }
    var next := current;
    var key := 0;
    while key < 5
      invariant 0 <= key <= 5
      invariant forall k: nat | k < key :: next[k] == MovedAt(current, examples, pairwise, k)
      invariant forall k :: key <= k < 5 ==> next[k] == current[k]
    {
      var signal := Signal(examples, pairwise, key);
      MovedInRange(current, examples, pairwise, key);
      if signal != 0.0 {
        next := next[key := Step(current[key], signal)];
      }
      key := key + 1;
    }
    assert next == Moved(current, examples, pairwise);
    RefitBounds(current, examples, pairwise);
    weights := Normalise(next);
    changed := Differs(weights, current);
    if changed {
      after := Some(Stored(weights));
    }
  }
}
