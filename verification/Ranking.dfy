/** Scoring a job: weights that sum to 100, rounded components, the location cap, and the verdict. */
module Ranking {
  import opened Basics
  import Sizes

  /** One number per component, in the order coverage, stack, experience, seniority, location. */
  type Vector = s: seq<real> | |s| == 5 witness [0.0, 0.0, 0.0, 0.0, 0.0]

  const COVERAGE := 0
  const STACK := 1
  const EXPERIENCE := 2
  const SENIORITY := 3
  const LOCATION := 4

  const DEFAULTS: Vector := [45.0, 20.0, 12.0, 8.0, 15.0]

  function Total(v: Vector): real {
    v[0] + v[1] + v[2] + v[3] + v[4]
  }

  function Scaled(v: Vector, scale: real): Vector {
    [v[0] * scale, v[1] * scale, v[2] * scale, v[3] * scale, v[4] * scale]
  }

  /** Non-negative and summing to 100. */
  predicate Balanced(v: Vector) {
    v[0] >= 0.0 && v[1] >= 0.0 && v[2] >= 0.0 && v[3] >= 0.0 && v[4] >= 0.0 && Total(v) == 100.0
  }

  // --------------------------------------------------------------- weights

  /** Stored overrides after number conversion: None where the value is not a finite number. */
  type Raw = s: seq<Option<real>> | |s| == 5 witness [None, None, None, None, None]

  predicate Usable(x: Option<real>) {
    x.Some? && 0.0 <= x.value <= 100.0
  }

  function Override(raw: Raw, i: nat): real
    requires i < 5
  {
    if Usable(raw[i]) then raw[i].value else DEFAULTS[i]
  }

  function Overridden(raw: Raw): Vector {
    [Override(raw, 0), Override(raw, 1), Override(raw, 2), Override(raw, 3), Override(raw, 4)]
  }

  /** What stored weights are read as. */
  function Read(value: Option<Raw>): Vector {
    if value.None? || (forall i :: 0 <= i < 5 ==> !Usable(value.value[i])) || Total(Overridden(value.value)) == 0.0 then DEFAULTS
    else Scaled(Overridden(value.value), 100.0 / Total(Overridden(value.value)))
  }

  function Stored(v: Vector): Raw {
    [Some(v[0]), Some(v[1]), Some(v[2]), Some(v[3]), Some(v[4])]
  }

  lemma ScaleSums(v: Vector, scale: real)
    ensures Total(Scaled(v, scale)) == Total(v) * scale
  {
  }

  lemma NonNegative(a: real, b: real)
    requires a >= 0.0 && b >= 0.0
    ensures a * b >= 0.0
  {
  }

  lemma ScaleBalances(v: Vector)
    requires Total(v) > 0.0 && forall i :: 0 <= i < 5 ==> v[i] >= 0.0
    ensures Balanced(Scaled(v, 100.0 / Total(v)))
  {
    var scale := 100.0 / Total(v);
    ScaleSums(v, scale);
    assert Total(v) * scale == 100.0;
    NonNegative(v[0], scale);
    NonNegative(v[1], scale);
    NonNegative(v[2], scale);
    NonNegative(v[3], scale);
    NonNegative(v[4], scale);
  }

  /** Whatever was stored, the weights read are non-negative and sum to 100. */
  lemma ReadIsBalanced(value: Option<Raw>)
    ensures Balanced(Read(value))
  {
    if Read(value) != DEFAULTS {
      var o := Overridden(value.value);
      assert forall i :: 0 <= i < 5 ==> o[i] == Override(value.value, i) >= 0.0;
      ScaleBalances(o);
    }
  }

  /** Balanced weights survive being stored and read again. */
  lemma ReadKeeps(v: Vector)
    requires Balanced(v)
    ensures Read(Some(Stored(v))) == v
  {
    var raw := Stored(v);
    assert forall i :: 0 <= i < 5 ==> raw[i] == Some(v[i]) && Usable(raw[i]);
    assert Overridden(raw) == v;
    assert Usable(raw[0]);
  }

  /** The loop over the components, one override at a time. */
  method ReadWeights(value: Option<Raw>) returns (weights: Vector)
    ensures weights == Read(value) && Balanced(weights)
  {
    ReadIsBalanced(value);
    if value.None? {
      return DEFAULTS;
    }
    var raw := value.value;
    weights := DEFAULTS;
    var touched := false;
    var i := 0;
    while i < 5
      invariant 0 <= i <= 5
      invariant forall k :: 0 <= k < i ==> weights[k] == Override(raw, k)
      invariant forall k :: i <= k < 5 ==> weights[k] == DEFAULTS[k]
      invariant touched <==> exists k :: 0 <= k < i && Usable(raw[k])
    {
      if raw[i].Some? && raw[i].value >= 0.0 && raw[i].value <= 100.0 {
        weights := weights[i := raw[i].value];
        touched := true;
      }
      i := i + 1;
    }
    assert weights == Overridden(raw);
    if !touched {
      return DEFAULTS;
    }
    var total := Total(weights);
    if total == 0.0 {
      return DEFAULTS;
    }
    weights := Scaled(weights, 100.0 / total);
  }

  // ---------------------------------------------------------------- skills

  /** An umbrella skill and the concrete ones that demonstrate it. */
  datatype Rule = Rule(umbrella: string, evidence: seq<string>)

  predicate Demonstrated(rule: Rule, profile: set<string>) {
    exists k :: 0 <= k < |rule.evidence| && rule.evidence[k] in profile
  }

  function Implied(rules: seq<Rule>, profile: set<string>): set<string> {
    profile + set k | 0 <= k < |rules| && Demonstrated(rules[k], profile) :: rules[k].umbrella
  }

  /** The loop tests the evidence against the profile as given, so umbrellas do not imply one another. */
  method WithImpliedSkills(rules: seq<Rule>, profile: set<string>) returns (expanded: set<string>)
    ensures expanded == Implied(rules, profile)
  {
    expanded := profile;
    var i := 0;
    while i < |rules|
      invariant i <= |rules|
      invariant expanded == Implied(rules[..i], profile)
    {
      assert rules[..i + 1] == rules[..i] + [rules[i]];
      ImpliedNext(rules[..i], rules[i], profile);
      if rules[i].umbrella !in expanded && Demonstrated(rules[i], profile) {
        expanded := expanded + {rules[i].umbrella};
      }
      i := i + 1;
    }
    assert rules[..i] == rules;
  }

  lemma ImpliedNext(rules: seq<Rule>, rule: Rule, profile: set<string>)
    ensures Implied(rules + [rule], profile) ==
            Implied(rules, profile) + if Demonstrated(rule, profile) then {rule.umbrella} else {}
  {
    var more := rules + [rule];
    forall x | x in Implied(rules, profile)
      ensures x in Implied(more, profile)
    {
      if x !in profile {
        var k :| 0 <= k < |rules| && Demonstrated(rules[k], profile) && rules[k].umbrella == x;
        assert more[k] == rules[k];
      }
    }
    if Demonstrated(rule, profile) {
      assert more[|rules|] == rule;
    }
    forall x | x in Implied(more, profile)
      ensures x in Implied(rules, profile) || (Demonstrated(rule, profile) && x == rule.umbrella)
    {
      if x !in profile {
        var k :| 0 <= k < |more| && Demonstrated(more[k], profile) && more[k].umbrella == x;
      }
    }
  }

  lemma ImpliedGrows(rules: seq<Rule>, profile: set<string>, more: set<string>)
    requires profile <= more
    ensures Implied(rules, profile) <= Implied(rules, more)
  {
    forall rule | Demonstrated(rule, profile)
      ensures Demonstrated(rule, more)
    {
      var k :| 0 <= k < |rule.evidence| && rule.evidence[k] in profile;
    }
  }

  // ------------------------------------------------------------ components

  datatype Decision = Eligible | InsufficientSkills | ExperienceMismatch | SeniorityMismatch | LocationMismatch | BelowThreshold

  datatype Component = Component(ratio: real, weak: bool)

  function Matched(required: seq<string>, profile: set<string>): nat {
    if required == [] then 0
    else Matched(required[..|required| - 1], profile) + if required[|required| - 1] in profile then 1 else 0
  }

  function Coverage(required: seq<string>, profile: set<string>): Component {
    if required == [] then Component(0.5, false)
    else
      var ratio := Matched(required, profile) as real / |required| as real;
      Component(ratio, ratio < 0.5)
  }

  /** The skills a stack is compared with: the core ones, or all of them when none is core. */
  function Base(isCore: string -> bool, expanded: set<string>): set<string> {
    var core := set x | x in expanded && isCore(x);
    if core == {} then expanded else core
  }

  function Stack(jobSkills: set<string>, base: set<string>): Component {
    var shared := |jobSkills * base|;
    Component(if shared >= 5 then 1.0 else shared as real / 5.0, shared == 0)
  }

  function Experience(required: Option<real>, years: real): Component {
    if required.None? then Component(0.7, false)
    else if required.value <= years then Component(1.0, false)
    else if required.value - years <= 1.0 then Component(0.7, false)
    else if required.value - years <= 3.0 then Component(0.3, true)
    else Component(0.0, true)
  }

  function Seniority(junior: bool, senior: bool, wantsSenior: bool): Component {
    if junior && wantsSenior then Component(0.2, true)
    else if wantsSenior && !senior then Component(0.7, false)
    else Component(1.0, false)
  }

  datatype Remote = FullyRemote | Hybrid | OnSite

  /** What the location texts say: any wish at all, a shared token, the remote mode, and its reach. */
  datatype Place = Place(wished: bool, matches: bool, remote: Remote, worldwide: bool, restricted: bool)

  function Location(p: Place): Component {
    if !p.wished || p.matches then Component(1.0, false)
    else
      match p.remote
      case FullyRemote => if p.worldwide || !p.restricted then Component(1.0, false) else Component(0.2, true)
      case Hybrid => Component(0.15, true)
      case OnSite => Component(0.05, true)
  }

  // ----------------------------------------------------------------- score

  function Round(x: real): int {
    (x + 0.5).Floor
  }

  /** What the scorer reads of a job and a candidate, after the texts were classified. */
  datatype Case = Case(
    required: seq<string>,
    jobSkills: set<string>,
    wantedYears: Option<real>,
    years: real,
    junior: bool,
    senior: bool,
    wantsSenior: bool,
    place: Place,
    fit: real,
    minimum: int)

  /** A ratio's share of a weight, before rounding. */
  function Part(ratio: real, weight: real): real {
    ratio * weight
  }

  function Ratios(c: Case, expanded: set<string>, isCore: string -> bool): Vector {
    [Part(Coverage(c.required, expanded).ratio, c.fit),
     Part(Stack(c.jobSkills, Base(isCore, expanded)).ratio, c.fit),
     Experience(c.wantedYears, c.years).ratio,
     Seniority(c.junior, c.senior, c.wantsSenior).ratio,
     Location(c.place).ratio]
  }

  function Parts(ratios: Vector, weights: Vector): Vector {
    [Part(ratios[0], weights[0]), Part(ratios[1], weights[1]), Part(ratios[2], weights[2]),
     Part(ratios[3], weights[3]), Part(ratios[4], weights[4])]
  }

  function RoundAll(v: Vector): int {
    Round(v[0]) + Round(v[1]) + Round(v[2]) + Round(v[3]) + Round(v[4])
  }

  function RoundedSum(ratios: Vector, weights: Vector): int {
    RoundAll(Parts(ratios, weights))
  }

  function ExactSum(ratios: Vector, weights: Vector): real {
    Total(Parts(ratios, weights))
  }

  const LOCATION_CAP := 70

  function Score(ratios: Vector, weights: Vector): int {
    var raw := RoundedSum(ratios, weights);
    var capped := if ratios[LOCATION] <= 0.2 then Min(raw, LOCATION_CAP) else raw;
    Max(0, Min(100, capped))
  }

  lemma RoundNear(x: real)
    ensures x - 0.5 < Round(x) as real <= x + 0.5
  {
  }

  lemma RoundGrows(x: real, y: real)
    requires x <= y
    ensures Round(x) <= Round(y)
  {
  }

  lemma RoundAllNear(v: Vector)
    ensures Total(v) - 2.5 <= RoundAll(v) as real <= Total(v) + 2.5
  {
    RoundNear(v[0]);
    RoundNear(v[1]);
    RoundNear(v[2]);
    RoundNear(v[3]);
    RoundNear(v[4]);
  }

  /** Five roundings move the sum by at most two and a half points. */
  lemma RoundingIsSmall(ratios: Vector, weights: Vector)
    ensures ExactSum(ratios, weights) - 2.5 <= RoundedSum(ratios, weights) as real <= ExactSum(ratios, weights) + 2.5
  {
    RoundAllNear(Parts(ratios, weights));
  }

  /** The score is a percentage, and a job in the wrong place never gets past 70. */
  lemma ScoreInRange(ratios: Vector, weights: Vector)
    ensures 0 <= Score(ratios, weights) <= 100
    ensures ratios[LOCATION] <= 0.2 ==> Score(ratios, weights) <= 70
  {
  }

  predicate RatiosInRange(r: Vector) {
    forall i :: 0 <= i < 5 ==> 0.0 <= r[i] <= 1.0
  }

  lemma {:induction false} MatchedAtMost(required: seq<string>, profile: set<string>)
    ensures Matched(required, profile) <= |required|
  {
    if required != [] {
      MatchedAtMost(required[..|required| - 1], profile);
    }
  }

  lemma Fraction(a: nat, b: nat)
    requires a <= b && b > 0
    ensures 0.0 <= a as real / b as real <= 1.0
  {
  }

  lemma ProductInRange(a: real, b: real)
    requires 0.0 <= a <= 1.0 && 0.0 <= b <= 1.0
    ensures 0.0 <= Part(a, b) <= 1.0
  {
    NonNegative(a, b);
    NonNegative(1.0 - a, b);
  }

  lemma RatiosAreRatios(c: Case, expanded: set<string>, isCore: string -> bool)
    requires 0.0 <= c.fit <= 1.0
    ensures RatiosInRange(Ratios(c, expanded, isCore))
  {
    MatchedAtMost(c.required, expanded);
    if c.required != [] {
      Fraction(Matched(c.required, expanded), |c.required|);
    }
    ProductInRange(Coverage(c.required, expanded).ratio, c.fit);
    ProductInRange(Stack(c.jobSkills, Base(isCore, expanded)).ratio, c.fit);
  }

  lemma PartInRange(ratio: real, weight: real)
    requires 0.0 <= ratio <= 1.0 && weight >= 0.0
    ensures 0.0 <= Part(ratio, weight) <= weight
  {
    NonNegative(ratio, weight);
    NonNegative(1.0 - ratio, weight);
  }

  lemma TotalsCompare(low: Vector, high: Vector)
    requires forall i :: 0 <= i < 5 ==> low[i] <= high[i]
    ensures Total(low) <= Total(high)
  {
  }

  /** With balanced weights the exact sum itself lies between 0 and 100, so rounding alone can push it out. */
  lemma ExactInRange(ratios: Vector, weights: Vector)
    requires RatiosInRange(ratios) && Balanced(weights)
    ensures 0.0 <= ExactSum(ratios, weights) <= 100.0
    ensures -2.5 <= RoundedSum(ratios, weights) as real <= 102.5
  {
    var parts := Parts(ratios, weights);
    forall i | 0 <= i < 5 ensures 0.0 <= parts[i] <= weights[i] {
      PartInRange(ratios[i], weights[i]);
    }
    TotalsCompare([0.0, 0.0, 0.0, 0.0, 0.0], parts);
    TotalsCompare(parts, weights);
    RoundingIsSmall(ratios, weights);
  }

  /**
   * The score of a whole case: between 0 and 100, at most 70 in the wrong place, and otherwise
   * within two and a half points of the exact weighted sum, which itself lies between 0 and 100.
   */
  lemma CaseScores(c: Case, expanded: set<string>, isCore: string -> bool, weights: Vector)
    requires 0.0 <= c.fit <= 1.0 && Balanced(weights)
    ensures var ratios := Ratios(c, expanded, isCore);
            var exact, score := ExactSum(ratios, weights), Score(ratios, weights);
            && 0.0 <= exact <= 100.0 && 0 <= score <= 100
            && (if ratios[LOCATION] <= 0.2 then score <= 70 else exact - 2.5 <= score as real <= exact + 2.5)
  {
    var ratios := Ratios(c, expanded, isCore);
    RatiosAreRatios(c, expanded, isCore);
    ExactInRange(ratios, weights);
    RoundingIsSmall(ratios, weights);
  }

  // ----------------------------------------------------------- monotonicity

  lemma {:induction false} MatchedGrows(required: seq<string>, profile: set<string>, more: set<string>)
    requires profile <= more
    ensures Matched(required, profile) <= Matched(required, more)
  {
    if required != [] {
      MatchedGrows(required[..|required| - 1], profile, more);
    }
  }

  lemma QuotientGrows(a: nat, b: nat, n: nat)
    requires a <= b && n > 0
    ensures a as real / n as real <= b as real / n as real
  {
  }

  lemma CoverageGrows(required: seq<string>, profile: set<string>, more: set<string>)
    requires profile <= more
    ensures Coverage(required, profile).ratio <= Coverage(required, more).ratio
  {
    MatchedGrows(required, profile, more);
    if required != [] {
      QuotientGrows(Matched(required, profile), Matched(required, more), |required|);
    }
  }

  lemma StackGrows(jobSkills: set<string>, base: set<string>, more: set<string>)
    requires base <= more
    ensures Stack(jobSkills, base).ratio <= Stack(jobSkills, more).ratio
  {
    Sizes.SubsetSize(jobSkills * base, jobSkills * more);
  }

  /** Adding skills keeps the basis of comparison, except when it turns up the first core skill of a profile without any. */
  predicate BaseSafe(isCore: string -> bool, expanded: set<string>, more: set<string>) {
    || (exists x :: x in expanded && isCore(x))
    || (forall x :: x in more ==> !isCore(x))
    || expanded == {}
  }

  lemma BaseGrowsExactly(isCore: string -> bool, expanded: set<string>, more: set<string>)
    requires expanded <= more
    ensures Base(isCore, expanded) <= Base(isCore, more) <==> BaseSafe(isCore, expanded, more)
  {
    var core := set x | x in expanded && isCore(x);
    var moreCore := set x | x in more && isCore(x);
    if core != {} {
      var x :| x in core;
      assert isCore(x) && x in expanded && x in moreCore;
    } else if moreCore != {} {
      var y :| y in moreCore;
      assert Base(isCore, more) == moreCore && y in more && isCore(y);
      assert forall z :: z in expanded && isCore(z) ==> z in core;
      if x :| x in expanded {
        assert x in Base(isCore, expanded) && x !in moreCore;
      }
    } else {
      assert forall x :: x in more ==> !(isCore(x) && x !in moreCore);
    }
  }

  /**
   * When the stack component can only rise: for every posting at once, adding skills never lowers
   * it exactly when the before profile already had a core skill, or the new one still has none, or
   * the before one was empty.
   */
  lemma StackMonotoneExactly(isCore: string -> bool, expanded: set<string>, more: set<string>)
    requires expanded <= more
    ensures (forall jobSkills: set<string> ::
               Stack(jobSkills, Base(isCore, expanded)).ratio <= Stack(jobSkills, Base(isCore, more)).ratio)
            <==> BaseSafe(isCore, expanded, more)
  {
    BaseGrowsExactly(isCore, expanded, more);
    var before, after := Base(isCore, expanded), Base(isCore, more);
    if before <= after {
      forall jobSkills: set<string> ensures Stack(jobSkills, before).ratio <= Stack(jobSkills, after).ratio {
        StackGrows(jobSkills, before, after);
      }
    } else {
      var x :| x in before && x !in after;
      assert {x} * before == {x} && {x} * after == {};
      assert Stack({x}, before).ratio > Stack({x}, after).ratio;
    }
  }

  lemma PartGrows(a: real, b: real, w: real)
    requires a <= b && w >= 0.0
    ensures Part(a, w) <= Part(b, w)
  {
    NonNegative(b - a, w);
  }

  lemma RoundAllGrows(low: Vector, high: Vector)
    requires forall i :: 0 <= i < 5 ==> low[i] <= high[i]
    ensures RoundAll(low) <= RoundAll(high)
  {
    RoundGrows(low[0], high[0]);
    RoundGrows(low[1], high[1]);
    RoundGrows(low[2], high[2]);
    RoundGrows(low[3], high[3]);
    RoundGrows(low[4], high[4]);
  }

  /** The score rises with every ratio but the location's, which stays. */
  lemma ScoreGrows(low: Vector, high: Vector, weights: Vector)
    requires Balanced(weights) && low[4] == high[4]
    requires forall i :: 0 <= i < 5 ==> low[i] <= high[i]
    ensures Score(low, weights) <= Score(high, weights)
  {
    forall i | 0 <= i < 5 ensures Parts(low, weights)[i] <= Parts(high, weights)[i] {
      PartGrows(low[i], high[i], weights[i]);
    }
    RoundAllGrows(Parts(low, weights), Parts(high, weights));
  }

  /** The two skill ratios rise with the profile; the other three do not look at it. */
  lemma RatiosGrow(c: Case, p: set<string>, q: set<string>, isCore: string -> bool)
    requires p <= q && 0.0 <= c.fit && Base(isCore, p) <= Base(isCore, q)
    ensures Ratios(c, p, isCore)[4] == Ratios(c, q, isCore)[4]
    ensures forall i :: 0 <= i < 5 ==> Ratios(c, p, isCore)[i] <= Ratios(c, q, isCore)[i]
  {
    CoverageGrows(c.required, p, q);
    StackGrows(c.jobSkills, Base(isCore, p), Base(isCore, q));
    PartGrows(Coverage(c.required, p).ratio, Coverage(c.required, q).ratio, c.fit);
    PartGrows(Stack(c.jobSkills, Base(isCore, p)).ratio, Stack(c.jobSkills, Base(isCore, q)).ratio, c.fit);
  }

  /**
   * For a profile that keeps its basis of comparison, adding skills never lowers the score of any
   * posting, so it never turns an accepted job into a rejected one.
   */
  lemma MoreSkillsNeverHurt(c: Case, rules: seq<Rule>, isCore: string -> bool, skills: set<string>, more: set<string>, weights: Vector)
    requires skills <= more && 0.0 <= c.fit && Balanced(weights)
    requires BaseSafe(isCore, Implied(rules, skills), Implied(rules, more))
    ensures Score(Ratios(c, Implied(rules, skills), isCore), weights) <= Score(Ratios(c, Implied(rules, more), isCore), weights)
  {
    var p, q := Implied(rules, skills), Implied(rules, more);
    ImpliedGrows(rules, skills, more);
    BaseGrowsExactly(isCore, p, q);
    RatiosGrow(c, p, q, isCore);
    ScoreGrows(Ratios(c, p, isCore), Ratios(c, q, isCore), weights);
  }

  /** Without a core skill it can: learning the first one loses the overlap counted before. */
  lemma FirstCoreSkillCanHurt()
    ensures exists c: Case, isCore: string -> bool ::
              && Score(Ratios(c, {"Figma"}, isCore), DEFAULTS) >= c.minimum
              && Score(Ratios(c, {"Figma", "React"}, isCore), DEFAULTS) < c.minimum
  {
    var isCore := (x: string) => x == "React";
    var c := Case([], {"Figma"}, None, 5.0, false, true, false, Place(false, false, OnSite, false, false), 1.0, 58);
    var p, q := {"Figma"}, {"Figma", "React"};
    assert Base(isCore, p) == p by {
      assert forall x :: x in p ==> !isCore(x);
    }
    assert Base(isCore, q) == {"React"} by {
      assert "React" in (set x | x in q && isCore(x));
    }
    assert {"Figma"} * p == {"Figma"} && {"Figma"} * {"React"} == {};
    assert Stack(c.jobSkills, p).ratio == 0.2 && Stack(c.jobSkills, {"React"}).ratio == 0.0;
    var low, high := Ratios(c, q, isCore), Ratios(c, p, isCore);
    assert high == [0.5, 0.2, 0.7, 1.0, 1.0] && low == [0.5, 0.0, 0.7, 1.0, 1.0];
    assert Round(0.5 * 45.0) == 23 && Round(0.2 * 20.0) == 4 && Round(0.7 * 12.0) == 8;
    assert Score(high, DEFAULTS) == 58 && Score(low, DEFAULTS) == 54;
  }

  // ---------------------------------------------------------------- verdict

  datatype Weakness = Weakness(decision: Decision, component: Component, weight: real)

  function Loss(w: Weakness): real {
    (1.0 - w.component.ratio) * w.weight
  }

  /** The weak component that costs most; the later one where two cost the same. */
  ghost predicate IsWorst(list: seq<Weakness>, k: nat) {
    && k < |list| && list[k].component.weak
    && (forall j :: 0 <= j < |list| && list[j].component.weak ==> Loss(list[j]) <= Loss(list[k]))
    && (forall j :: k < j < |list| && list[j].component.weak ==> Loss(list[j]) < Loss(list[k]))
  }

  lemma WorstIsUnique(list: seq<Weakness>, j: nat, k: nat)
    requires IsWorst(list, j) && IsWorst(list, k)
    ensures j == k
  {
  }

  method Worst(list: seq<Weakness>) returns (k: Option<nat>)
    ensures k.Some? ==> IsWorst(list, k.value)
    ensures k.None? <==> forall j :: 0 <= j < |list| ==> !list[j].component.weak
  {
    k := None;
    var i := 0;
    while i < |list|
      invariant i <= |list|
      invariant k.Some? ==> IsWorst(list[..i], k.value)
      invariant k.None? <==> forall j :: 0 <= j < i ==> !list[j].component.weak
    {
      if list[i].component.weak && (k.None? || Loss(list[k.value]) <= Loss(list[i])) {
        k := Some(i);
      }
      i := i + 1;
    }
    assert list[..i] == list;
  }

  datatype Verdict = Verdict(accepted: bool, decision: Decision, score: int)

  function Weaknesses(c: Case, expanded: set<string>, isCore: string -> bool, weights: Vector): seq<Weakness> {
    [Weakness(InsufficientSkills, Coverage(c.required, expanded), weights[COVERAGE]),
     Weakness(InsufficientSkills, Stack(c.jobSkills, Base(isCore, expanded)), weights[STACK]),
     Weakness(ExperienceMismatch, Experience(c.wantedYears, c.years), weights[EXPERIENCE]),
     Weakness(SeniorityMismatch, Seniority(c.junior, c.senior, c.wantsSenior), weights[SENIORITY]),
     Weakness(LocationMismatch, Location(c.place), weights[LOCATION])]
  }

  /** Ranking one job whose title and deal breakers passed. */
  method RankJob(c: Case, rules: seq<Rule>, isCore: string -> bool, skills: set<string>, weights: Vector) returns (v: Verdict)
    requires 0.0 <= c.fit <= 1.0 && Balanced(weights)
    ensures var p := Implied(rules, skills);
            && v.score == Score(Ratios(c, p, isCore), weights) && 0 <= v.score <= 100
            && (v.accepted <==> v.score >= c.minimum)
            && (v.accepted <==> v.decision.Eligible?)
            && (!v.accepted ==>
                  if exists k: nat :: IsWorst(Weaknesses(c, p, isCore, weights), k)
                  then exists k: nat :: IsWorst(Weaknesses(c, p, isCore, weights), k)
                                && v.decision == Weaknesses(c, p, isCore, weights)[k].decision
                  else v.decision.BelowThreshold?)
  {
    var p := WithImpliedSkills(rules, skills);
    var ratios := Ratios(c, p, isCore);
    var score := Score(ratios, weights);
    ScoreInRange(ratios, weights);
    if score >= c.minimum {
      return Verdict(true, Eligible, score);
    }
    var list := Weaknesses(c, p, isCore, weights);
    var k := Worst(list);
    if k.Some? {
      v := Verdict(false, list[k.value].decision, score);
    } else {
      v := Verdict(false, BelowThreshold, score);
    }
  }
}
