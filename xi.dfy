/**
 * The Ξ advisory quality function (ose-api/pkg/xi/calculator.go).
 *
 * Relevance R, actionability A and impact I are each scored in [0, 1], and the
 * overall score is their geometric mean Ξ = (R·A·I)^(1/3). Go's float64 arithmetic
 * is modelled by `real`. `math.Sqrt` and `math.Pow(·, 1/3)` are not computed here:
 * the functions that need them take the root as a parameter, and `IsSquareRoot` /
 * `IsCubeRoot` state the only facts the model relies on.
 */
module Xi {
  import opened Results

  /** A Ξ quality score with its component dimensions. */
  datatype Score = Score(relevance: real, actionability: real, impact: real, overall: real)

  /** A production incident; only its severity affects the impact score. */
  datatype Incident = Incident(severity: string, description: string, durationMinutes: int)

  /** The errors the calculator returns, one constructor per `fmt.Errorf`. */
  datatype XiError =
    | ComponentOutOfRange(name: string, value: real)
    | InvalidPatternCounts(applied: int, recommended: int)
    | InvalidConfidence(confidence: real)
    | InvalidLinesModified(linesModified: int)
    | InvalidLinesGenerated(linesGenerated: int)
    | TotalTargetsZero
    | InvalidTargetCounts(met: int, total: int)

  /** What the model assumes of `math.Sqrt` on non-negative arguments. */
  ghost predicate IsSquareRoot(sqrt: real -> real)
  {
    forall x :: 0.0 <= x ==> 0.0 <= sqrt(x) && sqrt(x) * sqrt(x) == x
  }

  /** What the model assumes of `math.Pow(x, 1.0/3.0)` on non-negative arguments. */
  ghost predicate IsCubeRoot(cbrt: real -> real)
  {
    forall x :: 0.0 <= x ==> 0.0 <= cbrt(x) && cbrt(x) * cbrt(x) * cbrt(x) == x
  }

  predicate InUnitInterval(x: real) { 0.0 <= x <= 1.0 }

  function Max(a: real, b: real): real { if a >= b then a else b }

  function Min3(a: real, b: real, c: real): real
  {
    if a <= b && a <= c then a else if b <= c then b else c
  }

  function Max3(a: real, b: real, c: real): real
  {
    if a >= b && a >= c then a else if b >= c then b else c
  }

  // ---------------------------------------------------------------------------
  // Facts about products and roots
  // ---------------------------------------------------------------------------

  lemma LeLtTrans(p: real, q: real, r: real)
    requires p <= q && q < r
    ensures p < r
  {
  }

  lemma MulMonotone(a: real, b: real, c: real, d: real)
    requires 0.0 <= a <= b && 0.0 <= c <= d
    ensures a * c <= b * d
  {
    var p, q, r := a * c, b * c, b * d;
    assert p <= q;
    assert q <= r;
  }

  lemma MulStrictMonotone(a: real, b: real)
    requires 0.0 <= a < b
    ensures a * a < b * b && a * a * a < b * b * b
  {
    var p, q, r := a * a, a * b, b * b;
    assert p <= q;
    assert q < r;
    LeLtTrans(p, q, r);
    var p3, q3, r3 := p * a, p * b, r * b;
    assert p3 <= q3;
    assert q3 < r3;
    LeLtTrans(p3, q3, r3);
  }

  /** Under `IsSquareRoot` the root is monotone and maps [0, 1] into [0, 1]. */
  lemma SqrtFacts(sqrt: real -> real, x: real, y: real)
    requires IsSquareRoot(sqrt) && 0.0 <= x <= y
    ensures sqrt(x) <= sqrt(y)
    ensures x <= 1.0 ==> sqrt(x) <= 1.0
    ensures sqrt(x) == 0.0 <==> x == 0.0
    ensures sqrt(x) == 1.0 <==> x == 1.0
    ensures sqrt(x) < 1.0 <==> x < 1.0
  {
    if sqrt(y) < sqrt(x) { MulStrictMonotone(sqrt(y), sqrt(x)); }
    if 0.0 < sqrt(x) { MulStrictMonotone(0.0, sqrt(x)); }
    if sqrt(x) < 1.0 { MulStrictMonotone(sqrt(x), 1.0); }
    if 1.0 < sqrt(x) { MulStrictMonotone(1.0, sqrt(x)); }
  }

  /** Under `IsCubeRoot` the root is monotone on cubes. */
  lemma CbrtCompare(cbrt: real -> real, x: real, t: real)
    requires IsCubeRoot(cbrt) && 0.0 <= x && 0.0 <= t
    ensures t * t * t <= x ==> t <= cbrt(x)
    ensures x <= t * t * t ==> cbrt(x) <= t
  {
    var r := cbrt(x);
    if r < t { MulStrictMonotone(r, t); }
    if t < r { MulStrictMonotone(t, r); }
  }

  lemma CubeBounds(a: real, b: real, c: real, lo: real, hi: real)
    requires 0.0 <= lo <= a <= hi && lo <= b <= hi && lo <= c <= hi
    ensures lo * lo * lo <= a * b * c <= hi * hi * hi
  {
    var ab, ll, hh := a * b, lo * lo, hi * hi;
    MulMonotone(lo, a, lo, b);
    MulMonotone(ll, ab, lo, c);
    MulMonotone(a, hi, b, hi);
    MulMonotone(ab, hh, c, hi);
  }

  /** Under `IsCubeRoot` the root lies between the smallest and the largest of three factors. */
  lemma CbrtBetween(cbrt: real -> real, a: real, b: real, c: real)
    requires IsCubeRoot(cbrt) && 0.0 <= a && 0.0 <= b && 0.0 <= c
    ensures Min3(a, b, c) <= cbrt(a * b * c) <= Max3(a, b, c)
  {
    var lo, hi := Min3(a, b, c), Max3(a, b, c);
    assert 0.0 <= lo <= a <= hi && lo <= b <= hi && lo <= c <= hi;
    CubeBounds(a, b, c, lo, hi);
    var x := a * b * c;
    MulMonotone(0.0, lo * lo, 0.0, lo);
    CbrtCompare(cbrt, x, lo);
    CbrtCompare(cbrt, x, hi);
  }

  lemma CbrtZeroIff(cbrt: real -> real, x: real)
    requires IsCubeRoot(cbrt) && 0.0 <= x
    ensures cbrt(x) == 0.0 <==> x == 0.0
  {
    if cbrt(x) > 0.0 { MulStrictMonotone(0.0, cbrt(x)); }
  }

  // ---------------------------------------------------------------------------
  // The calculator
  // ---------------------------------------------------------------------------

  /** `validateComponent`: a Ξ component must lie in [0.0, 1.0]. */
  function ValidateComponent(name: string, value: real): (r: Option<XiError>)
    ensures r.None? <==> InUnitInterval(value)
    ensures r.Some? ==> r.value == ComponentOutOfRange(name, value)
  {
    if value < 0.0 || value > 1.0 then Some(ComponentOutOfRange(name, value)) else None
  }

  /** `Calculate`: validate R, then A, then I, and return their geometric mean. */
  function Calculate(relevance: real, actionability: real, impact: real, cbrt: real -> real): (r: Result<Score, XiError>)
    requires IsCubeRoot(cbrt)
    ensures r.Err? <==> !(InUnitInterval(relevance) && InUnitInterval(actionability) && InUnitInterval(impact))
    ensures r.Err? && !InUnitInterval(relevance) ==> r.error == ComponentOutOfRange("Relevance", relevance)
    ensures r.Err? && InUnitInterval(relevance) && !InUnitInterval(actionability) ==>
              r.error == ComponentOutOfRange("Actionability", actionability)
    ensures r.Err? && InUnitInterval(relevance) && InUnitInterval(actionability) ==>
              r.error == ComponentOutOfRange("Impact", impact)
    ensures r.Ok? ==> r.value.relevance == relevance && r.value.actionability == actionability
                      && r.value.impact == impact
    ensures r.Ok? ==> r.value.overall * r.value.overall * r.value.overall == relevance * actionability * impact
  {
    if ValidateComponent("Relevance", relevance).Some? then Err(ValidateComponent("Relevance", relevance).value)
    else if ValidateComponent("Actionability", actionability).Some? then
      Err(ValidateComponent("Actionability", actionability).value)
    else if ValidateComponent("Impact", impact).Some? then Err(ValidateComponent("Impact", impact).value)
    else
      assert 0.0 <= relevance * actionability * impact by {
        MulMonotone(0.0, relevance, 0.0, actionability);
        MulMonotone(0.0, relevance * actionability, 0.0, impact);
      }
      Ok(Score(relevance, actionability, impact, cbrt(relevance * actionability * impact)))
  }

  /** Ξ lies in [0, 1] and between the smallest and the largest component: no component compensates another. */
  lemma CalculateBounds(relevance: real, actionability: real, impact: real, cbrt: real -> real)
    requires IsCubeRoot(cbrt)
    requires Calculate(relevance, actionability, impact, cbrt).Ok?
    ensures var s := Calculate(relevance, actionability, impact, cbrt).value;
      Min3(relevance, actionability, impact) <= s.overall <= Max3(relevance, actionability, impact)
      && InUnitInterval(s.overall)
  {
    CbrtBetween(cbrt, relevance, actionability, impact);
  }

  /** Ξ is 0 exactly when some component is 0, and 1 when every component is 1. */
  lemma CalculateZeroAndOne(relevance: real, actionability: real, impact: real, cbrt: real -> real)
    requires IsCubeRoot(cbrt)
    requires Calculate(relevance, actionability, impact, cbrt).Ok?
    ensures var s := Calculate(relevance, actionability, impact, cbrt).value;
      (s.overall == 0.0 <==> relevance == 0.0 || actionability == 0.0 || impact == 0.0)
      && (relevance == 1.0 && actionability == 1.0 && impact == 1.0 ==> s.overall == 1.0)
  {
    var p := relevance * actionability * impact;
    MulMonotone(0.0, relevance, 0.0, actionability);
    MulMonotone(0.0, relevance * actionability, 0.0, impact);
    CbrtZeroIff(cbrt, p);
    if relevance != 0.0 && actionability != 0.0 && impact != 0.0 {
      assert relevance * actionability != 0.0;
      assert p != 0.0;
    }
    CbrtBetween(cbrt, relevance, actionability, impact);
  }

  /** `CalculateRelevance`: applied/recommended × confidence, with 1.0 when nothing was recommended. */
  function CalculateRelevance(patternsApplied: int, patternsRecommended: int, avgConfidence: real): (r: Result<real, XiError>)
    ensures patternsRecommended == 0 ==> r == Ok(1.0)
    ensures r.Err? <==>
              patternsRecommended != 0
              && (patternsApplied < 0 || patternsApplied > patternsRecommended || !InUnitInterval(avgConfidence))
    ensures r.Err? && (patternsApplied < 0 || patternsApplied > patternsRecommended) ==>
              r.error == InvalidPatternCounts(patternsApplied, patternsRecommended)
    ensures patternsRecommended != 0 && 0 <= patternsApplied <= patternsRecommended && !InUnitInterval(avgConfidence) ==>
              r == Err(InvalidConfidence(avgConfidence))
    ensures r.Ok? && patternsRecommended != 0 ==>
              0 < patternsRecommended
              && r.value * (patternsRecommended as real) == (patternsApplied as real) * avgConfidence
    ensures r.Ok? ==> InUnitInterval(r.value)
  {
    if patternsRecommended == 0 then Ok(1.0)
    else if patternsApplied < 0 || patternsApplied > patternsRecommended then
      Err(InvalidPatternCounts(patternsApplied, patternsRecommended))
    else if avgConfidence < 0.0 || avgConfidence > 1.0 then Err(InvalidConfidence(avgConfidence))
    else
      var rate := (patternsApplied as real) / (patternsRecommended as real);
      assert 0.0 <= rate <= 1.0;
      MulMonotone(0.0, rate, 0.0, avgConfidence);
      MulMonotone(rate, 1.0, avgConfidence, 1.0);
      Ok(rate * avgConfidence)
  }

  /** `CalculateActionability`: 1 − √(modified/generated), floored at 0; 1.0 when nothing was generated. */
  function CalculateActionability(linesModified: int, linesGenerated: int, sqrt: real -> real): (r: Result<real, XiError>)
    requires IsSquareRoot(sqrt)
    ensures linesGenerated == 0 ==> r == Ok(1.0)
    ensures r.Err? <==> linesGenerated != 0 && (linesModified < 0 || linesGenerated < 0)
    ensures linesGenerated != 0 && linesModified < 0 ==> r == Err(InvalidLinesModified(linesModified))
    ensures linesGenerated < 0 && linesModified >= 0 ==> r == Err(InvalidLinesGenerated(linesGenerated))
    ensures r.Ok? ==> InUnitInterval(r.value)
    ensures linesGenerated > 0 && linesModified >= 0 ==>
              (r.value == 1.0 <==> linesModified == 0) && (r.value == 0.0 <==> linesModified >= linesGenerated)
    ensures linesGenerated > 0 && 0 <= linesModified < linesGenerated ==>
              0.0 < r.value
              && (1.0 - r.value) * (1.0 - r.value) * (linesGenerated as real) == linesModified as real
  {
    if linesGenerated == 0 then Ok(1.0)
    else if linesModified < 0 then Err(InvalidLinesModified(linesModified))
    else if linesGenerated < 0 then Err(InvalidLinesGenerated(linesGenerated))
    else
      var rate := (linesModified as real) / (linesGenerated as real);
      SqrtFacts(sqrt, rate, rate);
      SqrtFacts(sqrt, 0.0, rate);
      Ok(Max(0.0, 1.0 - sqrt(rate)))
  }

  /** More modified lines never raise actionability. */
  lemma ActionabilityAntitone(m1: int, m2: int, linesGenerated: int, sqrt: real -> real)
    requires IsSquareRoot(sqrt)
    requires 0 <= m1 <= m2 && 0 < linesGenerated
    ensures CalculateActionability(m2, linesGenerated, sqrt).value <= CalculateActionability(m1, linesGenerated, sqrt).value
  {
    var g := linesGenerated as real;
    assert (m1 as real) / g <= (m2 as real) / g;
    SqrtFacts(sqrt, (m1 as real) / g, (m2 as real) / g);
  }

  /** `incidentSeverityWeight`: the stability penalty of one incident. */
  function IncidentSeverityWeight(severity: string): (w: real)
    ensures 0.0 < w <= 0.5
    ensures severity == "SEV1" ==> w == 0.5
    ensures severity == "SEV2" ==> w == 0.2
    ensures severity == "SEV3" ==> w == 0.1
    ensures severity !in {"SEV1", "SEV2", "SEV3"} ==> w == 0.05
  {
    if severity == "SEV1" then 0.5
    else if severity == "SEV2" then 0.2
    else if severity == "SEV3" then 0.1
    else 0.05
  }

  /** The summed penalty of a list of incidents, in the order the loop visits them. */
  function TotalSeverityWeight(incidents: seq<Incident>): (w: real)
    ensures 0.0 <= w
    ensures incidents != [] ==> 0.0 < w
  {
    if incidents == [] then 0.0
    else TotalSeverityWeight(incidents[..|incidents| - 1]) + IncidentSeverityWeight(incidents[|incidents| - 1].severity)
  }

  /** The stability factor: 1 − Σ weight, clamped at 0. */
  function StabilityFactor(incidents: seq<Incident>): (f: real)
    ensures InUnitInterval(f)
  {
    Max(0.0, 1.0 - TotalSeverityWeight(incidents))
  }

  /** What `CalculateImpact` computes: met/total × stability factor, after its two guards. */
  function Impact(metTargets: int, totalTargets: int, incidents: seq<Incident>): (r: Result<real, XiError>)
    ensures r.Err? <==> totalTargets == 0 || metTargets < 0 || metTargets > totalTargets
    ensures totalTargets <= 0 ==> r.Err?
    ensures totalTargets == 0 ==> r == Err(TotalTargetsZero)
    ensures totalTargets != 0 && (metTargets < 0 || metTargets > totalTargets) ==>
              r == Err(InvalidTargetCounts(metTargets, totalTargets))
    ensures r.Ok? ==> InUnitInterval(r.value)
    ensures r.Ok? && TotalSeverityWeight(incidents) >= 1.0 ==> r.value == 0.0
    ensures r.Ok? && incidents == [] ==> r.value * (totalTargets as real) == metTargets as real
  {
    if totalTargets == 0 then Err(TotalTargetsZero)
    else if metTargets < 0 || metTargets > totalTargets then Err(InvalidTargetCounts(metTargets, totalTargets))
    else
      var targetScore := (metTargets as real) / (totalTargets as real);
      MulMonotone(0.0, targetScore, 0.0, StabilityFactor(incidents));
      MulMonotone(targetScore, 1.0, StabilityFactor(incidents), 1.0);
      Ok(targetScore * StabilityFactor(incidents))
  }

  /** `CalculateImpact`: the guards, then the loop that subtracts each incident's weight, then the clamp. */
  method CalculateImpact(metTargets: int, totalTargets: int, incidents: seq<Incident>) returns (r: Result<real, XiError>)
    ensures r == Impact(metTargets, totalTargets, incidents)
  {
    if totalTargets == 0 {
      return Err(TotalTargetsZero);
    }
    if metTargets < 0 || metTargets > totalTargets {
      return Err(InvalidTargetCounts(metTargets, totalTargets));
    }
    var targetScore := (metTargets as real) / (totalTargets as real);
    var stabilityFactor := 1.0;
    var i := 0;
    while i < |incidents|
      invariant 0 <= i <= |incidents|
      invariant stabilityFactor == 1.0 - TotalSeverityWeight(incidents[..i])
    {
      assert incidents[..i + 1][..i] == incidents[..i];
      var weight := IncidentSeverityWeight(incidents[i].severity);
      stabilityFactor := stabilityFactor - weight;
      i := i + 1;
    }
    assert incidents[..i] == incidents;
    if stabilityFactor < 0.0 {
      stabilityFactor := 0.0;
    }
    assert stabilityFactor == StabilityFactor(incidents);
    assert Impact(metTargets, totalTargets, incidents).value == targetScore * stabilityFactor;
    return Ok(targetScore * stabilityFactor);
  }

  /** Appending an incident never raises the impact score, since every weight is positive. */
  lemma {:induction false} ImpactNonIncreasing(metTargets: int, totalTargets: int, incidents: seq<Incident>, extra: Incident)
    requires Impact(metTargets, totalTargets, incidents).Ok?
    ensures Impact(metTargets, totalTargets, incidents + [extra]).Ok?
    ensures Impact(metTargets, totalTargets, incidents + [extra]).value <= Impact(metTargets, totalTargets, incidents).value
  {
    var longer := incidents + [extra];
    assert longer[..|longer| - 1] == incidents;
    assert TotalSeverityWeight(incidents) < TotalSeverityWeight(longer);
    var targetScore := (metTargets as real) / (totalTargets as real);
    MulMonotone(targetScore, targetScore, StabilityFactor(longer), StabilityFactor(incidents));
  }

  /** `QualityLevel`: six bands with inclusive lower thresholds 0.85, 0.75, 0.65, 0.50 and 0.35. */
  function QualityLevel(xi: real): (level: string)
    ensures level == "EXCELLENT" <==> 0.85 <= xi
    ensures level == "VERY GOOD" <==> 0.75 <= xi < 0.85
    ensures level == "GOOD" <==> 0.65 <= xi < 0.75
    ensures level == "ACCEPTABLE" <==> 0.50 <= xi < 0.65
    ensures level == "POOR" <==> 0.35 <= xi < 0.50
    ensures level == "CRITICAL" <==> xi < 0.35
  {
    if xi >= 0.85 then "EXCELLENT"
    else if xi >= 0.75 then "VERY GOOD"
    else if xi >= 0.65 then "GOOD"
    else if xi >= 0.50 then "ACCEPTABLE"
    else if xi >= 0.35 then "POOR"
    else "CRITICAL"
  }

  /** The position of a quality label in the order CRITICAL < POOR < … < EXCELLENT. */
  function LevelRank(level: string): int
  {
    if level == "EXCELLENT" then 5
    else if level == "VERY GOOD" then 4
    else if level == "GOOD" then 3
    else if level == "ACCEPTABLE" then 2
    else if level == "POOR" then 1
    else 0
  }

  /** `QualityLevel` is monotone non-decreasing in ξ. */
  lemma QualityLevelMonotone(x: real, y: real)
    requires x <= y
    ensures LevelRank(QualityLevel(x)) <= LevelRank(QualityLevel(y))
  {
  }
}
