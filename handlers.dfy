/**
 * The request handling of the advisory service (ose-api/internal/handlers/advisory_handler.go).
 *
 * The handler holds only a logger, so each RPC is a function of its request. The
 * two clock readings (Unix seconds) taken by `generateBlueprintID` and for
 * `GeneratedAt` are parameters. gRPC's status errors become the `RpcError` datatype.
 */
module Handlers {
  import opened Results
  import opened Text
  import opened Validation
  import Xi

  /** A pattern recommendation in a blueprint. */
  datatype RecommendedPattern = RecommendedPattern(
    patternId: string,
    name: string,
    confidence: real,
    rationale: string,
    category: string)

  datatype ArtifactType = ArtifactTypeUnspecified | ArtifactProto | ArtifactCode | ArtifactConfig

  /** A generated file; `content` stands for the UTF-8 bytes of the text. */
  datatype Artifact = Artifact(artifactType: ArtifactType, path: string, content: string, language: string)

  datatype PerformanceTargets = PerformanceTargets(
    targetTps: Int32,
    targetP99Ms: Int32,
    targetP95Ms: int,
    targetP50Ms: int,
    maxErrorRate: real)

  datatype Blueprint = Blueprint(
    blueprintId: string,
    serviceName: string,
    patterns: seq<RecommendedPattern>,
    artifacts: seq<Artifact>,
    performanceTargets: PerformanceTargets,
    generatedAt: int)

  /** The gRPC status codes the handler returns. */
  datatype StatusCode = InvalidArgument

  datatype RpcError = RpcError(code: StatusCode, message: string)

  datatype PatternSummary = PatternSummary(
    patternId: string,
    name: string,
    category: string,
    description: string,
    usageCount: int)

  datatype ValidateServiceResponse = ValidateServiceResponse(valid: bool, errorMessage: string)

  datatype RegisterServiceResponse = RegisterServiceResponse(
    success: bool,
    message: string,
    overallScore: real,
    qualityLevel: string)

  // ---------------------------------------------------------------------------
  // Mock pattern recommendation (lines 241-300)
  // ---------------------------------------------------------------------------

  const REST_API := RecommendedPattern("rest-api-v1", "RESTful API", 0.92,
    "Standard pattern for synchronous API services", "API Design")
  const CIRCUIT_BREAKER := RecommendedPattern("circuit-breaker-v1", "Circuit Breaker", 0.85,
    "Prevents cascade failures in distributed systems", "Resilience")
  const EVENT_SOURCING := RecommendedPattern("event-sourcing-v1", "Event Sourcing", 0.88,
    "Maintains complete audit trail of state changes", "Data Management")
  const CQRS := RecommendedPattern("cqrs-v1", "CQRS", 0.82,
    "Optimizes read and write paths separately", "Architecture")
  const BACKPRESSURE := RecommendedPattern("backpressure-v1", "Backpressure", 0.90,
    "Handles variable load in streaming systems", "Flow Control")
  const TRANSACTIONAL_OUTBOX := RecommendedPattern("transactional-outbox-v1", "Transactional Outbox", 0.87,
    "Ensures atomic commits with strong consistency", "Data Management")

  /** The patterns chosen by service type, before the consistency rule. */
  function TypePatterns(t: ServiceType): (r: seq<RecommendedPattern>)
    ensures |r| <= 2 && TRANSACTIONAL_OUTBOX !in r
    ensures r == [] <==> t !in {Api, EventProcessor, StreamProcessor}
  {
    match t
    case Api => [REST_API, CIRCUIT_BREAKER]
    case EventProcessor => [EVENT_SOURCING, CQRS]
    case StreamProcessor => [BACKPRESSURE]
    case _ => []
  }

  /** The recommendation list: by service type, then the outbox for strong consistency. */
  function RecommendedPatterns(c: ServiceConstraints): (r: seq<RecommendedPattern>)
    ensures |r| <= 3
    ensures TRANSACTIONAL_OUTBOX in r <==> c.consistencyModel == Strong
    ensures |TypePatterns(c.serviceType)| <= |r| && r[..|TypePatterns(c.serviceType)|] == TypePatterns(c.serviceType)
  {
    TypePatterns(c.serviceType) + (if c.consistencyModel == Strong then [TRANSACTIONAL_OUTBOX] else [])
  }

  /** The identifiers of a pattern list, in order. */
  function PatternIds(ps: seq<RecommendedPattern>): seq<string>
  {
    seq(|ps|, i requires 0 <= i < |ps| => ps[i].patternId)
  }

  /** `mockRecommendedPatterns`: grows the list by appending, as the handler does. */
  method MockRecommendedPatterns(c: ServiceConstraints) returns (patterns: seq<RecommendedPattern>)
    ensures patterns == RecommendedPatterns(c)
  {
    patterns := [];
    match c.serviceType {
      case Api =>
        patterns := patterns + [REST_API];
        patterns := patterns + [CIRCUIT_BREAKER];
      case EventProcessor =>
        patterns := patterns + [EVENT_SOURCING];
        patterns := patterns + [CQRS];
      case StreamProcessor =>
        patterns := patterns + [BACKPRESSURE];
      case _ =>
    }
    if c.consistencyModel == Strong {
      patterns := patterns + [TRANSACTIONAL_OUTBOX];
    }
  }

  /**
   * The selection rule: two patterns for APIs and event processors, one for stream
   * processors, none otherwise; the outbox is appended last exactly under strong
   * consistency; every confidence lies in (0, 1] and no identifier repeats.
   */
  lemma RecommendedPatternsSelection(c: ServiceConstraints)
    ensures var ps := RecommendedPatterns(c);
      var strong := if c.consistencyModel == Strong then 1 else 0;
      && (c.serviceType == Api ==> PatternIds(ps)[..2] == ["rest-api-v1", "circuit-breaker-v1"] && |ps| == 2 + strong)
      && (c.serviceType == EventProcessor ==> PatternIds(ps)[..2] == ["event-sourcing-v1", "cqrs-v1"] && |ps| == 2 + strong)
      && (c.serviceType == StreamProcessor ==> PatternIds(ps)[..1] == ["backpressure-v1"] && |ps| == 1 + strong)
      && (c.serviceType !in {Api, EventProcessor, StreamProcessor} ==> |ps| == strong)
      && (c.consistencyModel == Strong <==> |ps| > 0 && ps[|ps| - 1] == TRANSACTIONAL_OUTBOX)
      && (forall i :: 0 <= i < |ps| ==> 0.0 < ps[i].confidence <= 1.0)
      && (forall i, j :: 0 <= i < j < |ps| ==> ps[i].patternId != ps[j].patternId)
  {
    var ps := RecommendedPatterns(c);
    if c.serviceType == Api { assert PatternIds(ps)[..2] == [ps[0].patternId, ps[1].patternId]; }
    if c.serviceType == EventProcessor { assert PatternIds(ps)[..2] == [ps[0].patternId, ps[1].patternId]; }
    if c.serviceType == StreamProcessor { assert PatternIds(ps)[..1] == [ps[0].patternId]; }
  }

  // ---------------------------------------------------------------------------
  // Mock artifacts and targets (lines 303-337)
  // ---------------------------------------------------------------------------

  function ProtoPath(n: string): string { "api/" + n + "/v1/" + n + ".proto" }

  function CodePath(n: string): string { "cmd/" + n + "/main.go" }

  function ConfigPath(n: string): string { "deployments/k8s/" + n + ".yaml" }

  /** `mockGeneratedArtifacts`: a protobuf definition, a Go entry point and a Kubernetes manifest. */
  function MockGeneratedArtifacts(n: string): (r: seq<Artifact>)
    ensures |r| == 3
    ensures r[0].artifactType == ArtifactProto && r[0].path == ProtoPath(n) && r[0].language == "protobuf"
    ensures r[1].artifactType == ArtifactCode && r[1].path == CodePath(n) && r[1].language == "go"
    ensures r[2].artifactType == ArtifactConfig && r[2].path == ConfigPath(n) && r[2].language == "yaml"
  {
    [ Artifact(ArtifactProto, ProtoPath(n),
               "// Mock protobuf definition for " + n + "\nservice " + n + "Service {}", "protobuf"),
      Artifact(ArtifactCode, CodePath(n),
               "// Mock Go service for " + n + "\npackage main\n\nfunc main() {\n\tprintln(\"Starting " + n + "...\")\n}", "go"),
      Artifact(ArtifactConfig, ConfigPath(n),
               "# Mock Kubernetes deployment for " + n + "\napiVersion: apps/v1\nkind: Deployment", "yaml") ]
  }

  /** The three artifact paths are pairwise distinct, and each one determines the service name. */
  lemma ArtifactPathsDistinctAndInjective(n: string, m: string)
    ensures var r := MockGeneratedArtifacts(n);
      r[0].path != r[1].path && r[1].path != r[2].path && r[0].path != r[2].path
    ensures CodePath(n) == CodePath(m) ==> n == m
    ensures ConfigPath(n) == ConfigPath(m) ==> n == m
  {
    var r := MockGeneratedArtifacts(n);
    assert r[0].path[0] == 'a' && r[1].path[0] == 'c' && r[2].path[0] == 'd';
    if CodePath(n) == CodePath(m) {
      assert n == CodePath(n)[4..|CodePath(n)| - 8];
      assert m == CodePath(m)[4..|CodePath(m)| - 8];
    }
    if ConfigPath(n) == ConfigPath(m) {
      assert n == ConfigPath(n)[16..|ConfigPath(n)| - 5];
      assert m == ConfigPath(m)[16..|ConfigPath(m)| - 5];
    }
  }

  /** Go's float-to-int conversion: truncation toward zero. */
  function TruncateTowardZero(x: real): (r: int)
    ensures 0.0 <= x ==> r as real <= x < r as real + 1.0
    ensures x < 0.0 ==> r as real - 1.0 < x <= r as real
  {
    if x >= 0.0 then x.Floor else -((-x).Floor)
  }

  const MAX_ERROR_RATE := 0.01

  /** `mockPerformanceTargets`: p95 and p50 are 80% and 50% of p99, truncated. */
  function MockPerformanceTargets(c: ServiceConstraints): (t: PerformanceTargets)
    ensures t.targetTps == c.throughputTps && t.targetP99Ms == c.latencyP99Ms && t.maxErrorRate == MAX_ERROR_RATE
    ensures 0 <= c.latencyP99Ms ==> t.targetP95Ms == (4 * c.latencyP99Ms) / 5 && t.targetP50Ms == c.latencyP99Ms / 2
    ensures 0 < c.latencyP99Ms ==> 0 <= t.targetP50Ms <= t.targetP95Ms < t.targetP99Ms
  {
    var p99 := c.latencyP99Ms as real;
    PerformanceTargets(c.throughputTps, c.latencyP99Ms,
                       TruncateTowardZero(p99 * 0.8), TruncateTowardZero(p99 * 0.5), MAX_ERROR_RATE)
  }

  // ---------------------------------------------------------------------------
  // The RPCs
  // ---------------------------------------------------------------------------

  const INVALID_CONSTRAINTS_PREFIX := "invalid service constraints: "

  /**
   * `generateBlueprintID`: "bp-<name>-<unix seconds>". The identifier is unique per
   * name and second only: two requests for the same name within one second collide.
   */
  function BlueprintId(serviceName: string, now: int): (id: string)
    ensures |id| > 4 + |serviceName| && id[..3] == "bp-" && id[3..3 + |serviceName|] == serviceName
    ensures id[3 + |serviceName|] == '-'
    ensures 0 <= now ==> forall i :: 4 + |serviceName| <= i < |id| ==> IsAsciiDigit(id[i])
    ensures SignedDecimalValue(id[4 + |serviceName|..]) == now
  {
    var digits := IntToString(now);
    var id := "bp-" + serviceName + "-" + digits;
    assert id[4 + |serviceName|..] == digits;
    IntToStringRoundTrip(now);
    id
  }

  /** For one service name, different clock readings give different identifiers. */
  lemma BlueprintIdInjective(serviceName: string, t1: int, t2: int)
    requires BlueprintId(serviceName, t1) == BlueprintId(serviceName, t2)
    ensures t1 == t2
  {
  }

  /**
   * `GenerateBlueprint`: validation at the boundary, then the mock blueprint. The handler
   * reads the clock twice, once inside `generateBlueprintID` and once for `GeneratedAt`,
   * so the two readings are separate parameters and may differ.
   */
  function GenerateBlueprint(c: Option<ServiceConstraints>, idClock: int, stampClock: int): (r: Result<Blueprint, RpcError>)
    ensures r.Err? <==> ValidateServiceConstraints(c).Some?
    ensures r.Err? ==> r.error == RpcError(InvalidArgument,
                                           INVALID_CONSTRAINTS_PREFIX + ErrorString(ValidateServiceConstraints(c).value))
    ensures r.Ok? ==> c.Some? && r.value.serviceName == c.value.serviceName
                      && r.value.blueprintId == BlueprintId(c.value.serviceName, idClock)
                      && r.value.artifacts == MockGeneratedArtifacts(c.value.serviceName)
                      && r.value.patterns == RecommendedPatterns(c.value)
                      && r.value.performanceTargets == MockPerformanceTargets(c.value)
                      && r.value.generatedAt == stampClock
  {
    var v := ValidateServiceConstraints(c);
    if v.Some? then Err(RpcError(InvalidArgument, INVALID_CONSTRAINTS_PREFIX + ErrorString(v.value)))
    else
      var s := c.value;
      Ok(Blueprint(BlueprintId(s.serviceName, idClock), s.serviceName, RecommendedPatterns(s),
                   MockGeneratedArtifacts(s.serviceName), MockPerformanceTargets(s), stampClock))
  }

  /**
   * For every request on which no check fails (exactly the requests `GenerateBlueprint`
   * serves) a blueprint is returned, and it names a DNS-label service, carries its three
   * artifacts, has ordered latency targets and copies the validated throughput.
   */
  lemma BlueprintWellFormed(c: Option<ServiceConstraints>, idClock: int, stampClock: int)
    requires FailedCheck(c).None?
    ensures GenerateBlueprint(c, idClock, stampClock).Ok?
    ensures var b := GenerateBlueprint(c, idClock, stampClock).value;
      && IsDnsLabel(b.serviceName)
      && |b.artifacts| == 3
      && 0 <= b.performanceTargets.targetP50Ms <= b.performanceTargets.targetP95Ms < b.performanceTargets.targetP99Ms
      && 0 < b.performanceTargets.targetTps <= MAX_THROUGHPUT_TPS
  {
    FailedCheckNoneIff(c);
    NameChecksIff(c.value);
    ThroughputRange(c.value);
    LatencyRange(c.value);
  }

  const SEARCH_RESULTS := [
    PatternSummary("event-sourcing-v1", "Event Sourcing", "Data Management",
                   "Store state changes as append-only event log", 42),
    PatternSummary("cqrs-v1", "Command Query Responsibility Segregation", "Architecture",
                   "Separate read and write data models", 35)]

  /** `SearchPatterns`: the fixed two summaries, whatever the query. */
  function SearchPatterns(query: string): (r: seq<PatternSummary>)
    ensures |r| == 2 && r[0].patternId == "event-sourcing-v1" && r[1].patternId == "cqrs-v1"
    ensures r[0].usageCount == 42 && r[1].usageCount == 35
  {
    SEARCH_RESULTS
  }

  /** `ValidateService`: never an RPC error; valid exactly when every check passes. */
  function ValidateService(c: Option<ServiceConstraints>): (r: ValidateServiceResponse)
    ensures r.valid <==> forall k :: !Violates(c, k)
    ensures r.valid <==> ValidateServiceConstraints(c).None?
    ensures r.valid ==> r.errorMessage == ""
    ensures !r.valid ==> r.errorMessage == ErrorString(ValidateServiceConstraints(c).value)
  {
    match ValidateServiceConstraints(c)
    case Some(e) => ValidateServiceResponse(false, ErrorString(e))
    case None => ValidateServiceResponse(true, "")
  }

  /** `ValidateService` accepts a request exactly when `GenerateBlueprint` would build a blueprint for it. */
  lemma ValidateServiceAgreesWithGenerate(c: Option<ServiceConstraints>, idClock: int, stampClock: int)
    ensures ValidateService(c).valid <==> GenerateBlueprint(c, idClock, stampClock).Ok?
    ensures !ValidateService(c).valid ==>
              GenerateBlueprint(c, idClock, stampClock).error.message == INVALID_CONSTRAINTS_PREFIX + ValidateService(c).errorMessage
  {
  }

  const EXCELLENT := "EXCELLENT"
  const VERY_GOOD := "VERY GOOD"
  const GOOD := "GOOD"
  const ACCEPTABLE := "ACCEPTABLE"
  const NEEDS_IMPROVEMENT := "NEEDS IMPROVEMENT"

  /** `determineQualityLevel`: five bands, everything below 0.50 needing improvement. */
  function DetermineQualityLevel(score: real): (level: string)
    ensures level == EXCELLENT <==> 0.85 <= score
    ensures level == VERY_GOOD <==> 0.75 <= score < 0.85
    ensures level == GOOD <==> 0.65 <= score < 0.75
    ensures level == ACCEPTABLE <==> 0.50 <= score < 0.65
    ensures level == NEEDS_IMPROVEMENT <==> score < 0.50
  {
    if score >= 0.85 then EXCELLENT
    else if score >= 0.75 then VERY_GOOD
    else if score >= 0.65 then GOOD
    else if score >= 0.50 then ACCEPTABLE
    else NEEDS_IMPROVEMENT
  }

  /** The handler's five bands agree with `xi.QualityLevel` from 0.50 up and differ below it. */
  lemma QualityLevelsAgreeAboveHalf(score: real)
    ensures 0.50 <= score ==> DetermineQualityLevel(score) == Xi.QualityLevel(score)
    ensures score < 0.50 ==> DetermineQualityLevel(score) != Xi.QualityLevel(score)
  {
    if score < 0.50 {
      var x := Xi.QualityLevel(score);
      assert x == "POOR" || x == "CRITICAL";
      assert |NEEDS_IMPROVEMENT| == 17 && |x| <= 8;
    }
  }

  const REGISTERED_PREFIX := "Service registered successfully. Quality level: "

  /** `RegisterService`: always successful; the overall score is the mean of the three submitted scores. */
  function RegisterService(blueprintId: string, relevance: real, actionability: real, impact: real): (r: RegisterServiceResponse)
    ensures r.success
    ensures 3.0 * r.overallScore == relevance + actionability + impact
    ensures r.qualityLevel == DetermineQualityLevel(r.overallScore)
    ensures r.message == REGISTERED_PREFIX + r.qualityLevel
    ensures Xi.Min3(relevance, actionability, impact) <= r.overallScore <= Xi.Max3(relevance, actionability, impact)
  {
    var overall := (relevance + actionability + impact) / 3.0;
    var level := DetermineQualityLevel(overall);
    RegisterServiceResponse(true, REGISTERED_PREFIX + level, overall, level)
  }
}
