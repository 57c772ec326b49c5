/**
 * The boundary validator of the advisory service (ose-api/pkg/validation/constraints.go).
 *
 * `ValidateServiceConstraints` runs fifteen checks in a fixed order and reports the
 * first one that fails as a `{field, message, suggestion}` record. Here the chain of
 * early returns is `FailedCheck`, which names the failing `Check`; `ErrorFor` builds
 * the record the source returns for it. `Violates` states each check on its own and
 * `Rank` gives the fixed order, so that "the first failing check" can be stated and
 * proved as `FailedCheckIsFirstViolation`.
 */
module Validation {
  import opened Results
  import opened Text

  /** Protobuf `int32`. */
  type Int32 = x: int | -0x8000_0000 <= x < 0x8000_0000

  datatype ServiceType =
    | ServiceTypeUnspecified
    | Api
    | EventProcessor
    | BackgroundWorker
    | StreamProcessor

  datatype ConsistencyModel =
    | ConsistencyModelUnspecified
    | Strong
    | Eventual

  datatype DeploymentTarget =
    | DeploymentTargetUnspecified
    | Kubernetes
    | Ecs
    | Lambda

  datatype IntegrationType =
    | IntegrationTypeUnspecified
    | Kafka
    | Postgresql
    | Redis
    | Elasticsearch
    | S3
    | RestApi
    | Grpc

  /** The fields of the protobuf `ServiceConstraints` message that the core reads. */
  datatype ServiceConstraints = ServiceConstraints(
    serviceName: string,
    serviceType: ServiceType,
    throughputTps: Int32,
    latencyP99Ms: Int32,
    consistencyModel: ConsistencyModel,
    integrations: seq<IntegrationType>,
    deploymentTarget: DeploymentTarget)

  /** A constraint validation failure with context. */
  datatype ValidationError = ValidationError(field: string, message: string, suggestion: string)

  /** The checks of the validator, one constructor per early return. */
  datatype Check =
    | NilConstraints
    | NameEmpty
    | NameLength
    | NamePattern
    | ThroughputNotPositive
    | ThroughputTooHigh
    | LatencyNotPositive
    | LatencyTooHigh
    | ServiceTypeMissing
    | ConsistencyModelMissing
    | DeploymentTargetMissing
    | StrongConsistencyLatency
    | LambdaThroughput
    | TooManyIntegrations
    | UnspecifiedIntegration

  const MIN_NAME_LENGTH := 3
  const MAX_NAME_LENGTH := 63
  const MAX_THROUGHPUT_TPS := 1_000_000
  const MAX_LATENCY_P99_MS := 60_000
  const MIN_STRONG_LATENCY_MS := 50
  const MAX_LAMBDA_THROUGHPUT_TPS := 10_000
  const MAX_INTEGRATIONS := 10

  /** A character allowed after the first one by `^[a-z][a-z0-9-]*$`. */
  predicate IsNameChar(ch: char) { IsAsciiLower(ch) || IsAsciiDigit(ch) || ch == '-' }

  /** The service-name regular expression `^[a-z][a-z0-9-]*$` (Go's RE2 `$` matches only at the end of the text). */
  predicate MatchesNamePattern(name: string)
    ensures MatchesNamePattern(name) ==>
              forall i :: 0 <= i < |name| ==> IsAscii(name[i]) && name[i] != '_' && !IsAsciiUpper(name[i])
  {
    |name| > 0 && IsAsciiLower(name[0]) && forall i :: 0 <= i < |name| ==> IsNameChar(name[i])
  }

  /** A DNS-label shaped name, stated over characters: what the three name checks together admit. */
  predicate IsDnsLabel(name: string)
  {
    MIN_NAME_LENGTH <= |name| <= MAX_NAME_LENGTH && IsAsciiLower(name[0])
    && forall i :: 0 <= i < |name| ==> IsNameChar(name[i])
  }

  /** The early-exit scan over the integrations (constraints.go, lines 173-181). */
  function HasUnspecifiedIntegration(xs: seq<IntegrationType>): (r: bool)
    ensures r <==> IntegrationTypeUnspecified in xs
  {
    if xs == [] then false
    else if xs[0] == IntegrationTypeUnspecified then true
    else HasUnspecifiedIntegration(xs[1..])
  }

  /** The chain of guarded early returns: the first check that fails, or None when all pass. */
  function FailedCheck(c: Option<ServiceConstraints>): (r: Option<Check>)
    ensures r.Some? ==> Violates(c, r.value)
    ensures c.None? <==> r == Some(NilConstraints)
  {
    match c
    case None => Some(NilConstraints)
    case Some(s) =>
      if s.serviceName == "" then Some(NameEmpty)
      else if Utf8Length(s.serviceName) < MIN_NAME_LENGTH || Utf8Length(s.serviceName) > MAX_NAME_LENGTH then Some(NameLength)
      else if !MatchesNamePattern(s.serviceName) then Some(NamePattern)
      else if s.throughputTps <= 0 then Some(ThroughputNotPositive)
      else if s.throughputTps > MAX_THROUGHPUT_TPS then Some(ThroughputTooHigh)
      else if s.latencyP99Ms <= 0 then Some(LatencyNotPositive)
      else if s.latencyP99Ms > MAX_LATENCY_P99_MS then Some(LatencyTooHigh)
      else if s.serviceType == ServiceTypeUnspecified then Some(ServiceTypeMissing)
      else if s.consistencyModel == ConsistencyModelUnspecified then Some(ConsistencyModelMissing)
      else if s.deploymentTarget == DeploymentTargetUnspecified then Some(DeploymentTargetMissing)
      else if s.consistencyModel == Strong && s.latencyP99Ms < MIN_STRONG_LATENCY_MS then Some(StrongConsistencyLatency)
      else if s.throughputTps > MAX_LAMBDA_THROUGHPUT_TPS && s.deploymentTarget == Lambda then Some(LambdaThroughput)
      else if |s.integrations| > MAX_INTEGRATIONS then Some(TooManyIntegrations)
      else if HasUnspecifiedIntegration(s.integrations) then Some(UnspecifiedIntegration)
      else None
  }

  /** Each check on its own, independently of the order: does the input fail check `k`? */
  predicate Violates(c: Option<ServiceConstraints>, k: Check)
    ensures Violates(c, k) ==> (c.None? <==> k == NilConstraints)
  {
    match c
    case None => k == NilConstraints
    case Some(s) =>
      match k
      case NilConstraints => false
      case NameEmpty => |s.serviceName| == 0
      case NameLength => !(MIN_NAME_LENGTH <= Utf8Length(s.serviceName) <= MAX_NAME_LENGTH)
      case NamePattern => !MatchesNamePattern(s.serviceName)
      case ThroughputNotPositive => s.throughputTps < 1
      case ThroughputTooHigh => MAX_THROUGHPUT_TPS < s.throughputTps
      case LatencyNotPositive => s.latencyP99Ms < 1
      case LatencyTooHigh => MAX_LATENCY_P99_MS < s.latencyP99Ms
      case ServiceTypeMissing => s.serviceType.ServiceTypeUnspecified?
      case ConsistencyModelMissing => s.consistencyModel.ConsistencyModelUnspecified?
      case DeploymentTargetMissing => s.deploymentTarget.DeploymentTargetUnspecified?
      case StrongConsistencyLatency => s.consistencyModel.Strong? && s.latencyP99Ms < MIN_STRONG_LATENCY_MS
      case LambdaThroughput => s.deploymentTarget.Lambda? && s.throughputTps > MAX_LAMBDA_THROUGHPUT_TPS
      case TooManyIntegrations => |s.integrations| > MAX_INTEGRATIONS
      case UnspecifiedIntegration => IntegrationTypeUnspecified in s.integrations
  }

  /** The position of each check in the validator's fixed order. */
  function Rank(k: Check): (r: nat)
    ensures r < 15
    ensures r == 0 <==> k == NilConstraints
  {
    match k
    case NilConstraints => 0
    case NameEmpty => 1
    case NameLength => 2
    case NamePattern => 3
    case ThroughputNotPositive => 4
    case ThroughputTooHigh => 5
    case LatencyNotPositive => 6
    case LatencyTooHigh => 7
    case ServiceTypeMissing => 8
    case ConsistencyModelMissing => 9
    case DeploymentTargetMissing => 10
    case StrongConsistencyLatency => 11
    case LambdaThroughput => 12
    case TooManyIntegrations => 13
    case UnspecifiedIntegration => 14
  }

  lemma RankInjective(a: Check, b: Check)
    requires Rank(a) == Rank(b)
    ensures a == b
  {
  }

  /**
   * The checks overlap, which is why their order decides the error reported: an empty
   * name also fails the length and pattern checks. Some pairs exclude each other: a
   * non-positive throughput is neither above 1M nor above the Lambda limit, and a
   * latency under 50 ms is not above 60 s.
   */
  lemma CheckOverlaps(c: Option<ServiceConstraints>)
    ensures Violates(c, NameEmpty) ==> Violates(c, NameLength) && Violates(c, NamePattern)
    ensures Violates(c, ThroughputNotPositive) ==> !Violates(c, ThroughputTooHigh) && !Violates(c, LambdaThroughput)
    ensures Violates(c, StrongConsistencyLatency) ==> !Violates(c, LatencyTooHigh)
  {
  }

  /** A reported check fails, and every check before it in the order passes. */
  lemma FailedCheckSound(c: Option<ServiceConstraints>)
    ensures FailedCheck(c).Some? ==> Violates(c, FailedCheck(c).value)
    ensures FailedCheck(c).Some? ==> forall j :: Rank(j) < Rank(FailedCheck(c).value) ==> !Violates(c, j)
  {
  }

  /** The validator reports nothing exactly when no check fails. */
  lemma FailedCheckNoneIff(c: Option<ServiceConstraints>)
    ensures FailedCheck(c).None? <==> forall k :: !Violates(c, k)
  {
    FailedCheckSound(c);
  }

  /** The check reported is the first failing check in the fixed order, and later checks are never reached. */
  lemma FailedCheckIsFirstViolation(c: Option<ServiceConstraints>, k: Check)
    ensures FailedCheck(c) == Some(k) <==> Violates(c, k) && forall j :: Rank(j) < Rank(k) ==> !Violates(c, j)
  {
    FailedCheckSound(c);
    FailedCheckNoneIff(c);
    if Violates(c, k) && forall j :: Rank(j) < Rank(k) ==> !Violates(c, j) {
      var f := FailedCheck(c).value;
      assert !(Rank(f) < Rank(k));
      assert !(Rank(k) < Rank(f));
      RankInjective(f, k);
    }
  }

  /** The name as the pattern failure suggests it: `_` replaced by `-`, then lower-cased. */
  function SuggestedName(name: string): (r: string)
    ensures |r| == |name|
    ensures forall i :: 0 <= i < |r| ==> r[i] != '_' && !IsAsciiUpper(r[i])
  {
    AsciiLower(ReplaceChar(name, '_', '-'))
  }

  /** The field names the validator reports. */
  const FIELD_CONSTRAINTS := "constraints"
  const FIELD_SERVICE_NAME := "service_name"
  const FIELD_THROUGHPUT := "throughput_tps"
  const FIELD_LATENCY := "latency_p99_ms"
  const FIELD_SERVICE_TYPE := "service_type"
  const FIELD_CONSISTENCY := "consistency_model"
  const FIELD_DEPLOYMENT := "deployment_target"
  const FIELD_INTEGRATIONS := "integrations"

  /** The fixed suggestions (constraints.go, lines 57-178). */
  const SUGGEST_NAME_LENGTH := "Use a concise, descriptive name like 'inventory-manager' or 'payment-processor'"
  const SUGGEST_THROUGHPUT_POSITIVE := "Specify expected peak requests/messages per second (e.g., 1000 for typical API)"
  const SUGGEST_THROUGHPUT_MAX := "If you truly need >1M TPS, contact the OSE team for specialized architecture guidance"
  const SUGGEST_LATENCY_POSITIVE := "Specify p99 latency target in milliseconds (e.g., 100 for typical API)"
  const SUGGEST_LATENCY_MAX := "For batch jobs with >60s latency, consider ServiceType = BACKGROUND_WORKER"
  const SUGGEST_SERVICE_TYPE := "Choose: API, EVENT_PROCESSOR, BACKGROUND_WORKER, or STREAM_PROCESSOR"
  const SUGGEST_CONSISTENCY := "Choose STRONG (ACID transactions) or EVENTUAL (BASE properties)"
  const SUGGEST_DEPLOYMENT := "Choose: KUBERNETES, ECS, or LAMBDA"
  const SUGGEST_STRONG_LATENCY := "Either increase latency target to \U{2265}50ms or use eventual consistency"
  const SUGGEST_LAMBDA := "Use KUBERNETES for high-throughput services"
  const SUGGEST_INTEGRATION_COUNT := "Services with >10 dependencies are likely violating single responsibility principle"
  const SUGGEST_INTEGRATION_TYPE := "Specify concrete integration types (KAFKA, POSTGRESQL, etc.)"

  /** The fixed messages (constraints.go, lines 37-177). */
  const MSG_NIL := "constraints cannot be nil"
  const MSG_NAME_REQUIRED := "service name is required"
  const MSG_NAME_LENGTH := "service name must be 3-63 characters, got "
  const MSG_NAME_PATTERN := "service name must be lowercase letters, numbers, and hyphens only (DNS-compatible)"
  const MSG_THROUGHPUT_POSITIVE := "throughput must be positive"
  const MSG_LATENCY_POSITIVE := "latency target must be positive"
  const MSG_SERVICE_TYPE := "service type must be specified"
  const MSG_CONSISTENCY := "consistency model must be specified"
  const MSG_DEPLOYMENT := "deployment target must be specified"
  const MSG_STRONG_LATENCY := "strong consistency requires minimum 50ms latency (ACID coordination overhead)"
  const MSG_LAMBDA := "Lambda is not suitable for >10K TPS sustained throughput"
  const MSG_INTEGRATION_TYPE := "integration type UNSPECIFIED is not allowed"

  /** The error record returned for a failing check (constraints.go, lines 34-181). */
  function ErrorFor(c: Option<ServiceConstraints>, k: Check): (e: ValidationError)
    requires c.Some? || k == NilConstraints
    ensures k == NilConstraints ==> e.field == FIELD_CONSTRAINTS
    ensures k in {NameEmpty, NameLength, NamePattern} ==> e.field == FIELD_SERVICE_NAME
    ensures k in {ThroughputNotPositive, ThroughputTooHigh} ==> e.field == FIELD_THROUGHPUT
    ensures k in {LatencyNotPositive, LatencyTooHigh, StrongConsistencyLatency} ==> e.field == FIELD_LATENCY
    ensures k == ServiceTypeMissing ==> e.field == FIELD_SERVICE_TYPE
    ensures k == ConsistencyModelMissing ==> e.field == FIELD_CONSISTENCY
    ensures k in {DeploymentTargetMissing, LambdaThroughput} ==> e.field == FIELD_DEPLOYMENT
    ensures k in {TooManyIntegrations, UnspecifiedIntegration} ==> e.field == FIELD_INTEGRATIONS
    ensures e.suggestion == "" <==> k == NilConstraints || k == NameEmpty
    ensures k == NamePattern ==> e.suggestion == "Try: " + SuggestedName(c.value.serviceName)
  {
    match k
    case NilConstraints =>
      ValidationError(FIELD_CONSTRAINTS, MSG_NIL, "")
    case NameEmpty =>
      ValidationError(FIELD_SERVICE_NAME, MSG_NAME_REQUIRED, "")
    case NameLength =>
      ValidationError(FIELD_SERVICE_NAME,
        MSG_NAME_LENGTH + IntToString(Utf8Length(c.value.serviceName)),
        SUGGEST_NAME_LENGTH)
    case NamePattern =>
      ValidationError(FIELD_SERVICE_NAME,
        MSG_NAME_PATTERN,
        "Try: " + SuggestedName(c.value.serviceName))
    case ThroughputNotPositive =>
      ValidationError(FIELD_THROUGHPUT, MSG_THROUGHPUT_POSITIVE, SUGGEST_THROUGHPUT_POSITIVE)
    case ThroughputTooHigh =>
      ValidationError(FIELD_THROUGHPUT,
        "throughput " + IntToString(c.value.throughputTps) + " TPS exceeds reasonable maximum (1M TPS)",
        SUGGEST_THROUGHPUT_MAX)
    case LatencyNotPositive =>
      ValidationError(FIELD_LATENCY, MSG_LATENCY_POSITIVE, SUGGEST_LATENCY_POSITIVE)
    case LatencyTooHigh =>
      ValidationError(FIELD_LATENCY,
        "latency target " + IntToString(c.value.latencyP99Ms) + "ms exceeds 60 seconds",
        SUGGEST_LATENCY_MAX)
    case ServiceTypeMissing =>
      ValidationError(FIELD_SERVICE_TYPE, MSG_SERVICE_TYPE, SUGGEST_SERVICE_TYPE)
    case ConsistencyModelMissing =>
      ValidationError(FIELD_CONSISTENCY, MSG_CONSISTENCY, SUGGEST_CONSISTENCY)
    case DeploymentTargetMissing =>
      ValidationError(FIELD_DEPLOYMENT, MSG_DEPLOYMENT, SUGGEST_DEPLOYMENT)
    case StrongConsistencyLatency =>
      ValidationError(FIELD_LATENCY,
        MSG_STRONG_LATENCY,
        SUGGEST_STRONG_LATENCY)
    case LambdaThroughput =>
      ValidationError(FIELD_DEPLOYMENT, MSG_LAMBDA, SUGGEST_LAMBDA)
    case TooManyIntegrations =>
      ValidationError(FIELD_INTEGRATIONS,
        "service declares " + IntToString(|c.value.integrations|) + " integrations (max 10)",
        SUGGEST_INTEGRATION_COUNT)
    case UnspecifiedIntegration =>
      ValidationError(FIELD_INTEGRATIONS, MSG_INTEGRATION_TYPE, SUGGEST_INTEGRATION_TYPE)
  }

  /** `ValidateServiceConstraints`: None (Go's nil) when every check passes, else the first failure's record. */
  function ValidateServiceConstraints(c: Option<ServiceConstraints>): (r: Option<ValidationError>)
    ensures r.None? <==> forall k :: !Violates(c, k)
    ensures r.Some? <==> FailedCheck(c).Some?
    ensures r.Some? ==> r.value == ErrorFor(c, FailedCheck(c).value)
    ensures c.None? ==> r.Some? && r.value.field == FIELD_CONSTRAINTS && r.value.suggestion == ""
  {
    FailedCheckNoneIff(c);
    match FailedCheck(c)
    case None => None
    case Some(k) => Some(ErrorFor(c, k))
  }

  /** `ValidationError.Error()`: "field: message. Suggestion: s", or "field: message" without a suggestion. */
  function ErrorString(e: ValidationError): (r: string)
    ensures |e.field| + 2 + |e.message| <= |r|
    ensures r[..|e.field| + 2 + |e.message|] == e.field + ": " + e.message
    ensures |r| == |e.field| + 2 + |e.message| <==> e.suggestion == ""
    ensures e.suggestion != "" ==> |r| == |e.field| + 2 + |e.message| + 14 + |e.suggestion|
    ensures e.suggestion != "" ==> r[|r| - |e.suggestion|..] == e.suggestion
    ensures e.suggestion != "" ==> r[|e.field| + 2 + |e.message|..|r| - |e.suggestion|] == ". Suggestion: "
  {
    if e.suggestion != "" then e.field + ": " + e.message + ". Suggestion: " + e.suggestion
    else e.field + ": " + e.message
  }

  // ---------------------------------------------------------------------------
  // Properties of the validator
  // ---------------------------------------------------------------------------

  /** A name passes the three structural checks iff it is 3-63 characters of `[a-z0-9-]` starting with `[a-z]`. */
  lemma NameChecksIff(s: ServiceConstraints)
    ensures FailedCheck(Some(s)) !in {Some(NameEmpty), Some(NameLength), Some(NamePattern)}
            <==> IsDnsLabel(s.serviceName)
  {
    var n := s.serviceName;
    if MatchesNamePattern(n) {
      forall i | 0 <= i < |n| ensures IsAscii(n[i]) {
        assert IsNameChar(n[i]);
      }
      AsciiUtf8Length(n);
    }
    if IsDnsLabel(n) {
      assert MatchesNamePattern(n);
    }
  }

  /** The pattern failure's suggestion repairs any name of ASCII letters, digits, `-` and `_` that starts with a letter. */
  lemma {:induction false} PatternSuggestionRepairs(s: ServiceConstraints)
    requires FailedCheck(Some(s)) == Some(NamePattern)
    requires IsAsciiLower(s.serviceName[0]) || IsAsciiUpper(s.serviceName[0])
    requires forall i :: 0 <= i < |s.serviceName| ==>
               var ch := s.serviceName[i]; IsAsciiLower(ch) || IsAsciiUpper(ch) || IsAsciiDigit(ch) || ch == '-' || ch == '_'
    ensures ErrorFor(Some(s), NamePattern).suggestion == "Try: " + SuggestedName(s.serviceName)
    ensures IsDnsLabel(SuggestedName(s.serviceName))
  {
    var n := s.serviceName;
    var m := SuggestedName(n);
    forall i | 0 <= i < |n| ensures IsAscii(n[i]) && IsNameChar(m[i]) {
      assert m[i] == LowerChar(ReplaceChar(n, '_', '-')[i]);
    }
    AsciiUtf8Length(n);
    assert m[0] == LowerChar(n[0]);
  }

  /** Throughput passes its two checks iff it lies in 1..1,000,000; otherwise the error names "throughput_tps". */
  lemma ThroughputRange(s: ServiceConstraints)
    requires IsDnsLabel(s.serviceName)
    ensures FailedCheck(Some(s)) in {Some(ThroughputNotPositive), Some(ThroughputTooHigh)}
            <==> !(1 <= s.throughputTps <= MAX_THROUGHPUT_TPS)
    ensures !(1 <= s.throughputTps <= MAX_THROUGHPUT_TPS) ==>
              ValidateServiceConstraints(Some(s)).value.field == FIELD_THROUGHPUT
  {
    NameChecksIff(s);
  }

  /** With a valid name and throughput, latency passes its two checks iff it lies in 1..60,000. */
  lemma LatencyRange(s: ServiceConstraints)
    requires IsDnsLabel(s.serviceName) && 1 <= s.throughputTps <= MAX_THROUGHPUT_TPS
    ensures FailedCheck(Some(s)) in {Some(LatencyNotPositive), Some(LatencyTooHigh)}
            <==> !(1 <= s.latencyP99Ms <= MAX_LATENCY_P99_MS)
    ensures !(1 <= s.latencyP99Ms <= MAX_LATENCY_P99_MS) ==>
              ValidateServiceConstraints(Some(s)).value.field == FIELD_LATENCY
  {
    NameChecksIff(s);
  }

  /** Everything up to and including the enumeration checks passes. */
  predicate PassesThroughEnumerations(s: ServiceConstraints)
  {
    IsDnsLabel(s.serviceName)
    && 1 <= s.throughputTps <= MAX_THROUGHPUT_TPS
    && 1 <= s.latencyP99Ms <= MAX_LATENCY_P99_MS
    && !s.serviceType.ServiceTypeUnspecified?
    && !s.consistencyModel.ConsistencyModelUnspecified?
    && !s.deploymentTarget.DeploymentTargetUnspecified?
  }

  /** Strong consistency below 50 ms is rejected on "latency_p99_ms"; exactly 50 ms passes that check. */
  lemma StrongConsistencyNeedsFiftyMs(s: ServiceConstraints)
    requires PassesThroughEnumerations(s) && s.consistencyModel == Strong
    ensures s.latencyP99Ms < 50 ==>
              FailedCheck(Some(s)) == Some(StrongConsistencyLatency)
              && ValidateServiceConstraints(Some(s)).value.field == FIELD_LATENCY
    ensures s.latencyP99Ms == 50 ==> FailedCheck(Some(s)) != Some(StrongConsistencyLatency)
  {
    NameChecksIff(s);
  }

  /** Above 10,000 TPS on Lambda is rejected on "deployment_target"; exactly 10,000 TPS passes that check. */
  lemma LambdaThroughputLimit(s: ServiceConstraints)
    requires PassesThroughEnumerations(s) && s.deploymentTarget == Lambda
    requires !(s.consistencyModel == Strong && s.latencyP99Ms < 50)
    ensures s.throughputTps > 10_000 ==>
              FailedCheck(Some(s)) == Some(LambdaThroughput)
              && ValidateServiceConstraints(Some(s)).value.field == FIELD_DEPLOYMENT
    ensures s.throughputTps == 10_000 ==> FailedCheck(Some(s)) != Some(LambdaThroughput)
  {
    NameChecksIff(s);
  }

  /** The cross-field rules reject whatever the other fields hold (possibly through an earlier check). */
  lemma CrossFieldRulesAlwaysReject(s: ServiceConstraints)
    ensures s.consistencyModel == Strong && s.latencyP99Ms < 50 ==> ValidateServiceConstraints(Some(s)).Some?
    ensures s.deploymentTarget == Lambda && s.throughputTps > 10_000 ==> ValidateServiceConstraints(Some(s)).Some?
    ensures |s.integrations| > 10 || IntegrationTypeUnspecified in s.integrations ==> ValidateServiceConstraints(Some(s)).Some?
  {
    if s.consistencyModel == Strong && s.latencyP99Ms < 50 {
      assert Violates(Some(s), StrongConsistencyLatency);
    }
    if s.deploymentTarget == Lambda && s.throughputTps > 10_000 {
      assert Violates(Some(s), LambdaThroughput);
    }
    if |s.integrations| > 10 {
      assert Violates(Some(s), TooManyIntegrations);
    } else if IntegrationTypeUnspecified in s.integrations {
      assert Violates(Some(s), UnspecifiedIntegration);
    }
  }

  /** Once all earlier checks pass, more than 10 integrations or an UNSPECIFIED one is reported on "integrations". */
  lemma IntegrationChecks(s: ServiceConstraints)
    requires PassesThroughEnumerations(s)
    requires !(s.consistencyModel == Strong && s.latencyP99Ms < 50)
    requires !(s.deploymentTarget == Lambda && s.throughputTps > 10_000)
    ensures ValidateServiceConstraints(Some(s)).Some?
            <==> |s.integrations| > 10 || IntegrationTypeUnspecified in s.integrations
    ensures ValidateServiceConstraints(Some(s)).Some? ==>
              ValidateServiceConstraints(Some(s)).value.field == FIELD_INTEGRATIONS
  {
    NameChecksIff(s);
  }

  /** Constraints that pass every check one by one are accepted. */
  lemma AllChecksPassAccepted(s: ServiceConstraints)
    requires PassesThroughEnumerations(s)
    requires !(s.consistencyModel == Strong && s.latencyP99Ms < 50)
    requires !(s.deploymentTarget == Lambda && s.throughputTps > 10_000)
    requires |s.integrations| <= 10 && IntegrationTypeUnspecified !in s.integrations
    ensures ValidateServiceConstraints(Some(s)).None?
  {
    NameChecksIff(s);
  }

  /** A typical API request named as the name-length suggestion proposes (constraints.go, line 57) passes validation. */
  lemma InventoryManagerIsValid()
    ensures ValidateServiceConstraints(Some(ServiceConstraints(
              "inventory-manager", Api, 500, 200, Eventual, [Kafka, Postgresql, Redis], Kubernetes))).None?
  {
    var n := "inventory-manager";
    forall i | 0 <= i < |n| ensures IsNameChar(n[i]) {
      if i < 9 { assert n[..9] == "inventory"; assert n[i] == n[..9][i]; }
      else if i == 9 { }
      else { assert n[10..] == "manager"; assert n[i] == n[10..][i - 10]; }
    }
    AllChecksPassAccepted(ServiceConstraints(n, Api, 500, 200, Eventual, [Kafka, Postgresql, Redis], Kubernetes));
  }

}
