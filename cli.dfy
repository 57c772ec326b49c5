/**
 * The data model of the command-line advisor (ose-cli/cli/main.py).
 *
 * `ServiceConstraints` is the mutable record the interview fills in field by
 * field; the dictionary it serialises to is a map from key to `DictValue`.
 * Python's `str.lower` is modelled on ASCII only.
 */
module Cli {
  import opened Text

  /** The values that occur in the serialised constraints. */
  datatype DictValue = StrValue(s: string) | IntValue(i: int) | FloatValue(f: real) | ListValue(items: seq<string>)

  const KEY_SERVICE_NAME := "service_name"
  const KEY_SERVICE_TYPE := "service_type"
  const KEY_THROUGHPUT_TPS := "throughput_tps"
  const KEY_LATENCY_P99_MS := "latency_p99_ms"
  const KEY_CONSISTENCY_MODEL := "consistency_model"
  const KEY_INTEGRATIONS := "integrations"
  const KEY_DATA_VOLUME_GB := "data_volume_gb"
  const KEY_TEAM_SIZE := "team_size"
  const KEY_DEPLOYMENT_TARGET := "deployment_target"

  const DICT_KEYS: set<string> := {
    KEY_SERVICE_NAME, KEY_SERVICE_TYPE, KEY_THROUGHPUT_TPS, KEY_LATENCY_P99_MS, KEY_CONSISTENCY_MODEL,
    KEY_INTEGRATIONS, KEY_DATA_VOLUME_GB, KEY_TEAM_SIZE, KEY_DEPLOYMENT_TARGET}

  const DEFAULT_DEPLOYMENT_TARGET := "kubernetes"

  /** Python's `all` over a list of truth values. */
  function All(xs: seq<bool>): (r: bool)
    ensures r <==> forall i :: 0 <= i < |xs| ==> xs[i]
  {
    if xs == [] then true else xs[0] && All(xs[1..])
  }

  /** The architectural constraints gathered by the interview. */
  class ServiceConstraints {
    var serviceName: string
    var serviceType: string
    var throughputTps: int
    var latencyP99Ms: int
    var consistencyModel: string
    var integrations: seq<string>
    var dataVolumeGb: real
    var teamSize: int
    var deploymentTarget: string

    /** Empty or zero fields, deployment on Kubernetes. */
    constructor ()
      ensures serviceName == "" && serviceType == "" && throughputTps == 0 && latencyP99Ms == 0
      ensures consistencyModel == "" && integrations == [] && dataVolumeGb == 0.0 && teamSize == 0
      ensures deploymentTarget == DEFAULT_DEPLOYMENT_TARGET
      ensures !IsComplete()
    {
      serviceName := "";
      serviceType := "";
      throughputTps := 0;
      latencyP99Ms := 0;
      consistencyModel := "";
      integrations := [];
      dataVolumeGb := 0.0;
      teamSize := 0;
      deploymentTarget := DEFAULT_DEPLOYMENT_TARGET;
    }

    /** `to_dict`: the nine fields under their snake-case keys. */
    function ToDict(): (d: map<string, DictValue>)
      reads this
      ensures d.Keys == DICT_KEYS
      ensures d[KEY_SERVICE_NAME] == StrValue(serviceName) && d[KEY_SERVICE_TYPE] == StrValue(serviceType)
      ensures d[KEY_THROUGHPUT_TPS] == IntValue(throughputTps) && d[KEY_LATENCY_P99_MS] == IntValue(latencyP99Ms)
      ensures d[KEY_CONSISTENCY_MODEL] == StrValue(consistencyModel) && d[KEY_INTEGRATIONS] == ListValue(integrations)
      ensures d[KEY_DATA_VOLUME_GB] == FloatValue(dataVolumeGb) && d[KEY_TEAM_SIZE] == IntValue(teamSize)
      ensures d[KEY_DEPLOYMENT_TARGET] == StrValue(deploymentTarget)
    {
      map[
        KEY_SERVICE_NAME := StrValue(serviceName),
        KEY_SERVICE_TYPE := StrValue(serviceType),
        KEY_THROUGHPUT_TPS := IntValue(throughputTps),
        KEY_LATENCY_P99_MS := IntValue(latencyP99Ms),
        KEY_CONSISTENCY_MODEL := StrValue(consistencyModel),
        KEY_INTEGRATIONS := ListValue(integrations),
        KEY_DATA_VOLUME_GB := FloatValue(dataVolumeGb),
        KEY_TEAM_SIZE := IntValue(teamSize),
        KEY_DEPLOYMENT_TARGET := StrValue(deploymentTarget)]
    }

    /** `is_complete`: the five required constraints are truthy. */
    predicate IsComplete()
      reads this
      ensures IsComplete() <==>
                serviceName != "" && serviceType != "" && throughputTps > 0 && latencyP99Ms > 0
                && consistencyModel != ""
    {
      var checks := [serviceName != "", serviceType != "", throughputTps > 0, latencyP99Ms > 0, consistencyModel != ""];
      assert (forall i :: 0 <= i < |checks| ==> checks[i]) <==>
               checks[0] && checks[1] && checks[2] && checks[3] && checks[4];
      All(checks)
    }

    /** Line 417: the selected integrations without the "none" choice. */
    method RecordIntegrations(selected: seq<string>)
      modifies this
      ensures integrations == WithoutNone(selected)
      ensures serviceName == old(serviceName) && serviceType == old(serviceType)
      ensures throughputTps == old(throughputTps) && latencyP99Ms == old(latencyP99Ms)
      ensures consistencyModel == old(consistencyModel) && dataVolumeGb == old(dataVolumeGb)
      ensures teamSize == old(teamSize) && deploymentTarget == old(deploymentTarget)
    {
      integrations := WithoutNone(selected);
    }
  }

  /** The serialised dictionary determines every field: no two different records share one. */
  lemma ToDictInjective(a: ServiceConstraints, b: ServiceConstraints)
    requires a.ToDict() == b.ToDict()
    ensures a.serviceName == b.serviceName && a.serviceType == b.serviceType
    ensures a.throughputTps == b.throughputTps && a.latencyP99Ms == b.latencyP99Ms
    ensures a.consistencyModel == b.consistencyModel && a.integrations == b.integrations
    ensures a.dataVolumeGb == b.dataVolumeGb && a.teamSize == b.teamSize
    ensures a.deploymentTarget == b.deploymentTarget
  {
    var da, db := a.ToDict(), b.ToDict();
    assert da[KEY_SERVICE_NAME] == db[KEY_SERVICE_NAME];
    assert da[KEY_SERVICE_TYPE] == db[KEY_SERVICE_TYPE];
    assert da[KEY_THROUGHPUT_TPS] == db[KEY_THROUGHPUT_TPS];
    assert da[KEY_LATENCY_P99_MS] == db[KEY_LATENCY_P99_MS];
    assert da[KEY_CONSISTENCY_MODEL] == db[KEY_CONSISTENCY_MODEL];
    assert da[KEY_INTEGRATIONS] == db[KEY_INTEGRATIONS];
    assert da[KEY_DATA_VOLUME_GB] == db[KEY_DATA_VOLUME_GB];
    assert da[KEY_TEAM_SIZE] == db[KEY_TEAM_SIZE];
    assert da[KEY_DEPLOYMENT_TARGET] == db[KEY_DEPLOYMENT_TARGET];
  }

  const NONE_CHOICE := "none"

  /** `[s for s in selected if s != 'none']`. */
  function WithoutNone(selected: seq<string>): (r: seq<string>)
    ensures NONE_CHOICE !in r
    ensures |r| <= |selected|
    ensures forall x :: x != NONE_CHOICE ==> multiset(r)[x] == multiset(selected)[x]
  {
    if selected == [] then []
    else
      assert selected == [selected[0]] + selected[1..];
      (if selected[0] == NONE_CHOICE then [] else [selected[0]]) + WithoutNone(selected[1..])
  }

  /** The filter keeps the order of what it keeps: it distributes over concatenation. */
  lemma {:induction false} WithoutNoneAppend(a: seq<string>, b: seq<string>)
    ensures WithoutNone(a + b) == WithoutNone(a) + WithoutNone(b)
    decreases |a|
  {
    if a == [] {
      assert a + b == b;
    } else {
      assert (a + b)[1..] == a[1..] + b;
      WithoutNoneAppend(a[1..], b);
    }
  }

  /** A selection without "none" passes unchanged. */
  lemma {:induction false} WithoutNoneIdentity(selected: seq<string>)
    requires NONE_CHOICE !in selected
    ensures WithoutNone(selected) == selected
  {
    if selected != [] {
      assert NONE_CHOICE !in selected[1..];
      WithoutNoneIdentity(selected[1..]);
    }
  }

  /** Filtering twice is filtering once. */
  lemma WithoutNoneIdempotent(selected: seq<string>)
    ensures WithoutNone(WithoutNone(selected)) == WithoutNone(selected)
  {
    WithoutNoneIdentity(WithoutNone(selected));
  }

  // ---------------------------------------------------------------------------
  // Consistency recommendation (lines 337-355)
  // ---------------------------------------------------------------------------

  const STRONG_INDICATORS := ["money", "payment", "financial", "transaction",
                              "inventory", "stock", "order", "auth", "security"]
  const EVENTUAL_INDICATORS := ["feed", "timeline", "social", "analytics",
                                "recommendation", "cache", "view", "read"]

  /** `any(indicator in text for indicator in keywords)`. */
  predicate MentionsAny(text: string, keywords: seq<string>)
    ensures MentionsAny(text, keywords) <==> exists k :: k in keywords && Contains(text, k)
    ensures keywords == [] ==> !MentionsAny(text, keywords)
    ensures "" in keywords ==> MentionsAny(text, keywords)
  {
    exists i :: 0 <= i < |keywords| && Contains(text, keywords[i])
  }

  const STRONG := "strong"
  const EVENTUAL := "eventual"

  /** The keyword rule on the lower-cased use case: strong keywords win, and strong is the default. */
  function RecommendConsistency(useCaseLower: string): (r: string)
    ensures r == STRONG || r == EVENTUAL
    ensures r == EVENTUAL <==> !MentionsAny(useCaseLower, STRONG_INDICATORS) && MentionsAny(useCaseLower, EVENTUAL_INDICATORS)
    ensures MentionsAny(useCaseLower, STRONG_INDICATORS) ==> r == STRONG
    ensures !MentionsAny(useCaseLower, EVENTUAL_INDICATORS) ==> r == STRONG
  {
    if MentionsAny(useCaseLower, STRONG_INDICATORS) then STRONG
    else if MentionsAny(useCaseLower, EVENTUAL_INDICATORS) then EVENTUAL
    else STRONG
  }

  /** A use case that names a payment is steered to strong consistency whatever else it says. */
  lemma PaymentUseCaseIsStrong(before: string, after: string)
    ensures RecommendConsistency(AsciiLower(before) + "payment" + AsciiLower(after)) == STRONG
  {
    var text := AsciiLower(before) + "payment" + AsciiLower(after);
    var i := |AsciiLower(before)|;
    assert text[i..i + 7] == "payment";
    assert OccursAt(text, STRONG_INDICATORS[1], i);
  }

  // ---------------------------------------------------------------------------
  // The mock blueprint (lines 512-548)
  // ---------------------------------------------------------------------------

  datatype MockPattern = MockPattern(id: string, name: string, confidence: real, rationale: string)

  datatype MockArtifact = MockArtifact(kind: string, path: string)

  datatype MockBlueprint = MockBlueprint(
    serviceName: string,
    confidence: real,
    patterns: seq<MockPattern>,
    artifacts: seq<MockArtifact>)

  const OUTBOX_PATTERN := MockPattern("pattern-023", "Transactional Outbox Pattern", 0.92,
    "Ensures atomic state changes with event publishing")
  const BACKPRESSURE_PATTERN := MockPattern("pattern-001", "Actor Mailbox Backpressure", 0.95,
    "Handles high load with graceful degradation")
  const TELEMETRY_PATTERN := MockPattern("pattern-007", "OpenTelemetry Instrumentation", 0.98,
    "Essential observability for all production services")

  const HIGH_THROUGHPUT_TPS := 1000
  const MOCK_CONFIDENCE := 0.87

  /** The patterns the mock recommends: outbox if strong, backpressure above 1000 TPS, telemetry always. */
  function MockPatterns(consistencyModel: string, throughputTps: int): (r: seq<MockPattern>)
    ensures 1 <= |r| <= 3 && r[|r| - 1] == TELEMETRY_PATTERN
    ensures OUTBOX_PATTERN in r <==> consistencyModel == STRONG
    ensures BACKPRESSURE_PATTERN in r <==> throughputTps > HIGH_THROUGHPUT_TPS
  {
    (if consistencyModel == STRONG then [OUTBOX_PATTERN] else [])
    + (if throughputTps > HIGH_THROUGHPUT_TPS then [BACKPRESSURE_PATTERN] else [])
    + [TELEMETRY_PATTERN]
  }

  /** The four artifacts; only the protobuf path depends on the service name. */
  function MockArtifacts(serviceName: string): (r: seq<MockArtifact>)
    ensures |r| == 4 && r[0] == MockArtifact("proto", "proto/" + serviceName + "/v1/service.proto")
  {
    [ MockArtifact("proto", "proto/" + serviceName + "/v1/service.proto"),
      MockArtifact("sql", "db/schema.sql"),
      MockArtifact("kubernetes", "deploy/k8s/deployment.yaml"),
      MockArtifact("markdown", "docs/ARCHITECTURE.md") ]
  }

  /**
   * The selection rule: telemetry is always present and last; the outbox is present
   * exactly for strong consistency and then first; backpressure exactly above 1000
   * TPS; there is no other pattern and no repeat.
   */
  lemma MockPatternsSelection(consistencyModel: string, throughputTps: int)
    ensures var ps := MockPatterns(consistencyModel, throughputTps);
      var strong := consistencyModel == STRONG;
      var busy := throughputTps > HIGH_THROUGHPUT_TPS;
      && |ps| == 1 + (if strong then 1 else 0) + (if busy then 1 else 0)
      && ps[|ps| - 1] == TELEMETRY_PATTERN
      && (OUTBOX_PATTERN in ps <==> strong)
      && (strong ==> ps[0] == OUTBOX_PATTERN)
      && (BACKPRESSURE_PATTERN in ps <==> busy)
      && (forall i :: 0 <= i < |ps| ==> ps[i] in {OUTBOX_PATTERN, BACKPRESSURE_PATTERN, TELEMETRY_PATTERN})
      && (forall i, j :: 0 <= i < j < |ps| ==> ps[i].id != ps[j].id)
  {
  }

  /** `_generate_blueprint_mock`: builds the pattern list by appending, then the fixed blueprint. */
  method GenerateBlueprintMock(c: ServiceConstraints) returns (b: MockBlueprint)
    ensures b.serviceName == c.serviceName && b.confidence == MOCK_CONFIDENCE
    ensures b.patterns == MockPatterns(c.consistencyModel, c.throughputTps)
    ensures b.artifacts == MockArtifacts(c.serviceName)
  {
    var patterns: seq<MockPattern> := [];
    if c.consistencyModel == STRONG {
      patterns := patterns + [OUTBOX_PATTERN];
    }
    if c.throughputTps > HIGH_THROUGHPUT_TPS {
      patterns := patterns + [BACKPRESSURE_PATTERN];
    }
    patterns := patterns + [TELEMETRY_PATTERN];
    b := MockBlueprint(c.serviceName, MOCK_CONFIDENCE, patterns, MockArtifacts(c.serviceName));
  }
}
