# OSE advisory service: a verified Dafny model of its validation and scoring kernel

The Organizational Service Engine (OSE) helps engineers start a new service.
They describe its constraints: name, service type, throughput, p99 latency,
consistency model, integrations and deployment target. The advisory service
validates that description at its boundary and returns a blueprint of
recommended patterns, generated artifacts and performance targets. Afterwards
it takes feedback on the blueprint's quality as the Ξ score, the geometric
mean of relevance, actionability and impact.

This project models the deterministic core of that system and proves properties of it:

| module | file | models |
|---|---|---|
| `Results` | `results.dfy` | `Option` / `Result` wrappers |
| `Text` | `text.dfy` | UTF-8 byte length (Go's `len`), ASCII lower-casing, `strings.ReplaceAll` on one character, decimal formatting of integers, substring search |
| `Validation` | `validation.dfy` | `ValidateServiceConstraints`, `ValidationError` and its `Error()` text (`ose-api/pkg/validation/constraints.go`) |
| `Xi` | `xi.dfy` | the Ξ calculator (`ose-api/pkg/xi/calculator.go`) |
| `Handlers` | `handlers.dfy` | the four RPC handlers and their mock helpers (`ose-api/internal/handlers/advisory_handler.go`) |
| `Configuration` | `configuration.dfy` | `Load`, `Validate` and the `getEnv*` lookups (`ose-api/internal/config/config.go`) |
| `Cli` | `cli.dfy` | the CLI's `ServiceConstraints` record, its keyword rule, its integration filter and its mock blueprint (`ose-cli/cli/main.py`) |

Modelling choices:

- **Validator.** It is the function `FailedCheck`, which names the first failing check (a `Check` value), followed by `ErrorFor`, which builds the `{field, message, suggestion}` record.
  - The order is stated against an independent definition: `Violates` tests each check on its own, and `Rank` fixes its position in the order.
  - Protobuf enums are datatypes with an explicit `...Unspecified` constructor.
  - A nil request is `None`.
  - Go's `len` on the service name counts UTF-8 bytes (`Text.Utf8Length`).
- **Float64.** Go's `float64` is Dafny's `real`.
  - `math.Sqrt` and `math.Pow(x, 1.0/3.0)` are function parameters `sqrt` and `cbrt`.
  - The only facts assumed of them are the ghost predicates `IsSquareRoot` and `IsCubeRoot`: the root is non-negative and its square (cube) gives back the argument. Monotonicity and the [0, 1] bounds are proved from these.
- **Imperative code.** `CalculateImpact` (a loop that decrements the stability factor), `mockRecommendedPatterns` and the CLI's `_generate_blueprint_mock` (lists grown by appending) are methods. Each is proved equal to a specification function, and the properties are lemmas about that function.
- **Mutable record.** The CLI's `ServiceConstraints` is a class whose fields the interview assigns.
- **Inputs the model cannot see.** The clock (`time.Now().Unix()`) is a parameter. `GenerateBlueprint` reads it twice, once for the identifier and once for the timestamp, so it takes two readings, which may differ. The environment is a `map<string, string>`. `strconv.Atoi` / `strconv.ParseBool` are abstract partial functions (`Configuration.Parsers`).

Points where the code's behaviour is easy to misread, as the model states it:

- **Suggestions.** Not every validation error carries a suggestion. The code gives none for a nil request (constraints.go:34-39) or an empty name (46-51), and `Validation.ErrorFor` states exactly that.
- **Orchestration.** `GenerateBlueprint` calls only local mock helpers, with no collaborator, time-out or partial-failure path, so there is nothing of that kind to model.
- **Error transport.** A violation reaches the RPC caller as the text `"invalid service constraints: " + Error()` inside an InvalidArgument status, not as a structured record (advisory_handler.go:80-81).

## Model

| member | source | states |
|---|---|---|
| Text.Utf8Length | ose-api/pkg/validation/constraints.go:53 | the byte length Go's `len` reports: at least the number of characters, and zero exactly for the empty string |
| Text.AsciiUtf8Length | ose-api/pkg/validation/constraints.go:53-61 | for an all-ASCII string the byte length equals the character count, so the length check and the pattern check measure the same thing |
| Text.AsciiLower | ose-api/pkg/validation/constraints.go:65 | every upper-case ASCII letter is lowered and every other character kept, position by position |
| Text.ReplaceChar | ose-api/pkg/validation/constraints.go:65 | every occurrence of one character is replaced and nothing else changes |
| Text.IntToString | ose-api/internal/handlers/advisory_handler.go:341 | Go's `%d` rendering: non-empty, starting with '-' exactly for negative numbers, with no leading zero ("0" only for zero), digits only after the sign |
| Text.NatToStringRoundTrip | ose-api/internal/handlers/advisory_handler.go:341 | reading back the decimal digits of a natural number gives that number |
| Text.IntToStringRoundTrip | ose-api/internal/handlers/advisory_handler.go:341 | reading back the decimal text of any integer, sign included, gives that integer |
| Text.IntToStringInjective | ose-api/internal/handlers/advisory_handler.go:341 | different integers have different decimal texts |
| Text.Contains | ose-cli/cli/main.py:343-347 | Python's `sub in text`: a substring is no longer than the text, the empty string occurs in every text, and a substring as long as the text is the text |
| Validation.HasUnspecifiedIntegration | ose-api/pkg/validation/constraints.go:173-181 | the early-exit scan finds an UNSPECIFIED integration exactly when one occurs in the list |
| Validation.MatchesNamePattern | ose-api/pkg/validation/constraints.go:17 | the name regular expression: every name it admits is all ASCII, with no '_' and no upper-case letter |
| Validation.FailedCheck | ose-api/pkg/validation/constraints.go:33-185 | the chain of early returns: any check it reports is one the request fails, and it reports the nil check exactly for a nil request |
| Validation.Violates | ose-api/pkg/validation/constraints.go:33-181 | each check on its own: a nil request fails only the nil check, and a present request never fails it |
| Validation.Rank | ose-api/pkg/validation/constraints.go:33-181 | the fifteen checks take positions 0 to 14 in the validator's order, with the nil check first |
| Validation.CheckOverlaps | ose-api/pkg/validation/constraints.go:46-158 | the checks overlap, so their order decides the report: an empty name also fails the length and pattern checks; a non-positive throughput fails neither upper limit; a latency under 50 ms is not above 60 s |
| Validation.FailedCheckSound | ose-api/pkg/validation/constraints.go:30-184 | the check reported fails, and every check ranked before it passes |
| Validation.FailedCheckNoneIff | ose-api/pkg/validation/constraints.go:184 | nothing is reported exactly when no check fails |
| Validation.FailedCheckIsFirstViolation | ose-api/pkg/validation/constraints.go:30-184 | the check reported is exactly the first failing check in the fixed order (nil, name empty, length, pattern, throughput ≤0, >1M, latency ≤0, >60000, service type, consistency, deployment, strong/latency, lambda/throughput, integration count, unspecified integration); later checks are never reached |
| Validation.SuggestedName | ose-api/pkg/validation/constraints.go:65 | the suggested name has the same length as the original, with no '_' and no upper-case ASCII letter |
| Validation.ErrorFor | ose-api/pkg/validation/constraints.go:34-181 | a nil request is reported on "constraints"; each check reports its own field; the suggestion is empty exactly for the nil and empty-name errors; a pattern failure suggests "Try: " plus the repaired name |
| Validation.ValidateServiceConstraints | ose-api/pkg/validation/constraints.go:33-185 | returns nil exactly when no check fails; otherwise returns the error record of the first failing check; a nil request is rejected on "constraints" without a suggestion |
| Validation.ErrorString | ose-api/pkg/validation/constraints.go:195-200 | the text is "field: message", followed by ". Suggestion: " and the suggestion exactly when the suggestion is non-empty |
| Validation.NameChecksIff | ose-api/pkg/validation/constraints.go:46-67 | a name passes the three structural checks iff it has 3-63 characters, starts with a-z and contains only a-z, 0-9 and '-' |
| Validation.PatternSuggestionRepairs | ose-api/pkg/validation/constraints.go:61-66 | for a name of ASCII letters, digits, '-' and '_' that starts with a letter, the suggested name passes all three name checks |
| Validation.ThroughputRange | ose-api/pkg/validation/constraints.go:74-89 | with a valid name, throughput passes its checks iff it lies in 1..1,000,000; otherwise the error names "throughput_tps" |
| Validation.LatencyRange | ose-api/pkg/validation/constraints.go:91-105 | with a valid name and throughput, latency passes its checks iff it lies in 1..60,000; otherwise the error names "latency_p99_ms" |
| Validation.StrongConsistencyNeedsFiftyMs | ose-api/pkg/validation/constraints.go:143-149 | strong consistency below 50 ms is rejected on "latency_p99_ms", and exactly 50 ms passes that check |
| Validation.LambdaThroughputLimit | ose-api/pkg/validation/constraints.go:152-158 | more than 10,000 TPS on Lambda is rejected on "deployment_target", and exactly 10,000 passes that check |
| Validation.CrossFieldRulesAlwaysReject | ose-api/pkg/validation/constraints.go:143-181 | strong consistency under 50 ms, Lambda above 10,000 TPS, more than 10 integrations or an UNSPECIFIED integration is rejected whatever the other fields hold |
| Validation.IntegrationChecks | ose-api/pkg/validation/constraints.go:164-184 | once every earlier check passes, the request is rejected iff it has more than 10 integrations or an UNSPECIFIED one, and then on "integrations" |
| Validation.AllChecksPassAccepted | ose-api/pkg/validation/constraints.go:184 | a request that passes every check individually is accepted |
| Validation.InventoryManagerIsValid | ose-api/pkg/validation/constraints.go:33-185 | the example request (inventory-manager, API, 500 TPS, 200 ms, eventual, Kafka/PostgreSQL/Redis, Kubernetes) is accepted |
| Xi.SqrtFacts | ose-api/pkg/xi/calculator.go:110 | any square root is monotone, maps [0, 1] into [0, 1], and is 0 (1) exactly at 0 (1) |
| Xi.CbrtBetween | ose-api/pkg/xi/calculator.go:46-47 | the cube root of a product of three non-negative factors lies between the smallest and the largest factor |
| Xi.CbrtZeroIff | ose-api/pkg/xi/calculator.go:47 | the cube root is 0 exactly at 0 |
| Xi.ValidateComponent | ose-api/pkg/xi/calculator.go:183-186 | a component is accepted iff it lies in [0.0, 1.0], otherwise the error names the component and its value |
| Xi.Calculate | ose-api/pkg/xi/calculator.go:33-55 | errors iff a component is outside [0, 1], reporting relevance first, then actionability, then impact; on success the score echoes the three inputs and the cube of Ξ is their product |
| Xi.CalculateBounds | ose-api/pkg/xi/calculator.go:45-47 | Ξ lies in [0, 1] and between the smallest and the largest component |
| Xi.CalculateZeroAndOne | ose-api/pkg/xi/calculator.go:45-47 | Ξ is 0 exactly when some component is 0, and 1 when all three are 1 |
| Xi.CalculateRelevance | ose-api/pkg/xi/calculator.go:65-84 | 1.0 whenever nothing was recommended, before any other guard; otherwise errors iff applied < 0, applied > recommended or confidence outside [0, 1], reporting the counts first and the confidence only when the counts are valid; on success R × recommended = applied × confidence and R lies in [0, 1] |
| Xi.CalculateActionability | ose-api/pkg/xi/calculator.go:93-116 | 1.0 when nothing was generated; errors iff modified < 0 or generated < 0, reporting modified first and generated only when modified is non-negative; otherwise the result lies in [0, 1], is 1 exactly when nothing was modified and 0 exactly when modified ≥ generated, and for 0 ≤ modified < generated it is positive with (1 − A)² · generated = modified, that is A = 1 − √(modified/generated) |
| Xi.ActionabilityAntitone | ose-api/pkg/xi/calculator.go:107-113 | modifying more lines never raises actionability |
| Xi.IncidentSeverityWeight | ose-api/pkg/xi/calculator.go:169-180 | SEV1 weighs 0.5, SEV2 0.2, SEV3 0.1 and any other severity 0.05; every weight is positive |
| Xi.TotalSeverityWeight | ose-api/pkg/xi/calculator.go:146-149 | the summed penalty is non-negative, and positive for any non-empty incident list |
| Xi.StabilityFactor | ose-api/pkg/xi/calculator.go:145-154 | the clamped stability factor lies in [0, 1] |
| Xi.Impact | ose-api/pkg/xi/calculator.go:131-159 | errors iff total = 0 (the zero-total error) or met is outside [0, total] (the target-count error), hence for every total ≤ 0; otherwise lies in [0, 1], is exactly 0 once the penalties reach 1, and is met/total when there are no incidents |
| Xi.CalculateImpact | ose-api/pkg/xi/calculator.go:131-159 | the loop that subtracts each incident's weight, followed by the clamp, computes `Impact` |
| Xi.ImpactNonIncreasing | ose-api/pkg/xi/calculator.go:146-153 | appending an incident never increases the impact score |
| Xi.QualityLevel | ose-api/pkg/xi/calculator.go:197-212 | ξ maps onto six bands with inclusive lower thresholds 0.85, 0.75, 0.65, 0.50 and 0.35, each band stated as an iff |
| Xi.QualityLevelMonotone | ose-api/pkg/xi/calculator.go:197-212 | the level never drops as ξ grows |
| Handlers.TypePatterns | ose-api/internal/handlers/advisory_handler.go:245-286 | the switch on service type picks at most two patterns, never the outbox, and none exactly for a type other than API, EVENT_PROCESSOR and STREAM_PROCESSOR |
| Handlers.RecommendedPatterns | ose-api/internal/handlers/advisory_handler.go:241-300 | at most three patterns, starting with the type's choice; the outbox is among them exactly under strong consistency |
| Handlers.MockRecommendedPatterns | ose-api/internal/handlers/advisory_handler.go:241-300 | the appends build exactly `RecommendedPatterns`: the list chosen by service type, followed by the outbox under strong consistency |
| Handlers.RecommendedPatternsSelection | ose-api/internal/handlers/advisory_handler.go:245-297 | API gives rest-api-v1 and circuit-breaker-v1, EVENT_PROCESSOR gives event-sourcing-v1 and cqrs-v1, STREAM_PROCESSOR gives backpressure-v1, other types nothing; transactional-outbox-v1 is last exactly under strong consistency; confidences lie in (0, 1] and no identifier repeats |
| Handlers.MockGeneratedArtifacts | ose-api/internal/handlers/advisory_handler.go:303-326 | exactly three artifacts: PROTO at `api/<n>/v1/<n>.proto`, CODE at `cmd/<n>/main.go`, CONFIG at `deployments/k8s/<n>.yaml`, in protobuf, go and yaml |
| Handlers.ArtifactPathsDistinctAndInjective | ose-api/internal/handlers/advisory_handler.go:309-321 | the three paths are pairwise distinct, and the code and config paths determine the service name |
| Handlers.TruncateTowardZero | ose-api/internal/handlers/advisory_handler.go:333-334 | Go's float-to-int conversion: the integer nearest to the value on the zero side, less than one away |
| Handlers.MockPerformanceTargets | ose-api/internal/handlers/advisory_handler.go:329-337 | TPS and p99 are copied and the maximum error rate is 0.01; for p99 ≥ 0, p95 = (4·p99)/5 and p50 = p99/2; for p99 > 0, 0 ≤ p50 ≤ p95 < p99 |
| Handlers.BlueprintId | ose-api/internal/handlers/advisory_handler.go:340-342 | the identifier is "bp-", the service name, '-' and the decimal text of the clock reading, which reads back as that reading (digits only for a non-negative clock) |
| Handlers.BlueprintIdInjective | ose-api/internal/handlers/advisory_handler.go:339-342 | for one service name, different clock readings give different identifiers (the same name within one second collides) |
| Handlers.GenerateBlueprint | ose-api/internal/handlers/advisory_handler.go:63-117 | fails iff the validator reports an error, and then with InvalidArgument and "invalid service constraints: " followed by the error text; otherwise the blueprint carries the request's service name, the identifier built from the first clock reading, the chosen patterns, the three artifacts, the derived targets and the second clock reading as its timestamp |
| Handlers.BlueprintWellFormed | ose-api/internal/handlers/advisory_handler.go:75-106 | every request on which no check fails gets a blueprint, and that blueprint names a DNS-label service, holds three artifacts, has 0 ≤ p50 ≤ p95 < p99 and a throughput target in 1..1,000,000 |
| Handlers.SearchPatterns | ose-api/internal/handlers/advisory_handler.go:127-160 | the two fixed summaries event-sourcing-v1 (used 42 times) and cqrs-v1 (35), whatever the query |
| Handlers.ValidateService | ose-api/internal/handlers/advisory_handler.go:169-189 | never an RPC error: valid iff every check passes; otherwise the message is the validator's error text |
| Handlers.ValidateServiceAgreesWithGenerate | ose-api/internal/handlers/advisory_handler.go:169-189 | `ValidateService` accepts exactly the requests `GenerateBlueprint` builds a blueprint for, and the rejection texts correspond |
| Handlers.DetermineQualityLevel | ose-api/internal/handlers/advisory_handler.go:345-358 | five bands with inclusive lower thresholds 0.85, 0.75, 0.65 and 0.50, and "NEEDS IMPROVEMENT" below 0.50, each stated as an iff |
| Handlers.QualityLevelsAgreeAboveHalf | ose-api/internal/handlers/advisory_handler.go:345-358 | the handler's five bands agree with `xi.QualityLevel` from 0.50 up and differ from it for every score below |
| Handlers.RegisterService | ose-api/internal/handlers/advisory_handler.go:204-234 | always successful; the overall score is the arithmetic mean of the three inputs and lies between the smallest and the largest; the level is the five-band level of the mean and the message ends with it |
| Configuration.Wrap64 | ose-api/internal/config/config.go:82 | a 64-bit two's-complement wrap: congruent to the argument modulo 2^64, and the identity on 64-bit values |
| Configuration.Getenv | ose-api/internal/config/config.go:128 | `os.Getenv` gives "" for an unset variable and the value otherwise |
| Configuration.GetEnv | ose-api/internal/config/config.go:127-132 | a non-empty value wins, otherwise the default; the result is empty only when both are |
| Configuration.GetEnvInt | ose-api/internal/config/config.go:135-142 | the parsed value, or the default when the variable is empty or unparsable |
| Configuration.GetEnvBool | ose-api/internal/config/config.go:145-152 | the parsed value, or the default when the variable is empty or unparsable |
| Configuration.Validate | ose-api/internal/config/config.go:95-124 | nil iff both addresses are non-empty, requests and timeout are positive and the log level is debug, info, warn or error; the first failing check in that order is the one reported, the log-level error included |
| Configuration.RequestTimeoutSeconds | ose-api/internal/config/config.go:82 | the seconds count is the default 30, or the value parsed from OSE_REQUEST_TIMEOUT; it is 30 when that variable is unset or empty |
| Configuration.AssembleWith | ose-api/internal/config/config.go:61-84 | the shutdown timeout is always 30 s, the request timeout is the one given, and both addresses are non-empty |
| Configuration.LoadAsWritten | ose-api/internal/config/config.go:60-92 | fails iff `Validate` fails on the assembled configuration (with the 64-bit product as timeout), wrapping that error; otherwise returns that configuration |
| Configuration.NegativeTimeoutAcceptedAsWritten | ose-api/internal/config/config.go:82-113 | with OSE_REQUEST_TIMEOUT="-10000000000" the wrapped timeout is +8446744073709551616 ns and is accepted, while the corrected `Load` rejects it |
| Configuration.RequestTimeout | ose-api/internal/config/config.go:82 | the exact duration is positive iff the seconds count is |
| Configuration.Load | ose-api/internal/config/config.go:60-92 | the corrected loader of the finding below, not the code as written: any seconds count ≤ 0 makes loading fail and a duration that does not fit in 64 bits is refused; when it fits, loading fails iff `Validate` fails on the assembled configuration; the stored timeout is exactly seconds × 10^9 ns |
| Configuration.LoadAgreesWhenNoOverflow | ose-api/internal/config/config.go:82 | whenever the duration fits in 64 bits the corrected `Load` and `Load` as written coincide |
| Configuration.OseVariableUnset | ose-api/internal/config/config.go:128 | with no OSE_ variable set, every OSE_ lookup reads "" |
| Configuration.DefaultsAssemble | ose-api/internal/config/config.go:61-84 | with no OSE_ variable set, every field takes its default |
| Configuration.DefaultsLoad | ose-api/internal/config/config.go:61-91 | with no OSE_ variable set, loading succeeds with ":50051", ":8080", "info", 100 requests and 30 s, both as written and corrected |
| Configuration.LoadedConfigIsValid | ose-api/internal/config/config.go:83-91 | every loaded configuration passes `Validate` and has a 30 s shutdown timeout |
| Cli.All | ose-cli/cli/main.py:71-77 | Python's `all`: true iff every element is true |
| Cli.ServiceConstraints.constructor | ose-cli/cli/main.py:44-53 | empty or zero fields, deployment target "kubernetes", and not complete |
| Cli.ServiceConstraints.ToDict | ose-cli/cli/main.py:55-67 | exactly the nine field keys, each mapped to the current field value |
| Cli.ToDictInjective | ose-cli/cli/main.py:55-67 | the dictionary determines every field of the record |
| Cli.ServiceConstraints.IsComplete | ose-cli/cli/main.py:69-77 | complete iff name, type and consistency are non-empty and throughput and latency are positive; integrations, data volume, team size and deployment are ignored |
| Cli.ServiceConstraints.RecordIntegrations | ose-cli/cli/main.py:417 | the integrations become the selection without "none", and no other field changes |
| Cli.WithoutNone | ose-cli/cli/main.py:417 | no "none" remains, and every other choice keeps its number of occurrences |
| Cli.WithoutNoneAppend | ose-cli/cli/main.py:417 | the filter distributes over concatenation, so the kept choices stay in their order |
| Cli.WithoutNoneIdentity | ose-cli/cli/main.py:417 | a selection without "none" passes unchanged |
| Cli.WithoutNoneIdempotent | ose-cli/cli/main.py:417 | filtering twice is filtering once |
| Cli.MentionsAny | ose-cli/cli/main.py:343-347 | Python's `any(k in text for k in keywords)`: true iff some keyword occurs; never for no keywords, always when the empty keyword is listed |
| Cli.RecommendConsistency | ose-cli/cli/main.py:337-355 | "eventual" iff no strong keyword and some eventual keyword occurs; any strong keyword yields "strong"; with no keyword at all the answer is "strong" |
| Cli.PaymentUseCaseIsStrong | ose-cli/cli/main.py:337-345 | any use case that mentions "payment" is steered to strong consistency, whatever surrounds it |
| Cli.MockPatterns | ose-cli/cli/main.py:513-536 | one to three patterns ending with pattern-007; the outbox pattern is present exactly for strong consistency, the backpressure pattern exactly above 1000 TPS |
| Cli.MockArtifacts | ose-cli/cli/main.py:542-547 | four artifacts, the first being `proto/<name>/v1/service.proto` |
| Cli.MockPatternsSelection | ose-cli/cli/main.py:513-536 | pattern-007 is always present and last; pattern-023 is present exactly for strong consistency and then first; pattern-001 exactly above 1000 TPS; no other pattern and no repeat |
| Cli.GenerateBlueprintMock | ose-cli/cli/main.py:512-548 | the appends build exactly the selected patterns; the blueprint echoes the service name, has confidence 0.87 and the four artifacts |

## Findings

| source | as written | input that shows it | evidently intended | confidence | as-written member | corrected member |
|---|---|---|---|---|---|---|
| ose-api/internal/config/config.go:82 | `time.Duration(getEnvInt("OSE_REQUEST_TIMEOUT", 30)) * time.Second` multiplies in 64 bits and wraps around, so `Validate`'s "timeout must be positive" check (line 111) sees the wrapped value | OSE_REQUEST_TIMEOUT=-10000000000: −10^19 ns wraps to +8446744073709551616 ns, which is positive, so loading succeeds | a seconds count ≤ 0 is rejected, and a count whose duration cannot be represented is refused instead of wrapping | not executed | Configuration.LoadAsWritten, Configuration.NegativeTimeoutAcceptedAsWritten | Configuration.Load, Configuration.LoadedConfigIsValid |

## Left out

- ose-api/cmd/advisory-server/main.go is not part of this model. It holds the listeners, goroutines, signal handling, graceful shutdown and the interceptors: I/O and concurrency.
- Logging (zap), the gRPC context and `time.Now()` are left out. Each clock reading is a parameter.
- Handlers.GenerateBlueprint: the gRPC status is modelled as a code and a message. The status's own rendering ("rpc error: code = …") is not modelled.
- Xi.Calculate, Xi.CalculateRelevance, Xi.CalculateActionability, Xi.Impact: errors are `XiError` constructors carrying the offending values. The `fmt.Errorf` message texts (calculator.go:72-73, 77, 100, 104, 133, 137-138 and 185) are not modelled.
- Xi.ValidateComponent: does not model the NaN and ±Inf checks (calculator.go:187-192), because `real` has no such values.
- Xi.Calculate: states only what holds for an exact cube root (its cube is the product). The rounding of `math.Pow` in float64 is not modelled. The same goes for `math.Sqrt` in Xi.CalculateActionability and for all float64 arithmetic, which the model takes exactly over `real`.
- Handlers.MockPerformanceTargets: the product `p99 * 0.8` is exact over `real`. The float64 rounding before the truncating conversion is not modelled.
- `Score.String` (`%.3f` formatting) is left out.
- Validation.ErrorFor: its contract states the field of each check and which checks carry a suggestion, not the full message texts. Those are defined once as constants and used by the body. The Unicode "≥" in the strong-consistency suggestion is kept as a character.
- Text.AsciiLower: lower-cases ASCII letters only. Go's `strings.ToLower` and Python's `str.lower` also map non-ASCII letters.
- The `regexp` package is not modelled. The name pattern `^[a-z][a-z0-9-]*$` is the character predicate `Validation.MatchesNamePattern`.
- Protobuf enums in Go are open `int32` values. A numeric value with no name is not representable in the model's datatypes, which carry the named constants only.
- `strconv.Atoi`, `strconv.ParseBool` and `os.Getenv` are abstract. The first two are the partial functions in `Configuration.Parsers`; the environment is a map.
- Configuration.Validate: errors are constructors carrying the offending value. Their message texts, including `time.Duration`'s `%v` rendering, are not modelled. `Load`'s wrapping text ("configuration validation failed: …") is the constructor `ValidationFailed`.
- Go's `int` is taken as 64-bit (`Configuration.Int64`), as on the 64-bit platforms the service is built for.
- CLI interaction is left out: questionary prompts, click output, the progress bar with `time.sleep`, `_write_artifacts_mock`, `_save_progress` and the click commands. Of `InteractiveAdvisor`, only the integration filter's assignment (`RecordIntegrations`) is modelled.
- Cli.RecommendConsistency: takes the already lower-cased use case, as the rule does after `use_case.lower()`. The confirmation prompt that follows it is interaction.
- Cli.ServiceConstraints.RecordIntegrations: Python lists are shared by reference. The model stores a value, so aliasing between the selection and the field is not captured.
- Handlers.SearchPatterns and Cli.MockArtifacts: their contracts name the fields a caller relies on (identifiers and usage counts; the count and the name-dependent path). The remaining fixed texts appear only in their definitions.
- ose-cli/cli/__init__.py holds version metadata only and is not modelled.
