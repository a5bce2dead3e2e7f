# Web client observation metadata, in Dafny

This project models the documented observation of Spring WebFlux's
`WebClient` HTTP exchanges (`WebClientObservation.java`): the tag names the
observation declares to the metrics and tracing pipeline, and the classifier
that turns an HTTP status code into the exchange's `outcome` tag.

- `key_names.dfy` (module `WebClientKeyNames`): the two enums of tag names.
  `LowCardinalityKeyNames` (method, uri, status, exception, outcome) holds
  keys whose values form a small bounded set; `HighCardinalityKeyNames`
  (uri.expanded, client.name) holds keys with unbounded values. Each constant
  becomes a datatype constructor, `asString()` a function, and Java's implicit
  `values()` a sequence in declaration order.
- `sequences.dfy` (module `Sequences`): the predicate that no element of a
  sequence repeats, shared by the registries.
- `outcome.dfy` (module `WebClientOutcome`): the `Outcome` enum, its `name()`,
  `ordinal()` and `values()`, its `asKeyValue()` tag, and `forStatus(int)`.
  The classifier is proved against the status-code classes of section 15 of
  RFC 9110 (the first digit of a three-digit code gives the class).
- `observation.dfy` (module `WebClientObservations`): the single observation
  constant `HTTP_REQUEST` and the two registries it hands out.

Everything in the source is constant or a pure function, so the whole model
is datatypes, functions and lemmas. Java's `int` parameter of `forStatus` is
the subset type `Int32`; the classifier does no arithmetic on it, so no
wrap-around arises.

## Model

| member | source | states |
|---|---|---|
| `WebClientKeyNames.LowAsString` | spring-webflux/src/main/java/org/springframework/web/reactive/function/client/WebClientObservation.java:56-112 | every low-cardinality key consists only of lower-case ASCII letters |
| `WebClientKeyNames.HighAsString` | spring-webflux/src/main/java/org/springframework/web/reactive/function/client/WebClientObservation.java:114-136 | every high-cardinality key is two lower-case words joined by a single dot |
| `WebClientKeyNames.LowValues` | spring-webflux/src/main/java/org/springframework/web/reactive/function/client/WebClientObservation.java:56-112 | `values()` of the low-cardinality enum has five entries, none repeated |
| `WebClientKeyNames.HighValues` | spring-webflux/src/main/java/org/springframework/web/reactive/function/client/WebClientObservation.java:114-136 | `values()` of the high-cardinality enum has two entries, none repeated |
| `WebClientKeyNames.LowValuesComplete` | spring-webflux/src/main/java/org/springframework/web/reactive/function/client/WebClientObservation.java:56-112 | every low-cardinality constant appears in `values()` |
| `WebClientKeyNames.HighValuesComplete` | spring-webflux/src/main/java/org/springframework/web/reactive/function/client/WebClientObservation.java:114-136 | every high-cardinality constant appears in `values()` |
| `WebClientKeyNames.LowRegistryKeys` | spring-webflux/src/main/java/org/springframework/web/reactive/function/client/WebClientObservation.java:61-110 | the low-cardinality registry renders exactly "method", "uri", "status", "exception", "outcome", in that order |
| `WebClientKeyNames.HighRegistryKeys` | spring-webflux/src/main/java/org/springframework/web/reactive/function/client/WebClientObservation.java:119-134 | the high-cardinality registry renders exactly "uri.expanded", "client.name", in that order |
| `WebClientKeyNames.LowAsStringInjective` | spring-webflux/src/main/java/org/springframework/web/reactive/function/client/WebClientObservation.java:61-110 | two low-cardinality tags have the same key if and only if they are the same tag |
| `WebClientKeyNames.HighAsStringInjective` | spring-webflux/src/main/java/org/springframework/web/reactive/function/client/WebClientObservation.java:119-134 | two high-cardinality tags have the same key if and only if they are the same tag |
| `WebClientKeyNames.LowHighDisjoint` | spring-webflux/src/main/java/org/springframework/web/reactive/function/client/WebClientObservation.java:56-136 | no key belongs to both registries |
| `WebClientObservations.GetLowCardinalityKeyNames` | spring-webflux/src/main/java/org/springframework/web/reactive/function/client/WebClientObservation.java:44-47 | `HTTP_REQUEST` declares the low-cardinality keys "method", "uri", "status", "exception", "outcome", in that order |
| `WebClientObservations.GetHighCardinalityKeyNames` | spring-webflux/src/main/java/org/springframework/web/reactive/function/client/WebClientObservation.java:49-52 | `HTTP_REQUEST` declares the high-cardinality keys "uri.expanded", "client.name", in that order |
| `WebClientObservations.AllKeysDistinct` | spring-webflux/src/main/java/org/springframework/web/reactive/function/client/WebClientObservation.java:38-54 | the seven keys `HTTP_REQUEST` declares, from both registries, are pairwise distinct |
| `WebClientOutcome.Values` | spring-webflux/src/main/java/org/springframework/web/reactive/function/client/WebClientObservation.java:142-172 | `Outcome.values()` has six entries, none repeated |
| `WebClientOutcome.Ordinal` | spring-webflux/src/main/java/org/springframework/web/reactive/function/client/WebClientObservation.java:142-172 | `ordinal()` is the inverse of `values()`: the entry at an outcome's ordinal is that outcome |
| `WebClientOutcome.Name` | spring-webflux/src/main/java/org/springframework/web/reactive/function/client/WebClientObservation.java:147-172 | an outcome's name consists only of upper-case letters and underscores |
| `WebClientOutcome.DeclaredNames` | spring-webflux/src/main/java/org/springframework/web/reactive/function/client/WebClientObservation.java:147-172 | read in declaration order, the outcomes' names are exactly "INFORMATIONAL", "SUCCESS", "REDIRECTION", "CLIENT_ERROR", "SERVER_ERROR", "UNKNOWN" |
| `WebClientOutcome.AsKeyValue` | spring-webflux/src/main/java/org/springframework/web/reactive/function/client/WebClientObservation.java:174-186 | an outcome's tag has the given outcome key, and its value is the declared name at the outcome's ordinal, e.g. "SUCCESS" for `SUCCESS` |
| `WebClientOutcome.AsKeyValueInjective` | spring-webflux/src/main/java/org/springframework/web/reactive/function/client/WebClientObservation.java:174-186 | under a fixed outcome key, two outcomes give the same tag if and only if they are the same outcome |
| `WebClientOutcome.ForStatus` | spring-webflux/src/main/java/org/springframework/web/reactive/function/client/WebClientObservation.java:193-210 | the result is `UNKNOWN` exactly when the status is below 100 or at least 600; otherwise its ordinal is the hundreds digit minus one |
| `WebClientOutcome.ForStatusFollowsRfc9110` | spring-webflux/src/main/java/org/springframework/web/reactive/function/client/WebClientObservation.java:193-210 | for every `int`, the result is the outcome of the RFC 9110 class given by the first digit of a three-digit code, and `UNKNOWN` for 6xx to 9xx codes and for anything that is not a three-digit code |
| `WebClientOutcome.ForStatusBand` | spring-webflux/src/main/java/org/springframework/web/reactive/function/client/WebClientObservation.java:194-208 | each of the five defined outcomes is returned for exactly the statuses of its band: 100-199, 200-299, 300-399, 400-499, 500-599 |
| `WebClientOutcome.ForStatusByHundreds` | spring-webflux/src/main/java/org/springframework/web/reactive/function/client/WebClientObservation.java:194-208 | inside [100, 600) two statuses get the same outcome if and only if they have the same hundreds digit |
| `WebClientOutcome.ForStatusMonotone` | spring-webflux/src/main/java/org/springframework/web/reactive/function/client/WebClientObservation.java:147-167 | inside [100, 600) the outcome never moves backwards in declaration order as the status grows |
| `WebClientOutcome.ForStatusOnto` | spring-webflux/src/main/java/org/springframework/web/reactive/function/client/WebClientObservation.java:193-210 | every outcome, `UNKNOWN` included, is returned for some `int` status |

## Left out

- `getDefaultConvention()` returns a reflective `Class` object naming the default convention; it has no behaviour to model.
- The key of `asKeyValue()` is `RestTemplateObservation.LowCardinalityKeyNames.OUTCOME.asString()`; `RestTemplateObservation.java` is not part of this model, so that key is the parameter `outcomeKey` and nothing is assumed about its text.
- Micrometer's `KeyName`, `KeyValue` and `DocumentedObservation` types are foreign library types; a tag is modelled as a plain pair of strings and the two registries as sequences.
- The HTTP client itself, the exchange, and the recording pipeline that reads these names are outside this component.
