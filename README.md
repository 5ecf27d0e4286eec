# Interception policy and telemetry gate of the Mule OpenTelemetry module

This project models two small decision components of the Mule OpenTelemetry
extension in Dafny and proves properties about them.

- **The processor-interception policy** of `MessageProcessorTracingInterceptorFactory`.
  - At construction it seeds two ordered lists of `(namespace, name)` matchers.
    Exclusions start as `ee:*`, `mule:*`; inclusions start as `mule:flow-ref`.
    The user's lists from the trace-level configuration are then appended.
  - `intercept(location)` is false unless the interceptor is enabled and the
    notification processor has a connection.
  - When enabled and connected, a step is intercepted if it is the first
    processor (`<root>/processors/0`) of a FLOW, or it matches an inclusion,
    or it matches no exclusion.
  - A matcher covers a step when the namespaces are equal ignoring case, and
    the names are equal ignoring case or the matcher's name is `*`.
- **The telemetry-enablement gate** of `OpenTelemetryExtensionConfiguration`.
  - `isTurnOffTracing` lets the `mule.otel.tracing.disabled` system property,
    when present, override the declared `turnOffTracing` flag. The declared
    flag defaults to false.
  - `disableTelemetry` holds when tracing is off and no metrics provider is
    configured.
  - `start()` either does nothing, or it:
    1. records the application identifier;
    2. initialises the notification processor with the trace-level configuration;
    3. registers the processor, pipeline, async and metric listeners, in that order.
  - `stop()` only logs.
  - The fluent setters each set one field and return the same object.

Modules:

- `JavaStrings` (`java_strings.dfy`): `String.equalsIgnoreCase` and
  `Boolean.parseBoolean`, with ASCII case folding.
- `MuleApi` (`mule_api.dfy`): the value types.
  - Component identifiers, typed identifiers and component types.
  - Location parts and component locations.
  - The `MuleComponent` matcher and the trace-level configuration's matcher lists.
- `Interceptor` (`interceptor.dfy`): seeding, matching, the decision, and the
  factory class.
  - The class holds the two lists as `seq` fields.
  - A constructor and `SetupInterceptableComponents` fill the lists by appending,
    as the source's `add`/`addAll` do.
- `InterceptorProperties` (`interceptor_properties.dfy`): lemmas about the
  policy, plus four client methods that show a logger skipped (as the first
  step of a sub-flow and as a later step of a flow), a flow-ref intercepted
  and an HTTP request intercepted.
- `ExtensionConfig` (`extension_config.dfy`): the configuration class.
  - The host's listener registry and the notification processor are classes
    that append each call made on them to one shared ghost log of host calls, so the
    order of `init` and the registrations is recorded. The configuration's
    constructor takes a registry and a processor that share one log.
- `ExtensionConfigProperties` (`extension_config_properties.dfy`): lemmas about
  the gate, plus a client method that starts one live configuration and one
  disabled configuration.

Inputs from the environment are parameters:

- System properties are a `map<string, string>`.
  - The interceptor reads it once, at construction.
  - The configuration reads it on each call of `isTurnOffTracing`,
    `disableTelemetry` or `start`.
- The notification processor's `hasConnection()` is a boolean parameter of
  `Intercept`.
- Its `getTraceLevelConfiguration()` is a parameter of the factory's constructor.
- `AppIdentifier.fromEnvironment` is a parameter of `Start`.

Where the source's comments and its code disagree, the model follows the code:

- The comment on `intercept` (`MessageProcessorTracingInterceptorFactory.java:94-96`)
  says the first processor of a root container "which can be a flow or sub-flow"
  is intercepted. The test at `:113-114` keeps only a first part typed FLOW, so a
  sub-flow's `processors/0` gets no special treatment
  (`InterceptorProperties.NonFlowContainerFallsThrough`).
- The same comment says the interceptor is off when
  `mule.otel.interceptor.processor.enable` is set to `true`, and so does the class
  comment. The code at `:34-35` parses the property with a default of `"true"`:
  the value `true` keeps the interceptor on, and only a value other than `true`
  switches it off (`InterceptorProperties.InterceptorEnabledByProperty`).

Two consequences of the code that a reader might not expect:

- `disableTelemetry()` (`OpenTelemetryExtensionConfiguration.java:210-212`) needs
  both tracing turned off and no metrics provider. Setting
  `mule.otel.tracing.disabled` to `true` therefore leaves telemetry on, and
  `start()` goes ahead, whenever a metrics provider is configured
  (`ExtensionConfigProperties.TelemetryDisabledExactly`).
- The decision at `MessageProcessorTracingInterceptorFactory.java:119-129` has no
  rule for a malformed step identifier. A step that no exclusion covers is
  intercepted whatever its identifier looks like
  (`InterceptorProperties.DefaultAllow`).

## Model

| member | source | states |
|---|---|---|
| `JavaStrings.LowerAscii` | src/main/java/com/avioconsulting/mule/opentelemetry/internal/interceptor/MessageProcessorTracingInterceptorFactory.java:123-129 | an ASCII upper-case letter folds to the letter 32 code points above it, in `a`-`z`; every other character is kept; no folded character is upper case |
| `JavaStrings.EqualsIgnoreCase` | src/main/java/com/avioconsulting/mule/opentelemetry/internal/interceptor/MessageProcessorTracingInterceptorFactory.java:123-129 | `equalsIgnoreCase` holds of equal strings, and only of strings of the same length |
| `JavaStrings.ParseBoolean` | src/main/java/com/avioconsulting/mule/opentelemetry/internal/config/OpenTelemetryExtensionConfiguration.java:107-108 | `parseBoolean` holds exactly of four-character strings that fold to `t`, `r`, `u`, `e` |
| `JavaStrings.ToLowerAscii` | src/main/java/com/avioconsulting/mule/opentelemetry/internal/interceptor/MessageProcessorTracingInterceptorFactory.java:123-129 | the case-folded string has the input's length and, at each position, the folded character of the input |
| `JavaStrings.EqualsIgnoreCaseCharwise` | src/main/java/com/avioconsulting/mule/opentelemetry/internal/interceptor/MessageProcessorTracingInterceptorFactory.java:123-129 | two strings are equal ignoring case exactly when they have the same length and agree character by character after folding |
| `JavaStrings.EqualsIgnoreCaseOwnLowerCase` | src/main/java/com/avioconsulting/mule/opentelemetry/internal/interceptor/MessageProcessorTracingInterceptorFactory.java:123-129 | every string equals its lower-case form ignoring case, in both directions |
| `JavaStrings.ToLowerAsciiIdempotent` | src/main/java/com/avioconsulting/mule/opentelemetry/internal/interceptor/MessageProcessorTracingInterceptorFactory.java:123-129 | folding twice gives the same string as folding once |
| `JavaStrings.ToLowerAsciiOfLowerCase` | src/main/java/com/avioconsulting/mule/opentelemetry/internal/interceptor/MessageProcessorTracingInterceptorFactory.java:65-68 | a string with no upper-case ASCII letter, such as the default matchers' `ee`, `mule` and `flow-ref`, is its own folded form |
| `JavaStrings.EqualsIgnoreCaseStar` | src/main/java/com/avioconsulting/mule/opentelemetry/internal/interceptor/MessageProcessorTracingInterceptorFactory.java:125 | `"*".equalsIgnoreCase(name)` holds exactly when the name is `*` |
| `JavaStrings.ParseBooleanSpellings` | src/main/java/com/avioconsulting/mule/opentelemetry/internal/config/OpenTelemetryExtensionConfiguration.java:107-108 | `parseBoolean` accepts `true`, `TRUE` and `True`, and rejects `false`, `yes`, `1` and the empty string |
| `Interceptor.InterceptorEnabled` | src/main/java/com/avioconsulting/mule/opentelemetry/internal/interceptor/MessageProcessorTracingInterceptorFactory.java:33-35 | without the enable property the interceptor is on; with it, on exactly when the value parses as true |
| `Interceptor.SeedExclusions` | src/main/java/com/avioconsulting/mule/opentelemetry/internal/interceptor/MessageProcessorTracingInterceptorFactory.java:64-73 | the exclusions are `ee:*`, `mule:*`, then the user's disabled list in its own order |
| `Interceptor.SeedInclusions` | src/main/java/com/avioconsulting/mule/opentelemetry/internal/interceptor/MessageProcessorTracingInterceptorFactory.java:64-78 | the inclusions are `mule:flow-ref`, then the user's enabled list in its own order |
| `Interceptor.Matches` | src/main/java/com/avioconsulting/mule/opentelemetry/internal/interceptor/MessageProcessorTracingInterceptorFactory.java:123-125 | a matcher covers a step exactly when the namespaces are equal ignoring case and the names are equal ignoring case or the matcher's name is exactly `*` |
| `Interceptor.AnyMatch` | src/main/java/com/avioconsulting/mule/opentelemetry/internal/interceptor/MessageProcessorTracingInterceptorFactory.java:122-129 | `anyMatch` over a matcher list is true exactly when some matcher of the list covers the step |
| `Interceptor.IsFirstProcessorOfFlow` | src/main/java/com/avioconsulting/mule/opentelemetry/internal/interceptor/MessageProcessorTracingInterceptorFactory.java:112-121 | the first rule holds exactly when the first part is typed FLOW and the path equals `<root>/processors/0` ignoring case, i.e. has its length and agrees with it at every position after folding; the exact path always qualifies |
| `Interceptor.InterceptDecision` | src/main/java/com/avioconsulting/mule/opentelemetry/internal/interceptor/MessageProcessorTracingInterceptorFactory.java:112-129 | once enabled and connected, a step is intercepted exactly when it is a FLOW's first processor, or some inclusion covers it, or no exclusion covers it |
| `Interceptor.ShouldIntercept` | src/main/java/com/avioconsulting/mule/opentelemetry/internal/interceptor/MessageProcessorTracingInterceptorFactory.java:108-111 | no step is intercepted unless the interceptor is enabled and the notification processor has a connection |
| `Interceptor.MessageProcessorTracingInterceptorFactory.constructor` | src/main/java/com/avioconsulting/mule/opentelemetry/internal/interceptor/MessageProcessorTracingInterceptorFactory.java:34-53 | the enabled flag comes from the enable property (default `true`); the lists are exactly the seeded ones for the processor's trace-level configuration |
| `Interceptor.MessageProcessorTracingInterceptorFactory.SetupInterceptableComponents` | src/main/java/com/avioconsulting/mule/opentelemetry/internal/interceptor/MessageProcessorTracingInterceptorFactory.java:64-79 | called by the constructor on the two empty lists, it fills them by appending `ee:*`, `mule:*` and the user's disabled list to the exclusions, and `mule:flow-ref` and the user's enabled list to the inclusions; an absent configuration or list adds nothing more |
| `Interceptor.MessageProcessorTracingInterceptorFactory.GetInterceptExclusions` | src/main/java/com/avioconsulting/mule/opentelemetry/internal/interceptor/MessageProcessorTracingInterceptorFactory.java:86-88 | returns the held exclusion list, which is the defaults followed by the user's disabled components |
| `Interceptor.MessageProcessorTracingInterceptorFactory.GetInterceptInclusions` | src/main/java/com/avioconsulting/mule/opentelemetry/internal/interceptor/MessageProcessorTracingInterceptorFactory.java:90-92 | returns the held inclusion list, which is `mule:flow-ref` followed by the user's enabled components |
| `Interceptor.MessageProcessorTracingInterceptorFactory.Intercept` | src/main/java/com/avioconsulting/mule/opentelemetry/internal/interceptor/MessageProcessorTracingInterceptorFactory.java:108-135 | the answer is the policy decision on the factory's current lists, and false when the interceptor is disabled or there is no connection |
| `InterceptorProperties.FirstProcessorOfFlowIntercepted` | src/main/java/com/avioconsulting/mule/opentelemetry/internal/interceptor/MessageProcessorTracingInterceptorFactory.java:112-121 | the step at `<root>/processors/0` (compared ignoring case) of a FLOW is intercepted whatever the lists contain |
| `InterceptorProperties.PathDiffersNotFirst` | src/main/java/com/avioconsulting/mule/opentelemetry/internal/interceptor/MessageProcessorTracingInterceptorFactory.java:112-121 | a location whose path differs from `<root>/processors/0` at some position, even ignoring case, is not a flow's first processor |
| `InterceptorProperties.InclusionOverridesExclusion` | src/main/java/com/avioconsulting/mule/opentelemetry/internal/interceptor/MessageProcessorTracingInterceptorFactory.java:122-125 | a step covered by any inclusion is intercepted, even if an exclusion also covers it |
| `InterceptorProperties.DefaultAllow` | src/main/java/com/avioconsulting/mule/opentelemetry/internal/interceptor/MessageProcessorTracingInterceptorFactory.java:126-129 | a step that no exclusion covers is intercepted |
| `InterceptorProperties.MoreInclusionsHideNothing` | src/main/java/com/avioconsulting/mule/opentelemetry/internal/interceptor/MessageProcessorTracingInterceptorFactory.java:122-125 | appending matchers to the inclusions never turns an intercepted step into a skipped one |
| `InterceptorProperties.MoreExclusionsRevealNothing` | src/main/java/com/avioconsulting/mule/opentelemetry/internal/interceptor/MessageProcessorTracingInterceptorFactory.java:126-129 | a step that is intercepted with matchers appended to the exclusions is also intercepted without them |
| `InterceptorProperties.NonFlowContainerFallsThrough` | src/main/java/com/avioconsulting/mule/opentelemetry/internal/interceptor/MessageProcessorTracingInterceptorFactory.java:113-114 | when the first location part is not a FLOW (for example a sub-flow), only the inclusion and exclusion rules decide |
| `InterceptorProperties.NoNamespaceWildcard` | src/main/java/com/avioconsulting/mule/opentelemetry/internal/interceptor/MessageProcessorTracingInterceptorFactory.java:123 | a matcher with namespace `*` covers only steps whose namespace is literally `*` |
| `InterceptorProperties.StepNamedStarIsNotAWildcard` | src/main/java/com/avioconsulting/mule/opentelemetry/internal/interceptor/MessageProcessorTracingInterceptorFactory.java:124-125 | a step named `*` is covered only by a matcher named `*`: the wildcard works on the matcher's side only |
| `InterceptorProperties.AnyMatchConcat` | src/main/java/com/avioconsulting/mule/opentelemetry/internal/interceptor/MessageProcessorTracingInterceptorFactory.java:71-77 | a step matches an appended list exactly when it matches the defaults or the appended user list |
| `InterceptorProperties.MatchesIgnoresStepCase` | src/main/java/com/avioconsulting/mule/opentelemetry/internal/interceptor/MessageProcessorTracingInterceptorFactory.java:123-129 | changing the case of a step's namespace or name changes no match |
| `InterceptorProperties.InterceptIgnoresStepCase` | src/main/java/com/avioconsulting/mule/opentelemetry/internal/interceptor/MessageProcessorTracingInterceptorFactory.java:119-129 | changing the case of a step's namespace or name changes no decision |
| `InterceptorProperties.InterceptOnLowerCasedStep` | src/main/java/com/avioconsulting/mule/opentelemetry/internal/interceptor/MessageProcessorTracingInterceptorFactory.java:119-129 | lower-casing the step's identifier gives the same decision |
| `InterceptorProperties.SeedingWithoutUserLists` | src/main/java/com/avioconsulting/mule/opentelemetry/internal/interceptor/MessageProcessorTracingInterceptorFactory.java:69-77 | a null trace-level configuration, or a null user list, leaves the corresponding defaults unchanged |
| `InterceptorProperties.FlowRefAlwaysIntercepted` | src/main/java/com/avioconsulting/mule/opentelemetry/internal/interceptor/MessageProcessorTracingInterceptorFactory.java:66-68 | `mule:flow-ref` in any case is intercepted by an enabled, connected, seeded factory, despite `mule:*` and whatever the user lists hold |
| `InterceptorProperties.ReservedNamespacesNotIntercepted` | src/main/java/com/avioconsulting/mule/opentelemetry/internal/interceptor/MessageProcessorTracingInterceptorFactory.java:65-66 | a step in the `ee` or `mule` namespace is not intercepted by a seeded factory when it is not a FLOW's first processor, not `mule:flow-ref` and not user-included |
| `InterceptorProperties.UserExclusionHonoured` | src/main/java/com/avioconsulting/mule/opentelemetry/internal/interceptor/MessageProcessorTracingInterceptorFactory.java:70-73 | a step covered by a user-disabled matcher, and by no inclusion, is not intercepted unless it is a FLOW's first processor |
| `InterceptorProperties.UserInclusionHonoured` | src/main/java/com/avioconsulting/mule/opentelemetry/internal/interceptor/MessageProcessorTracingInterceptorFactory.java:74-77 | a step covered by a user-enabled matcher is intercepted by an enabled, connected factory |
| `InterceptorProperties.InterceptorEnabledByProperty` | src/main/java/com/avioconsulting/mule/opentelemetry/internal/interceptor/MessageProcessorTracingInterceptorFactory.java:33-35 | the enable property set to `true` (in any case) keeps the interceptor on, and `false` or `yes` switches it off, against the class comment |
| `InterceptorProperties.HttpRequestNotExcluded` | src/main/java/com/avioconsulting/mule/opentelemetry/internal/interceptor/MessageProcessorTracingInterceptorFactory.java:126-129 | with no user lists, `http:request` is intercepted, because no default exclusion covers the `http` namespace |
| `ExtensionConfig.TurnOffTracing` | src/main/java/com/avioconsulting/mule/opentelemetry/internal/config/OpenTelemetryExtensionConfiguration.java:105-109 | `isTurnOffTracing()`: tracing is off only when the property or the declared flag asks for it, and a present property that does not parse as true keeps it on |
| `ExtensionConfig.TelemetryDisabled` | src/main/java/com/avioconsulting/mule/opentelemetry/internal/config/OpenTelemetryExtensionConfiguration.java:210-212 | `disableTelemetry()` never holds with tracing on, nor with a metrics provider configured |
| `ExtensionConfig.StartCalls` | src/main/java/com/avioconsulting/mule/opentelemetry/internal/config/OpenTelemetryExtensionConfiguration.java:187-197 | a successful start makes five host calls: the processor is initialised first with the trace-level configuration, then four listeners are registered, and only the last with a selector |
| `ExtensionConfig.NotificationListenerRegistry.RegisterListener` | src/main/java/com/avioconsulting/mule/opentelemetry/internal/config/OpenTelemetryExtensionConfiguration.java:190-197 | each registration is appended to the host log, with its selector if any |
| `ExtensionConfig.MuleNotificationProcessor.Init` | src/main/java/com/avioconsulting/mule/opentelemetry/internal/config/OpenTelemetryExtensionConfiguration.java:187-188 | each initialisation is appended to the host log with the trace-level configuration passed |
| `ExtensionConfig.OpenTelemetryExtensionConfiguration.constructor` | src/main/java/com/avioconsulting/mule/opentelemetry/internal/config/OpenTelemetryExtensionConfiguration.java:66-69 | the declared `turnOffTracing` defaults to false; no application identifier is held before start |
| `ExtensionConfig.OpenTelemetryExtensionConfiguration.Start` | src/main/java/com/avioconsulting/mule/opentelemetry/internal/config/OpenTelemetryExtensionConfiguration.java:171-198 | when telemetry is disabled nothing changes; otherwise it records the application identifier, and the host log gains exactly the start calls in order: the processor initialisation, then the four registrations |
| `ExtensionConfig.OpenTelemetryExtensionConfiguration.Stop` | src/main/java/com/avioconsulting/mule/opentelemetry/internal/config/OpenTelemetryExtensionConfiguration.java:214-220 | changes no state of the configuration, the registry or the processor |
| `ExtensionConfig.OpenTelemetryExtensionConfiguration.SetTurnOffTracing` | src/main/java/com/avioconsulting/mule/opentelemetry/internal/config/OpenTelemetryExtensionConfiguration.java:112-115 | sets `turnOffTracing` only and returns the same object |
| `ExtensionConfig.OpenTelemetryExtensionConfiguration.SetResource` | src/main/java/com/avioconsulting/mule/opentelemetry/internal/config/OpenTelemetryExtensionConfiguration.java:122-125 | sets `resource` only and returns the same object |
| `ExtensionConfig.OpenTelemetryExtensionConfiguration.SetExporterConfiguration` | src/main/java/com/avioconsulting/mule/opentelemetry/internal/config/OpenTelemetryExtensionConfiguration.java:132-135 | sets `exporterConfiguration` only and returns the same object |
| `ExtensionConfig.OpenTelemetryExtensionConfiguration.SetTraceLevelConfiguration` | src/main/java/com/avioconsulting/mule/opentelemetry/internal/config/OpenTelemetryExtensionConfiguration.java:142-146 | sets `traceLevelConfiguration` only and returns the same object |
| `ExtensionConfig.OpenTelemetryExtensionConfiguration.SetSpanProcessorConfiguration` | src/main/java/com/avioconsulting/mule/opentelemetry/internal/config/OpenTelemetryExtensionConfiguration.java:153-157 | sets `spanProcessorConfiguration` only and returns the same object |
| `ExtensionConfigProperties.PropertyOverridesDeclaredFlag` | src/main/java/com/avioconsulting/mule/opentelemetry/internal/config/OpenTelemetryExtensionConfiguration.java:105-109 | when the tracing-disabled property is present, tracing is off exactly when it is `true` ignoring case, whatever the declared flag |
| `ExtensionConfigProperties.DeclaredFlagWithoutProperty` | src/main/java/com/avioconsulting/mule/opentelemetry/internal/config/OpenTelemetryExtensionConfiguration.java:107-108 | without the property, the declared flag decides |
| `ExtensionConfigProperties.TracingOnByDefault` | src/main/java/com/avioconsulting/mule/opentelemetry/internal/config/OpenTelemetryExtensionConfiguration.java:66-69 | with no property and no declared value, tracing is on |
| `ExtensionConfigProperties.PropertySpellings` | src/main/java/com/avioconsulting/mule/opentelemetry/internal/config/OpenTelemetryExtensionConfiguration.java:49 | a property value of `TRUE` turns tracing off against a declared false; `yes` or an empty value keeps it on against a declared true |
| `ExtensionConfigProperties.TelemetryDisabledExactly` | src/main/java/com/avioconsulting/mule/opentelemetry/internal/config/OpenTelemetryExtensionConfiguration.java:210-212 | telemetry is disabled exactly when tracing is turned off and no metrics provider is configured; a metrics provider keeps it on |
| `ExtensionConfigProperties.StartRegistersFourListeners` | src/main/java/com/avioconsulting/mule/opentelemetry/internal/config/OpenTelemetryExtensionConfiguration.java:190-197 | a successful start initialises the processor before any registration, then registers four listeners: processor, pipeline, async, metric; only the metric listener has a selector |

## Left out

- `OpenTelemetryOperations`: its operations only pass calls through to the transaction store and the connection. Neither of those is part of this model, so the operations have no behaviour of their own here.
- The JMH benchmark `ProcessorTracingInterceptorTest`: it measures throughput and asserts nothing.
- `get()` of the factory: it returns the `ProcessorTracingInterceptor`, which is not part of this model. The span trees, the transaction store and notification handling are not part of this model either.
- The notification processor's internals. Its `hasConnection()` answer is a parameter of `Intercept`, and `Init` only records the trace-level configuration it was given. Nothing here ties a successful `start()` to a later `hasConnection()`.
- `OpenTelemetryConnection.getInstance`, the process-wide SDK singleton: `start()` builds an `OpenTelemetryConfigWrapper` of the configuration, passes it to `getInstance` (:185-186), and passes the connection that returns to `init` (:187). Neither the wrapper nor the connection argument of `init` is recorded.
- The metric listener's selector is a tag (`MetricDataTypeCompatible`). The `DataType` compatibility test it performs is not modelled.
- The listener objects' reference back to the notification processor is not recorded.
- `httpService`, `expressionManager`, the getters of the configuration, `getConfigName` and `getAppIdentifier`: these are host plumbing and plain field reads; the fields are visible directly.
- Logging in `intercept`, `start` and `stop`.
- `MuleException` from `start` and `stop`: the code shown throws none itself.
- `JavaStrings.EqualsIgnoreCase`: case folding is ASCII only, because strings are modelled as `seq<char>` without Unicode case tables. Java's `equalsIgnoreCase` also folds non-ASCII letters.
- Null strings: identifiers, matcher fields and system-property values are never null in the model. In the source, a null step namespace matches no matcher. A null step name fails only the name comparison, so a `*` matcher still covers it: `(mule, null)` is covered by `mule:*`. A null matcher namespace or a null matcher name throws, even when the namespaces differ, because the non-short-circuit `&` at `MessageProcessorTracingInterceptorFactory.java:123` and `:127` always evaluates the name comparison.
- `Interceptor.MessageProcessorTracingInterceptorFactory.Intercept`: it requires a location with at least one part whenever the interceptor is enabled and connected. On that path the source reads `getParts().get(0)` and would throw on an empty list; the host always supplies the root part.
- `Interceptor.MessageProcessorTracingInterceptorFactory.GetInterceptExclusions` and `GetInterceptInclusions`: they return the list's value. Java returns the live `ArrayList`, so a caller could mutate the factory's lists through it; that aliasing is not modelled.
- Concurrency: the decision and the gate are sequential. No concurrent use of the factory or the configuration is modelled.
