/**
  The processor-interception policy of the tracing interceptor factory:
  which steps of a flow get a span of their own.

  Two ordered lists of (namespace, name) matchers are seeded at
  construction, `ee:*` and `mule:*` excluded and `mule:flow-ref` included,
  then extended with the user's lists. A step is intercepted, when the
  interceptor is enabled and the notification processor has a connection,
  if it is the first processor of a flow, or it matches an inclusion, or
  it matches no exclusion.
 */
module Interceptor {
  import opened JavaStrings
  import opened MuleApi

  /** System property that switches the interceptor on or off; absent means on. */
  const InterceptorEnableProperty: string := "mule.otel.interceptor.processor.enable"

  /** True when the interceptor is enabled by the system properties read at construction:
      on without the property, otherwise on exactly when the property parses as true. */
  function InterceptorEnabled(systemProperties: map<string, string>): (r: bool)
    ensures InterceptorEnableProperty !in systemProperties ==> r
    ensures InterceptorEnableProperty in systemProperties ==>
              (r <==> ParseBoolean(systemProperties[InterceptorEnableProperty]))
  {
    ParseBoolean(if InterceptorEnableProperty in systemProperties
                 then systemProperties[InterceptorEnableProperty] else "true")
  }

  // ---------------------------------------------------------------------
  // Seeding of the matcher lists

  /** The user's disabled components; nothing when the configuration or the list is absent (null). */
  function UserDisabled(config: Option<TraceLevelConfiguration>): seq<MuleComponent>
  {
    if config.Some? && config.value.interceptionDisabledComponents.Some?
    then config.value.interceptionDisabledComponents.value else []
  }

  /** The user's enabled components; nothing when the configuration or the list is absent (null). */
  function UserEnabled(config: Option<TraceLevelConfiguration>): seq<MuleComponent>
  {
    if config.Some? && config.value.interceptionEnabledComponents.Some?
    then config.value.interceptionEnabledComponents.value else []
  }

  /** The exclusions of a new factory: `ee:*`, `mule:*`, then the user's disabled list in its own order. */
  function SeedExclusions(config: Option<TraceLevelConfiguration>): (r: seq<MuleComponent>)
    ensures |r| == 2 + |UserDisabled(config)|
    ensures r[0] == MuleComponent("ee", "*") && r[1] == MuleComponent("mule", "*")
    ensures forall i :: 0 <= i < |UserDisabled(config)| ==> r[2 + i] == UserDisabled(config)[i]
  {
    [MuleComponent("ee", "*"), MuleComponent("mule", "*")] + UserDisabled(config)
  }

  /** The inclusions of a new factory: `mule:flow-ref`, then the user's enabled list in its own order. */
  function SeedInclusions(config: Option<TraceLevelConfiguration>): (r: seq<MuleComponent>)
    ensures |r| == 1 + |UserEnabled(config)|
    ensures r[0] == MuleComponent("mule", "flow-ref")
    ensures forall i :: 0 <= i < |UserEnabled(config)| ==> r[1 + i] == UserEnabled(config)[i]
  {
    [MuleComponent("mule", "flow-ref")] + UserEnabled(config)
  }

  // ---------------------------------------------------------------------
  // Matching

  /** A matcher covers a step when the namespaces are equal ignoring case and
      the names are equal ignoring case or the matcher's name is exactly `*`. */
  function Matches(mc: MuleComponent, id: ComponentIdentifier): (r: bool)
    ensures r <==>
      EqualsIgnoreCase(mc.namespace, id.namespace) && (EqualsIgnoreCase(mc.name, id.name) || mc.name == "*")
  {
    EqualsIgnoreCaseStar(mc.name);
    EqualsIgnoreCase(mc.namespace, id.namespace) &&
    (EqualsIgnoreCase(mc.name, id.name) || EqualsIgnoreCase("*", mc.name))
  }

  /** `anyMatch` of a matcher list against one step. */
  function AnyMatch(matchers: seq<MuleComponent>, id: ComponentIdentifier): (r: bool)
    ensures r <==> exists i :: 0 <= i < |matchers| && Matches(matchers[i], id)
  {
    if matchers == [] then false
    else if Matches(matchers[0], id) then true
    else
      var rest := AnyMatch(matchers[1..], id);
      assert forall i :: 1 <= i < |matchers| ==> matchers[i] == matchers[1..][i - 1];
      rest
  }

  // ---------------------------------------------------------------------
  // The decision

  /** The state of a factory that the decision reads. */
  datatype Policy = Policy(
    interceptorEnabled: bool,
    interceptExclusions: seq<MuleComponent>,
    interceptInclusions: seq<MuleComponent>)

  /** The policy a factory holds right after construction. */
  function SeededPolicy(interceptorEnabled: bool, config: Option<TraceLevelConfiguration>): Policy
  {
    Policy(interceptorEnabled, SeedExclusions(config), SeedInclusions(config))
  }

  /** The identifier of the step at a location. */
  function Step(location: ComponentLocation): ComponentIdentifier
  {
    location.componentIdentifier.identifier
  }

  /** The step is `<root>/processors/0` of a flow, the path compared ignoring
      case: exactly when the first part is typed FLOW (not a sub-flow or anything
      else) and the path agrees with `<root>/processors/0` in length and, after
      folding, at every position. The exact path therefore always qualifies. */
  function IsFirstProcessorOfFlow(location: ComponentLocation): (r: bool)
    requires |location.parts| > 0
    ensures r <==>
      location.parts[0].partIdentifier.Some? && location.parts[0].partIdentifier.value.kind == Flow &&
      |location.location| == |location.rootContainerName + "/processors/0"| &&
      forall k :: 0 <= k < |location.location| ==>
        LowerAscii(location.location[k]) == LowerAscii((location.rootContainerName + "/processors/0")[k])
    ensures (location.parts[0].partIdentifier.Some? && location.parts[0].partIdentifier.value.kind == Flow &&
             location.location == location.rootContainerName + "/processors/0") ==> r
  {
    var interceptPath := location.rootContainerName + "/processors/0";
    var flowAsContainer := location.parts[0].partIdentifier.Some? && location.parts[0].partIdentifier.value.kind == Flow;
    EqualsIgnoreCaseCharwise(interceptPath, location.location);
    flowAsContainer && EqualsIgnoreCase(interceptPath, location.location)
  }

  /** The decision taken once the interceptor is enabled and connected. */
  function InterceptDecision(exclusions: seq<MuleComponent>, inclusions: seq<MuleComponent>,
                             location: ComponentLocation): (r: bool)
    requires |location.parts| > 0
    ensures r <==>
      IsFirstProcessorOfFlow(location) ||
      (exists i :: 0 <= i < |inclusions| && Matches(inclusions[i], Step(location))) ||
      (forall j :: 0 <= j < |exclusions| ==> !Matches(exclusions[j], Step(location)))
  {
    var identifier := Step(location);
    IsFirstProcessorOfFlow(location) || AnyMatch(inclusions, identifier) || !AnyMatch(exclusions, identifier)
  }

  /** `intercept(location)`: false unless enabled and connected, then the decision.
      The first part of the location is read only on the enabled, connected path. */
  function ShouldIntercept(p: Policy, hasConnection: bool, location: ComponentLocation): (r: bool)
    requires p.interceptorEnabled && hasConnection ==> |location.parts| > 0
    ensures r ==> p.interceptorEnabled && hasConnection
  {
    p.interceptorEnabled && hasConnection &&
    InterceptDecision(p.interceptExclusions, p.interceptInclusions, location)
  }

  // ---------------------------------------------------------------------
  // The factory

  class MessageProcessorTracingInterceptorFactory {
    const interceptorEnabled: bool
    var interceptExclusions: seq<MuleComponent>
    var interceptInclusions: seq<MuleComponent>
    /** The notification processor's trace-level configuration read at construction. */
    ghost const traceLevelConfiguration: Option<TraceLevelConfiguration>

    /** The lists are exactly the seeded ones. */
    ghost predicate Valid()
      reads this
    {
      interceptExclusions == SeedExclusions(traceLevelConfiguration) &&
      interceptInclusions == SeedInclusions(traceLevelConfiguration)
    }

    function CurrentPolicy(): Policy
      reads this
    {
      Policy(interceptorEnabled, interceptExclusions, interceptInclusions)
    }

    constructor (systemProperties: map<string, string>, traceLevelConfiguration: Option<TraceLevelConfiguration>)
      ensures Valid()
      ensures this.traceLevelConfiguration == traceLevelConfiguration
      ensures interceptorEnabled == InterceptorEnabled(systemProperties)
      ensures CurrentPolicy() == SeededPolicy(InterceptorEnabled(systemProperties), traceLevelConfiguration)
    {
      interceptorEnabled := InterceptorEnabled(systemProperties);
      this.traceLevelConfiguration := traceLevelConfiguration;
      interceptExclusions := [];
      interceptInclusions := [];
      new;
      SetupInterceptableComponents(traceLevelConfiguration);
    }

    /** Appends the defaults, then the user's lists when present, keeping their
        order. Only the constructor calls it, on the two empty lists. */
    method SetupInterceptableComponents(config: Option<TraceLevelConfiguration>)
      requires interceptExclusions == [] && interceptInclusions == []
      modifies this`interceptExclusions, this`interceptInclusions
      ensures interceptExclusions == SeedExclusions(config)
      ensures interceptInclusions == SeedInclusions(config)
    {
      interceptExclusions := interceptExclusions + [MuleComponent("ee", "*")];
      interceptExclusions := interceptExclusions + [MuleComponent("mule", "*")];
      interceptInclusions := interceptInclusions + [MuleComponent("mule", "flow-ref")];
      if config.Some? {
        if config.value.interceptionDisabledComponents.Some? {
          interceptExclusions := interceptExclusions + config.value.interceptionDisabledComponents.value;
        }
        if config.value.interceptionEnabledComponents.Some? {
          interceptInclusions := interceptInclusions + config.value.interceptionEnabledComponents.value;
        }
      }
    }

    method GetInterceptExclusions() returns (exclusions: seq<MuleComponent>)
      requires Valid()
      ensures exclusions == interceptExclusions
      ensures exclusions == SeedExclusions(traceLevelConfiguration)
    {
      exclusions := interceptExclusions;
    }

    method GetInterceptInclusions() returns (inclusions: seq<MuleComponent>)
      requires Valid()
      ensures inclusions == interceptInclusions
      ensures inclusions == SeedInclusions(traceLevelConfiguration)
    {
      inclusions := interceptInclusions;
    }

    /** Whether the step at `location` gets a span; `hasConnection` is the
        notification processor's answer to `hasConnection()`. */
    method Intercept(location: ComponentLocation, hasConnection: bool) returns (intercept: bool)
      requires interceptorEnabled && hasConnection ==> |location.parts| > 0
      ensures intercept == ShouldIntercept(CurrentPolicy(), hasConnection, location)
      ensures !interceptorEnabled || !hasConnection ==> !intercept
    {
      intercept := false;
      if interceptorEnabled && hasConnection {
        intercept := InterceptDecision(interceptExclusions, interceptInclusions, location);
      }
    }
  }
}
