/**
  What the interception policy guarantees: the connection gate, the
  precedence first-processor, then inclusion, then default-allow, the
  matcher's wildcard and case rules, and the effect of the seeded defaults.
 */
module InterceptorProperties {
  import opened JavaStrings
  import opened MuleApi
  import opened Interceptor

  // ---------------------------------------------------------------------
  // Gate and precedence

  /** The first processor of a flow is intercepted whatever the two lists hold. */
  lemma FirstProcessorOfFlowIntercepted(p: Policy, location: ComponentLocation)
    requires p.interceptorEnabled && |location.parts| > 0
    requires location.parts[0].partIdentifier.Some? && location.parts[0].partIdentifier.value.kind == Flow
    requires EqualsIgnoreCase(location.rootContainerName + "/processors/0", location.location)
    ensures ShouldIntercept(p, true, location)
  {
  }

  /** A path that differs from `<root>/processors/0` at some position, even
      ignoring case, is not a flow's first processor, whatever the first part is. */
  lemma PathDiffersNotFirst(location: ComponentLocation, k: nat)
    requires |location.parts| > 0
    requires k < |location.location| && k < |location.rootContainerName + "/processors/0"|
    requires LowerAscii(location.location[k]) != LowerAscii((location.rootContainerName + "/processors/0")[k])
    ensures !IsFirstProcessorOfFlow(location)
  {
  }

  /** A step matching an inclusion is intercepted even when it also matches an exclusion. */
  lemma InclusionOverridesExclusion(p: Policy, location: ComponentLocation, i: nat)
    requires p.interceptorEnabled && |location.parts| > 0
    requires i < |p.interceptInclusions| && Matches(p.interceptInclusions[i], Step(location))
    ensures ShouldIntercept(p, true, location)
  {
  }

  /** A step matching no exclusion is intercepted. */
  lemma DefaultAllow(p: Policy, location: ComponentLocation)
    requires p.interceptorEnabled && |location.parts| > 0
    requires forall j :: 0 <= j < |p.interceptExclusions| ==> !Matches(p.interceptExclusions[j], Step(location))
    ensures ShouldIntercept(p, true, location)
  {
  }

  /** Adding inclusions never hides a step that was intercepted. */
  lemma MoreInclusionsHideNothing(p: Policy, hasConnection: bool, location: ComponentLocation,
                                  extra: seq<MuleComponent>)
    requires p.interceptorEnabled && hasConnection ==> |location.parts| > 0
    ensures ShouldIntercept(p, hasConnection, location) ==>
              ShouldIntercept(p.(interceptInclusions := p.interceptInclusions + extra), hasConnection, location)
  {
    AnyMatchConcat(p.interceptInclusions, extra, Step(location));
  }

  /** Adding exclusions never reveals a step that was skipped. */
  lemma MoreExclusionsRevealNothing(p: Policy, hasConnection: bool, location: ComponentLocation,
                                    extra: seq<MuleComponent>)
    requires p.interceptorEnabled && hasConnection ==> |location.parts| > 0
    ensures ShouldIntercept(p.(interceptExclusions := p.interceptExclusions + extra), hasConnection, location) ==>
              ShouldIntercept(p, hasConnection, location)
  {
    AnyMatchConcat(p.interceptExclusions, extra, Step(location));
  }

  /** When the first part is not a FLOW (a sub-flow, say) the path gets no special
      treatment and only the inclusion and exclusion rules decide. */
  lemma NonFlowContainerFallsThrough(p: Policy, hasConnection: bool, location: ComponentLocation)
    requires |location.parts| > 0
    requires location.parts[0].partIdentifier.None? || location.parts[0].partIdentifier.value.kind != Flow
    ensures ShouldIntercept(p, hasConnection, location) <==>
      p.interceptorEnabled && hasConnection &&
      ((exists i :: 0 <= i < |p.interceptInclusions| && Matches(p.interceptInclusions[i], Step(location))) ||
       (forall j :: 0 <= j < |p.interceptExclusions| ==> !Matches(p.interceptExclusions[j], Step(location))))
  {
  }

  // ---------------------------------------------------------------------
  // Matcher semantics

  /** There is no namespace wildcard: a matcher with namespace `*` only covers
      steps whose namespace is literally `*`. */
  lemma NoNamespaceWildcard(name: string, id: ComponentIdentifier)
    requires Matches(MuleComponent("*", name), id)
    ensures id.namespace == "*"
  {
    EqualsIgnoreCaseStar(id.namespace);
  }

  /** The wildcard works only on the matcher's side: a step named `*` is
      covered only by a matcher whose name is `*`. */
  lemma StepNamedStarIsNotAWildcard(mc: MuleComponent, namespace: string)
    ensures Matches(mc, ComponentIdentifier(namespace, "*")) <==>
      EqualsIgnoreCase(mc.namespace, namespace) && mc.name == "*"
  {
    EqualsIgnoreCaseStar(mc.name);
  }

  /** A step matches a list exactly when it matches one of its two halves. */
  lemma {:induction false} AnyMatchConcat(a: seq<MuleComponent>, b: seq<MuleComponent>, id: ComponentIdentifier)
    ensures AnyMatch(a + b, id) == (AnyMatch(a, id) || AnyMatch(b, id))
  {
    if AnyMatch(a + b, id) {
      var i :| 0 <= i < |a + b| && Matches((a + b)[i], id);
      if i < |a| {
        assert Matches(a[i], id);
      } else {
        assert Matches(b[i - |a|], id);
      }
    }
    if AnyMatch(a, id) {
      var i :| 0 <= i < |a| && Matches(a[i], id);
      assert (a + b)[i] == a[i];
    }
    if AnyMatch(b, id) {
      var i :| 0 <= i < |b| && Matches(b[i], id);
      assert (a + b)[|a| + i] == b[i];
    }
  }

  /** Changing the case of the step's namespace or name changes no match. */
  lemma MatchesIgnoresStepCase(mc: MuleComponent, id: ComponentIdentifier, id': ComponentIdentifier)
    requires EqualsIgnoreCase(id.namespace, id'.namespace) && EqualsIgnoreCase(id.name, id'.name)
    ensures Matches(mc, id) == Matches(mc, id')
  {
  }

  /** Changing the case of the step's namespace or name changes no decision. */
  lemma InterceptIgnoresStepCase(p: Policy, hasConnection: bool, location: ComponentLocation, id': ComponentIdentifier)
    requires p.interceptorEnabled && hasConnection ==> |location.parts| > 0
    requires EqualsIgnoreCase(Step(location).namespace, id'.namespace)
    requires EqualsIgnoreCase(Step(location).name, id'.name)
    ensures ShouldIntercept(p, hasConnection, location) ==
            ShouldIntercept(p, hasConnection,
                            location.(componentIdentifier := location.componentIdentifier.(identifier := id')))
  {
    var moved := location.(componentIdentifier := location.componentIdentifier.(identifier := id'));
    forall mc: MuleComponent
      ensures Matches(mc, Step(location)) == Matches(mc, Step(moved))
    {
      MatchesIgnoresStepCase(mc, Step(location), Step(moved));
    }
    if p.interceptorEnabled && hasConnection {
      assert InterceptDecision(p.interceptExclusions, p.interceptInclusions, location) ==
             InterceptDecision(p.interceptExclusions, p.interceptInclusions, moved);
    }
  }

  /** The whole decision can be taken on the lower-cased identifier. */
  lemma InterceptOnLowerCasedStep(p: Policy, hasConnection: bool, location: ComponentLocation)
    requires p.interceptorEnabled && hasConnection ==> |location.parts| > 0
    ensures ShouldIntercept(p, hasConnection, location) ==
            ShouldIntercept(p, hasConnection,
                            location.(componentIdentifier := location.componentIdentifier.(identifier :=
                              ComponentIdentifier(ToLowerAscii(Step(location).namespace), ToLowerAscii(Step(location).name)))))
  {
    EqualsIgnoreCaseOwnLowerCase(Step(location).namespace);
    EqualsIgnoreCaseOwnLowerCase(Step(location).name);
    InterceptIgnoresStepCase(p, hasConnection, location,
      ComponentIdentifier(ToLowerAscii(Step(location).namespace), ToLowerAscii(Step(location).name)));
  }

  // ---------------------------------------------------------------------
  // Seeding

  /** No trace-level configuration, or no user list, leaves the defaults as they are. */
  lemma SeedingWithoutUserLists(config: Option<TraceLevelConfiguration>)
    ensures config.None? || config.value.interceptionDisabledComponents.None? ==>
              SeedExclusions(config) == [MuleComponent("ee", "*"), MuleComponent("mule", "*")]
    ensures config.None? || config.value.interceptionEnabledComponents.None? ==>
              SeedInclusions(config) == [MuleComponent("mule", "flow-ref")]
  {
  }

  /** `mule:flow-ref`, in any case, is intercepted by a seeded factory despite
      the default `mule:*` exclusion and whatever the user lists hold. */
  lemma FlowRefAlwaysIntercepted(config: Option<TraceLevelConfiguration>, location: ComponentLocation)
    requires |location.parts| > 0
    requires EqualsIgnoreCase(Step(location).namespace, "mule") && EqualsIgnoreCase(Step(location).name, "flow-ref")
    ensures ShouldIntercept(SeededPolicy(true, config), true, location)
  {
    assert Matches(SeedInclusions(config)[0], Step(location));
  }

  /** A step of the `ee` or `mule` namespace that is not a flow's first processor,
      not `mule:flow-ref` and not matched by a user inclusion is not intercepted. */
  lemma ReservedNamespacesNotIntercepted(interceptorEnabled: bool, hasConnection: bool,
                                        config: Option<TraceLevelConfiguration>, location: ComponentLocation)
    requires |location.parts| > 0 && !IsFirstProcessorOfFlow(location)
    requires EqualsIgnoreCase(Step(location).namespace, "ee") || EqualsIgnoreCase(Step(location).namespace, "mule")
    requires !(EqualsIgnoreCase(Step(location).namespace, "mule") && EqualsIgnoreCase(Step(location).name, "flow-ref"))
    requires forall i :: 0 <= i < |UserEnabled(config)| ==> !Matches(UserEnabled(config)[i], Step(location))
    ensures !ShouldIntercept(SeededPolicy(interceptorEnabled, config), hasConnection, location)
  {
    var id := Step(location);
    AnyMatchConcat([MuleComponent("mule", "flow-ref")], UserEnabled(config), id);
    assert !Matches(MuleComponent("mule", "flow-ref"), id);
    AnyMatchConcat([MuleComponent("ee", "*"), MuleComponent("mule", "*")], UserDisabled(config), id);
    if EqualsIgnoreCase(id.namespace, "ee") {
      assert Matches(MuleComponent("ee", "*"), id);
    } else {
      assert Matches(MuleComponent("mule", "*"), id);
    }
  }

  /** A step a user disables, and nothing includes, is not intercepted unless it
      is a flow's first processor. */
  lemma UserExclusionHonoured(interceptorEnabled: bool, hasConnection: bool,
                              config: Option<TraceLevelConfiguration>, location: ComponentLocation, j: nat)
    requires |location.parts| > 0 && !IsFirstProcessorOfFlow(location)
    requires j < |UserDisabled(config)| && Matches(UserDisabled(config)[j], Step(location))
    requires !AnyMatch(SeedInclusions(config), Step(location))
    ensures !ShouldIntercept(SeededPolicy(interceptorEnabled, config), hasConnection, location)
  {
    assert SeedExclusions(config)[2 + j] == UserDisabled(config)[j];
  }

  /** A step a user enables is intercepted by an enabled, connected factory even
      in an excluded namespace. */
  lemma UserInclusionHonoured(config: Option<TraceLevelConfiguration>, location: ComponentLocation, i: nat)
    requires |location.parts| > 0
    requires i < |UserEnabled(config)| && Matches(UserEnabled(config)[i], Step(location))
    ensures ShouldIntercept(SeededPolicy(true, config), true, location)
  {
    assert SeedInclusions(config)[1 + i] == UserEnabled(config)[i];
  }

  /** Setting the enable property to `true`, in any case, keeps the interceptor
      on; `false` or any other value switches it off. */
  lemma InterceptorEnabledByProperty()
    ensures InterceptorEnabled(map[InterceptorEnableProperty := "true"])
    ensures InterceptorEnabled(map[InterceptorEnableProperty := "TRUE"])
    ensures !InterceptorEnabled(map[InterceptorEnableProperty := "false"])
    ensures !InterceptorEnabled(map[InterceptorEnableProperty := "yes"])
  {
    ParseBooleanSpellings();
  }

  // ---------------------------------------------------------------------
  // Client checks on concrete values (not properties over all inputs)

  // Lower-case forms of the names the client checks below use.
  lemma FoldedMule() ensures ToLowerAscii("mule") == "mule" { ToLowerAsciiOfLowerCase("mule"); }
  lemma FoldedEe() ensures ToLowerAscii("ee") == "ee" { ToLowerAsciiOfLowerCase("ee"); }
  lemma FoldedHttp() ensures ToLowerAscii("http") == "http" { ToLowerAsciiOfLowerCase("http"); }
  lemma FoldedLogger() ensures ToLowerAscii("logger") == "logger" { ToLowerAsciiOfLowerCase("logger"); }
  lemma FoldedFlowRef() ensures ToLowerAscii("flow-ref") == "flow-ref" { ToLowerAsciiOfLowerCase("flow-ref"); }
  lemma FoldedUpperMule() ensures ToLowerAscii("MULE") == "mule" { }
  lemma FoldedUpperFlowRef() ensures ToLowerAscii("Flow-Ref") == "flow-ref" { }

  /** A logger that is the first processor of a sub-flow. */
  function SubFlowLogger(): ComponentLocation
  {
    ComponentLocation("orderSubFlow", "orderSubFlow/processors/0",
      [LocationPart("orderSubFlow", Some(TypedComponentIdentifier(ComponentIdentifier("mule", "sub-flow"), SubFlow)))],
      TypedComponentIdentifier(ComponentIdentifier("mule", "logger"), OtherComponentType))
  }

  /** A step of a flow, other than its first, with the given identifier. */
  function FlowStep(id: ComponentIdentifier): ComponentLocation
  {
    ComponentLocation("orderFlow", "orderFlow/processors/3",
      [LocationPart("orderFlow", Some(TypedComponentIdentifier(ComponentIdentifier("mule", "flow"), Flow)))],
      TypedComponentIdentifier(id, OtherComponentType))
  }

  /** Client check: a factory built without the enable property and without a
      trace-level configuration skips a logger, even as the first processor of a sub-flow,
      and intercepts nothing without a connection. */
  method SkippedStepScenario()
  {
    var factory := new MessageProcessorTracingInterceptorFactory(map[], None);
    assert factory.CurrentPolicy() == SeededPolicy(true, None);
    assert !ShouldIntercept(SeededPolicy(true, None), true, SubFlowLogger()) by {
      FoldedMule();
      FoldedLogger();
      FoldedFlowRef();
      ReservedNamespacesNotIntercepted(true, true, None, SubFlowLogger());
    }
    var b := factory.Intercept(SubFlowLogger(), true);
    assert !b;
    b := factory.Intercept(SubFlowLogger(), false);
    assert !b;
  }

  /** Client check: the same factory skips a logger that is a later step of a flow. */
  method FlowLoggerScenario()
  {
    var factory := new MessageProcessorTracingInterceptorFactory(map[], None);
    assert factory.CurrentPolicy() == SeededPolicy(true, None);
    var logger := FlowStep(ComponentIdentifier("mule", "logger"));
    assert !ShouldIntercept(SeededPolicy(true, None), true, logger) by {
      assert logger.location[21] == '3' && (logger.rootContainerName + "/processors/0")[21] == '0';
      PathDiffersNotFirst(logger, 21);
      FoldedMule();
      FoldedLogger();
      FoldedFlowRef();
      ReservedNamespacesNotIntercepted(true, true, None, logger);
    }
    var b := factory.Intercept(logger, true);
    assert !b;
  }

  /** Client check: the same factory intercepts a flow-ref written in upper case. */
  method FlowRefScenario()
  {
    var factory := new MessageProcessorTracingInterceptorFactory(map[], None);
    assert factory.CurrentPolicy() == SeededPolicy(true, None);
    var flowRef := FlowStep(ComponentIdentifier("MULE", "Flow-Ref"));
    assert ShouldIntercept(SeededPolicy(true, None), true, flowRef) by {
      FoldedMule();
      FoldedFlowRef();
      FoldedUpperMule();
      FoldedUpperFlowRef();
      FlowRefAlwaysIntercepted(None, flowRef);
    }
    var b := factory.Intercept(flowRef, true);
    assert b;
  }

  /** Client check: an HTTP request is intercepted by a seeded factory without
      user lists, because no exclusion covers it. */
  lemma HttpRequestNotExcluded()
    ensures ShouldIntercept(SeededPolicy(true, None), true, FlowStep(ComponentIdentifier("http", "request")))
  {
    var id := ComponentIdentifier("http", "request");
    FoldedMule();
    FoldedEe();
    FoldedHttp();
    assert "mule"[0] != "http"[0];
    assert !Matches(MuleComponent("ee", "*"), id);
    assert !Matches(MuleComponent("mule", "*"), id);
    assert SeedExclusions(None) == [MuleComponent("ee", "*"), MuleComponent("mule", "*")];
    DefaultAllow(SeededPolicy(true, None), FlowStep(id));
  }

  /** Client check: the same factory intercepts an HTTP request. */
  method DefaultAllowScenario()
  {
    var factory := new MessageProcessorTracingInterceptorFactory(map[], None);
    assert factory.CurrentPolicy() == SeededPolicy(true, None);
    HttpRequestNotExcluded();
    var b := factory.Intercept(FlowStep(ComponentIdentifier("http", "request")), true);
    assert b;
  }
}
