/**
  What the telemetry gate guarantees: the system property overrides the
  declared flag, tracing is on by default, a metrics provider keeps
  telemetry on, and a successful start registers exactly four listeners.
 */
module ExtensionConfigProperties {
  import opened JavaStrings
  import opened MuleApi
  import opened ExtensionConfig

  /** When the property is present it alone decides, as `parseBoolean` reads it;
      the declared flag then makes no difference. */
  lemma PropertyOverridesDeclaredFlag(systemProperties: map<string, string>, declared: bool)
    requires TracingDisabledProperty in systemProperties
    ensures TurnOffTracing(systemProperties, declared) <==>
              EqualsIgnoreCase(systemProperties[TracingDisabledProperty], "true")
    ensures TurnOffTracing(systemProperties, declared) == TurnOffTracing(systemProperties, !declared)
  {
  }

  /** Without the property the declared flag decides. */
  lemma DeclaredFlagWithoutProperty(systemProperties: map<string, string>, declared: bool)
    requires TracingDisabledProperty !in systemProperties
    ensures TurnOffTracing(systemProperties, declared) == declared
  {
  }

  /** `turnOffTracing` defaults to false: with no property and no declared value, tracing is on. */
  lemma TracingOnByDefault(systemProperties: map<string, string>)
    requires TracingDisabledProperty !in systemProperties
    ensures !TurnOffTracing(systemProperties, DeclaredTurnOffTracing(None))
  {
  }

  /** "TRUE" turns tracing off against a declared false; "yes" keeps it on against a declared true. */
  lemma PropertySpellings()
    ensures TurnOffTracing(map[TracingDisabledProperty := "TRUE"], false)
    ensures !TurnOffTracing(map[TracingDisabledProperty := "yes"], true)
    ensures !TurnOffTracing(map[TracingDisabledProperty := ""], true)
  {
    ParseBooleanSpellings();
  }

  /** Telemetry is disabled exactly when tracing is turned off and no metrics
      provider is configured; a metrics provider keeps it on even with tracing off. */
  lemma TelemetryDisabledExactly(systemProperties: map<string, string>, declared: bool,
                                 metricsConfigProvider: Option<MetricsConfigProvider>)
    ensures TelemetryDisabled(TurnOffTracing(systemProperties, declared), metricsConfigProvider) <==>
              metricsConfigProvider.None? &&
              (if TracingDisabledProperty in systemProperties
               then EqualsIgnoreCase(systemProperties[TracingDisabledProperty], "true")
               else declared)
    ensures metricsConfigProvider.Some? ==>
              !TelemetryDisabled(TurnOffTracing(systemProperties, declared), metricsConfigProvider)
  {
  }

  /** A successful start initialises the processor before anything else, then
      registers four listeners: processor, pipeline, async, metric; only the
      metric listener is registered with a selector. */
  lemma StartRegistersFourListeners(traceLevelConfiguration: Option<TraceLevelConfiguration>)
    ensures StartCalls(traceLevelConfiguration)[0] == ProcessorInit(traceLevelConfiguration)
    ensures forall k :: 1 <= k < |StartCalls(traceLevelConfiguration)| ==>
              StartCalls(traceLevelConfiguration)[k] != ProcessorInit(traceLevelConfiguration)
    ensures StartCalls(traceLevelConfiguration)[1].registration.listener == MessageProcessorNotificationListener
    ensures StartCalls(traceLevelConfiguration)[2].registration.listener == PipelineMessageNotificationListener
    ensures StartCalls(traceLevelConfiguration)[3].registration.listener == AsyncMessageNotificationListener
    ensures StartCalls(traceLevelConfiguration)[4].registration ==
              Registration(MetricEventNotificationListener, Some(MetricDataTypeCompatible))
  {
  }

  /** A client check on concrete values, not a property over all inputs: a
      configuration bound with defaults and started without the property is
      live, and logs one initialisation and four registrations; with the
      property set to "true" and no metrics provider, starting it logs nothing. */
  method StartScenarios(app: AppIdentifier)
  {
    var host := new HostCalls();
    var registry := new NotificationListenerRegistry(host);
    var processor := new MuleNotificationProcessor(host);
    var config := new OpenTelemetryExtensionConfiguration("otel", None, None, registry, processor);
    config.Start(map[], app);
    assert host.calls == StartCalls(None);
    assert config.appIdentifier == Some(app);

    var disabled := new OpenTelemetryExtensionConfiguration("otel-off", None, None, registry, processor);
    ParseBooleanSpellings();
    disabled.Start(map[TracingDisabledProperty := "true"], app);
    assert host.calls == StartCalls(None);
    assert disabled.appIdentifier.None?;
  }
}
