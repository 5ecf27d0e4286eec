/**
  The extension configuration's telemetry gate: whether tracing is turned
  off (a system property overrides the declared flag), whether telemetry
  as a whole is disabled (tracing off and no metrics provider), and what
  `start()` does in each case: nothing, or initialise the notification
  processor and register the four notification listeners.

  The host's listener registry and the notification processor appear only
  through the calls the configuration makes on them, recorded in the order
  they are made in one log shared by both.
 */
module ExtensionConfig {
  import opened JavaStrings
  import opened MuleApi

  /** System property that, when present, decides whether tracing is turned off. */
  const TracingDisabledProperty: string := "mule.otel.tracing.disabled"

  // Configuration objects bound by the host and passed through unchanged.
  type OpenTelemetryResource(==)
  type ExporterConfiguration(==)
  type SpanProcessorConfiguration(==)
  type MetricsConfigProvider(==)
  type AppIdentifier(==)

  /** The declared `turnOffTracing` parameter after its default of false is applied. */
  function DeclaredTurnOffTracing(parameter: Option<bool>): bool
  {
    if parameter.Some? then parameter.value else false
  }

  /** `isTurnOffTracing()` of a configuration whose declared flag is `declared`:
      the parsed system property if present, else the declared flag. Tracing is
      off only when the flag or the property asks for it, and a present property
      that does not parse as true keeps it on. */
  function TurnOffTracing(systemProperties: map<string, string>, declared: bool): (r: bool)
    ensures r ==> TracingDisabledProperty in systemProperties || declared
    ensures TracingDisabledProperty in systemProperties && !ParseBoolean(systemProperties[TracingDisabledProperty]) ==> !r
  {
    if TracingDisabledProperty in systemProperties
    then ParseBoolean(systemProperties[TracingDisabledProperty])
    else declared
  }

  /** `disableTelemetry()`: tracing is off and no metrics provider is configured.
      It never holds with tracing on, nor with a metrics provider. */
  function TelemetryDisabled(tracingTurnedOff: bool, metricsConfigProvider: Option<MetricsConfigProvider>): (r: bool)
    ensures r ==> tracingTurnedOff
    ensures metricsConfigProvider.Some? ==> !r
  {
    tracingTurnedOff && metricsConfigProvider.None?
  }

  /** The notification listeners `start()` registers. */
  datatype Listener =
    | MessageProcessorNotificationListener
    | PipelineMessageNotificationListener
    | AsyncMessageNotificationListener
    | MetricEventNotificationListener

  /** The filter given with the metric listener: the notification's data is of the metric data type. */
  datatype NotificationSelector = MetricDataTypeCompatible

  datatype Registration = Registration(listener: Listener, selector: Option<NotificationSelector>)

  /** One call the configuration makes on the host: an initialisation of the
      notification processor, or a listener registration. */
  datatype HostCall =
    | ProcessorInit(traceLevelConfiguration: Option<TraceLevelConfiguration>)
    | ListenerRegistration(registration: Registration)

  /** The calls of one successful `start()`, in order: the processor is
      initialised first, then four listeners are registered, and only the last
      of them with a selector. */
  function StartCalls(traceLevelConfiguration: Option<TraceLevelConfiguration>): (r: seq<HostCall>)
    ensures |r| == 5 && r[0] == ProcessorInit(traceLevelConfiguration)
    ensures forall k :: 1 <= k < |r| ==> r[k].ListenerRegistration?
    ensures forall k :: 1 <= k < 4 ==> r[k].registration.selector.None?
    ensures r[4].registration.selector.Some?
  {
    [ProcessorInit(traceLevelConfiguration),
     ListenerRegistration(Registration(MessageProcessorNotificationListener, None)),
     ListenerRegistration(Registration(PipelineMessageNotificationListener, None)),
     ListenerRegistration(Registration(AsyncMessageNotificationListener, None)),
     ListenerRegistration(Registration(MetricEventNotificationListener, Some(MetricDataTypeCompatible)))]
  }

  /** The host side, as the log of the calls made on it, oldest first. */
  class HostCalls {
    ghost var calls: seq<HostCall>

    constructor ()
      ensures calls == []
    {
      calls := [];
    }
  }

  /** The host's listener registry; each registration is appended to the host log. */
  class NotificationListenerRegistry {
    const host: HostCalls

    constructor (host: HostCalls)
      ensures this.host == host
    {
      this.host := host;
    }

    method RegisterListener(listener: Listener, selector: Option<NotificationSelector>)
      modifies host
      ensures host.calls == old(host.calls) + [ListenerRegistration(Registration(listener, selector))]
    {
      host.calls := host.calls + [ListenerRegistration(Registration(listener, selector))];
    }
  }

  /** The notification processor; each initialisation is appended to the host log
      with the trace-level configuration passed. */
  class MuleNotificationProcessor {
    const host: HostCalls

    constructor (host: HostCalls)
      ensures this.host == host
    {
      this.host := host;
    }

    method Init(traceLevelConfiguration: Option<TraceLevelConfiguration>)
      modifies host
      ensures host.calls == old(host.calls) + [ProcessorInit(traceLevelConfiguration)]
    {
      host.calls := host.calls + [ProcessorInit(traceLevelConfiguration)];
    }
  }

  class OpenTelemetryExtensionConfiguration {
    const configName: string
    var turnOffTracing: bool
    var resource: Option<OpenTelemetryResource>
    var exporterConfiguration: Option<ExporterConfiguration>
    var traceLevelConfiguration: Option<TraceLevelConfiguration>
    var spanProcessorConfiguration: Option<SpanProcessorConfiguration>
    const metricsConfigProvider: Option<MetricsConfigProvider>
    var appIdentifier: Option<AppIdentifier>
    const notificationListenerRegistry: NotificationListenerRegistry
    const muleNotificationProcessor: MuleNotificationProcessor

    /** The configuration as the host binds it: `turnOffTracing` defaults to false,
        the metrics provider is optional, nothing else is set yet. The registry
        and the processor belong to one host and log to it. */
    constructor (configName: string, turnOffTracing: Option<bool>,
                 metricsConfigProvider: Option<MetricsConfigProvider>,
                 registry: NotificationListenerRegistry, processor: MuleNotificationProcessor)
      requires registry.host == processor.host
      ensures this.configName == configName
      ensures this.turnOffTracing == DeclaredTurnOffTracing(turnOffTracing)
      ensures this.metricsConfigProvider == metricsConfigProvider
      ensures resource.None? && exporterConfiguration.None? && traceLevelConfiguration.None?
      ensures spanProcessorConfiguration.None? && appIdentifier.None?
      ensures notificationListenerRegistry == registry && muleNotificationProcessor == processor
    {
      this.configName := configName;
      this.turnOffTracing := DeclaredTurnOffTracing(turnOffTracing);
      this.metricsConfigProvider := metricsConfigProvider;
      resource := None;
      exporterConfiguration := None;
      traceLevelConfiguration := None;
      spanProcessorConfiguration := None;
      appIdentifier := None;
      notificationListenerRegistry := registry;
      muleNotificationProcessor := processor;
    }

    /** Skips everything when telemetry is disabled; otherwise records the
        application identifier, initialises the notification processor once with
        the trace-level configuration and registers the four listeners in order. */
    method Start(systemProperties: map<string, string>, environmentAppIdentifier: AppIdentifier)
      requires notificationListenerRegistry.host == muleNotificationProcessor.host
      modifies this`appIdentifier, notificationListenerRegistry.host
      ensures TelemetryDisabled(TurnOffTracing(systemProperties, turnOffTracing), metricsConfigProvider) ==>
                unchanged(this, notificationListenerRegistry.host)
      ensures !TelemetryDisabled(TurnOffTracing(systemProperties, turnOffTracing), metricsConfigProvider) ==>
                appIdentifier == Some(environmentAppIdentifier) &&
                notificationListenerRegistry.host.calls ==
                  old(notificationListenerRegistry.host.calls) + StartCalls(traceLevelConfiguration)
    {
      if TelemetryDisabled(TurnOffTracing(systemProperties, turnOffTracing), metricsConfigProvider) {
        return;
      }
      appIdentifier := Some(environmentAppIdentifier);
      muleNotificationProcessor.Init(traceLevelConfiguration);
      notificationListenerRegistry.RegisterListener(MessageProcessorNotificationListener, None);
      notificationListenerRegistry.RegisterListener(PipelineMessageNotificationListener, None);
      notificationListenerRegistry.RegisterListener(AsyncMessageNotificationListener, None);
      notificationListenerRegistry.RegisterListener(MetricEventNotificationListener, Some(MetricDataTypeCompatible));
    }

    /** Only logs; no state of the configuration or of the host changes. */
    method Stop()
      ensures unchanged(this, notificationListenerRegistry.host)
    {
    }

    method SetTurnOffTracing(turnOffTracing: bool) returns (self: OpenTelemetryExtensionConfiguration)
      modifies this`turnOffTracing
      ensures self == this && this.turnOffTracing == turnOffTracing
    {
      this.turnOffTracing := turnOffTracing;
      self := this;
    }

    method SetResource(resource: Option<OpenTelemetryResource>) returns (self: OpenTelemetryExtensionConfiguration)
      modifies this`resource
      ensures self == this && this.resource == resource
    {
      this.resource := resource;
      self := this;
    }

    method SetExporterConfiguration(exporterConfiguration: Option<ExporterConfiguration>)
      returns (self: OpenTelemetryExtensionConfiguration)
      modifies this`exporterConfiguration
      ensures self == this && this.exporterConfiguration == exporterConfiguration
    {
      this.exporterConfiguration := exporterConfiguration;
      self := this;
    }

    method SetTraceLevelConfiguration(traceLevelConfiguration: Option<TraceLevelConfiguration>)
      returns (self: OpenTelemetryExtensionConfiguration)
      modifies this`traceLevelConfiguration
      ensures self == this && this.traceLevelConfiguration == traceLevelConfiguration
    {
      this.traceLevelConfiguration := traceLevelConfiguration;
      self := this;
    }

    method SetSpanProcessorConfiguration(spanProcessorConfiguration: Option<SpanProcessorConfiguration>)
      returns (self: OpenTelemetryExtensionConfiguration)
      modifies this`spanProcessorConfiguration
      ensures self == this && this.spanProcessorConfiguration == spanProcessorConfiguration
    {
      this.spanProcessorConfiguration := spanProcessorConfiguration;
      self := this;
    }
  }
}
