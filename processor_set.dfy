/** The processor set builder: the definitions emitted for the configured
    processor blocks, the span-metrics side exporter, the tail-sampling
    policy list and the load-balancing exporter/receiver pair. */
module ProcessorSet {
  import opened Wrappers
  import opened ComponentIds
  import opened ConfigErrors
  import opened Exporters
  import opened ProcessorOrder

  /** One entry of `tail_sampling.policies`: the policy kind, with its
      parameters when the entry gives any (`- always_sample:` gives none). */
  datatype Policy = Policy(kind: string, params: Option<Settings>)

  /** An emitted policy: `name`, `type`, and the parameters nested under a
      key equal to the kind (an empty map when there are none). */
  datatype PolicyEntry = PolicyEntry(name: string, policyType: string, params: map<string, Settings>)

  /** `tail_sampling.load_balancing`: the exporter block, the resolver block,
      and the port the resolver names for the peers' `otlp/lb` receivers. */
  datatype LoadBalancing = LoadBalancing(exporter: Settings, resolver: Settings, port: nat)

  datatype TailSamplingConfig = TailSamplingConfig(
    policies: seq<Policy>,
    decisionWait: Option<string>,
    loadBalancing: Option<LoadBalancing>)

  /** `spanmetrics`: passthrough settings plus the two target fields, where
      the empty string means the field was not given. */
  datatype SpanMetricsConfig = SpanMetricsConfig(settings: Settings, promInstance: string, handlerEndpoint: string)

  /** The side exporter span metrics are written to. */
  datatype MetricsExporter =
    | RemoteWriteMetrics(namespace: string, promInstance: string)
    | PrometheusMetrics(endpoint: string, namespace: string)

  /** The emitted definition of one processor. */
  datatype ProcessorSettings =
    | AttributesSettings(settings: Settings)
    | BatchSettings(settings: Settings)
    | AutomaticLoggingSettings(nested: map<string, Settings>)
    | SpanMetricsSettings(metricsExporter: string, settings: Settings)
    | TailSamplingSettings(decisionWait: string, policies: seq<PolicyEntry>)

  /** The `loadbalancing` exporter: its inner `protocol.otlp` block, that
      block's retry settings, and the resolver block. */
  datatype LoadBalancingExporter = LoadBalancingExporter(otlp: Settings, retry: Settings, resolver: Settings)

  const DefaultDecisionWait := "5s"
  const SpanMetricsNamespace := "tempo_spanmetrics"
  const EndpointKey := "endpoint"
  const PlaceholderEndpoint := "noop"
  const AnyAddress := "0.0.0.0:"

  function PolicyEntryOf(p: Policy, i: nat): PolicyEntry {
    PolicyEntry(Render(Indexed(p.kind, i)), p.kind,
      match p.params
      case None => map[]
      case Some(params) => map[p.kind := params])
  }

  /** The policy list: entry `i` is named `<kind>/<i>`. */
  function NamePolicies(policies: seq<Policy>): seq<PolicyEntry> {
    seq(|policies|, i requires 0 <= i < |policies| => PolicyEntryOf(policies[i], i))
  }

  /** Policy `i` of kind `k` is emitted as `name: k/i`, `type: k`, with its
      parameters, if any, under the key `k` and nothing else. */
  lemma NamePoliciesSpec(policies: seq<Policy>)
    ensures |NamePolicies(policies)| == |policies|
    ensures forall i :: 0 <= i < |policies| ==>
      var e := NamePolicies(policies)[i];
      e.name == policies[i].kind + "/" + Decimal(i) &&
      e.policyType == policies[i].kind &&
      (policies[i].params.None? ==> e.params == map[]) &&
      (policies[i].params.Some? ==>
         e.params.Keys == {policies[i].kind} && e.params[policies[i].kind] == policies[i].params.value)
  {
  }

  /** No two policies share a name, even when they share a kind. */
  lemma PolicyNamesDistinct(policies: seq<Policy>)
    ensures forall i, j :: 0 <= i < j < |policies| ==> NamePolicies(policies)[i].name != NamePolicies(policies)[j].name
  {
    forall i, j | 0 <= i < j < |policies|
      ensures NamePolicies(policies)[i].name != NamePolicies(policies)[j].name
    {
      PositionsDistinct(policies[i].kind, i, policies[j].kind, j);
    }
  }

  /** A policy name reads back as its kind and its position. */
  lemma PolicyNameParses(policies: seq<Policy>, i: nat)
    requires i < |policies| && WellFormedKind(policies[i].kind)
    ensures Parse(NamePolicies(policies)[i].name) == ComponentId(policies[i].kind, Decimal(i))
  {
    ParseRender(Indexed(policies[i].kind, i));
  }

  /** The tail_sampling processor: `decision_wait` defaults to 5s. */
  function TailSamplingOf(ts: TailSamplingConfig): (p: ProcessorSettings)
    ensures p.TailSamplingSettings?
    ensures ts.decisionWait.None? ==> p.decisionWait == DefaultDecisionWait
    ensures ts.decisionWait.Some? ==> p.decisionWait == ts.decisionWait.value
    ensures p.policies == NamePolicies(ts.policies)
  {
    TailSamplingSettings(ts.decisionWait.GetOr(DefaultDecisionWait), NamePolicies(ts.policies))
  }

  /** The side exporter of span metrics: `remote_write` when only a
      prom_instance is given, `prometheus` when only a handler_endpoint is;
      both or neither is an error. */
  function SpanMetricsExporter(c: SpanMetricsConfig): (r: Result<MetricsExporter, ConfigError>)
    ensures r.Err? <==> (c.promInstance == "") == (c.handlerEndpoint == "")
    ensures r.Err? ==> r.error == AmbiguousMetricsExporter
    ensures r.Ok? && r.value.RemoteWriteMetrics? <==> c.promInstance != "" && c.handlerEndpoint == ""
    ensures r.Ok? ==> r.value.namespace == SpanMetricsNamespace
    ensures r.Ok? && r.value.RemoteWriteMetrics? ==> r.value.promInstance == c.promInstance
    ensures r.Ok? && r.value.PrometheusMetrics? ==> r.value.endpoint == c.handlerEndpoint
  {
    if c.promInstance != "" && c.handlerEndpoint == "" then
      Ok(RemoteWriteMetrics(SpanMetricsNamespace, c.promInstance))
    else if c.promInstance == "" && c.handlerEndpoint != "" then
      Ok(PrometheusMetrics(c.handlerEndpoint, SpanMetricsNamespace))
    else
      Err(AmbiguousMetricsExporter)
  }

  /** The identifier of the side exporter, also the processor's
      `metrics_exporter` value. */
  function MetricsExporterName(m: MetricsExporter): string {
    match m
    case RemoteWriteMetrics(_, _) => "remote_write"
    case PrometheusMetrics(_, _) => "prometheus"
  }

  /** The spanmetrics processor names its side exporter and passes the
      remaining settings through. */
  function SpanMetricsOf(c: SpanMetricsConfig, m: MetricsExporter): (p: ProcessorSettings)
    ensures p.SpanMetricsSettings? && p.settings == c.settings
    ensures p.metricsExporter == MetricsExporterName(m)
  {
    SpanMetricsSettings(MetricsExporterName(m), c.settings)
  }

  /** The automatic_logging processor nests the user's block one level
      deeper, under its own name. */
  function AutomaticLoggingOf(settings: Settings): (p: ProcessorSettings)
    ensures p.AutomaticLoggingSettings?
    ensures p.nested.Keys == {Name(AutomaticLogging)} && p.nested[Name(AutomaticLogging)] == settings
  {
    AutomaticLoggingSettings(map[Name(AutomaticLogging) := settings])
  }

  /** The `loadbalancing` exporter: the user's exporter block with its
      endpoint forced to a placeholder, the default retry, and the resolver
      passed through. */
  function LoadBalancingExporterOf(lb: LoadBalancing): (e: LoadBalancingExporter)
    ensures e.otlp.Keys == lb.exporter.Keys + {EndpointKey}
    ensures e.otlp[EndpointKey] == PlaceholderEndpoint
    ensures forall k :: k in lb.exporter && k != EndpointKey ==> e.otlp[k] == lb.exporter[k]
    ensures e.retry == map[MaxElapsedTimeKey := DefaultMaxElapsedTime]
    ensures e.resolver == lb.resolver
  {
    LoadBalancingExporter(lb.exporter[EndpointKey := PlaceholderEndpoint], RetryWithDefault(map[]), lb.resolver)
  }

  /** The listen address of the synthesized `otlp/lb` receiver. */
  function LoadBalancingEndpoint(port: nat): string {
    AnyAddress + Decimal(port)
  }

  /** The receiver listens on every interface, on the resolver's port. */
  lemma LoadBalancingEndpointSpec(port: nat)
    ensures var e := LoadBalancingEndpoint(port);
      |e| > |AnyAddress| && e[..|AnyAddress|] == AnyAddress &&
      (forall i :: |AnyAddress| <= i < |e| ==> IsDigit(e[i])) &&
      DigitsValue(e[|AnyAddress|..]) == port
  {
    var e := LoadBalancingEndpoint(port);
    assert e[|AnyAddress|..] == Decimal(port);
    DecimalRoundTrip(port);
  }

  /** The resolver port of the load-balancing test case. */
  lemma LoadBalancingEndpointExample()
    ensures LoadBalancingEndpoint(4318) == "0.0.0.0:4318"
  {
    assert Decimal(4318) == "4318" by {
      assert Decimal(4) == "4";
      assert Decimal(43) == "43";
      assert Decimal(431) == "431";
    }
  }

  /** The policies of the tail-sampling test cases. */
  lemma TailSamplingExample(values: Settings)
    ensures var ts := TailSamplingConfig([Policy("always_sample", None), Policy("string_attribute", Some(values))],
                                         None, None);
      TailSamplingOf(ts) == TailSamplingSettings("5s", [
        PolicyEntry("always_sample/0", "always_sample", map[]),
        PolicyEntry("string_attribute/1", "string_attribute", map["string_attribute" := values])])
  {
    var policies := [Policy("always_sample", None), Policy("string_attribute", Some(values))];
    assert Decimal(0) == "0" && Decimal(1) == "1";
    assert Render(Indexed("always_sample", 0)) == "always_sample/0";
    assert Render(Indexed("string_attribute", 1)) == "string_attribute/1";
    assert NamePolicies(policies) == [PolicyEntryOf(policies[0], 0), PolicyEntryOf(policies[1], 1)];
  }
}
