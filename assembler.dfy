/** The pipeline assembler: validates an instance configuration, builds its
    exporters, receivers and processors, orders the processors, and lays out
    the trace pipelines (one, or two joined by a load-balancing hop) plus the
    optional span-metrics pipeline.  Everything is a pure function of the
    configuration and of the files a password_file may name. */
module Assembler {
  import opened Wrappers
  import opened ComponentIds
  import opened ConfigErrors
  import opened Exporters
  import opened ProcessorOrder
  import opened ProcessorSet

  /** The deprecated single target, with its own optional batch block. */
  datatype PushConfig = PushConfig(target: Target, batch: Option<Settings>)

  /** One tracing instance as the user wrote it; an absent block is `None`. */
  datatype InstanceConfig = InstanceConfig(
    receivers: map<string, Settings>,
    push: Option<PushConfig>,
    remoteWrite: seq<Target>,
    attributes: Option<Settings>,
    batch: Option<Settings>,
    spanMetrics: Option<SpanMetricsConfig>,
    automaticLogging: Option<Settings>,
    tailSampling: Option<TailSamplingConfig>)

  datatype Receiver =
    | UserReceiver(settings: Settings)
    | NoopReceiver
    | OtlpReceiver(grpcEndpoint: string)

  datatype Exporter =
    | OtlpExporter(settings: OtlpSettings)
    | MetricsSink(sink: MetricsExporter)
    | LoadBalancer(balancer: LoadBalancingExporter)

  /** A pipeline names its receivers and exporters as sets: their order in
      the emitted configuration is not fixed. */
  datatype Pipeline = Pipeline(receivers: set<string>, processors: seq<string>, exporters: set<string>)

  /** The emitted configuration: components by rendered identifier, and the
      pipelines wiring them. */
  datatype Graph = Graph(
    receivers: map<string, Receiver>,
    exporters: map<string, Exporter>,
    processors: map<string, ProcessorSettings>,
    pipelines: map<string, Pipeline>)

  const NoopReceiverName := "noop"
  const LoadBalancingReceiverName := "otlp/lb"
  const LoadBalancingExporterName := "loadbalancing"
  const TracesKind := "traces"
  const SpanMetricsPipelineName := "metrics/spanmetrics"

  /** The trace pipeline is split in two exactly when tail sampling asks for
      load balancing. */
  predicate Split(cfg: InstanceConfig) {
    cfg.tailSampling.Some? && cfg.tailSampling.value.loadBalancing.Some?
  }

  /** Which processor blocks are present; push_config.batch is a second
      spelling of the batch block. */
  predicate Configured(cfg: InstanceConfig, k: Kind) {
    match k
    case Attributes => cfg.attributes.Some?
    case SpanMetrics => cfg.spanMetrics.Some?
    case TailSampling => cfg.tailSampling.Some?
    case AutomaticLogging => cfg.automaticLogging.Some?
    case Batch => cfg.batch.Some? || (cfg.push.Some? && cfg.push.value.batch.Some?)
  }

  /** What a configuration must satisfy to compile, condition by condition. */
  predicate Valid(cfg: InstanceConfig) {
    && cfg.receivers != map[]
    && (cfg.push.Some? <==> cfg.remoteWrite == [])
    && (forall r :: r in cfg.receivers ==> cfg.receivers[r] != map[])
    && !(cfg.push.Some? && cfg.push.value.batch.Some? && cfg.batch.Some?)
    && (cfg.spanMetrics.Some? ==>
          (cfg.spanMetrics.value.promInstance == "") != (cfg.spanMetrics.value.handlerEndpoint == ""))
  }

  /** The first violated condition, checked in a fixed order. */
  function Validate(cfg: InstanceConfig): Option<ConfigError> {
    if |cfg.receivers| == 0 then Some(MissingReceivers)
    else if cfg.push.Some? == (|cfg.remoteWrite| > 0) then Some(AmbiguousExportTarget)
    else if map[] in cfg.receivers.Values then Some(EmptyReceiverSettings)
    else if cfg.push.Some? && cfg.push.value.batch.Some? && cfg.batch.Some? then Some(DuplicateBatchConfig)
    else if cfg.spanMetrics.Some? && SpanMetricsExporter(cfg.spanMetrics.value).Err? then Some(AmbiguousMetricsExporter)
    else None
  }

  /** The configured processor kinds, in the order the blocks are read. */
  function ProcessorKinds(cfg: InstanceConfig): seq<Kind> {
    Select(cfg, [Attributes, Batch, SpanMetrics, AutomaticLogging, TailSampling])
  }

  function Select(cfg: InstanceConfig, ks: seq<Kind>): seq<Kind> {
    if ks == [] then [] else (if Configured(cfg, ks[0]) then [ks[0]] else []) + Select(cfg, ks[1..])
  }

  /** The batch block in use: push_config.batch when given, else batch. */
  function BatchOf(cfg: InstanceConfig): Option<Settings> {
    if cfg.push.Some? && cfg.push.value.batch.Some? then cfg.push.value.batch else cfg.batch
  }

  /** The definition emitted for one configured processor. */
  function Definition(cfg: InstanceConfig, k: Kind): ProcessorSettings
    requires Valid(cfg) && Configured(cfg, k)
  {
    match k
    case Attributes => AttributesSettings(cfg.attributes.value)
    case Batch => BatchSettings(BatchOf(cfg).value)
    case SpanMetrics => SpanMetricsOf(cfg.spanMetrics.value, SpanMetricsExporter(cfg.spanMetrics.value).value)
    case AutomaticLogging => AutomaticLoggingOf(cfg.automaticLogging.value)
    case TailSampling => TailSamplingOf(cfg.tailSampling.value)
  }

  /** The definitions of the processors `ks`, keyed by name. */
  function Definitions(cfg: InstanceConfig, ks: seq<Kind>): map<string, ProcessorSettings>
    requires Valid(cfg) && forall i :: 0 <= i < |ks| ==> Configured(cfg, ks[i])
  {
    if ks == [] then map[] else Definitions(cfg, ks[1..])[Name(ks[0]) := Definition(cfg, ks[0])]
  }

  function ProcessorMap(cfg: InstanceConfig): map<string, ProcessorSettings>
    requires Valid(cfg)
  {
    ProcessorKindsSpec(cfg);
    Definitions(cfg, ProcessorKinds(cfg))
  }

  /** The processor names of one group, in order. */
  function Names(ks: seq<Kind>): seq<string> {
    seq(|ks|, i requires 0 <= i < |ks| => Name(ks[i]))
  }

  /** The exporters of the export target: the push target alone, or the
      remote-write list. */
  function BuildExporters(cfg: InstanceConfig, files: FileSystem): Result<seq<(ComponentId, OtlpSettings)>, ConfigError> {
    if cfg.push.Some? then
      match BuildPush(cfg.push.value.target, files)
      case Err(e) => Err(e)
      case Ok(entry) => Ok([entry])
    else
      BuildRemoteWrite(cfg.remoteWrite, files)
  }

  function ExporterNames(built: seq<(ComponentId, OtlpSettings)>): set<string> {
    set e | e in built :: Render(e.0)
  }

  function OtlpExporters(built: seq<(ComponentId, OtlpSettings)>): map<string, Exporter> {
    if built == [] then map[]
    else OtlpExporters(built[..|built| - 1])[Render(built[|built| - 1].0) := OtlpExporter(built[|built| - 1].1)]
  }

  function Metrics(cfg: InstanceConfig): MetricsExporter
    requires Valid(cfg) && cfg.spanMetrics.Some?
  {
    SpanMetricsExporter(cfg.spanMetrics.value).value
  }

  function Balancing(cfg: InstanceConfig): LoadBalancing
    requires Split(cfg)
  {
    cfg.tailSampling.value.loadBalancing.value
  }

  function ReceiverMap(cfg: InstanceConfig): map<string, Receiver> {
    var user := map r | r in cfg.receivers :: UserReceiver(cfg.receivers[r]);
    var withNoop := if cfg.spanMetrics.Some? then user[NoopReceiverName := NoopReceiver] else user;
    if Split(cfg) then withNoop[LoadBalancingReceiverName := OtlpReceiver(LoadBalancingEndpoint(Balancing(cfg).port))]
    else withNoop
  }

  function ExporterMap(cfg: InstanceConfig, built: seq<(ComponentId, OtlpSettings)>): map<string, Exporter>
    requires Valid(cfg)
  {
    var otlp := OtlpExporters(built);
    var withMetrics := if cfg.spanMetrics.Some? then otlp[MetricsExporterName(Metrics(cfg)) := MetricsSink(Metrics(cfg))] else otlp;
    if Split(cfg) then withMetrics[LoadBalancingExporterName := LoadBalancer(LoadBalancingExporterOf(Balancing(cfg)))]
    else withMetrics
  }

  function TracePipelines(cfg: InstanceConfig, built: seq<(ComponentId, OtlpSettings)>): map<string, Pipeline> {
    var groups := OrderProcessors(ProcessorKinds(cfg), Split(cfg));
    if Split(cfg) then
      map[Render(Indexed(TracesKind, 0)) := Pipeline(cfg.receivers.Keys, Names(groups[0]), {LoadBalancingExporterName}),
          Render(Indexed(TracesKind, 1)) := Pipeline({LoadBalancingReceiverName}, Names(groups[1]), ExporterNames(built))]
    else
      map[TracesKind := Pipeline(cfg.receivers.Keys, Names(groups[0]), ExporterNames(built))]
  }

  function PipelineMap(cfg: InstanceConfig, built: seq<(ComponentId, OtlpSettings)>): map<string, Pipeline>
    requires Valid(cfg)
  {
    var traces := TracePipelines(cfg, built);
    if cfg.spanMetrics.Some? then
      traces[SpanMetricsPipelineName := Pipeline({NoopReceiverName}, [], {MetricsExporterName(Metrics(cfg))})]
    else traces
  }

  function Assemble(cfg: InstanceConfig, built: seq<(ComponentId, OtlpSettings)>): Graph
    requires Valid(cfg)
  {
    Graph(ReceiverMap(cfg), ExporterMap(cfg, built), ProcessorMap(cfg), PipelineMap(cfg, built))
  }

  /** Compiles one instance configuration into its pipeline graph. */
  function Compile(cfg: InstanceConfig, files: FileSystem): Result<Graph, ConfigError> {
    match Validate(cfg)
    case Some(e) => Err(e)
    case None =>
      ValidateSpec(cfg);
      match BuildExporters(cfg, files)
      case Err(e) => Err(e)
      case Ok(built) => Ok(Assemble(cfg, built))
  }

  /** The fixed-order check accepts exactly the valid configurations. */
  lemma ValidateSpec(cfg: InstanceConfig)
    ensures Validate(cfg).None? <==> Valid(cfg)
  {
  }

  /** Select keeps the configured kinds of `ks`, once each when `ks` lists
      each once. */
  lemma {:induction false} SelectSpec(cfg: InstanceConfig, ks: seq<Kind>)
    ensures forall k :: k in Select(cfg, ks) <==> k in ks && Configured(cfg, k)
    ensures Distinct(ks) ==> Distinct(Select(cfg, ks))
  {
    if ks != [] {
      SelectSpec(cfg, ks[1..]);
      assert ks == [ks[0]] + ks[1..];
      if Distinct(ks) {
        assert Distinct(ks[1..]) by {
          forall i, j | 0 <= i < j < |ks[1..]| ensures ks[1..][i] != ks[1..][j] {
            assert ks[1..][i] == ks[i + 1] && ks[1..][j] == ks[j + 1];
          }
        }
        assert ks[0] !in ks[1..];
      }
    }
  }

  /** The processor list holds every configured block, each once. */
  lemma ProcessorKindsSpec(cfg: InstanceConfig)
    ensures forall k :: k in ProcessorKinds(cfg) <==> Configured(cfg, k)
    ensures Distinct(ProcessorKinds(cfg))
  {
    var all := [Attributes, Batch, SpanMetrics, AutomaticLogging, TailSampling];
    SelectSpec(cfg, all);
    assert forall k :: k in all by {
      forall k ensures k in all {
        match k
        case Attributes => assert all[0] == k;
        case Batch => assert all[1] == k;
        case SpanMetrics => assert all[2] == k;
        case AutomaticLogging => assert all[3] == k;
        case TailSampling => assert all[4] == k;
      }
    }
  }

  /** A processor is defined exactly when its block is configured; the
      batch definition comes from push_config.batch when that is given. */
  lemma {:induction false} DefinitionsSpec(cfg: InstanceConfig, ks: seq<Kind>)
    requires Valid(cfg) && forall i :: 0 <= i < |ks| ==> Configured(cfg, ks[i])
    ensures forall k :: Name(k) in Definitions(cfg, ks) <==> k in ks
    ensures forall k :: k in ks ==> Definitions(cfg, ks)[Name(k)] == Definition(cfg, k)
    ensures forall n :: n in Definitions(cfg, ks) ==> exists k :: k in ks && n == Name(k)
  {
    if ks != [] {
      DefinitionsSpec(cfg, ks[1..]);
      assert ks == [ks[0]] + ks[1..];
      forall k ensures Name(k) == Name(ks[0]) <==> k == ks[0] {
        NameInjective(k, ks[0]);
      }
    }
  }

  /** A processor is defined exactly when its block is configured; the
      batch definition comes from push_config.batch when that is given. */
  lemma ProcessorMapSpec(cfg: InstanceConfig)
    requires Valid(cfg)
    ensures forall k :: Name(k) in ProcessorMap(cfg) <==> Configured(cfg, k)
    ensures forall k :: Configured(cfg, k) ==> ProcessorMap(cfg)[Name(k)] == Definition(cfg, k)
    ensures forall n :: n in ProcessorMap(cfg) ==> exists k :: Configured(cfg, k) && n == Name(k)
    ensures cfg.push.Some? && cfg.push.value.batch.Some? ==>
      Name(Batch) in ProcessorMap(cfg) && ProcessorMap(cfg)[Name(Batch)] == BatchSettings(cfg.push.value.batch.value)
    ensures cfg.batch.Some? ==>
      Name(Batch) in ProcessorMap(cfg) && ProcessorMap(cfg)[Name(Batch)] == BatchSettings(cfg.batch.value)
  {
    ProcessorKindsSpec(cfg);
    DefinitionsSpec(cfg, ProcessorKinds(cfg));
  }

  /** Compilation fails exactly when the configuration is invalid or an
      exporter cannot be built; validation comes first. */
  lemma CompileSpec(cfg: InstanceConfig, files: FileSystem)
    ensures Compile(cfg, files).Err? <==> !Valid(cfg) || BuildExporters(cfg, files).Err?
    ensures !Valid(cfg) ==> Compile(cfg, files) == Err(Validate(cfg).value)
    ensures Valid(cfg) && BuildExporters(cfg, files).Err? ==> Compile(cfg, files) == Err(BuildExporters(cfg, files).error)
    ensures Valid(cfg) && BuildExporters(cfg, files).Ok? ==>
      Compile(cfg, files) == Ok(Assemble(cfg, BuildExporters(cfg, files).value))
  {
    ValidateSpec(cfg);
  }

  /** The condition an error reports. */
  predicate Violates(cfg: InstanceConfig, files: FileSystem, e: ConfigError) {
    match e
    case MissingReceivers => cfg.receivers == map[]
    case AmbiguousExportTarget => cfg.push.Some? == (cfg.remoteWrite != [])
    case EmptyReceiverSettings => exists r :: r in cfg.receivers && cfg.receivers[r] == map[]
    case DuplicateBatchConfig => cfg.push.Some? && cfg.push.value.batch.Some? && cfg.batch.Some?
    case AmbiguousMetricsExporter =>
      cfg.spanMetrics.Some? &&
      (cfg.spanMetrics.value.promInstance == "") == (cfg.spanMetrics.value.handlerEndpoint == "")
    case SecretUnreadable(path) =>
      (cfg.push.Some? && Unreadable(cfg.push.value.target, files) &&
       cfg.push.value.target.basicAuth.value.password.path == path) ||
      (exists i :: (0 <= i < |cfg.remoteWrite| && Unreadable(cfg.remoteWrite[i], files) &&
                    cfg.remoteWrite[i].basicAuth.value.password.path == path))
  }

  /** Every error compilation reports names a condition that really holds. */
  lemma ErrorsAreTruthful(cfg: InstanceConfig, files: FileSystem)
    requires Compile(cfg, files).Err?
    ensures Violates(cfg, files, Compile(cfg, files).error)
  {
    CompileSpec(cfg, files);
    if Valid(cfg) {
      var built := BuildExporters(cfg, files);
      if cfg.push.Some? {
        BuildExporterFails(cfg.push.value.target, files);
      } else {
        RemoteWriteFirstError(cfg.remoteWrite, files);
        var i :| 0 <= i < |cfg.remoteWrite| && BuildExporter(cfg.remoteWrite[i], files) == Err(built.error);
        BuildExporterFails(cfg.remoteWrite[i], files);
      }
    } else if cfg.receivers != map[] && cfg.push.Some? != (|cfg.remoteWrite| > 0) && map[] in cfg.receivers.Values {
      var r :| r in cfg.receivers && cfg.receivers[r] == map[];
    }
  }

  /** Every condition an error kind names makes compilation fail. */
  lemma ViolationsFail(cfg: InstanceConfig, files: FileSystem, e: ConfigError)
    requires Violates(cfg, files, e)
    ensures Compile(cfg, files).Err?
  {
    CompileSpec(cfg, files);
    if Valid(cfg) && e.SecretUnreadable? {
      if cfg.push.Some? {
        BuildExporterFails(cfg.push.value.target, files);
      } else {
        var i :| 0 <= i < |cfg.remoteWrite| && Unreadable(cfg.remoteWrite[i], files);
        BuildExporterFails(cfg.remoteWrite[i], files);
        RemoteWriteOk(cfg.remoteWrite, files);
      }
    }
  }

  /** The fixed processor precedence, written out as a list, and its two
      halves around the load-balancing cut. */
  const FirstStage: seq<Kind> := [Attributes, SpanMetrics]
  const LastStage: seq<Kind> := [TailSampling, AutomaticLogging, Batch]
  const Precedence: seq<Kind> := FirstStage + LastStage

  lemma {:induction false} SelectConcat(cfg: InstanceConfig, a: seq<Kind>, b: seq<Kind>)
    ensures Select(cfg, a + b) == Select(cfg, a) + Select(cfg, b)
  {
    if a == [] {
      assert a + b == b;
    } else {
      assert (a + b)[1..] == a[1..] + b;
      SelectConcat(cfg, a[1..], b);
    }
  }

  lemma {:induction false} SelectOrdered(cfg: InstanceConfig, ks: seq<Kind>)
    requires Ordered(ks)
    ensures Ordered(Select(cfg, ks))
  {
    if ks != [] {
      var rest := Select(cfg, ks[1..]);
      assert Ordered(ks[1..]) by {
        forall i | 0 < i < |ks[1..]| ensures Rank(ks[1..][i - 1]) <= Rank(ks[1..][i]) {
          assert ks[1..][i - 1] == ks[i] && ks[1..][i] == ks[i + 1];
        }
      }
      SelectOrdered(cfg, ks[1..]);
      if Configured(cfg, ks[0]) && rest != [] {
        SelectSpec(cfg, ks[1..]);
        assert rest[0] in ks[1..];
        var j :| 0 <= j < |ks[1..]| && ks[1..][j] == rest[0];
        OrderedRanks(ks, 0, j + 1);
        var r := Select(cfg, ks);
        assert r == [ks[0]] + rest;
        forall i | 0 < i < |r| ensures Rank(r[i - 1]) <= Rank(r[i]) {
          if i > 1 {
            assert r[i - 1] == rest[i - 2] && r[i] == rest[i - 1];
          }
        }
      }
    }
  }

  /** Two lists without repeats holding the same kinds are permutations of
      each other. */
  lemma SameMembersPermutation(x: seq<Kind>, y: seq<Kind>)
    requires Distinct(x) && Distinct(y)
    requires forall k :: k in x <==> k in y
    ensures multiset(x) == multiset(y)
  {
    forall k ensures multiset(x)[k] == multiset(y)[k] {
      assert k in x <==> k in multiset(x);
      assert k in y <==> k in multiset(y);
      DistinctCount(x, k);
      DistinctCount(y, k);
    }
  }

  /** The length of the longest prefix of first-stage kinds. */
  function Lead(s: seq<Kind>): nat {
    if s == [] || SecondStage(s[0]) then 0 else 1 + Lead(s[1..])
  }

  lemma {:induction false} LeadOfCut(a: seq<Kind>, b: seq<Kind>)
    requires forall i :: 0 <= i < |a| ==> !SecondStage(a[i])
    requires forall i :: 0 <= i < |b| ==> SecondStage(b[i])
    ensures Lead(a + b) == |a|
  {
    if a == [] {
      assert a + b == b;
    } else {
      assert (a + b)[1..] == a[1..] + b;
      assert !SecondStage(a[0]);
      LeadOfCut(a[1..], b);
    }
  }

  /** A list cut where the second stage starts is cut in one place only. */
  lemma CutUnique(a: seq<Kind>, b: seq<Kind>, c: seq<Kind>, d: seq<Kind>)
    requires a + b == c + d
    requires forall i :: 0 <= i < |a| ==> !SecondStage(a[i])
    requires forall i :: 0 <= i < |c| ==> !SecondStage(c[i])
    requires forall i :: 0 <= i < |b| ==> SecondStage(b[i])
    requires forall i :: 0 <= i < |d| ==> SecondStage(d[i])
    ensures a == c && b == d
  {
    LeadOfCut(a, b);
    LeadOfCut(c, d);
    assert a == (a + b)[..|a|] && c == (c + d)[..|c|];
    assert b == (a + b)[|a|..] && d == (c + d)[|c|..];
  }

  lemma PrecedenceSpec()
    ensures forall k :: k in Precedence
    ensures Distinct(Precedence) && Ordered(Precedence)
    ensures forall k :: k in FirstStage <==> !SecondStage(k)
    ensures forall k :: k in LastStage <==> SecondStage(k)
  {
    forall k ensures k in Precedence && (k in FirstStage <==> !SecondStage(k)) && (k in LastStage <==> SecondStage(k)) {
      match k
      case Attributes => assert Precedence[0] == k && FirstStage[0] == k;
      case SpanMetrics => assert Precedence[1] == k && FirstStage[1] == k;
      case TailSampling => assert Precedence[2] == k && LastStage[0] == k;
      case AutomaticLogging => assert Precedence[3] == k && LastStage[1] == k;
      case Batch => assert Precedence[4] == k && LastStage[2] == k;
    }
  }

  /** Without a split, the trace pipeline's processors are the configured
      ones in the fixed precedence: sorting the configured kinds gives the
      precedence list with the missing kinds left out. */
  lemma UnsplitOrder(cfg: InstanceConfig)
    ensures OrderProcessors(ProcessorKinds(cfg), false)[0] == Select(cfg, Precedence)
  {
    var kinds := ProcessorKinds(cfg);
    var w := OrderProcessors(kinds, false)[0];
    var f := Select(cfg, Precedence);
    ProcessorKindsSpec(cfg);
    PrecedenceSpec();
    SelectSpec(cfg, Precedence);
    SelectOrdered(cfg, Precedence);
    SameMembersPermutation(kinds, f);
    OrderedUnique(w, f);
  }

  /** With a split, the first group is the configured part of
      {attributes, spanmetrics} and the second the configured part of
      {tail_sampling, automatic_logging, batch}, each in precedence order. */
  lemma SplitOrder(cfg: InstanceConfig)
    ensures var groups := OrderProcessors(ProcessorKinds(cfg), true);
      groups[0] == Select(cfg, FirstStage) && groups[1] == Select(cfg, LastStage)
  {
    var kinds := ProcessorKinds(cfg);
    var groups := OrderProcessors(kinds, true);
    ProcessorKindsSpec(cfg);
    SplitGroups(kinds);
    UnsplitOrder(cfg);
    SelectConcat(cfg, FirstStage, LastStage);
    assert groups[0] + groups[1] == Select(cfg, FirstStage) + Select(cfg, LastStage);
    StageSelect(cfg);
    CutUnique(groups[0], groups[1], Select(cfg, FirstStage), Select(cfg, LastStage));
  }

  lemma StageSelect(cfg: InstanceConfig)
    ensures forall i :: 0 <= i < |Select(cfg, FirstStage)| ==> !SecondStage(Select(cfg, FirstStage)[i])
    ensures forall i :: 0 <= i < |Select(cfg, LastStage)| ==> SecondStage(Select(cfg, LastStage)[i])
  {
    var a, b := Select(cfg, FirstStage), Select(cfg, LastStage);
    SelectSpec(cfg, FirstStage);
    SelectSpec(cfg, LastStage);
    forall i | 0 <= i < |a| ensures !SecondStage(a[i]) {
      assert a[i] in a;
    }
    forall i | 0 <= i < |b| ensures SecondStage(b[i]) {
      assert b[i] in b;
    }
  }

  /** Without a split there is one trace pipeline, `traces`: the user's
      receivers, the configured processors in precedence order, and the
      built exporters. */
  lemma UnsplitPipelines(cfg: InstanceConfig, built: seq<(ComponentId, OtlpSettings)>)
    requires Valid(cfg) && !Split(cfg)
    ensures var p := PipelineMap(cfg, built);
      TracesKind in p &&
      p[TracesKind] == Pipeline(cfg.receivers.Keys, Names(Select(cfg, Precedence)), ExporterNames(built))
  {
    UnsplitOrder(cfg);
  }

  /** With a split, `traces/0` runs the first stage on the user's receivers
      and hands spans to the load balancer; `traces/1` runs the second stage
      on what the `otlp/lb` receiver gets and sends it to the built exporters. */
  lemma SplitPipelines(cfg: InstanceConfig, built: seq<(ComponentId, OtlpSettings)>)
    requires Valid(cfg) && Split(cfg)
    ensures var p := PipelineMap(cfg, built);
      "traces/0" in p && "traces/1" in p &&
      p["traces/0"] == Pipeline(cfg.receivers.Keys, Names(Select(cfg, FirstStage)), {LoadBalancingExporterName}) &&
      p["traces/1"] == Pipeline({LoadBalancingReceiverName}, Names(Select(cfg, LastStage)), ExporterNames(built))
  {
    SplitOrder(cfg);
    TraceNames();
  }

  lemma TraceNames()
    ensures Render(Indexed(TracesKind, 0)) == "traces/0"
    ensures Render(Indexed(TracesKind, 1)) == "traces/1"
  {
    assert Decimal(0) == "0" && Decimal(1) == "1";
  }

  lemma TraceKeys(cfg: InstanceConfig, built: seq<(ComponentId, OtlpSettings)>)
    ensures TracePipelines(cfg, built).Keys == (if Split(cfg) then {"traces/0", "traces/1"} else {TracesKind})
  {
    TraceNames();
  }

  /** The pipelines present: one or two trace pipelines, plus the
      span-metrics pipeline when span metrics are configured. */
  lemma PipelineKeys(cfg: InstanceConfig, built: seq<(ComponentId, OtlpSettings)>)
    requires Valid(cfg)
    ensures PipelineMap(cfg, built).Keys ==
      (if Split(cfg) then {"traces/0", "traces/1"} else {TracesKind}) +
      (if cfg.spanMetrics.Some? then {SpanMetricsPipelineName} else {})
  {
    TraceKeys(cfg, built);
  }

  /** The number of pipelines: two trace pipelines with a split, one
      without, and one more for span metrics. */
  lemma PipelineCount(cfg: InstanceConfig, built: seq<(ComponentId, OtlpSettings)>)
    requires Valid(cfg)
    ensures |PipelineMap(cfg, built)| == (if Split(cfg) then 2 else 1) + (if cfg.spanMetrics.Some? then 1 else 0)
  {
    PipelineKeys(cfg, built);
    var traces: set<string> := if Split(cfg) then {"traces/0", "traces/1"} else {TracesKind};
    assert |traces| == if Split(cfg) then 2 else 1;
    assert SpanMetricsPipelineName !in traces;
    if cfg.spanMetrics.Some? {
      assert |traces + {SpanMetricsPipelineName}| == |traces| + 1;
    } else {
      assert traces + {} == traces;
    }
    assert |PipelineMap(cfg, built).Keys| == |PipelineMap(cfg, built)|;
  }

  /** Span metrics: a `noop` receiver feeds the `metrics/spanmetrics`
      pipeline, which has no processors and writes to the side exporter the
      spanmetrics processor names. */
  lemma SpanMetricsWiring(cfg: InstanceConfig, built: seq<(ComponentId, OtlpSettings)>)
    requires Valid(cfg) && cfg.spanMetrics.Some?
    ensures var g := Assemble(cfg, built);
      var sink := Metrics(cfg);
      SpanMetricsPipelineName in g.pipelines &&
      g.pipelines[SpanMetricsPipelineName] == Pipeline({NoopReceiverName}, [], {MetricsExporterName(sink)}) &&
      NoopReceiverName in g.receivers && g.receivers[NoopReceiverName] == NoopReceiver &&
      MetricsExporterName(sink) in g.exporters && g.exporters[MetricsExporterName(sink)] == MetricsSink(sink) &&
      Name(SpanMetrics) in g.processors &&
      g.processors[Name(SpanMetrics)] == SpanMetricsSettings(MetricsExporterName(sink), cfg.spanMetrics.value.settings)
  {
    ProcessorMapSpec(cfg);
    assert Configured(cfg, SpanMetrics);
  }

  /** Load balancing: the `otlp/lb` receiver listens on the resolver's port
      and the `loadbalancing` exporter carries the user's exporter and
      resolver blocks. */
  lemma LoadBalancingWiring(cfg: InstanceConfig, built: seq<(ComponentId, OtlpSettings)>)
    requires Valid(cfg) && Split(cfg)
    ensures var g := Assemble(cfg, built);
      LoadBalancingReceiverName in g.receivers &&
      g.receivers[LoadBalancingReceiverName] == OtlpReceiver(LoadBalancingEndpoint(Balancing(cfg).port)) &&
      LoadBalancingExporterName in g.exporters &&
      g.exporters[LoadBalancingExporterName] == LoadBalancer(LoadBalancingExporterOf(Balancing(cfg)))
  {
  }

  /** The receivers: the user's, each with its settings unless a synthesized
      receiver takes its name, plus `noop` and `otlp/lb` when needed. */
  lemma ReceiverMapSpec(cfg: InstanceConfig)
    ensures ReceiverMap(cfg).Keys == cfg.receivers.Keys +
      (if cfg.spanMetrics.Some? then {NoopReceiverName} else {}) +
      (if Split(cfg) then {LoadBalancingReceiverName} else {})
    ensures forall r :: (r in cfg.receivers && !(cfg.spanMetrics.Some? && r == NoopReceiverName) &&
                         !(Split(cfg) && r == LoadBalancingReceiverName)) ==>
      ReceiverMap(cfg)[r] == UserReceiver(cfg.receivers[r])
  {
  }

  /** No two built exporters share a rendered identifier. */
  predicate DistinctNames(built: seq<(ComponentId, OtlpSettings)>) {
    forall i, j :: 0 <= i < j < |built| ==> Render(built[i].0) != Render(built[j].0)
  }

  /** Each built exporter is defined under its rendered identifier. */
  lemma {:induction false} OtlpExportersSpec(built: seq<(ComponentId, OtlpSettings)>)
    ensures OtlpExporters(built).Keys == ExporterNames(built)
    ensures DistinctNames(built) ==>
      forall i :: 0 <= i < |built| ==> OtlpExporters(built)[Render(built[i].0)] == OtlpExporter(built[i].1)
  {
    if built != [] {
      var front, last := built[..|built| - 1], built[|built| - 1];
      OtlpExportersSpec(front);
      assert built == front + [last];
      assert ExporterNames(built) == ExporterNames(front) + {Render(last.0)};
      if DistinctNames(built) {
        assert DistinctNames(front) by {
          forall i, j | 0 <= i < j < |front| ensures Render(front[i].0) != Render(front[j].0) {
            assert front[i] == built[i] && front[j] == built[j];
          }
        }
        forall i | 0 <= i < |built| ensures OtlpExporters(built)[Render(built[i].0)] == OtlpExporter(built[i].1) {
          if i < |built| - 1 {
            assert built[i] == front[i];
          }
        }
      }
    }
  }

  /** The exporters built for a valid configuration: the push target alone
      under `otlp` or `otlphttp`, or remote-write entry `i` under `otlp/i` or
      `otlphttp/i`; no identifier is used twice. */
  lemma BuiltExporters(cfg: InstanceConfig, files: FileSystem)
    requires Valid(cfg) && BuildExporters(cfg, files).Ok?
    ensures cfg.push.Some? ==>
      var built := BuildExporters(cfg, files).value;
      var t := cfg.push.value.target;
      BuildExporter(t, files).Ok? && built == [(Unindexed(ExporterType(t.protocol)), BuildExporter(t, files).value)]
    ensures var built := BuildExporters(cfg, files).value;
      cfg.push.None? ==>
        |built| == |cfg.remoteWrite| &&
        forall i :: 0 <= i < |built| ==>
          built[i].0 == Indexed(ExporterType(cfg.remoteWrite[i].protocol), i) &&
          Ok(built[i].1) == BuildExporter(cfg.remoteWrite[i], files)
    ensures DistinctNames(BuildExporters(cfg, files).value)
  {
    if cfg.push.None? {
      var built := BuildExporters(cfg, files).value;
      RemoteWriteLength(cfg.remoteWrite, files);
      forall i | 0 <= i < |built|
        ensures built[i].0 == Indexed(ExporterType(cfg.remoteWrite[i].protocol), i)
        ensures Ok(built[i].1) == BuildExporter(cfg.remoteWrite[i], files)
      {
        RemoteWriteEntry(cfg.remoteWrite, files, i);
      }
      RemoteWriteIdsDistinct(cfg.remoteWrite, files);
    }
  }

  /** Built exporter identifiers start with the `otlp` prefix, so they never
      clash with the side or load-balancing exporters. */
  lemma BuiltNamesDisjoint(cfg: InstanceConfig, files: FileSystem)
    requires Valid(cfg) && BuildExporters(cfg, files).Ok?
    ensures forall n :: n in ExporterNames(BuildExporters(cfg, files).value) ==>
      n != "remote_write" && n != "prometheus" && n != LoadBalancingExporterName
  {
    var built := BuildExporters(cfg, files).value;
    forall i | 0 <= i < |built| ensures |Render(built[i].0)| > 0 && Render(built[i].0)[0] == 'o' {
      BuiltNameStart(cfg, files, i);
    }
    NamesStart(built);
  }

  /** Every built exporter identifier starts with `o` (`otlp...`). */
  lemma BuiltNameStart(cfg: InstanceConfig, files: FileSystem, i: nat)
    requires Valid(cfg) && BuildExporters(cfg, files).Ok? && i < |BuildExporters(cfg, files).value|
    ensures var n := Render(BuildExporters(cfg, files).value[i].0); |n| > 0 && n[0] == 'o'
  {
    var built := BuildExporters(cfg, files).value;
    BuiltExporters(cfg, files);
    if cfg.push.Some? {
      assert ExporterType(cfg.push.value.target.protocol)[0] == 'o';
    } else {
      var kind := ExporterType(cfg.remoteWrite[i].protocol);
      assert kind[0] == 'o';
      assert Render(built[i].0) == kind + "/" + Decimal(i);
    }
  }

  lemma NamesStart(built: seq<(ComponentId, OtlpSettings)>)
    requires forall i :: 0 <= i < |built| ==> |Render(built[i].0)| > 0 && Render(built[i].0)[0] == 'o'
    ensures forall n :: n in ExporterNames(built) ==> |n| > 0 && n[0] == 'o'
  {
    forall n | n in ExporterNames(built) ensures |n| > 0 && n[0] == 'o' {
      var e :| e in built && n == Render(e.0);
      var i :| 0 <= i < |built| && built[i] == e;
    }
  }

  /** The exporters: the built ones under their identifiers with their
      settings, the span-metrics side exporter, and the load balancer. */
  lemma ExporterMapSpec(cfg: InstanceConfig, built: seq<(ComponentId, OtlpSettings)>)
    requires Valid(cfg) && DistinctNames(built)
    requires forall n :: n in ExporterNames(built) ==>
      n != "remote_write" && n != "prometheus" && n != LoadBalancingExporterName
    ensures ExporterMap(cfg, built).Keys == ExporterNames(built) +
      (if cfg.spanMetrics.Some? then {MetricsExporterName(Metrics(cfg))} else {}) +
      (if Split(cfg) then {LoadBalancingExporterName} else {})
    ensures forall i :: 0 <= i < |built| ==> ExporterMap(cfg, built)[Render(built[i].0)] == OtlpExporter(built[i].1)
  {
    OtlpExportersSpec(built);
    forall i | 0 <= i < |built| ensures ExporterMap(cfg, built)[Render(built[i].0)] == OtlpExporter(built[i].1) {
      assert built[i] in built;
      assert Render(built[i].0) in ExporterNames(built);
    }
  }

  /** Every component pipeline `pl` names is defined in the graph. */
  predicate Defined(g: Graph, pl: Pipeline) {
    pl.receivers <= g.receivers.Keys &&
    pl.exporters <= g.exporters.Keys &&
    forall i :: 0 <= i < |pl.processors| ==> pl.processors[i] in g.processors
  }

  /** No pipeline names a component the graph does not define. */
  predicate WellFormed(g: Graph) {
    forall p :: p in g.pipelines ==> Defined(g, g.pipelines[p])
  }

  /** The processors of any selection of configured kinds are defined. */
  lemma SelectedDefined(cfg: InstanceConfig, ks: seq<Kind>)
    requires Valid(cfg)
    ensures forall i :: 0 <= i < |Names(Select(cfg, ks))| ==> Names(Select(cfg, ks))[i] in ProcessorMap(cfg)
  {
    var sel := Select(cfg, ks);
    SelectSpec(cfg, ks);
    ProcessorMapSpec(cfg);
    forall i | 0 <= i < |Names(sel)| ensures Names(sel)[i] in ProcessorMap(cfg) {
      assert sel[i] in sel;
    }
  }

  lemma UnsplitDefined(cfg: InstanceConfig, built: seq<(ComponentId, OtlpSettings)>)
    requires Valid(cfg) && DistinctNames(built)
    requires forall n :: n in ExporterNames(built) ==>
      n != "remote_write" && n != "prometheus" && n != LoadBalancingExporterName
    ensures Defined(Assemble(cfg, built), Pipeline(cfg.receivers.Keys, Names(Select(cfg, Precedence)), ExporterNames(built)))
  {
    ReceiverMapSpec(cfg);
    ExporterMapSpec(cfg, built);
    SelectedDefined(cfg, Precedence);
  }

  lemma FirstHopDefined(cfg: InstanceConfig, built: seq<(ComponentId, OtlpSettings)>)
    requires Valid(cfg) && Split(cfg)
    ensures Defined(Assemble(cfg, built),
      Pipeline(cfg.receivers.Keys, Names(Select(cfg, FirstStage)), {LoadBalancingExporterName}))
  {
    ReceiverMapSpec(cfg);
    LoadBalancingWiring(cfg, built);
    SelectedDefined(cfg, FirstStage);
  }

  lemma SecondHopDefined(cfg: InstanceConfig, built: seq<(ComponentId, OtlpSettings)>)
    requires Valid(cfg) && Split(cfg) && DistinctNames(built)
    requires forall n :: n in ExporterNames(built) ==>
      n != "remote_write" && n != "prometheus" && n != LoadBalancingExporterName
    ensures Defined(Assemble(cfg, built),
      Pipeline({LoadBalancingReceiverName}, Names(Select(cfg, LastStage)), ExporterNames(built)))
  {
    LoadBalancingWiring(cfg, built);
    ExporterMapSpec(cfg, built);
    SelectedDefined(cfg, LastStage);
  }

  /** The two trace pipelines of a split, as one map. */
  lemma SplitTraceMap(cfg: InstanceConfig, built: seq<(ComponentId, OtlpSettings)>)
    requires Split(cfg)
    ensures TracePipelines(cfg, built) == map[
      Render(Indexed(TracesKind, 0)) := Pipeline(cfg.receivers.Keys, Names(Select(cfg, FirstStage)), {LoadBalancingExporterName}),
      Render(Indexed(TracesKind, 1)) := Pipeline({LoadBalancingReceiverName}, Names(Select(cfg, LastStage)), ExporterNames(built))]
  {
    SplitOrder(cfg);
  }

  lemma SplitTracesDefined(cfg: InstanceConfig, built: seq<(ComponentId, OtlpSettings)>)
    requires Valid(cfg) && Split(cfg) && DistinctNames(built)
    requires forall n :: n in ExporterNames(built) ==>
      n != "remote_write" && n != "prometheus" && n != LoadBalancingExporterName
    ensures forall p :: p in TracePipelines(cfg, built) ==> Defined(Assemble(cfg, built), TracePipelines(cfg, built)[p])
  {
    SplitTraceMap(cfg, built);
    FirstHopDefined(cfg, built);
    SecondHopDefined(cfg, built);
    EntriesDefined(Assemble(cfg, built), TracePipelines(cfg, built),
      Render(Indexed(TracesKind, 0)), Pipeline(cfg.receivers.Keys, Names(Select(cfg, FirstStage)), {LoadBalancingExporterName}),
      Render(Indexed(TracesKind, 1)), Pipeline({LoadBalancingReceiverName}, Names(Select(cfg, LastStage)), ExporterNames(built)));
  }

  lemma EntriesDefined(g: Graph, pipelines: map<string, Pipeline>, k0: string, first: Pipeline, k1: string, second: Pipeline)
    requires pipelines == map[k0 := first, k1 := second]
    requires Defined(g, first) && Defined(g, second)
    ensures forall p :: p in pipelines ==> Defined(g, pipelines[p])
  {
  }

  lemma UnsplitTracesDefined(cfg: InstanceConfig, built: seq<(ComponentId, OtlpSettings)>)
    requires Valid(cfg) && !Split(cfg) && DistinctNames(built)
    requires forall n :: n in ExporterNames(built) ==>
      n != "remote_write" && n != "prometheus" && n != LoadBalancingExporterName
    ensures forall p :: p in TracePipelines(cfg, built) ==> Defined(Assemble(cfg, built), TracePipelines(cfg, built)[p])
  {
    assert TracePipelines(cfg, built) ==
        map[TracesKind := Pipeline(cfg.receivers.Keys, Names(Select(cfg, Precedence)), ExporterNames(built))] by {
      UnsplitOrder(cfg);
    }
    UnsplitDefined(cfg, built);
  }

  /** An assembled graph names no component it does not define. */
  lemma AssembledWellFormed(cfg: InstanceConfig, built: seq<(ComponentId, OtlpSettings)>)
    requires Valid(cfg) && DistinctNames(built)
    requires forall n :: n in ExporterNames(built) ==>
      n != "remote_write" && n != "prometheus" && n != LoadBalancingExporterName
    ensures WellFormed(Assemble(cfg, built))
  {
    if Split(cfg) {
      SplitTracesDefined(cfg, built);
    } else {
      UnsplitTracesDefined(cfg, built);
    }
    if cfg.spanMetrics.Some? {
      SpanMetricsWiring(cfg, built);
    }
  }

  /** A compiled graph names no component it does not define. */
  lemma CompiledWellFormed(cfg: InstanceConfig, files: FileSystem)
    requires Compile(cfg, files).Ok?
    ensures WellFormed(Compile(cfg, files).value)
  {
    CompileSpec(cfg, files);
    BuiltExporters(cfg, files);
    BuiltNamesDisjoint(cfg, files);
    AssembledWellFormed(cfg, BuildExporters(cfg, files).value);
  }

  /** An empty configuration, or one without receivers, is rejected first. */
  lemma NoReceiversRejected(cfg: InstanceConfig, files: FileSystem)
    requires cfg.receivers == map[]
    ensures Compile(cfg, files) == Err(MissingReceivers)
  {
  }

  /** Receivers alone, with no export target, are rejected; so are both
      export targets at once. */
  lemma ExportTargetRejected(cfg: InstanceConfig, files: FileSystem)
    requires cfg.receivers != map[]
    requires cfg.push.None? == (cfg.remoteWrite == [])
    ensures Compile(cfg, files) == Err(AmbiguousExportTarget)
  {
  }

  /** A receiver named without settings is rejected. */
  lemma EmptyReceiverRejected(cfg: InstanceConfig, files: FileSystem, r: string)
    requires r in cfg.receivers && cfg.receivers[r] == map[]
    requires cfg.push.Some? != (cfg.remoteWrite != [])
    ensures Compile(cfg, files) == Err(EmptyReceiverSettings)
  {
    assert cfg.receivers[r] in cfg.receivers.Values;
  }

  /** The processor precedence with every block configured. */
  lemma AllConfiguredSelect(cfg: InstanceConfig, ks: seq<Kind>)
    requires forall k :: Configured(cfg, k)
    ensures Select(cfg, ks) == ks
  {
  }

  lemma PrecedenceNames()
    ensures Names(FirstStage) == ["attributes", "spanmetrics"]
    ensures Names(LastStage) == ["tail_sampling", "automatic_logging", "batch"]
    ensures Names(Precedence) == Names(FirstStage) + Names(LastStage)
  {
  }

  /** Every processor block, no load balancing: one trace pipeline with all
      five processors in precedence order, plus the span-metrics pipeline
      without processors. */
  lemma AllProcessorsUnsplit(cfg: InstanceConfig, built: seq<(ComponentId, OtlpSettings)>)
    requires Valid(cfg) && !Split(cfg) && forall k :: Configured(cfg, k)
    ensures var p := PipelineMap(cfg, built);
      |p| == 2 && TracesKind in p && SpanMetricsPipelineName in p &&
      p[TracesKind].processors == ["attributes", "spanmetrics"] + ["tail_sampling", "automatic_logging", "batch"] &&
      p[SpanMetricsPipelineName].processors == []
  {
    PipelineCount(cfg, built);
    UnsplitPipelines(cfg, built);
    AllConfiguredSelect(cfg, Precedence);
    PrecedenceNames();
  }

  /** Every processor block, with load balancing: the first hop gets
      attributes and spanmetrics, the second the other three. */
  lemma AllProcessorsSplit(cfg: InstanceConfig, built: seq<(ComponentId, OtlpSettings)>)
    requires Valid(cfg) && Split(cfg) && forall k :: Configured(cfg, k)
    ensures var p := PipelineMap(cfg, built);
      |p| == 3 && "traces/0" in p && "traces/1" in p && SpanMetricsPipelineName in p &&
      p["traces/0"].processors == ["attributes", "spanmetrics"] &&
      p["traces/1"].processors == ["tail_sampling", "automatic_logging", "batch"] &&
      p[SpanMetricsPipelineName].processors == []
  {
    PipelineCount(cfg, built);
    SplitPipelines(cfg, built);
    AllConfiguredSelect(cfg, FirstStage);
    AllConfiguredSelect(cfg, LastStage);
    PrecedenceNames();
  }

  lemma {:induction false} SelectNone(cfg: InstanceConfig, ks: seq<Kind>)
    requires forall k :: !Configured(cfg, k)
    ensures Select(cfg, ks) == []
  {
    if ks != [] {
      SelectNone(cfg, ks[1..]);
    }
  }

  /** No processor block: the single trace pipeline has no processors. */
  lemma NoProcessors(cfg: InstanceConfig, built: seq<(ComponentId, OtlpSettings)>)
    requires Valid(cfg) && forall k :: !Configured(cfg, k)
    ensures var p := PipelineMap(cfg, built);
      |p| == 1 && TracesKind in p && p[TracesKind].processors == []
  {
    assert !Configured(cfg, TailSampling) && !Configured(cfg, SpanMetrics);
    PipelineCount(cfg, built);
    UnsplitPipelines(cfg, built);
    SelectNone(cfg, Precedence);
  }

  /** No processor block: no processor is defined. */
  lemma NoProcessorDefinitions(cfg: InstanceConfig)
    requires Valid(cfg) && forall k :: !Configured(cfg, k)
    ensures ProcessorMap(cfg) == map[]
  {
    SelectNone(cfg, [Attributes, Batch, SpanMetrics, AutomaticLogging, TailSampling]);
  }

  lemma PlainPushPipelines(cfg: InstanceConfig, built: seq<(ComponentId, OtlpSettings)>)
    requires Valid(cfg) && forall k :: !Configured(cfg, k)
    requires ExporterNames(built) == {"otlp"}
    ensures PipelineMap(cfg, built) == map[TracesKind := Pipeline(cfg.receivers.Keys, [], {"otlp"})]
  {
    PipelineKeys(cfg, built);
    NoProcessors(cfg, built);
  }

  lemma PlainPushExporters(cfg: InstanceConfig, built: seq<(ComponentId, OtlpSettings)>, settings: OtlpSettings)
    requires Valid(cfg) && forall k :: !Configured(cfg, k)
    requires built == [(Unindexed("otlp"), settings)]
    ensures ExporterNames(built) == {"otlp"}
    ensures ExporterMap(cfg, built) == map["otlp" := OtlpExporter(settings)]
  {
    assert built[0] in built;
    assert built[..0] == [];
    assert Render(built[0].0) == "otlp";
    assert OtlpExporters(built) == map["otlp" := OtlpExporter(settings)];
    assert !Configured(cfg, SpanMetrics) && !Configured(cfg, TailSampling);
  }

  lemma PlainPushReceivers(cfg: InstanceConfig)
    requires Valid(cfg) && forall k :: !Configured(cfg, k)
    ensures ReceiverMap(cfg) == map r | r in cfg.receivers :: UserReceiver(cfg.receivers[r])
  {
    assert !Configured(cfg, SpanMetrics) && !Configured(cfg, TailSampling);
  }

  /** The basic push configuration: a push target and no processor block
      give the user's receivers, one `otlp` exporter with the target's
      settings, no processors, and one `traces` pipeline joining them. */
  lemma PlainPushAssembled(cfg: InstanceConfig, built: seq<(ComponentId, OtlpSettings)>, settings: OtlpSettings)
    requires Valid(cfg) && forall k :: !Configured(cfg, k)
    requires built == [(Unindexed("otlp"), settings)]
    ensures Assemble(cfg, built) == Graph(
      map r | r in cfg.receivers :: UserReceiver(cfg.receivers[r]),
      map["otlp" := OtlpExporter(settings)],
      map[],
      map[TracesKind := Pipeline(cfg.receivers.Keys, [], {"otlp"})])
  {
    PlainPushReceivers(cfg);
    PlainPushExporters(cfg, built, settings);
    NoProcessorDefinitions(cfg);
    PlainPushPipelines(cfg, built);
  }

  /** Compiling the basic push configuration over gRPC, when its secrets
      resolve, yields that graph with the target's built settings. */
  lemma PlainPushGraph(cfg: InstanceConfig, files: FileSystem)
    requires Valid(cfg) && cfg.push.Some? && cfg.push.value.target.protocol == Grpc
    requires forall k :: !Configured(cfg, k)
    requires BuildExporter(cfg.push.value.target, files).Ok?
    ensures Compile(cfg, files) == Ok(Graph(
      map r | r in cfg.receivers :: UserReceiver(cfg.receivers[r]),
      map["otlp" := OtlpExporter(BuildExporter(cfg.push.value.target, files).value)],
      map[],
      map[TracesKind := Pipeline(cfg.receivers.Keys, [], {"otlp"})]))
  {
    var settings := BuildExporter(cfg.push.value.target, files).value;
    assert BuildExporters(cfg, files) == Ok([(Unindexed("otlp"), settings)]);
    CompileSpec(cfg, files);
    PlainPushAssembled(cfg, [(Unindexed("otlp"), settings)], settings);
  }
}
