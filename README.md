# Tempo tracing-config compiler, modelled in Dafny

The agent's tempo subsystem turns one tracing `InstanceConfig` into an
OpenTelemetry collector configuration, a graph of receivers, exporters,
processors and pipelines joining them. The repository's test file
`pkg/tempo/config_test.go` checks this behaviour against a table of
input/output pairs. This project models what that table asserts, plus the
one piece of real code in the file: the `sortPipelines` test helper.

The model has nine modules:

- `ComponentIds` (`component_ids.dfy`): component identifiers `kind` or
  `kind/name`, and their decimal position suffixes.
- `Base64` (`base64.dfy`): the base64 encoding of RFC 4648, section 4, used
  by the basic-auth header, and its decoder.
- `ConfigErrors` (`errors.dfy`): the error values a compilation can end
  with.
- `Wrappers` (`wrappers.dfy`): the `Option` and `Result` types.
- `Exporters` (`exporters.dfy`): one target (a `push_config` block or one
  `remote_write` entry) becomes one `otlp` / `otlphttp` exporter. This covers
  basic-auth headers, password files, gzip compression by default, and the
  60s retry default.
- `ProcessorOrder` (`processor_order.dfy`): `orderProcessors`, a stable sort
  by the fixed rank attributes < spanmetrics < tail_sampling <
  automatic_logging < batch. With split pipelines, the sorted list is cut in
  front of tail_sampling.
- `ProcessorSet` (`processor_set.dfy`): the per-processor definitions. These
  are the tail-sampling policy names `kind/i` with `decision_wait` 5s, the
  span-metrics side exporter, the nesting of automatic_logging, and the
  load-balancing exporter and receiver.
- `Assembler` (`assembler.dfy`): the whole compilation. Validation yields an
  error or a graph whose trace pipelines are the one `traces` pipeline, or
  `traces/0` and `traces/1` when tail sampling asks for load balancing. Span
  metrics add `metrics/spanmetrics`.
- `SortPipelines` (`sort_pipelines.dfy`): the test helper, as an imperative
  in-place sort over arrays held by `Config` and `PipelineConfig` objects.

The implementation file of the compiler is not part of this model. The
operations here are specified by the assertions of the test file. Where the
test file is silent, the model makes a choice and lists it under
"## Left out".

In the table below, a row whose third column starts with "defined here"
names the function that models an operation; the lemmas named in that row
state its properties.

## Model

| member | source | states |
|---|---|---|
| ComponentIds.Render | pkg/tempo/config_test.go:655-665 | defined here: an identifier as the collector writes it, `kind` or `kind/name`; specified by `Unindexed`, `Indexed`, `ParseRender` and `RenderInjective` |
| ComponentIds.Decimal | pkg/tempo/config_test.go:328-394 | the index suffix of `otlp/0`, `otlp/1`: at least one digit, digits only, no leading zero |
| ComponentIds.DecimalRoundTrip | pkg/tempo/config_test.go:373-394 | the decimal suffix reads back as the index it was made from |
| ComponentIds.DecimalInjective | pkg/tempo/config_test.go:373-394 | different indexes give different suffixes, and conversely |
| ComponentIds.Unindexed | pkg/tempo/config_test.go:690-698 | an identifier without a name renders as its bare kind (`otlp`) |
| ComponentIds.Indexed | pkg/tempo/config_test.go:760-773 | an indexed identifier renders as `kind/index` (`otlphttp/0`) |
| ComponentIds.FirstSlash | pkg/tempo/config_test.go:622 | the split point of an identifier string is its first `/`, or its length when it has none |
| ComponentIds.ParseRender | pkg/tempo/config_test.go:658-665 | parsing a rendered identifier whose kind has no `/` gives back that identifier |
| ComponentIds.RenderInjective | pkg/tempo/config_test.go:658-665 | two such identifiers render alike exactly when they are equal |
| ComponentIds.IndexedDistinct | pkg/tempo/config_test.go:373-394 | `k1/i` and `k2/j` coincide exactly when k1 = k2 and i = j |
| ComponentIds.IndexOfRendered | pkg/tempo/config_test.go:760-773 | the text after the last `/` of `kind/i` is the decimal of i and reads back as i |
| ComponentIds.PositionsDistinct | pkg/tempo/config_test.go:760-773 | identifiers at different positions never render alike, whatever their kinds |
| Base64.Encode | pkg/tempo/config_test.go:120 | defined here: the standard base64 encoding with `=` padding; specified by `DecodeEncode`, `EncodeLength`, `EncodeAlphabet` and `EncodeInjective` |
| Base64.CharOfSextet | pkg/tempo/config_test.go:120 | every 6-bit value has an alphabet character other than `=` that decodes back to it |
| Base64.EncodeLength | pkg/tempo/config_test.go:120 | the encoding of n bytes has 4·⌈n/3⌉ characters |
| Base64.DecodeFullGroup | pkg/tempo/config_test.go:209 | four characters decode into the three bytes of their group |
| Base64.DecodeTwoBytes | pkg/tempo/config_test.go:120 | a group padded with one `=` decodes into its two bytes |
| Base64.DecodeOneByte | pkg/tempo/config_test.go:209 | a group padded with `==` decodes into its one byte |
| Base64.DecodeEncode | pkg/tempo/config_test.go:120 | decoding an encoding gives back exactly the encoded bytes |
| Base64.EncodeInjective | pkg/tempo/config_test.go:120 | different byte strings have different encodings |
| Base64.EncodeAlphabet | pkg/tempo/config_test.go:120 | an encoding holds alphabet characters and `=` only |
| Base64.EncodeConcat | pkg/tempo/config_test.go:120 | encoding a whole number of 3-byte groups and then the rest is concatenation |
| Base64.EncodeLiteralExample | pkg/tempo/config_test.go:105-120 | `test:blerg` encodes to `dGVzdDpibGVyZw==` |
| Base64.EncodeFileExample | pkg/tempo/config_test.go:195-209 | `test:password_in_file` encodes to `dGVzdDpwYXNzd29yZF9pbl9maWxl` |
| Exporters.AuthorizationValue | pkg/tempo/config_test.go:105-120 | defined here: the `authorization` header value for a username and password; specified by `AuthorizationDecodes` |
| Exporters.HeadersOf | pkg/tempo/config_test.go:95-131 | defined here: the headers of one exporter, user headers plus basic auth; specified by `HeadersSpec` and `FileSecretAsLiteral` |
| Exporters.BuildExporter | pkg/tempo/config_test.go:66-279 | defined here: the settings of one `otlp`/`otlphttp` exporter built from one target; specified by `BuildExporterSpec` and `BuildExporterFails` |
| Exporters.BuildRemoteWrite | pkg/tempo/config_test.go:311-398 | defined here: the exporters of a remote_write list, in list order; specified by `RemoteWriteOk`, `RemoteWriteLength`, `RemoteWriteEntry`, `RemoteWriteFirstError` and `RemoteWriteIdsDistinct` |
| Exporters.ResolveSecret | pkg/tempo/config_test.go:185-219 | a literal password is used as is; a password file gives its contents; a missing file is `SecretUnreadable` naming the path |
| Exporters.AuthorizationDecodes | pkg/tempo/config_test.go:105-120 | the header value is `Basic ` followed by a token that decodes to exactly `username:password` |
| Exporters.CompressionOf | pkg/tempo/config_test.go:250-279 | no setting gives gzip; `none` removes the key; any other value is kept |
| Exporters.RetryWithDefault | pkg/tempo/config_test.go:145-166 | the user's retry settings are kept, and `max_elapsed_time` is 60s unless the user set it |
| Exporters.HeadersSpec | pkg/tempo/config_test.go:95-131 | without basic auth the user's headers pass through unchanged. With it, a secret error is the result; otherwise the authorization header is added and every other user header is kept |
| Exporters.FileSecretAsLiteral | pkg/tempo/config_test.go:185-219 | a readable password file gives the same headers as its contents given literally |
| Exporters.BuildExporterSpec | pkg/tempo/config_test.go:66-279 | the exporter fails exactly when its headers do. Otherwise it carries the target's endpoint, TLS and queue settings, with the compression, retry and header rules applied |
| Exporters.BuildExporterFails | pkg/tempo/config_test.go:185-219 | building fails exactly when a basic-auth password file is missing, and the error names that file |
| Exporters.ExporterType | pkg/tempo/config_test.go:741-777 | the exporter kind `otlp` (gRPC) or `otlphttp` (HTTP) holds no `/` |
| Exporters.BuildPush | pkg/tempo/config_test.go:668-702 | push_config builds one unindexed exporter of the protocol's kind, or fails with the exporter's error |
| Exporters.RemoteWriteOk | pkg/tempo/config_test.go:343-398 | remote_write builds exactly when every entry does |
| Exporters.RemoteWriteLength | pkg/tempo/config_test.go:343-398 | one exporter per remote_write entry |
| Exporters.RemoteWriteEntry | pkg/tempo/config_test.go:741-777 | entry i becomes the exporter `kind/i` with that entry's built settings |
| Exporters.RemoteWriteFirstError | pkg/tempo/config_test.go:343-398 | a failing remote_write reports the error of its first failing entry, all earlier entries building |
| Exporters.RemoteWriteIdsDistinct | pkg/tempo/config_test.go:343-398 | no two remote_write exporters share an identifier |
| Exporters.LiteralPasswordHeader | pkg/tempo/config_test.go:105-120 | user `test`, password `blerg` give `Basic dGVzdDpibGVyZw==` |
| Exporters.FilePasswordHeader | pkg/tempo/config_test.go:185-219 | user `test` and the file password `password_in_file` give `Basic dGVzdDpwYXNzd29yZF9pbl9maWxl` |
| ProcessorOrder.SortByRank | pkg/tempo/config_test.go:963-1078 | defined here: the processor kinds sorted by precedence rank; specified by `SortByRankSpec` and `OrderedUnique` |
| ProcessorOrder.NameInjective | pkg/tempo/config_test.go:963-1078 | distinct processor kinds have distinct names |
| ProcessorOrder.InsertMultiset | pkg/tempo/config_test.go:963-1078 | inserting adds exactly one copy of the processor |
| ProcessorOrder.InsertOrdered | pkg/tempo/config_test.go:963-1078 | inserting into a rank-ordered list keeps it ordered |
| ProcessorOrder.SortByRankSpec | pkg/tempo/config_test.go:963-1078 | sorting yields a rank-ordered permutation of its input |
| ProcessorOrder.SplitPoint | pkg/tempo/config_test.go:1013-1071 | the cut is in front of the first processor ranked tail_sampling or later |
| ProcessorOrder.CutOrdered | pkg/tempo/config_test.go:1013-1071 | both groups of a cut ordered list are ordered, first-stage and second-stage only, and together hold the input |
| ProcessorOrder.OrderProcessors | pkg/tempo/config_test.go:963-1078 | one group without a split and two with one; the groups are ordered and together a permutation of the input; with a split, the first group is first-stage only and the second is second-stage only |
| ProcessorOrder.RankInjective | pkg/tempo/config_test.go:963-1078 | the rank is a strict total order on kinds |
| ProcessorOrder.OrderedUnique | pkg/tempo/config_test.go:963-1078 | two ordered lists with the same members are equal |
| ProcessorOrder.PermutationInvariant | pkg/tempo/config_test.go:963-1078 | the result depends only on which processors are given, not on their input order |
| ProcessorOrder.OrderedDistinctIsStrict | pkg/tempo/config_test.go:963-1011 | an ordered list without repeats is strictly ordered |
| ProcessorOrder.SingleGroup | pkg/tempo/config_test.go:963-1011 | without a split, distinct processors give one strictly ordered group with exactly the input's members |
| ProcessorOrder.SplitGroups | pkg/tempo/config_test.go:1013-1071 | the two groups of a split concatenate to the unsplit order and are each strictly ordered |
| ProcessorOrder.SplitMembership | pkg/tempo/config_test.go:1013-1071 | the first group holds exactly the first-stage inputs, the second exactly the second-stage ones |
| ProcessorOrder.SortedTableInputs | pkg/tempo/config_test.go:983-1011 | the table's inputs sort into the table's expected order |
| ProcessorOrder.OrderingTableSingle | pkg/tempo/config_test.go:968-1011 | the unsplit table rows, the empty input among them |
| ProcessorOrder.OrderingTableSplitAll | pkg/tempo/config_test.go:1013-1041 | the split rows with an empty input and with all five processors |
| ProcessorOrder.OrderingTableSplitOneSided | pkg/tempo/config_test.go:1042-1071 | split rows whose input lies in one stage leave the other group empty |
| ProcessorSet.NamePolicies | pkg/tempo/config_test.go:543-591 | defined here: the tail-sampling policy list with names `kind/i`; specified by `NamePoliciesSpec`, `PolicyNamesDistinct` and `PolicyNameParses` |
| ProcessorSet.LoadBalancingEndpoint | pkg/tempo/config_test.go:622-625 | defined here: the listen address of the `otlp/lb` receiver; specified by `LoadBalancingEndpointSpec` |
| ProcessorSet.NamePoliciesSpec | pkg/tempo/config_test.go:551-583 | policy i of kind k is `name: k/i`, `type: k`, with its parameters, if any, under the key k and nothing else |
| ProcessorSet.PolicyNamesDistinct | pkg/tempo/config_test.go:551-583 | no two policies share a name, even policies of the same kind |
| ProcessorSet.PolicyNameParses | pkg/tempo/config_test.go:575-579 | a policy name reads back as its kind and its position |
| ProcessorSet.TailSamplingOf | pkg/tempo/config_test.go:572-583 | `decision_wait` is 5s unless given; the policies are the named list |
| ProcessorSet.SpanMetricsExporter | pkg/tempo/config_test.go:435-541 | `remote_write` exactly when only prom_instance is set, `prometheus` exactly when only handler_endpoint is set; both or neither is `AmbiguousMetricsExporter`; the namespace is `tempo_spanmetrics` |
| ProcessorSet.SpanMetricsOf | pkg/tempo/config_test.go:468-469 | the processor names its side exporter and passes the other settings through |
| ProcessorSet.AutomaticLoggingOf | pkg/tempo/config_test.go:685-688 | the user's block is nested once more under `automatic_logging`, and under nothing else |
| ProcessorSet.LoadBalancingExporterOf | pkg/tempo/config_test.go:632-642 | the user's exporter block is kept with `endpoint` forced to `noop`; retry is 60s; the resolver passes through |
| ProcessorSet.LoadBalancingEndpointSpec | pkg/tempo/config_test.go:622-625 | the `otlp/lb` listen address is `0.0.0.0:` followed by digits that read back as the resolver port |
| ProcessorSet.LoadBalancingEndpointExample | pkg/tempo/config_test.go:615-625 | port 4318 gives `0.0.0.0:4318` |
| ProcessorSet.TailSamplingExample | pkg/tempo/config_test.go:551-583 | the table's two policies give `always_sample/0` without parameters and `string_attribute/1` with them, at 5s |
| Assembler.Validate | pkg/tempo/config_test.go:36-65 | defined here: the configuration errors found before any exporter is built; specified by `ValidateSpec`, `ErrorsAreTruthful` and `ViolationsFail` |
| Assembler.ProcessorMap | pkg/tempo/config_test.go:133-184 | defined here: the processor definitions of the graph; specified by `ProcessorMapSpec` and `DefinitionsSpec` |
| Assembler.ReceiverMap | pkg/tempo/config_test.go:593-667 | defined here: the receivers of the graph; specified by `ReceiverMapSpec`, `SpanMetricsWiring` and `LoadBalancingWiring` |
| Assembler.ExporterMap | pkg/tempo/config_test.go:593-667 | defined here: the exporters of the graph; specified by `ExporterMapSpec` and `OtlpExportersSpec` |
| Assembler.PipelineMap | pkg/tempo/config_test.go:593-667 | defined here: the pipelines of the graph; specified by `PipelineKeys`, `UnsplitPipelines`, `SplitPipelines` and `SplitTraceMap` |
| Assembler.Assemble | pkg/tempo/config_test.go:66-95 | defined here: the graph of a valid configuration from its built exporters; specified by `AssembledWellFormed` and the four map lemmas above |
| Assembler.Compile | pkg/tempo/config_test.go:780-812 | defined here: `otelConfig`, validation then exporter building then assembly; specified by `CompileSpec`, `ErrorsAreTruthful`, `ViolationsFail`, `CompiledWellFormed` and `PlainPushGraph` |
| Assembler.ValidateSpec | pkg/tempo/config_test.go:36-65 | the fixed-order check finds no error exactly on the configurations meeting every validity condition |
| Assembler.SelectSpec | pkg/tempo/config_test.go:815-961 | selecting keeps exactly the configured kinds of a list, without repeats when the list has none |
| Assembler.ProcessorKindsSpec | pkg/tempo/config_test.go:815-961 | the processor list holds each configured processor exactly once and nothing else |
| Assembler.DefinitionsSpec | pkg/tempo/config_test.go:132-184 | the definitions are keyed by exactly the given processors' names, each with that processor's definition |
| Assembler.ProcessorMapSpec | pkg/tempo/config_test.go:399-434 | a processor is defined exactly when its block is configured, with its own definition; the batch block comes from push_config.batch or from batch |
| Assembler.CompileSpec | pkg/tempo/config_test.go:36-398 | compiling fails exactly when validation or an exporter fails, with that error; otherwise it yields the assembled graph |
| Assembler.ErrorsAreTruthful | pkg/tempo/config_test.go:36-65 | every compile error names a condition the configuration really violates |
| Assembler.ViolationsFail | pkg/tempo/config_test.go:280-309 | every violated condition makes compiling fail |
| Assembler.NoReceiversRejected | pkg/tempo/config_test.go:36-47 | an empty configuration, or one without receivers, is `MissingReceivers` |
| Assembler.ExportTargetRejected | pkg/tempo/config_test.go:48-55 | with receivers, having neither or both of push_config and remote_write is `AmbiguousExportTarget` |
| Assembler.EmptyReceiverRejected | pkg/tempo/config_test.go:56-65 | with one export target, a receiver without settings is `EmptyReceiverSettings` |
| Assembler.SelectConcat | pkg/tempo/config_test.go:930-940 | selecting from a concatenation concatenates the selections |
| Assembler.SelectOrdered | pkg/tempo/config_test.go:875-884 | selecting from a rank-ordered list keeps it ordered |
| Assembler.SameMembersPermutation | pkg/tempo/config_test.go:875-884 | two lists without repeats that have the same members are permutations of each other |
| Assembler.CutUnique | pkg/tempo/config_test.go:930-940 | a list splits into a first-stage part followed by a second-stage part in only one way |
| Assembler.PrecedenceSpec | pkg/tempo/config_test.go:875-940 | the precedence list names every kind once in rank order; its first part is exactly the first stage |
| Assembler.UnsplitOrder | pkg/tempo/config_test.go:875-884 | without a split, the pipeline's processors are the configured ones in precedence order |
| Assembler.SplitOrder | pkg/tempo/config_test.go:930-940 | with a split, the two groups are the configured first-stage and second-stage processors, each in precedence order |
| Assembler.StageSelect | pkg/tempo/config_test.go:930-940 | the first-stage selection holds first-stage kinds only, the last-stage selection last-stage kinds only |
| Assembler.UnsplitPipelines | pkg/tempo/config_test.go:542-591 | without a split, `traces` joins the user's receivers, the ordered processors and the built exporters |
| Assembler.SplitPipelines | pkg/tempo/config_test.go:592-667 | with a split, `traces/0` joins the user's receivers, the first group and `loadbalancing`; `traces/1` joins `otlp/lb`, the second group and the built exporters |
| Assembler.TraceNames | pkg/tempo/config_test.go:658-662 | the split pipelines are named `traces/0` and `traces/1` |
| Assembler.TraceKeys | pkg/tempo/config_test.go:592-667 | the trace pipelines are `traces`, or exactly `traces/0` and `traces/1` with a split |
| Assembler.PipelineKeys | pkg/tempo/config_test.go:435-526 | the pipelines are the trace ones plus `metrics/spanmetrics` exactly when span metrics are configured |
| Assembler.PipelineCount | pkg/tempo/config_test.go:815-961 | the pipeline count is 1 or 2 trace pipelines, plus 1 with span metrics |
| Assembler.SpanMetricsWiring | pkg/tempo/config_test.go:435-526 | span metrics add the `noop` receiver, the side exporter under its name, the spanmetrics processor, and `metrics/spanmetrics` joining `noop` to that exporter without processors |
| Assembler.LoadBalancingWiring | pkg/tempo/config_test.go:617-642 | a split adds the `otlp/lb` receiver on the resolver port and the `loadbalancing` exporter |
| Assembler.ReceiverMapSpec | pkg/tempo/config_test.go:435-667 | the receivers are the user's, plus `noop` with span metrics, plus `otlp/lb` with a split; every user receiver not overwritten by those keeps its settings |
| Assembler.OtlpExportersSpec | pkg/tempo/config_test.go:343-398 | the built exporters are defined under exactly their rendered identifiers, each with its own settings when the identifiers differ |
| Assembler.BuiltExporters | pkg/tempo/config_test.go:310-398 | push_config gives exactly one unindexed exporter; remote_write gives entry i as exporter `kind/i`; the identifiers are distinct |
| Assembler.BuiltNamesDisjoint | pkg/tempo/config_test.go:435-667 | no built exporter is named `remote_write`, `prometheus` or `loadbalancing` |
| Assembler.ExporterMapSpec | pkg/tempo/config_test.go:435-667 | the exporters are the built ones with their settings, plus the span-metrics side exporter, plus `loadbalancing` with a split |
| Assembler.SplitTraceMap | pkg/tempo/config_test.go:592-667 | with a split, the trace pipelines map is exactly the two hops |
| Assembler.AssembledWellFormed | pkg/tempo/config_test.go:66-777 | in an assembled graph, every pipeline names only receivers, processors and exporters that the graph defines |
| Assembler.CompiledWellFormed | pkg/tempo/config_test.go:780-812 | every successfully compiled graph is well formed in that sense, so the collector's loader accepts its references |
| Assembler.PrecedenceNames | pkg/tempo/config_test.go:875-940 | the precedence names are attributes, spanmetrics, then tail_sampling, automatic_logging, batch |
| Assembler.AllProcessorsUnsplit | pkg/tempo/config_test.go:839-885 | all five processors without load balancing give `traces` with all five in order and `metrics/spanmetrics` without processors, two pipelines in all |
| Assembler.AllProcessorsSplit | pkg/tempo/config_test.go:886-942 | with load balancing, `traces/0` gets attributes and spanmetrics, `traces/1` the other three, `metrics/spanmetrics` none, three pipelines in all |
| Assembler.NoProcessors | pkg/tempo/config_test.go:822-837 | no processor block gives exactly one pipeline, `traces`, without processors |
| Assembler.NoProcessorDefinitions | pkg/tempo/config_test.go:822-837 | no processor block gives no processor definitions |
| Assembler.PlainPushGraph | pkg/tempo/config_test.go:66-94 | a gRPC push target without processor blocks compiles to the user's receivers, one `otlp` exporter with the target's settings, no processors, and one `traces` pipeline joining them |
| Assembler.PlainPushAssembled | pkg/tempo/config_test.go:66-94 | the same graph, assembled from the one built exporter |
| SortPipelines.BelowSpec | pkg/tempo/config_test.go:1091 | the string order used by the helper is lexicographic: a proper prefix, or a smaller character at the first difference |
| SortPipelines.BelowIrreflexive | pkg/tempo/config_test.go:1091 | no string is below itself |
| SortPipelines.BelowAsymmetric | pkg/tempo/config_test.go:1091 | two strings are never below each other |
| SortPipelines.BelowTransitive | pkg/tempo/config_test.go:1091 | the order is transitive |
| SortPipelines.BelowTotal | pkg/tempo/config_test.go:1091 | two different strings are ordered one way or the other |
| SortPipelines.NotBelowTransitive | pkg/tempo/config_test.go:1090-1091 | "not below" on identifiers is transitive, so descending order is consistent |
| SortPipelines.DescendingUnique | pkg/tempo/config_test.go:806-810 | two descending identifier lists with the same members are equal, so sorting makes the comparison independent of order |
| SortPipelines.InsertingSwap | pkg/tempo/config_test.go:1090-1091 | swapping the moved element with a smaller predecessor keeps the insertion invariant |
| SortPipelines.InsertingDone | pkg/tempo/config_test.go:1090-1091 | once the predecessor is no smaller, the prefix is descending |
| SortPipelines.InsertAt | pkg/tempo/config_test.go:1090-1091 | one insertion step extends the descending prefix by one, keeps the elements after it, and permutes the array |
| SortPipelines.SortDescending | pkg/tempo/config_test.go:1090-1091 | the array ends descending by rendered identifier and is a permutation of its old contents |
| SortPipelines.SortTracePipeline | pkg/tempo/config_test.go:1080-1092 | with a `traces` pipeline, its exporters and receivers each end descending and a permutation of their old contents. Without one, nothing is written, and the configuration and the other pipelines never are |

## Left out

- The implementation file of the compiler (`InstanceConfig.otelConfig`, `orderProcessors`) is not part of this model. Its behaviour is taken from the test tables.
- YAML unmarshalling, the collector's `configparser` / `configloader.Load` and `tracingFactories()` are foreign library calls. Settings they do not interpret are uninterpreted string maps here.
- The factory default `enabled: true` of the expected exporter is filled in by the loader on both sides of the comparison. It is not modelled.
- Reading a password file is a lookup in a `FileSystem` map parameter. A path missing from the map stands for an unreadable file. Creating the temporary file is test plumbing and is left out.
- The Go distinction between a nil and an empty processor list (`nil` in the expected tables against `[]`) is a zero-value artefact. Both are the empty sequence.
- Durations such as `5s` and `60s` are literal strings, not times.
- Processor names outside the five known kinds are not modelled. The kind is a closed datatype.
- A pipeline's receivers and exporters are sets in `Assembler`. Their order in the compiled configuration is not fixed, which is why the test sorts them. Only the processor order is a sequence.
- The load-balancing resolver block is opaque, and the port it names is a separate field of `LoadBalancing`. The model does not dig it out of the DNS settings.
- A user receiver named `noop` or `otlp/lb` is overwritten by the synthesized one, as a map assignment would do. The tests never exercise this.
- Assembler.Validate: the tests assert only that some error occurs. The model checks the conditions in a fixed order (missing receivers, export target, empty receiver settings, duplicate batch, span-metrics target). It also treats span metrics with neither prom_instance nor handler_endpoint as ambiguous, like both. The lemmas `ErrorsAreTruthful` and `ViolationsFail` do not depend on that order.
- Exporters.HeadersOf: the authorization header replaces a user header of the same name. The tests never give both.
- Exporters.RetryWithDefault: user retry settings override the 60s default, including `max_elapsed_time` itself. The tests only show the default added next to other keys.
- SortPipelines.SortDescending: Go's `sort.Slice` is not stable and its exact permutation is unspecified. The model promises only a descending permutation, which is all the helper relies on; it uses insertion sort.
- SortPipelines.SortTracePipeline: Go strings compare byte by byte, the model compares characters. The two agree on the ASCII identifiers in the tests.
- Exporters.ExporterType: a `push_config` with protocol http becomes an `otlphttp` exporter, as a remote_write entry does. The tests show HTTP only for remote_write entries.
- ProcessorSet.LoadBalancingExporterOf: the `loadbalancing` exporter's retry is always exactly `max_elapsed_time: 60s`. A `retry_on_failure` key the user writes in `load_balancing.exporter` is kept among the `otlp` settings beside it; the tests show only `insecure` there, so which of the two the collector obeys is not modelled.
- Exporters.Secret: a `basic_auth` block gives either `password` or `password_file`. One that gives both cannot be expressed, so which of the two wins is not modelled.
- The `t.Run` / testify harness and the loops over the case tables are test plumbing and are not modelled.
