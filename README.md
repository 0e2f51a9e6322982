# OCM exporter quota-cost collector, modelled in Dafny

The OCM exporter publishes an organization's OpenShift Cluster Manager quota
costs as Prometheus gauges. Its core is one collector (`cmd/collector.go`).
It holds one descriptor: metric `ocm_quota_cost`, help text "Openshift
Cluster Manager Quota Costs", labels `organization_id`, `quota_id`, `type`.
On every scrape the collector lists the organization's quota costs once:

- If the list request fails, it prints one diagnostic and sends no samples.
- Otherwise it visits the records in upstream order. For each record it tries
  to build a `consumed` gauge, then an `allowed` gauge, both labelled
  (organization, quota, type).
- A sample that cannot be built is skipped and one diagnostic is printed.
  Iteration always continues.

The model has three modules:

- `Channels` (`channels.dfy`): an append-only `Channel<T>` class. It stands for
  a send-only Go channel and for standard output.
- `Collector` (`collector.dfy`): the constants, the record, descriptor, sample
  and diagnostic datatypes, and the metric library's sample constructor.
  Inputs are modelled this way:
  - The library's checks are replaced by an arbitrary deterministic
    acceptance function (`Acceptor`).
  - The list request is replaced by its outcome, a
    `Result<seq<QuotaCost>, FetchError>`.

  It also holds the specification functions for what one record, one list
  of records and one scrape emit (`RecordMetrics`, `EmittedMetrics`,
  `CollectedMetrics` and their diagnostic counterparts). Last is the
  `OcmCollector` class, whose constructor, `Describe` and `Collect`
  (with the `Each` iteration `EmitAll` and the per-record callback
  `EmitRecord`) are imperative methods. Their postconditions tie each
  channel's new contents to the old contents and these functions.
- `CollectorProperties` (`collector_properties.dfy`): the lemmas about those
  functions, covering isolation, bounds, exact contents, order and distinct
  series. It also holds client methods that drive the collector object
  through the scenarios the design describes, which checks that the methods'
  contracts are usable.

Where the design description and the code differ, the model follows the code:

- The design says records have non-negative values. The code does not check
  this, so values are unconstrained integers.
- The design's "exactly two samples per record" is conditional. A record
  gives two samples exactly when both constructions succeed, whatever its
  values.

## Model

| member | source | states |
|---|---|---|
| `Channels.Channel.Send` | cmd/collector.go:56 | a send appends exactly the value sent and changes nothing else |
| `Collector.OcmCollector.constructor` | cmd/collector.go:24-32 | construction cannot fail, keeps the given client handle, and builds the descriptor named `ocm_quota_cost` with help "Openshift Cluster Manager Quota Costs" and labels exactly `[organization_id, quota_id, type]` |
| `Collector.OcmCollector.Describe` | cmd/collector.go:34-36 | sends exactly one descriptor, the one stored in the collector |
| `Collector.OcmCollector.Collect` | cmd/collector.go:38-68 | sends exactly `CollectedMetrics` of the stored descriptor and the response, prints exactly `CollectedLog`, and leaves the collector's fields unchanged |
| `Collector.OcmCollector.EmitAll` | cmd/collector.go:49-67 | visiting every record in upstream order, for as long as the callback says to continue, appends `EmittedMetrics` to the sample channel and `EmittedFailures` to the output |
| `Collector.OcmCollector.EmitRecord` | cmd/collector.go:49-66 | the callback appends exactly one record's samples (`consumed` then `allowed`, each if it builds) and one diagnostic per failed construction, and always asks to continue |
| `Collector.EmittedMetrics` | cmd/collector.go:49-67 | N records give at most 2N samples |
| `Collector.EmittedFailures` | cmd/collector.go:55-66 | N records give at most 2N diagnostics, none of them a fetch failure |
| `Collector.CollectedMetrics` | cmd/collector.go:40-67 | a failed fetch sends no sample; a successful fetch of N records sends at most 2N |
| `Collector.CollectedLog` | cmd/collector.go:44-47 | a failed fetch prints exactly one diagnostic carrying the error; a successful fetch prints at most 2N and never reports a fetch failure |
| `Collector.EmittedMetricsAppend` | cmd/collector.go:49-67 | emission is record by record: the samples of `xs + ys` are those of `xs` followed by those of `ys` |
| `Collector.EmittedFailuresAppend` | cmd/collector.go:49-67 | the same for the diagnostics |
| `CollectorProperties.RecordMetricsShape` | cmd/collector.go:50-65 | a record's `consumed` sample (its `consumed` value, labels (org, quota, "consumed")) is sent if and only if it builds; likewise its `allowed` sample; nothing else is sent; it gives 2 samples if and only if both build; `consumed` comes first, `allowed` last |
| `CollectorProperties.RecordIsolation` | cmd/collector.go:54-65 | each of a record's two constructions ends in exactly one of a sent sample or one diagnostic, and the failure diagnostic of a sample is printed exactly when that sample does not build |
| `CollectorProperties.EmittedIsolation` | cmd/collector.go:49-67 | for N records, sent samples plus construction diagnostics number exactly 2N, so no failure skips anything else |
| `CollectorProperties.EmittedMetricsMembership` | cmd/collector.go:49-65 | a sample is sent if and only if it is the `consumed` or `allowed` sample of some record and builds; every sent sample carries the collector's descriptor, is a gauge and has three label values |
| `CollectorProperties.EmittedAllBuildLength` | cmd/collector.go:49-65 | when every construction succeeds, N records give exactly 2N samples and no diagnostic |
| `CollectorProperties.EmittedAllBuildAt` | cmd/collector.go:49-65 | when every construction succeeds, record i's `consumed` sample is at position 2i and its `allowed` sample at 2i+1 |
| `CollectorProperties.EmittedAllBuild` | cmd/collector.go:49-65 | when every construction succeeds the samples are exactly consumed(r0), allowed(r0), consumed(r1), allowed(r1), ... and nothing is printed |
| `CollectorProperties.EmittedRecordAt` | cmd/collector.go:49-67 | record i's samples and diagnostics appear unaltered between those of the records before it and those after it, whatever the other records are |
| `CollectorProperties.EmittedOrder` | cmd/collector.go:49-67 | for records i < j, all samples of record i are sent before all samples of record j |
| `CollectorProperties.EmittedDistinctSeries` | cmd/collector.go:50-60 | records with pairwise different (organization, quota) pairs give samples with pairwise different label values |
| `CollectorProperties.DescribeNewCollector` | cmd/collector.go:24-36 | a new collector describes exactly one descriptor, with the fixed name, help text and label schema |
| `CollectorProperties.ScrapeTwice` | cmd/collector.go:38-68 | two scrapes of one collector over the same upstream outcome send the same samples and print the same diagnostics |
| `CollectorProperties.ScrapeFetchFailure` | cmd/collector.go:40-47 | a scrape whose fetch fails sends nothing and prints exactly one diagnostic |
| `CollectorProperties.ScrapeSingleRecord` | cmd/collector.go:49-67 | the record {o1, q1, consumed 5, allowed 10} gives exactly the two samples (o1, q1, consumed) = 5 and (o1, q1, allowed) = 10, in that order |
| `CollectorProperties.ScrapeSharedQuotaId` | cmd/collector.go:49-67 | two records sharing a quota id under different organizations give four samples with four different label tuples |

## Left out

- `cmd/root.go` is not part of this model. It covers command-line flags, the
  OCM token from the environment or a file, the SDK connection, resolving the
  organization id over the network, registering with the global registry and
  the HTTP server. All of it is I/O and library glue.
- The list request itself (`List().Parameter("fetchRelatedResources", true).Send()`)
  is network I/O. `Collect` receives its outcome as a parameter. The
  `fetchRelatedResources` option does not change the shape of what the
  collector emits. The client handle is kept as an opaque value.
- The metric library's validation inside `NewConstMetric` (label count, UTF-8
  of label values) is replaced by an arbitrary deterministic acceptance
  function. Every property holds whatever that function decides. The
  validation inside `NewDesc` is left out too, because the collector's
  constants always pass it.
- The `float64` conversion of the integer values is not modelled. Values stay
  integers, so precision loss above 2^53 is not captured.
- The text of the `fmt.Printf` diagnostics is not modelled. A diagnostic is a
  tag; the fetch-failure tag carries the error value.
- Channels are append-only sequences. Blocking on a full channel and scrapes
  running concurrently are not modelled.
