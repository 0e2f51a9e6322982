/** The quota-cost collector of the OCM exporter: a metrics collector that,
    on every scrape, lists the quota costs of one organization and turns each
    record into a `consumed` and an `allowed` gauge sample.

    The upstream list call is modelled by its outcome (`Result`), the metric
    library's sample construction by an arbitrary deterministic acceptance
    function (`Acceptor`), and the two Go channels and standard output by
    append-only `Channel`s. */
module Collector {
  import opened Channels

  datatype Result<+T, +E> = Ok(value: T) | Err(error: E)

  // The metric's name, help text and label schema; these are bit-exact,
  // since dashboards and alerts select on them.
  const MetricDescription: string := "Openshift Cluster Manager Quota Costs"
  const MetricName: string := "ocm_quota_cost"
  const LabelOrganizationId: string := "organization_id"
  const LabelQuotaId: string := "quota_id"
  const LabelType: string := "type"
  const ValueConsumed: string := "consumed"
  const ValueAllowed: string := "allowed"

  /** A handle on the quota-cost collection of one organization. */
  datatype QuotaCostClient = QuotaCostClient(organizationId: string)

  /** One record of the upstream quota-cost list. */
  datatype QuotaCost = QuotaCost(organizationId: string, quotaId: string, consumed: int, allowed: int)

  /** Why the list request failed (transport, authentication, upstream). */
  datatype FetchError = FetchError(reason: string)

  /** A metric descriptor: fully qualified name, help text, variable label names. */
  datatype Desc = Desc(fqName: string, help: string, variableLabels: seq<string>)

  datatype ValueType = CounterValue | GaugeValue | UntypedValue

  /** A constant sample: its descriptor, value type, value and label values
      (in the order of the descriptor's variable labels). */
  datatype Metric = Metric(desc: Desc, valueType: ValueType, value: int, labelValues: seq<string>)

  /** Why the metric library refused to build a sample. */
  datatype MetricError = InvalidMetric

  /** One diagnostic line the collector prints. */
  datatype LogLine =
    | QuotaCostsUnavailable(cause: FetchError)  // the list request failed
    | ConsumedMetricFailed                      // the `consumed` sample could not be built
    | AllowedMetricFailed                       // the `allowed` sample could not be built

  /** Whether the metric library accepts a sample with this value and these
      label values. Its checks are not modelled; any deterministic answer is
      allowed, so every property below holds whatever it decides. */
  type Acceptor = (int, seq<string>) -> bool

  /** The metric library's constant-sample constructor, with its validation
      replaced by `accepts`. */
  function NewConstMetric(desc: Desc, valueType: ValueType, value: int, labelValues: seq<string>,
                          accepts: Acceptor): Result<Metric, MetricError>
  {
    if accepts(value, labelValues) then Ok(Metric(desc, valueType, value, labelValues))
    else Err(InvalidMetric)
  }

  // ---------------------------------------------------------------------------
  // What one scrape emits, as functions of the upstream outcome.

  function ConsumedLabels(q: QuotaCost): seq<string> {
    [q.organizationId, q.quotaId, ValueConsumed]
  }

  function AllowedLabels(q: QuotaCost): seq<string> {
    [q.organizationId, q.quotaId, ValueAllowed]
  }

  /** The `consumed` sample of a record. */
  function ConsumedMetric(desc: Desc, q: QuotaCost): Metric {
    Metric(desc, GaugeValue, q.consumed, ConsumedLabels(q))
  }

  /** The `allowed` sample of a record. */
  function AllowedMetric(desc: Desc, q: QuotaCost): Metric {
    Metric(desc, GaugeValue, q.allowed, AllowedLabels(q))
  }

  predicate ConsumedBuilds(q: QuotaCost, accepts: Acceptor) {
    accepts(q.consumed, ConsumedLabels(q))
  }

  predicate AllowedBuilds(q: QuotaCost, accepts: Acceptor) {
    accepts(q.allowed, AllowedLabels(q))
  }

  /** The samples one record contributes, in the order they are sent
      (its properties are stated in CollectorProperties.RecordMetricsShape). */
  function RecordMetrics(desc: Desc, q: QuotaCost, accepts: Acceptor): seq<Metric> {
    (if ConsumedBuilds(q, accepts) then [ConsumedMetric(desc, q)] else [])
    + (if AllowedBuilds(q, accepts) then [AllowedMetric(desc, q)] else [])
  }

  /** The diagnostics one record produces, in the order they are printed. */
  function RecordFailures(q: QuotaCost, accepts: Acceptor): seq<LogLine> {
    (if ConsumedBuilds(q, accepts) then [] else [ConsumedMetricFailed])
    + (if AllowedBuilds(q, accepts) then [] else [AllowedMetricFailed])
  }

  /** The samples sent for a list of records, record by record. */
  function EmittedMetrics(desc: Desc, qs: seq<QuotaCost>, accepts: Acceptor): (r: seq<Metric>)
    ensures |r| <= 2 * |qs|
  {
    if qs == [] then []
    else RecordMetrics(desc, qs[0], accepts) + EmittedMetrics(desc, qs[1..], accepts)
  }

  /** The diagnostics printed for a list of records, record by record. */
  function EmittedFailures(qs: seq<QuotaCost>, accepts: Acceptor): (r: seq<LogLine>)
    ensures |r| <= 2 * |qs|
    ensures forall l :: l in r ==> !l.QuotaCostsUnavailable?
  {
    if qs == [] then []
    else RecordFailures(qs[0], accepts) + EmittedFailures(qs[1..], accepts)
  }

  /** The samples one scrape sends. */
  function CollectedMetrics(desc: Desc, response: Result<seq<QuotaCost>, FetchError>,
                            accepts: Acceptor): (r: seq<Metric>)
    ensures response.Err? ==> r == []
    ensures response.Ok? ==> |r| <= 2 * |response.value|
  {
    match response
    case Err(_) => []
    case Ok(qs) => EmittedMetrics(desc, qs, accepts)
  }

  /** The diagnostics one scrape prints. */
  function CollectedLog(response: Result<seq<QuotaCost>, FetchError>, accepts: Acceptor): (r: seq<LogLine>)
    ensures response.Err? ==> r == [QuotaCostsUnavailable(response.error)]
    ensures response.Ok? ==> |r| <= 2 * |response.value|
    ensures response.Ok? ==> forall l :: l in r ==> !l.QuotaCostsUnavailable?
  {
    match response
    case Err(e) => [QuotaCostsUnavailable(e)]
    case Ok(qs) => EmittedFailures(qs, accepts)
  }

  /** Emission is record by record: the samples of a concatenation are the
      concatenation of the samples. */
  lemma {:induction false} EmittedMetricsAppend(desc: Desc, xs: seq<QuotaCost>, ys: seq<QuotaCost>, accepts: Acceptor)
    ensures EmittedMetrics(desc, xs + ys, accepts) == EmittedMetrics(desc, xs, accepts) + EmittedMetrics(desc, ys, accepts)
  {
    if xs == [] {
      assert xs + ys == ys;
    } else {
      assert (xs + ys)[1..] == xs[1..] + ys;
      EmittedMetricsAppend(desc, xs[1..], ys, accepts);
    }
  }

  /** Likewise for the diagnostics. */
  lemma {:induction false} EmittedFailuresAppend(xs: seq<QuotaCost>, ys: seq<QuotaCost>, accepts: Acceptor)
    ensures EmittedFailures(xs + ys, accepts) == EmittedFailures(xs, accepts) + EmittedFailures(ys, accepts)
  {
    if xs == [] {
      assert xs + ys == ys;
    } else {
      assert (xs + ys)[1..] == xs[1..] + ys;
      EmittedFailuresAppend(xs[1..], ys, accepts);
    }
  }

  /** One more record adds exactly that record's samples at the end. */
  lemma EmittedMetricsSnoc(desc: Desc, xs: seq<QuotaCost>, q: QuotaCost, accepts: Acceptor)
    ensures EmittedMetrics(desc, xs + [q], accepts) == EmittedMetrics(desc, xs, accepts) + RecordMetrics(desc, q, accepts)
  {
    EmittedMetricsAppend(desc, xs, [q], accepts);
    assert [q][1..] == [];
  }

  /** One more record adds exactly that record's diagnostics at the end. */
  lemma EmittedFailuresSnoc(xs: seq<QuotaCost>, q: QuotaCost, accepts: Acceptor)
    ensures EmittedFailures(xs + [q], accepts) == EmittedFailures(xs, accepts) + RecordFailures(q, accepts)
  {
    EmittedFailuresAppend(xs, [q], accepts);
    assert [q][1..] == [];
  }

  /** Visiting record i after records 0..i-1 adds that record's samples and
      diagnostics at the end. */
  lemma EmittedPrefixStep(desc: Desc, qs: seq<QuotaCost>, i: nat, accepts: Acceptor)
    requires i < |qs|
    ensures EmittedMetrics(desc, qs[..i + 1], accepts) == EmittedMetrics(desc, qs[..i], accepts) + RecordMetrics(desc, qs[i], accepts)
    ensures EmittedFailures(qs[..i + 1], accepts) == EmittedFailures(qs[..i], accepts) + RecordFailures(qs[i], accepts)
  {
    assert qs[..i + 1] == qs[..i] + [qs[i]];
    EmittedMetricsSnoc(desc, qs[..i], qs[i], accepts);
    EmittedFailuresSnoc(qs[..i], qs[i], accepts);
  }

  lemma AppendAssoc<T>(a: seq<T>, b: seq<T>, c: seq<T>)
    ensures (a + b) + c == a + (b + c)
  {
  }

  // ---------------------------------------------------------------------------
  // The collector object.

  class OcmCollector {
    var quotaCostClient: QuotaCostClient
    var quotas: Desc

    /** Builds the collector with its one descriptor; this cannot fail. */
    constructor (quotaCostClient: QuotaCostClient)
      ensures this.quotaCostClient == quotaCostClient
      ensures quotas.fqName == "ocm_quota_cost"
      ensures quotas.help == "Openshift Cluster Manager Quota Costs"
      ensures quotas.variableLabels == ["organization_id", "quota_id", "type"]
    {
      this.quotaCostClient := quotaCostClient;
      quotas := Desc(MetricName, MetricDescription, [LabelOrganizationId, LabelQuotaId, LabelType]);
    }

    /** Publishes the collector's one descriptor. */
    method Describe(ch: Channel<Desc>)
      modifies ch
      ensures ch.sent == old(ch.sent) + [quotas]
    {
      ch.Send(quotas);
    }

    /** One scrape. `response` is what the list request (with related
        resources fetched) returned. On failure one line is printed and
        nothing is sent; otherwise every record is visited in upstream order
        and each of its two samples is sent or, when it cannot be built,
        replaced by one printed line. The collector itself is not changed. */
    method Collect(response: Result<seq<QuotaCost>, FetchError>, accepts: Acceptor,
                   ch: Channel<Metric>, stdout: Channel<LogLine>)
      modifies ch, stdout
      ensures ch.sent == old(ch.sent) + CollectedMetrics(quotas, response, accepts)
      ensures stdout.sent == old(stdout.sent) + CollectedLog(response, accepts)
      ensures unchanged(this)
    {
      if response.Err? {
        stdout.Send(QuotaCostsUnavailable(response.error));
        return;
      }
      EmitAll(response.value, accepts, ch, stdout);
    }

    /** The iteration over the listed records: the callback runs on each
        record in turn for as long as it answers true. */
    method EmitAll(items: seq<QuotaCost>, accepts: Acceptor, ch: Channel<Metric>, stdout: Channel<LogLine>)
      modifies ch, stdout
      ensures ch.sent == old(ch.sent) + EmittedMetrics(quotas, items, accepts)
      ensures stdout.sent == old(stdout.sent) + EmittedFailures(items, accepts)
    {
      var i := 0;
      var more := true;
      while i < |items| && more
        invariant 0 <= i <= |items|
        invariant more
        invariant ch.sent == old(ch.sent) + EmittedMetrics(quotas, items[..i], accepts)
        invariant stdout.sent == old(stdout.sent) + EmittedFailures(items[..i], accepts)
      {
        EmittedPrefixStep(quotas, items, i, accepts);
        AppendAssoc(old(ch.sent), EmittedMetrics(quotas, items[..i], accepts), RecordMetrics(quotas, items[i], accepts));
        AppendAssoc(old(stdout.sent), EmittedFailures(items[..i], accepts), RecordFailures(items[i], accepts));
        more := EmitRecord(items[i], accepts, ch, stdout);
        i := i + 1;
      }
      assert items[..i] == items;
    }

    /** The per-record callback of the iteration: builds and sends the
        `consumed` sample, then the `allowed` sample, printing one line for
        each that cannot be built, and always asks to continue. */
    method EmitRecord(quota: QuotaCost, accepts: Acceptor, ch: Channel<Metric>, stdout: Channel<LogLine>)
      returns (more: bool)
      modifies ch, stdout
      ensures more
      ensures ch.sent == old(ch.sent) + RecordMetrics(quotas, quota, accepts)
      ensures stdout.sent == old(stdout.sent) + RecordFailures(quota, accepts)
    {
      var consumed := quota.consumed;
      var allowed := quota.allowed;
      var quotaId := quota.quotaId;
      var orgId := quota.organizationId;
      var consumedMetric := NewConstMetric(quotas, GaugeValue, consumed, [orgId, quotaId, ValueConsumed], accepts);
      if consumedMetric.Ok? {
        ch.Send(consumedMetric.value);
      } else {
        stdout.Send(ConsumedMetricFailed);
      }
      var allowedMetric := NewConstMetric(quotas, GaugeValue, allowed, [orgId, quotaId, ValueAllowed], accepts);
      if allowedMetric.Ok? {
        ch.Send(allowedMetric.value);
      } else {
        stdout.Send(AllowedMetricFailed);
      }
      more := true;
    }
  }
}
