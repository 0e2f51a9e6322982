/** What the collector promises about one scrape: failure isolation, bounds,
    exact contents, ordering, distinct series and repeatability. */
module CollectorProperties {
  import opened Channels
  import opened Collector

  // ---------------------------------------------------------------------------
  // One record.

  /** A record contributes at most two samples: its `consumed` sample exactly
      when that builds, its `allowed` sample exactly when that builds, nothing
      else, and `consumed` before `allowed`. */
  lemma RecordMetricsShape(desc: Desc, q: QuotaCost, accepts: Acceptor)
    ensures |RecordMetrics(desc, q, accepts)| <= 2
    ensures |RecordMetrics(desc, q, accepts)| == 2 <==> ConsumedBuilds(q, accepts) && AllowedBuilds(q, accepts)
    ensures ConsumedMetric(desc, q) in RecordMetrics(desc, q, accepts) <==> ConsumedBuilds(q, accepts)
    ensures AllowedMetric(desc, q) in RecordMetrics(desc, q, accepts) <==> AllowedBuilds(q, accepts)
    ensures forall m :: m in RecordMetrics(desc, q, accepts) ==> m == ConsumedMetric(desc, q) || m == AllowedMetric(desc, q)
    ensures ConsumedBuilds(q, accepts) ==> RecordMetrics(desc, q, accepts)[0] == ConsumedMetric(desc, q)
    ensures AllowedBuilds(q, accepts) ==>
      RecordMetrics(desc, q, accepts)[|RecordMetrics(desc, q, accepts)| - 1] == AllowedMetric(desc, q)
  {
  }

  /** Each of a record's two samples is either sent or replaced by exactly
      one diagnostic. */
  lemma RecordIsolation(desc: Desc, q: QuotaCost, accepts: Acceptor)
    ensures |RecordMetrics(desc, q, accepts)| + |RecordFailures(q, accepts)| == 2
    ensures ConsumedMetricFailed in RecordFailures(q, accepts) <==> !ConsumedBuilds(q, accepts)
    ensures AllowedMetricFailed in RecordFailures(q, accepts) <==> !AllowedBuilds(q, accepts)
  {
  }

  // ---------------------------------------------------------------------------
  // A successful fetch of a list of records.

  /** Isolation: every one of the 2N constructions for N records ends either
      in a sent sample or in one diagnostic, so no record is skipped and no
      failure ends the iteration early. */
  lemma {:induction false} EmittedIsolation(desc: Desc, qs: seq<QuotaCost>, accepts: Acceptor)
    ensures |EmittedMetrics(desc, qs, accepts)| + |EmittedFailures(qs, accepts)| == 2 * |qs|
  {
    if qs != [] {
      RecordIsolation(desc, qs[0], accepts);
      EmittedIsolation(desc, qs[1..], accepts);
    }
  }

  /** Record q yields sample m: m is its `consumed` or its `allowed` sample
      and that sample builds. */
  predicate Yields(desc: Desc, q: QuotaCost, accepts: Acceptor, m: Metric) {
    (m == ConsumedMetric(desc, q) && ConsumedBuilds(q, accepts)) ||
    (m == AllowedMetric(desc, q) && AllowedBuilds(q, accepts))
  }

  /** A sample is sent exactly when some record yields it; in particular
      every sent sample carries the collector's descriptor, is a gauge, and
      has the labels (organization, quota, type) of its record. */
  lemma {:induction false} EmittedMetricsMembership(desc: Desc, qs: seq<QuotaCost>, accepts: Acceptor, m: Metric)
    ensures m in EmittedMetrics(desc, qs, accepts) <==> exists i :: 0 <= i < |qs| && Yields(desc, qs[i], accepts, m)
    ensures m in EmittedMetrics(desc, qs, accepts) ==>
      m.desc == desc && m.valueType == GaugeValue && |m.labelValues| == 3
  {
    if qs != [] {
      RecordMetricsShape(desc, qs[0], accepts);
      EmittedMetricsMembership(desc, qs[1..], accepts, m);
      if m in EmittedMetrics(desc, qs[1..], accepts) {
        var j :| 0 <= j < |qs[1..]| && Yields(desc, qs[1..][j], accepts, m);
        assert qs[1..][j] == qs[j + 1];
      }
      if i :| 0 <= i < |qs| && Yields(desc, qs[i], accepts, m) {
        if i > 0 {
          assert qs[1..][i - 1] == qs[i];
        }
      }
    }
  }

  /** Every construction for these records succeeds. */
  predicate AllBuild(qs: seq<QuotaCost>, accepts: Acceptor) {
    forall i :: 0 <= i < |qs| ==> ConsumedBuilds(qs[i], accepts) && AllowedBuilds(qs[i], accepts)
  }

  /** When every construction succeeds, exactly 2N samples are sent and
      nothing is printed. */
  lemma {:induction false} EmittedAllBuildLength(desc: Desc, qs: seq<QuotaCost>, accepts: Acceptor)
    requires AllBuild(qs, accepts)
    ensures |EmittedMetrics(desc, qs, accepts)| == 2 * |qs|
    ensures EmittedFailures(qs, accepts) == []
  {
    if qs != [] {
      assert ConsumedBuilds(qs[0], accepts) && AllowedBuilds(qs[0], accepts);
      assert AllBuild(qs[1..], accepts) by {
        forall k | 0 <= k < |qs[1..]| ensures ConsumedBuilds(qs[1..][k], accepts) && AllowedBuilds(qs[1..][k], accepts) {
          assert qs[1..][k] == qs[k + 1];
        }
      }
      EmittedAllBuildLength(desc, qs[1..], accepts);
    }
  }

  /** When every construction succeeds, record i's `consumed` sample is sent
      at position 2i and its `allowed` sample at 2i + 1. */
  lemma {:induction false} EmittedAllBuildAt(desc: Desc, qs: seq<QuotaCost>, accepts: Acceptor, i: nat)
    requires AllBuild(qs, accepts) && i < |qs|
    ensures |EmittedMetrics(desc, qs, accepts)| == 2 * |qs|
    ensures EmittedMetrics(desc, qs, accepts)[2 * i] == ConsumedMetric(desc, qs[i])
    ensures EmittedMetrics(desc, qs, accepts)[2 * i + 1] == AllowedMetric(desc, qs[i])
  {
    EmittedAllBuildLength(desc, qs, accepts);
    assert ConsumedBuilds(qs[0], accepts) && AllowedBuilds(qs[0], accepts);
    var head := RecordMetrics(desc, qs[0], accepts);
    assert head == [ConsumedMetric(desc, qs[0]), AllowedMetric(desc, qs[0])];
    if i > 0 {
      var rest := qs[1..];
      assert AllBuild(rest, accepts) by {
        forall k | 0 <= k < |rest| ensures ConsumedBuilds(rest[k], accepts) && AllowedBuilds(rest[k], accepts) {
          assert rest[k] == qs[k + 1];
        }
      }
      EmittedAllBuildAt(desc, rest, accepts, i - 1);
      var tail := EmittedMetrics(desc, rest, accepts);
      assert rest[i - 1] == qs[i];
      assert EmittedMetrics(desc, qs, accepts) == head + tail;
      assert (head + tail)[2 * i] == tail[2 * (i - 1)];
      assert (head + tail)[2 * i + 1] == tail[2 * (i - 1) + 1];
    }
  }

  /** Together: with every construction succeeding, the samples are exactly
      consumed(r0), allowed(r0), consumed(r1), allowed(r1), ... */
  lemma EmittedAllBuild(desc: Desc, qs: seq<QuotaCost>, accepts: Acceptor)
    requires AllBuild(qs, accepts)
    ensures |EmittedMetrics(desc, qs, accepts)| == 2 * |qs|
    ensures forall i :: 0 <= i < |qs| ==>
      EmittedMetrics(desc, qs, accepts)[2 * i] == ConsumedMetric(desc, qs[i]) &&
      EmittedMetrics(desc, qs, accepts)[2 * i + 1] == AllowedMetric(desc, qs[i])
    ensures EmittedFailures(qs, accepts) == []
  {
    EmittedAllBuildLength(desc, qs, accepts);
    forall i | 0 <= i < |qs|
      ensures EmittedMetrics(desc, qs, accepts)[2 * i] == ConsumedMetric(desc, qs[i]) &&
              EmittedMetrics(desc, qs, accepts)[2 * i + 1] == AllowedMetric(desc, qs[i])
    {
      EmittedAllBuildAt(desc, qs, accepts, i);
    }
  }

  /** Isolation and order around one record: the samples of record i are
      sent, unaltered, between those of the records before it and those of
      the records after it, whatever the other records are. */
  lemma EmittedRecordAt(desc: Desc, qs: seq<QuotaCost>, accepts: Acceptor, i: nat)
    requires i < |qs|
    ensures EmittedMetrics(desc, qs, accepts) ==
      EmittedMetrics(desc, qs[..i], accepts) + RecordMetrics(desc, qs[i], accepts) + EmittedMetrics(desc, qs[i + 1..], accepts)
    ensures EmittedFailures(qs, accepts) ==
      EmittedFailures(qs[..i], accepts) + RecordFailures(qs[i], accepts) + EmittedFailures(qs[i + 1..], accepts)
  {
    assert qs == qs[..i] + [qs[i]] + qs[i + 1..];
    EmittedMetricsAppend(desc, qs[..i] + [qs[i]], qs[i + 1..], accepts);
    EmittedMetricsSnoc(desc, qs[..i], qs[i], accepts);
    EmittedFailuresAppend(qs[..i] + [qs[i]], qs[i + 1..], accepts);
    EmittedFailuresSnoc(qs[..i], qs[i], accepts);
  }

  /** Upstream order is kept: for records i < j, every sample of record i is
      sent before every sample of record j. */
  lemma EmittedOrder(desc: Desc, qs: seq<QuotaCost>, accepts: Acceptor, i: nat, j: nat)
    requires i < j < |qs|
    ensures EmittedMetrics(desc, qs, accepts) ==
      EmittedMetrics(desc, qs[..i], accepts) + RecordMetrics(desc, qs[i], accepts)
      + EmittedMetrics(desc, qs[i + 1..j], accepts) + RecordMetrics(desc, qs[j], accepts)
      + EmittedMetrics(desc, qs[j + 1..], accepts)
  {
    EmittedRecordAt(desc, qs, accepts, j);
    var front := qs[..j];
    EmittedRecordAt(desc, front, accepts, i);
    assert front[..i] == qs[..i];
    assert front[i] == qs[i];
    assert front[i + 1..] == qs[i + 1..j];
  }

  /** No two records share both their organization id and their quota id. */
  predicate DistinctKeys(qs: seq<QuotaCost>) {
    forall i, j :: 0 <= i < j < |qs| ==>
      qs[i].organizationId != qs[j].organizationId || qs[i].quotaId != qs[j].quotaId
  }

  /** Records with pairwise different (organization, quota) pairs give
      samples with pairwise different label values: the samples of distinct
      records never collide, even when they share a quota id. The collector
      does not check this itself; duplicates upstream pass through. */

  lemma {:induction false} EmittedDistinctSeries(desc: Desc, qs: seq<QuotaCost>, accepts: Acceptor)
    requires DistinctKeys(qs)
    ensures forall a, b :: 0 <= a < b < |EmittedMetrics(desc, qs, accepts)| ==>
      EmittedMetrics(desc, qs, accepts)[a].labelValues != EmittedMetrics(desc, qs, accepts)[b].labelValues
  {
    if qs != [] {
      var rest := qs[1..];
      DistinctKeysTail(qs);
      EmittedDistinctSeries(desc, rest, accepts);
      var head := RecordMetrics(desc, qs[0], accepts);
      var tail := EmittedMetrics(desc, rest, accepts);
      var r := head + tail;
      assert EmittedMetrics(desc, qs, accepts) == r;
      RecordMetricsShape(desc, qs[0], accepts);
      forall a, b | 0 <= a < b < |r| ensures r[a].labelValues != r[b].labelValues {
        if b < |head| {
          assert r[a] == ConsumedMetric(desc, qs[0]) && r[b] == AllowedMetric(desc, qs[0]);
        } else if a < |head| {
          assert r[a] == head[a] && r[b] == tail[b - |head|];
          HeadTailSeries(desc, qs, accepts, head[a], tail[b - |head|]);
        } else {
          assert r[a] == tail[a - |head|] && r[b] == tail[b - |head|];
        }
      }
    }
  }

  lemma DistinctKeysTail(qs: seq<QuotaCost>)
    requires DistinctKeys(qs) && qs != []
    ensures DistinctKeys(qs[1..])
  {
    var rest := qs[1..];
    forall i, j | 0 <= i < j < |rest|
      ensures rest[i].organizationId != rest[j].organizationId || rest[i].quotaId != rest[j].quotaId
    {
      assert rest[i] == qs[i + 1] && rest[j] == qs[j + 1];
    }
  }

  /** A sample of the first record and a sample of a later one never share
      their label values. */
  lemma HeadTailSeries(desc: Desc, qs: seq<QuotaCost>, accepts: Acceptor, m: Metric, n: Metric)
    requires DistinctKeys(qs) && qs != []
    requires m in RecordMetrics(desc, qs[0], accepts) && n in EmittedMetrics(desc, qs[1..], accepts)
    ensures m.labelValues != n.labelValues
  {
    RecordMetricsShape(desc, qs[0], accepts);
    EmittedMetricsMembership(desc, qs[1..], accepts, n);
    var k :| 0 <= k < |qs[1..]| && Yields(desc, qs[1..][k], accepts, n);
    assert qs[1..][k] == qs[k + 1];
    assert qs[0].organizationId != qs[k + 1].organizationId || qs[0].quotaId != qs[k + 1].quotaId;
  }

  // ---------------------------------------------------------------------------
  // Whole scrapes, through the collector object.

  /** A freshly built collector publishes exactly one descriptor, with the
      fixed name, help text and label schema. */
  method DescribeNewCollector(client: QuotaCostClient) returns (descs: seq<Desc>)
    ensures |descs| == 1
    ensures descs[0].fqName == "ocm_quota_cost"
    ensures descs[0].help == "Openshift Cluster Manager Quota Costs"
    ensures descs[0].variableLabels == ["organization_id", "quota_id", "type"]
  {
    var c := new OcmCollector(client);
    var ch := new Channel<Desc>();
    c.Describe(ch);
    descs := ch.sent;
  }

  /** Two scrapes of one collector over the same upstream outcome send the
      same samples and print the same diagnostics: the collector keeps no
      state between scrapes. */
  method ScrapeTwice(c: OcmCollector, response: Result<seq<QuotaCost>, FetchError>, accepts: Acceptor)
    returns (first: seq<Metric>, second: seq<Metric>, firstLog: seq<LogLine>, secondLog: seq<LogLine>)
    ensures first == second && firstLog == secondLog
    ensures first == CollectedMetrics(c.quotas, response, accepts)
  {
    var ch1 := new Channel<Metric>();
    var out1 := new Channel<LogLine>();
    c.Collect(response, accepts, ch1, out1);
    var ch2 := new Channel<Metric>();
    var out2 := new Channel<LogLine>();
    c.Collect(response, accepts, ch2, out2);
    first, second, firstLog, secondLog := ch1.sent, ch2.sent, out1.sent, out2.sent;
  }

  /** A scrape whose list request fails sends nothing and prints one line. */
  method ScrapeFetchFailure(client: QuotaCostClient, cause: FetchError, accepts: Acceptor)
    returns (metrics: seq<Metric>, log: seq<LogLine>)
    ensures metrics == [] && log == [QuotaCostsUnavailable(cause)]
  {
    var c := new OcmCollector(client);
    var ch := new Channel<Metric>();
    var out := new Channel<LogLine>();
    c.Collect(Err(cause), accepts, ch, out);
    metrics, log := ch.sent, out.sent;
  }

  /** One record {o1, q1, consumed 5, allowed 10}, both samples accepted:
      the two samples (o1, q1, consumed) = 5 and (o1, q1, allowed) = 10. */
  method ScrapeSingleRecord(client: QuotaCostClient) returns (metrics: seq<Metric>, log: seq<LogLine>)
    ensures |metrics| == 2 && log == []
    ensures metrics[0].value == 5 && metrics[0].labelValues == ["o1", "q1", "consumed"]
    ensures metrics[1].value == 10 && metrics[1].labelValues == ["o1", "q1", "allowed"]
  {
    var c := new OcmCollector(client);
    var ch := new Channel<Metric>();
    var out := new Channel<LogLine>();
    var record := QuotaCost("o1", "q1", 5, 10);
    c.Collect(Ok([record]), (v, labels) => true, ch, out);
    assert [record][1..] == [];
    metrics, log := ch.sent, out.sent;
  }

  /** Two records sharing a quota id under different organizations give four
      samples with four different label tuples. */
  method ScrapeSharedQuotaId(client: QuotaCostClient, accepts: Acceptor) returns (metrics: seq<Metric>)
    requires forall v, labels :: accepts(v, labels)
    ensures |metrics| == 4
    ensures forall a, b :: 0 <= a < b < |metrics| ==> metrics[a].labelValues != metrics[b].labelValues
  {
    var c := new OcmCollector(client);
    var ch := new Channel<Metric>();
    var out := new Channel<LogLine>();
    var records := [QuotaCost("o1", "q1", 1, 2), QuotaCost("o2", "q1", 3, 4)];
    c.Collect(Ok(records), accepts, ch, out);
    EmittedAllBuild(c.quotas, records, accepts);
    EmittedDistinctSeries(c.quotas, records, accepts);
    metrics := ch.sent;
  }
}
