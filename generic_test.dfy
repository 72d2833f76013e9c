/** The scenarios of sinks/generic/generic_test.go, stated about the model.
    Each is stated for any tags of the tests' shape ("key:value" with
    distinct colon-free keys); the tests' own tags are instances. */
module GenericTest {
  import opened Tags
  import opened Batching
  import opened Generic

  /** Two "key:value" tags with distinct colon-free keys parse to the map
      holding both pairs. */
  lemma ParseTwoTags(tag1: string, tag2: string, k1: string, v1: string, k2: string, v2: string)
    requires tag1 == k1 + ":" + v1 && tag2 == k2 + ":" + v2
    requires ':' !in k1 && ':' !in k2 && k1 != k2
    ensures ParseTagSliceToMap([tag1, tag2]) == map[k1 := v1, k2 := v2]
  {
    SplitJoin(k1, v1);
    SplitJoin(k2, v2);
    var tags := [tag1, tag2];
    assert tags[..1] == [tag1];
    assert [tag1][..0] == [];
    assert ParseTagSliceToMap(tags[..1]) == map[k1 := v1];
  }

  /** The tests' first tag list, ["fnord:xyzzy", "qux:quux"]. */
  lemma ParseFnordQux()
    ensures ParseTagSliceToMap(["fnord:xyzzy", "qux:quux"]) == map["fnord" := "xyzzy", "qux" := "quux"]
  {
    ParseTwoTags("fnord:xyzzy", "qux:quux", "fnord", "xyzzy", "qux", "quux");
  }

  lemma OneSampleOneRecord(m: InterMetric, serverTags: seq<string>, source: string,
                            environment: string, namespace: string)
    ensures ToGenericMetrics([m], serverTags, source, environment, namespace).Metrics
         == [ToGenericMetric(m, serverTags, source)]
  {
    RecordsAt([m], serverTags, source);
  }

  /** TestConvertInterToGeneric: without server tags the record's tags are
      the sample's own. */
  lemma ConvertInterToGenericTags(m: InterMetric, source: string, environment: string, namespace: string,
                                  k1: string, v1: string, k2: string, v2: string)
    requires m.Tags == [k1 + ":" + v1, k2 + ":" + v2]
    requires ':' !in k1 && ':' !in k2 && k1 != k2
    ensures ToGenericMetrics([m], [], source, environment, namespace).Metrics[0].Tags
         == map[k1 := v1, k2 := v2]
  {
    assert m.Tags + [] == m.Tags;
    ParseTwoTags(m.Tags[0], m.Tags[1], k1, v1, k2, v2);
    OneSampleOneRecord(m, [], source, environment, namespace);
  }

  /** TestAddServerTags: the server tags are added to the sample's tags. */
  lemma AddServerTags(m: InterMetric, serverTags: seq<string>, source: string,
                      environment: string, namespace: string,
                      k1: string, v1: string, k2: string, v2: string,
                      k3: string, v3: string, k4: string, v4: string)
    requires m.Tags == [k1 + ":" + v1, k2 + ":" + v2]
    requires serverTags == [k3 + ":" + v3, k4 + ":" + v4]
    requires ':' !in k1 && ':' !in k2 && ':' !in k3 && ':' !in k4
    requires k1 != k2 && k3 != k4
    ensures ToGenericMetrics([m], serverTags, source, environment, namespace).Metrics[0].Tags
         == map[k1 := v1, k2 := v2] + map[k3 := v3, k4 := v4]
  {
    ParseAppend(m.Tags, serverTags);
    ParseTwoTags(m.Tags[0], m.Tags[1], k1, v1, k2, v2);
    ParseTwoTags(serverTags[0], serverTags[1], k3, v3, k4, v4);
    OneSampleOneRecord(m, serverTags, source, environment, namespace);
  }

  /** Ten samples with a batch size of five go out as two batches, the
      first five and the last five. */
  lemma TenSamplesInTwoBatches<T>(s: seq<T>)
    requires |s| == 10
    ensures Batches(s, 5) == [s[..5], s[5..]]
  {
    var b := Batches(s, 5);
    BatchesCount(s, 5);
    assert |b| == 2;
    BatchesAt(s, 5, 0);
    BatchesAt(s, 5, 1);
    assert b[0] == s[..5];
    assert b[1] == s[5..10] == s[5..];
  }

  /** TestFlush: two samples with a batch size of 1000 and no server tags
      are posted to the endpoint as one request holding both records, with
      the tag maps the test expects, and one log line counts both samples. */
  method FlushTwoSamples(endpoint: string, source: string, environment: string, namespace: string,
                         ts0: int64, ts1: int64,
                         k1: string, v1: string, k2: string, v2: string,
                         k3: string, v3: string, k4: string, v4: string)
    returns (sink: GenericMetricSink, err: Option<Error>)
    requires ':' !in k1 && ':' !in k2 && ':' !in k3 && ':' !in k4
    requires k1 != k2 && k3 != k4
    ensures err == None
    ensures sink.posted == [Request("POST", endpoint, GenericMetrics(
              [ GenericMetric("counter.foo", 42.0, source, ts0 as real, map[k1 := v1, k2 := v2]),
                GenericMetric("gauge.bar", 42.0, source, ts1 as real, map[k3 := v3, k4 := v4]) ],
              environment, namespace), "flush_metrics", false)]
    ensures |sink.log| == 1 && sink.log[0].metrics == 2
  {
    sink := new GenericMetricSink([], endpoint, 1000, source, environment, namespace);
    var tags0 := [k1 + ":" + v1, k2 + ":" + v2];
    var tags1 := [k3 + ":" + v3, k4 + ":" + v4];
    var m0 := InterMetric("counter.foo", ts0, 42.0, tags0, CounterMetric);
    var m1 := InterMetric("gauge.bar", ts1, 42.0, tags1, GaugeMetric);
    var inMetrics := [m0, m1];
    ghost var entries;
    err, entries := sink.Flush(inMetrics);

    assert Batches(inMetrics, 1000) == [inMetrics] by {
      BatchesStep(inMetrics, 1000);
      assert inMetrics[..2] == inMetrics;
      assert |inMetrics[2..]| == 0;
    }
    sink.RequestsForAppend([], [], inMetrics);
    assert [] + [inMetrics] == [inMetrics];
    assert sink.posted == [sink.RequestFor(inMetrics)];

    ConvertedContents(inMetrics, [], source, environment, namespace);
    assert tags0 + [] == tags0 && tags1 + [] == tags1;
    ParseTwoTags(tags0[0], tags0[1], k1, v1, k2, v2);
    ParseTwoTags(tags1[0], tags1[1], k3, v3, k4, v4);
    var g := ToGenericMetrics(inMetrics, [], source, environment, namespace);
    assert g.Metrics[0] == GenericMetric("counter.foo", 42.0, source, ts0 as real, map[k1 := v1, k2 := v2]);
    assert g.Metrics[1] == GenericMetric("gauge.bar", 42.0, source, ts1 as real, map[k3 := v3, k4 := v4]);
    assert g.Metrics == [g.Metrics[0], g.Metrics[1]];

    SizesAppend([], inMetrics);
    CountsAt(entries);
    assert [] + [inMetrics] == [inMetrics];
  }
}
