/** The generic JSON metric sink (sinks/generic/generic.go): it converts
    aggregated metric samples into records grouped under an environment and
    a namespace, and posts them to an HTTP endpoint in batches. */
module Generic {
  import opened Tags
  import opened Batching

  datatype Option<T> = None | Some(value: T)

  /** The opaque error a delivery can report; its contents only reach the log. */
  datatype Error = TransportError

  /** Go's int64 timestamp (seconds since the epoch). */
  newtype int64 = x: int | -0x8000_0000_0000_0000 <= x < 0x8000_0000_0000_0000

  /** The sample kind, abridged to the kinds the tests use. It is carried
      unchanged; the sink never looks at it. */
  datatype MetricType = CounterMetric | GaugeMetric

  /** An aggregated sample as the sink receives it. Value stands for the
      float64 measurement and is only copied. */
  datatype InterMetric = InterMetric(
    Name: string,
    Timestamp: int64,
    Value: real,
    Tags: seq<string>,
    Type: MetricType)

  /** One exported record. */
  datatype GenericMetric = GenericMetric(
    Metric: string,
    Value: real,
    Source: string,
    At: real,
    Tags: map<string, string>)

  /** One exported batch with its common environment and namespace. */
  datatype GenericMetrics = GenericMetrics(
    Metrics: seq<GenericMetric>,
    Environment: string,
    Namespace: string)

  /** The record for one sample: its own tags are parsed followed by the
      server tags, so a server tag overrides a sample tag of the same key. */
  function ToGenericMetric(metric: InterMetric, serverTags: seq<string>, source: string): GenericMetric
  {
    GenericMetric(metric.Name, metric.Value, source, metric.Timestamp as real,
                  ParseTagSliceToMap(metric.Tags + serverTags))
  }

  /** The records for a list of samples, built by appending one per sample. */
  function Records(metrics: seq<InterMetric>, serverTags: seq<string>, source: string): seq<GenericMetric>
  {
    if metrics == [] then []
    else Records(metrics[..|metrics| - 1], serverTags, source)
         + [ToGenericMetric(metrics[|metrics| - 1], serverTags, source)]
  }

  /** The batch convertInterToGeneric produces for a list of samples. */
  function ToGenericMetrics(metrics: seq<InterMetric>, serverTags: seq<string>, source: string,
                            environment: string, namespace: string): GenericMetrics
  {
    GenericMetrics(Records(metrics, serverTags, source), environment, namespace)
  }

  /** One record per sample, in order, each copying the sample's name, value
      and timestamp, stamped with the source, and tagged with the parse of
      the sample's tags followed by the server tags; the batch carries the
      given environment and namespace whatever the samples, none included. */
  lemma {:induction false} ConvertedContents(metrics: seq<InterMetric>, serverTags: seq<string>, source: string,
                                             environment: string, namespace: string)
    ensures var g := ToGenericMetrics(metrics, serverTags, source, environment, namespace);
      && g.Environment == environment
      && g.Namespace == namespace
      && |g.Metrics| == |metrics|
      && forall i :: 0 <= i < |metrics| ==>
           && g.Metrics[i].Metric == metrics[i].Name
           && g.Metrics[i].Value == metrics[i].Value
           && g.Metrics[i].Source == source
           && g.Metrics[i].At == metrics[i].Timestamp as real
           && g.Metrics[i].Tags == ParseTagSliceToMap(metrics[i].Tags + serverTags)
  {
    RecordsAt(metrics, serverTags, source);
  }

  lemma {:induction false} RecordsAt(metrics: seq<InterMetric>, serverTags: seq<string>, source: string)
    ensures |Records(metrics, serverTags, source)| == |metrics|
    ensures forall i :: 0 <= i < |metrics| ==>
      Records(metrics, serverTags, source)[i] == ToGenericMetric(metrics[i], serverTags, source)
  {
    if metrics != [] {
      var init := metrics[..|metrics| - 1];
      RecordsAt(init, serverTags, source);
      forall i | 0 <= i < |init| ensures init[i] == metrics[i] { }
    }
  }

  /** Converting a concatenation of samples gives the records of each part,
      in order. */
  lemma {:induction false} RecordsAppend(a: seq<InterMetric>, b: seq<InterMetric>, serverTags: seq<string>,
                                         source: string)
    ensures Records(a + b, serverTags, source) == Records(a, serverTags, source) + Records(b, serverTags, source)
  {
    if b == [] {
      assert a + b == a;
    } else {
      var init := b[..|b| - 1];
      RecordsAppend(a, init, serverTags, source);
      assert (a + b)[..|a + b| - 1] == a + init;
      assert (a + b)[|a + b| - 1] == b[|b| - 1];
    }
  }

  /** A record's tag keys are those of the sample and of the server; a server
      tag's value wins over a sample tag's, and a sample tag whose key the
      server does not set keeps its value. */
  lemma ServerTagsTakePrecedence(metric: InterMetric, serverTags: seq<string>, source: string)
    ensures var tags := ToGenericMetric(metric, serverTags, source).Tags;
      && tags.Keys == ParseTagSliceToMap(metric.Tags).Keys + ParseTagSliceToMap(serverTags).Keys
      && (forall k :: k in ParseTagSliceToMap(serverTags) ==> tags[k] == ParseTagSliceToMap(serverTags)[k])
      && (forall k :: k in ParseTagSliceToMap(metric.Tags) && k !in ParseTagSliceToMap(serverTags) ==>
            tags[k] == ParseTagSliceToMap(metric.Tags)[k])
  {
    ParseAppend(metric.Tags, serverTags);
  }

  /** The HTTP request that flushBatch hands to the transport. */
  datatype Request = Request(
    Method: string,
    Endpoint: string,
    Body: GenericMetrics,
    Action: string,
    Compress: bool)

  /** The log line flushBatch writes: an info line on success and a warning
      with the error on failure, each with the number of samples. */
  datatype LogEntry =
    | Completed(metrics: nat)
    | Failed(metrics: nat, error: Error)

  /** The sample counts the log lines report, in order. */
  ghost function Counts(entries: seq<LogEntry>): seq<nat>
  {
    if entries == [] then []
    else Counts(entries[..|entries| - 1]) + [entries[|entries| - 1].metrics]
  }

  lemma CountsAppend(entries: seq<LogEntry>, entry: LogEntry)
    ensures Counts(entries + [entry]) == Counts(entries) + [entry.metrics]
  {
    assert (entries + [entry])[..|entries|] == entries;
  }

  /** Counts has one entry per log line, the count that line reports. */
  lemma {:induction false} CountsAt(entries: seq<LogEntry>)
    ensures |Counts(entries)| == |entries|
    ensures forall i :: 0 <= i < |entries| ==> Counts(entries)[i] == entries[i].metrics
  {
    if entries != [] {
      var init := entries[..|entries| - 1];
      CountsAt(init);
      forall i | 0 <= i < |init| ensures init[i] == entries[i] { }
    }
  }

  /** The records carried by a sequence of requests, request after request. */
  ghost function PostedRecords(requests: seq<Request>): seq<GenericMetric>
  {
    if requests == [] then []
    else PostedRecords(requests[..|requests| - 1]) + requests[|requests| - 1].Body.Metrics
  }

  lemma PostedRecordsAppend(requests: seq<Request>, request: Request)
    ensures PostedRecords(requests + [request]) == PostedRecords(requests) + request.Body.Metrics
  {
    assert (requests + [request])[..|requests|] == requests;
  }

  /** What Flush logs, in closed form: ceil(M / B) lines for M samples in
      batches of B. */
  lemma FlushedLogCount(metrics: seq<InterMetric>, batchSize: int, entries: seq<LogEntry>)
    requires batchSize > 0
    requires Counts(entries) == Sizes(Batches(metrics, batchSize))
    ensures |entries| == (|metrics| + batchSize - 1) / batchSize
  {
    CountsAt(entries);
    SizesAt(Batches(metrics, batchSize));
    BatchesCount(metrics, batchSize);
  }

  /** Log line i that Flush writes reports the size of batch i,
      min((i + 1) * B, M) - i * B. */
  lemma FlushedLogAt(metrics: seq<InterMetric>, batchSize: int, entries: seq<LogEntry>)
    requires batchSize > 0
    requires Counts(entries) == Sizes(Batches(metrics, batchSize))
    ensures forall i :: 0 <= i < |entries| ==>
      i * batchSize < |metrics| && entries[i].metrics == Min((i + 1) * batchSize, |metrics|) - i * batchSize
  {
    var batches := Batches(metrics, batchSize);
    CountsAt(entries);
    SizesAt(batches);
    assert |entries| == |batches|;
    forall i | 0 <= i < |entries|
      ensures i * batchSize < |metrics| && entries[i].metrics == Min((i + 1) * batchSize, |metrics|) - i * batchSize
    {
      assert entries[i].metrics == Counts(entries)[i] == Sizes(batches)[i] == |batches[i]|;
      BatchLength(metrics, batchSize, i);
    }
  }

  /** An opaque stand-in for the trace client handle. */
  datatype TraceClient = TraceClient(id: nat)

  /** The HTTP transport: it posts a request and reports success or an
      error; which one is not known to the sink. */
  method PostHelper(request: Request) returns (err: Option<Error>)
  {
    var failed: bool :| true;
    err := if failed then Some(TransportError) else None;
  }

  class GenericMetricSink {
    const Tags: seq<string>
    const Endpoint: string
    const BatchSize: int
    const Source: string
    const Environment: string
    const Namespace: string
    var traceClient: Option<TraceClient>

    /** Every request posted so far, in order. */
    ghost var posted: seq<Request>
    /** Every log line written so far, in order. */
    ghost var log: seq<LogEntry>

    /** NewGenericMetricSink: stores the configuration as given. The source's
        error result is always nil, so it is not modelled. */
    constructor (tags: seq<string>, endpoint: string, batchSize: int, source: string,
                 environment: string, namespace: string)
      ensures Tags == tags && Endpoint == endpoint && BatchSize == batchSize
      ensures Source == source && Environment == environment && Namespace == namespace
      ensures traceClient == None
      ensures posted == [] && log == []
    {
      Tags := tags;
      Endpoint := endpoint;
      BatchSize := batchSize;
      Source := source;
      Environment := environment;
      Namespace := namespace;
      traceClient := None;
      posted := [];
      log := [];
    }

    /** The sink's fixed name. */
    function Name(): (name: string)
      ensures name == "generic"
    {
      "generic"
    }

    /** Attaches the trace client (None stands for a nil client, which Go
        stores as well); never fails. */
    method Start(client: Option<TraceClient>) returns (err: Option<Error>)
      modifies this`traceClient
      ensures traceClient == client
      ensures err == None
    {
      traceClient := client;
      err := None;
    }

    /** The request flushBatch posts for one batch of samples. */
    ghost function RequestFor(batch: seq<InterMetric>): Request
    {
      Request("POST", Endpoint, ToGenericMetrics(batch, Tags, Source, Environment, Namespace),
              "flush_metrics", false)
    }

    /** The requests posted for a sequence of batches, in order. */
    ghost function RequestsFor(batches: seq<seq<InterMetric>>): seq<Request>
    {
      if batches == [] then []
      else RequestsFor(batches[..|batches| - 1]) + [RequestFor(batches[|batches| - 1])]
    }

    lemma RequestsForAppend(before: seq<Request>, batches: seq<seq<InterMetric>>, batch: seq<InterMetric>)
      ensures before + RequestsFor(batches + [batch]) == before + RequestsFor(batches) + [RequestFor(batch)]
    {
      assert (batches + [batch])[..|batches|] == batches;
    }

    /** One request per batch, request i being the one for batch i. */
    lemma {:induction false} RequestsForAt(batches: seq<seq<InterMetric>>)
      ensures |RequestsFor(batches)| == |batches|
      ensures forall i :: 0 <= i < |batches| ==> RequestsFor(batches)[i] == RequestFor(batches[i])
    {
      if batches != [] {
        var init := batches[..|batches| - 1];
        RequestsForAt(init);
        forall i | 0 <= i < |init| ensures init[i] == batches[i] { }
      }
    }

    /** The records posted for a sequence of batches are the records of
        their concatenation. */
    lemma {:induction false} RequestsForRecords(batches: seq<seq<InterMetric>>)
      ensures PostedRecords(RequestsFor(batches)) == Records(Flatten(batches), Tags, Source)
    {
      if batches != [] {
        var init, last := batches[..|batches| - 1], batches[|batches| - 1];
        assert batches == init + [last];
        RequestsForRecords(init);
        PostedRecordsAppend(RequestsFor(init), RequestFor(last));
        RecordsAppend(Flatten(init), last, Tags, Source);
        FlattenSnoc(init, last);
      }
    }

    /** Flush posts ceil(M / B) requests. */
    lemma FlushedRequestCount(metrics: seq<InterMetric>)
      requires BatchSize > 0
      ensures |RequestsFor(Batches(metrics, BatchSize))| == (|metrics| + BatchSize - 1) / BatchSize
    {
      RequestsForAt(Batches(metrics, BatchSize));
      BatchesCount(metrics, BatchSize);
    }

    /** Request i that Flush posts carries the conversion of samples i * B up
        to min((i + 1) * B, M). */
    lemma FlushedRequestAt(metrics: seq<InterMetric>)
      requires BatchSize > 0
      ensures var requests := RequestsFor(Batches(metrics, BatchSize));
        forall i :: 0 <= i < |requests| ==>
          && i * BatchSize < |metrics|
          && requests[i] == RequestFor(metrics[i * BatchSize .. Min((i + 1) * BatchSize, |metrics|)])
    {
      RequestsForAt(Batches(metrics, BatchSize));
      BatchesAll(metrics, BatchSize);
    }

    /** The requests Flush posts carry, together, one record per sample in
        the order of the input. */
    lemma FlushedRecords(metrics: seq<InterMetric>)
      requires BatchSize > 0
      ensures PostedRecords(RequestsFor(Batches(metrics, BatchSize))) == Records(metrics, Tags, Source)
    {
      RequestsForRecords(Batches(metrics, BatchSize));
      BatchesConcat(metrics, BatchSize);
    }

    /** convertInterToGeneric: one record per sample, in order, with the
        sink's server tags, source, environment and namespace. */
    method ConvertInterToGeneric(metrics: seq<InterMetric>) returns (genMetrics: GenericMetrics)
      ensures genMetrics == ToGenericMetrics(metrics, Tags, Source, Environment, Namespace)
    {
      var records: seq<GenericMetric> := [];
      for i := 0 to |metrics|
        invariant records == Records(metrics[..i], Tags, Source)
      {
        var metric := metrics[i];
        var inTags := metric.Tags + Tags;
        var outTags := ParseTagSliceToMap(inTags);
        var genMetric := GenericMetric(metric.Name, metric.Value, Source, metric.Timestamp as real, outTags);
        assert metrics[..i + 1][..i] == metrics[..i];
        records := records + [genMetric];
      }
      assert metrics[..|metrics|] == metrics;
      genMetrics := GenericMetrics(records, Environment, Namespace);
    }

    /** flushBatch: converts the batch, posts it, and logs the outcome with
        the batch's size. A failure is only logged. */
    method FlushBatch(metrics: seq<InterMetric>) returns (ghost entry: LogEntry)
      modifies this`posted, this`log
      ensures posted == old(posted) + [RequestFor(metrics)]
      ensures log == old(log) + [entry] && entry.metrics == |metrics|
    {
      var genMetrics := ConvertInterToGeneric(metrics);
      var request := Request("POST", Endpoint, genMetrics, "flush_metrics", false);
      var err := PostHelper(request);
      posted := posted + [request];
      entry := if err.None? then Completed(|metrics|) else Failed(|metrics|, err.value);
      log := log + [entry];
    }

    /** Flush: posts the samples in consecutive batches of BatchSize (the
        last one possibly shorter), one request per batch in order, logs
        one line per batch with its size, and reports success whatever the
        deliveries returned. The ghost result entries is the log lines this
        call wrote. An empty input posts nothing whatever the batch size,
        since the loop is never entered; the Flushed lemmas give the requests
        and log lines in closed form. */
    method Flush(metrics: seq<InterMetric>) returns (err: Option<Error>, ghost entries: seq<LogEntry>)
      requires BatchSize > 0 || metrics == []
      modifies this`posted, this`log
      ensures err == None
      ensures posted == old(posted) + RequestsFor(Batches(metrics, BatchSize))
      ensures log == old(log) + entries
      ensures Counts(entries) == Sizes(Batches(metrics, BatchSize))
    {
      var rest := metrics;
      ghost var done: seq<seq<InterMetric>> := [];
      entries := [];
      while |rest| > 0
        invariant BatchSize > 0 || rest == []
        invariant done + Batches(rest, BatchSize) == Batches(metrics, BatchSize)
        invariant posted == old(posted) + RequestsFor(done)
        invariant log == old(log) + entries
        invariant Counts(entries) == Sizes(done)
        decreases |rest|
      {
        var batchSize := NextBatchSize(|rest|, BatchSize);
        var batch := rest[..batchSize];
        BatchesAdvance(metrics, done, rest, BatchSize);
        rest := rest[batchSize..];
        ghost var entry := FlushBatch(batch);
        RequestsForAppend(old(posted), done, batch);
        CountsAppend(entries, entry);
        SizesAppend(done, batch);
        done := done + [batch];
        entries := entries + [entry];
      }
      assert Batches(rest, BatchSize) == [];
      assert done + [] == done;
      err := None;
    }
  }
}
