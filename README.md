# Generic metric sink — a Dafny model

This project models the generic JSON metric sink of veneur
(`sinks/generic/generic.go`). The sink receives aggregated metric samples
(`InterMetric`: name, value, timestamp, tag strings, kind) and converts them
into records (`GenericMetric`: metric, value, source, at, tag map). It groups
the records under the sink's environment and namespace (`GenericMetrics`) and
posts them to an HTTP endpoint, one request per batch of at most `BatchSize`
samples.

Files and modules:

- `tags.dfy`, module `Tags` — the tag parsing the sink calls
  (`samplers.ParseTagSliceToMap`). Its source is not part of this model. It is
  modelled as the sink assumes it behaves: each string is split at its first
  `:`; a string without `:` is a key with the empty value; the strings are
  applied left to right, so a later key overwrites an earlier one. This
  agrees with the maps the tests expect (`sinks/generic/generic_test.go`,
  lines 65-69 and 87-92).
- `batching.dfy`, module `Batching` — the chunking `Flush` performs, as a
  function `Batches`, with the lemmas about it: partition, count, closed form.
- `generic.dfy`, module `Generic` — the record types, the converter as pure
  functions, and the class `GenericMetricSink`. The class has the sink's
  configuration as `const` fields (the sink never changes them) and
  `traceClient` as a `var` set by `Start`. Two ghost fields record what the
  sink does to the outside world: `posted` (every HTTP request, in order) and
  `log` (every log line, in order). `ConvertInterToGeneric` and `Flush` are
  methods with the source's loops. Each is proved against the functions
  specified in `Generic` and `Batching`.
- `generic_test.dfy`, module `GenericTest` — the scenarios of
  `generic_test.go`, and the ten-samples-in-batches-of-five example.
  `FlushTwoSamples` is a client method that builds a sink with batch size 1000,
  flushes two samples, and proves that one request with both records was
  posted to the endpoint.

The HTTP transport (`vhttp.PostHelper`) is the method `Generic.PostHelper`. It
picks success or failure nondeterministically, so nothing proved about
`Flush` depends on the outcome of a delivery. Conversion is a function of its
inputs and the sink's constant fields, so calling it twice gives the same
result.

## Model

| member | source | states |
|---|---|---|
| `Tags.SplitFirstColon` | sinks/generic/generic.go:127 | The assumed split of one tag string: the key is everything before the first `:` and the value everything after it. A tag without `:` is all key, with an empty value. |
| `Tags.ParseTagSliceToMap` | sinks/generic/generic.go:127 | The assumed `samplers.ParseTagSliceToMap`: a left-to-right fold that stores each tag's key and value, so a later tag overwrites an earlier one with the same key. |
| `Tags.SplitFirstColonSpec` | sinks/generic/generic.go:127 | The key of a tag never contains `:`. If the tag has a `:`, key + `:` + value gives the tag back. If it has none, the key is the whole tag and the value is empty. |
| `Tags.SplitJoin` | sinks/generic/generic.go:127 | Round trip: splitting `key + ":" + value`, with a colon-free key, gives back exactly that key and value. |
| `Tags.ParseKeys` | sinks/generic/generic.go:127 | A key is in the parsed map if and only if some tag string has that key. |
| `Tags.ParseLastWins` | sinks/generic/generic.go:126-127 | The value stored for a key is the value of the last tag string with that key. |
| `Tags.ParseAppend` | sinks/generic/generic.go:126-127 | Parsing `a + b` equals the map union of parse(a) and parse(b), with b winning on shared keys. This is what parsing the sample tags followed by the server tags relies on. |
| `Batching.NextBatchSize` | sinks/generic/generic.go:85-89 | The next batch length is the batch size or all that remains, and never more than either. For positive batch size and positive remainder it is positive. |
| `Batching.ZeroBatchSizeStalls` | sinks/generic/generic.go:85-91 | With batch size 0 and a non-empty remainder, the batch is empty and the remainder is unchanged, so the loop never ends. |
| `Batching.NegativeBatchSizeIsNoSliceBound` | sinks/generic/generic.go:85-90 | With a negative batch size, the computed length is negative, so `metrics[:batchSize]` panics. |
| `Batching.Batches` | sinks/generic/generic.go:84-91 | The batches `Flush` hands to `flushBatch`, in call order: take the first `NextBatchSize(remaining, B)` samples, continue with the rest, stop when nothing remains. Defined for `B > 0`, and for an empty input with any `B` (no batches, since the loop is never entered). |
| `Batching.SizesAt` | sinks/generic/generic.go:92 | `Sizes` lists each batch's length, one entry per batch, in order. |
| `Batching.BatchesConcat` | sinks/generic/generic.go:84-93 | Concatenating the batches in call order gives back the input exactly: nothing dropped, duplicated or reordered. |
| `Batching.BatchesBounded` | sinks/generic/generic.go:85-90 | Every batch is non-empty and holds at most `BatchSize` samples. |
| `Batching.BatchesCount` | sinks/generic/generic.go:84-93 | There are exactly ceil(M / B) batches, that is (M + B - 1) / B. In particular an empty input gives none. |
| `Batching.BatchesAt` | sinks/generic/generic.go:84-92 | Batch i is the input slice from i·B up to min((i+1)·B, M): a contiguous, order-preserving partition taken from the front. |
| `Generic.ToGenericMetric` | sinks/generic/generic.go:126-134 | The record for one sample: its name, value and source, `at` = the timestamp, and the parse of the sample tags followed by the server tags. |
| `Generic.Records` | sinks/generic/generic.go:124-136 | The records for a list of samples, built by appending one record per sample in input order. |
| `Generic.ToGenericMetrics` | sinks/generic/generic.go:123-142 | The batch `convertInterToGeneric` returns: the records of the samples with the given environment and namespace. |
| `Generic.RecordsAppend` | sinks/generic/generic.go:124-136 | Converting a concatenation of samples gives the records of each part, concatenated in order. |
| `Generic.RecordsAt` | sinks/generic/generic.go:124-136 | The appended record list has one record per sample, and record i is the conversion of sample i. |
| `Generic.ConvertedContents` | sinks/generic/generic.go:123-142 | One record per sample, in order. Each record copies the sample's name, value and timestamp (as `at`), carries the sink's source, and has the parse of the sample tags followed by the server tags. The batch carries the given environment and namespace, also when there are no samples. |
| `Generic.ServerTagsTakePrecedence` | sinks/generic/generic.go:126-127 | A record's tag keys are the union of sample and server keys. A server tag's value wins on a shared key. A sample tag the server does not set keeps its value. |
| `Generic.PostHelper` | sinks/generic/generic.go:99-110 | The HTTP transport: it may report success or a transport error for any request, with either outcome possible. |
| `Generic.CountsAt` | sinks/generic/generic.go:111-120 | `Counts` lists the sample count each log line reports, one per line, in order. |
| `Generic.FlushedLogCount` | sinks/generic/generic.go:84-93 | When the log lines' counts are the batch sizes, as `Flush` promises, there are exactly ceil(M / B) log lines. |
| `Generic.FlushedLogAt` | sinks/generic/generic.go:84-120 | Log line i then reports min((i + 1)·B, M) - i·B samples, the size of batch i. |
| `Generic.GenericMetricSink.constructor` | sinks/generic/generic.go:47-68 | `NewGenericMetricSink` keeps the tags, endpoint, batch size, source, environment and namespace as given. No trace client is attached yet, and nothing is posted or logged. |
| `Generic.GenericMetricSink.Name` | sinks/generic/generic.go:71-73 | The sink's name is `"generic"`. |
| `Generic.GenericMetricSink.Start` | sinks/generic/generic.go:76-79 | Stores the given trace client, which may be nil (`None`). It returns no error and changes nothing else. |
| `Generic.GenericMetricSink.RequestFor` | sinks/generic/generic.go:98-110 | The request `flushBatch` hands to the transport for one batch: POST to the sink's endpoint, body the converted batch, operation `flush_metrics`, uncompressed. |
| `Generic.GenericMetricSink.RequestsForAt` | sinks/generic/generic.go:84-93 | `RequestsFor` has one request per batch, request i being the one for batch i. |
| `Generic.GenericMetricSink.RequestsForRecords` | sinks/generic/generic.go:92-136 | The records carried by the requests for a sequence of batches are the records of the batches' concatenation. |
| `Generic.GenericMetricSink.FlushedRequestCount` | sinks/generic/generic.go:84-93 | `Flush` posts exactly ceil(M / B) requests. |
| `Generic.GenericMetricSink.FlushedRequestAt` | sinks/generic/generic.go:84-92 | Request i that `Flush` posts carries the conversion of samples i·B up to min((i + 1)·B, M). |
| `Generic.GenericMetricSink.FlushedRecords` | sinks/generic/generic.go:84-136 | Together, the requests `Flush` posts carry one record per input sample, in input order: nothing dropped, duplicated or reordered. |
| `Generic.GenericMetricSink.ConvertInterToGeneric` | sinks/generic/generic.go:123-142 | The loop yields exactly the batch that `ToGenericMetrics` specifies for the sink's server tags, source, environment and namespace. The properties above then hold of it. It changes no state. |
| `Generic.GenericMetricSink.FlushBatch` | sinks/generic/generic.go:97-121 | Posts exactly one request: POST to the endpoint, body the converted batch, operation `flush_metrics`, uncompressed. Appends exactly one log line with the batch's size, whether delivery succeeded or failed. |
| `Generic.GenericMetricSink.Flush` | sinks/generic/generic.go:82-95 | Callable with `BatchSize > 0`, or with an empty input and any batch size. The loop terminates. The requests posted are exactly one per element of `Batches(metrics, BatchSize)`, in order, so an empty input posts nothing. The log gains one line per batch, carrying that batch's size. The result is always success (no error), whatever each delivery returned. The `Flushed…` lemmas turn this into counts and slices. |
| `GenericTest.ParseFnordQux` | sinks/generic/generic_test.go:61-69 | The test's tags `fnord:xyzzy`, `qux:quux` parse to `{fnord: xyzzy, qux: quux}`. |
| `GenericTest.ConvertInterToGenericTags` | sinks/generic/generic_test.go:51-70 | Without server tags, one sample with two `key:value` tags (distinct colon-free keys) converts to a record whose tag map holds exactly those two pairs. |
| `GenericTest.AddServerTags` | sinks/generic/generic_test.go:72-94 | With two server tags, the record's map is the sample's two pairs joined with the server's two pairs. |
| `GenericTest.FlushTwoSamples` | sinks/generic/generic_test.go:96-170 | TestFlush: a sink with no server tags and batch size 1000 flushes two samples, each with two `key:value` tags. The flush returns no error and posts exactly one request to the endpoint, carrying the two expected records (names, value 42, source, timestamps and tag maps) under the environment and namespace. One log line counts two samples. |
| `GenericTest.TenSamplesInTwoBatches` | sinks/generic/generic.go:84-93 | Ten samples with batch size 5 go out as exactly two batches: samples 0-4, then 5-9. |

## Findings

| source | as written | input that shows it | evidently intended | confidence | as-written member | corrected member |
|---|---|---|---|---|---|---|
| sinks/generic/generic.go:85-91 | `NewGenericMetricSink` accepts any `batchSize`, and `Flush` takes `min(len, BatchSize)` as the batch length | `BatchSize = 0` with one sample: each pass takes an empty batch and leaves the slice unchanged, so `Flush` never returns | a non-positive batch size is rejected, and every flush terminates | not executed | `Batching.ZeroBatchSizeStalls` | `Generic.GenericMetricSink.Flush` (requires `BatchSize > 0` for a non-empty input; proved to terminate and to post the input as a partition) |
| sinks/generic/generic.go:85-90 | a negative `BatchSize` is taken as the batch length | `BatchSize = -1` with one sample: `metrics[:-1]` panics | as above | not executed | `Batching.NegativeBatchSizeIsNoSliceBound` | `Generic.GenericMetricSink.Flush` |

## Left out

- HTTP delivery: the HTTP client, request encoding, compression and tracing inside `vhttp.PostHelper`. These are foreign calls. A delivery is recorded as a `Request` value in the ghost `posted` field, and its outcome is a nondeterministic success or error.
- The `context.Context` arguments and the trace client passed to `PostHelper`. They do not affect what is posted, so `Request` leaves them out.
- Logging through logrus: the log is the ghost `log` field, with one entry per batch. Each entry is `Completed(n)` for the info line or `Failed(n, error)` for the warning. Message text and fields are not modelled.
- JSON serialisation and the struct field tags (sinks/generic/generic.go:30-41). One consequence not modelled: for an empty input Go's `genMetrics` stays a nil slice, which encodes as JSON `null`. The model uses the empty sequence.
- Floating point: `Value` and `At` are Dafny `real`s that are only copied. `At` is the timestamp converted exactly, so float64 rounding of timestamps above 2^53 is not modelled. NaN and infinities are not modelled either.
- `samplers.ParseTagSliceToMap` and `samplers.InterMetric` are not part of this model. The parser is the stated assumption in `Tags`. `MetricType` lists only the two kinds the tests use, since the sink never inspects the kind.
- Aliasing: `append(metric.Tags, gm.Tags...)` may write into the caller's backing array when it has spare capacity. Sequences are values here, so that effect is not captured.
- `FlushOtherSamples` (sinks/generic/generic.go:145): it does nothing, so there is nothing to model.
- The `sinks.MetricSink` interface assertion (sinks/generic/generic.go:44), and `NewGenericMetricSink`'s error result, which is always nil.
- Concurrency: `Flush` is sequential, and the model has no concurrent callers.
- The round-tripper test harness (sinks/generic/generic_test.go:20-49) and `worker_test.go`, which exercises a `Worker` whose source is not part of this model.
