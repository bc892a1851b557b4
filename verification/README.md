# prometheus-write: sample registry and batch worker, in Dafny

This project models the aggregation core of `metrics-exporter-prometheus-write`,
a Rust metrics exporter that gathers counter and gauge operations from an
application and pushes them to a Prometheus remote-write endpoint.

The model covers:

- the per-key **sample stream** (`Samples` in `src/registry.rs`). It holds a
  list of `(timestamp, value)` samples and a `sent` flag. Its merge rules are
  `increment`, `set` and `sent`;
- the **registry**: two ordered maps from metric key to sample stream, one
  for counters and one for gauges. Entries are created lazily. The registry
  also has a whole-registry `sent` compaction;
- the **worker** of `src/batcher.rs`. This covers the command types, the
  dispatch of each received command to one registry call, and the snapshot of
  the registry into a remote-write request. It also covers the decision after
  a flush whether the registry is reset, the builder's tick interval, and the
  worker loop.

Everything is a pure function or a method over immutable datatypes:

- `seq<Sample>` plus a `bool` for a stream;
- `map<Key, Samples>` for each registry map;
- a `FlushOutcome` value for what compression and the HTTP request did.

The worker's `select!` over the command channel and the tick timer is
modelled as a sequence of `Event`s. Each event is one receive or one tick.

Files:

- `samples.dfy`: module `SampleStore`.
- `registry.dfy`: module `MetricRegistry`.
- `batcher.dfy`: module `Batcher`.
- `keys.dfy`: module `MetricKeys`. Metric keys, their order, and the ascending
  enumeration an ordered map is walked in.
- `lexicographic.dfy`: lexicographic order on sequences.
- `types.dfy`: the remote-write records.
- `wrappers.dfy`: `Option`.

## Behaviour worth knowing

The model follows the code in every case below.

- A sample folds into the last one only on an **equal** timestamp
  (`src/registry.rs:32`, `:56`). An older timestamp does not fold. An older
  increment or set **appends** a new sample, so a stream is not
  time-ordered. The model has no sortedness invariant.
  `SampleStore.OlderSetAppends` and `SampleStore.OlderIncrementAppends` show
  this on concrete traces.
- An older `set` is not ignored. It appends (`src/registry.rs:59-70`).
- The reset happens only after the HTTP request returns. A compression
  failure or a request failure returns early and leaves the registry exactly
  as it was (`src/batcher.rs:229-253`). The next tick's snapshot then repeats
  those samples, unless an operation at a new timestamp first clears a stream
  that is still marked sent (`src/registry.rs:36-38`, `:60-62`).
  `SampleStore.SentHistoryDroppedAtNewTimestamp` shows this on a concrete trace.
- `src/batcher.rs:269` calls `registry.clear()`, but `src/registry.rs`
  defines no `clear`. The only reset the registry offers is `Registry::sent`
  (`src/registry.rs:103`), and the model resets with that.
- `src/batcher.rs:198` and `:218` put the stream itself (`samples.clone()`)
  into each series. The sample list `Samples::all` (`src/registry.rs:23`) is
  what the wire schema needs there, and the model uses it.

## Model

| member | source | states |
|---|---|---|
| `SampleStore.New` | src/registry.rs:16-21 | A new stream holds exactly the given sample and is not marked sent. |
| `SampleStore.All` | src/registry.rs:23-25 | Definition only, no contract: the samples a stream transmits are its sample list. Its property is stated by `SampleStore.AllAfterSent`, and every series of a snapshot carries it (`Batcher.SeriesList`). |
| `SampleStore.AllAfterSent` | src/registry.rs:23-25 | After a flush compacted a stream, it transmits only the one sample it carries into the next window. |
| `SampleStore.Increment` | src/registry.rs:28-51 | The result is never empty. Its last timestamp is the increment's timestamp. The running value grows by exactly the delta. At an equal timestamp: length, sent flag and all earlier samples are unchanged. At any other timestamp, older or newer: the sent flag is cleared, and the stream is the retained history plus `(ts, previous value + delta)`. The retained history is nothing if the stream was sent, otherwise all of it. |
| `SampleStore.Set` | src/registry.rs:54-75 | The result's last sample is the given sample, so the running value is the set value. At an equal timestamp: length, sent flag and earlier samples are unchanged. At any other timestamp, including an older one: the sample is appended after the retained history and the sent flag is cleared. |
| `SampleStore.Sent` | src/registry.rs:78-86 | The flag is set. Only the former last sample remains, and nothing if the stream was empty. The running value is unchanged. |
| `SampleStore.SentIdempotent` | src/registry.rs:78-86 | Compacting a stream twice equals compacting it once. |
| `SampleStore.RunningTotal` | src/registry.rs:28-51 | Over any interleaving of increments and compactions, the running value equals the initial value plus the sum of all deltas. The carry survives compaction. |
| `SampleStore.NonEmptyPreserved` | src/registry.rs:16-86 | No sequence of increment, set or sent calls empties a non-empty stream. A first increment or set fills an empty one. |
| `SampleStore.IncrementsAccumulate` | src/registry.rs:16-51 | On a new stream, increments whose consecutive timestamps differ leave one sample per increment. Each sample carries the cumulative sum of the deltas up to it. This matches an independently defined running-sums sequence. |
| `SampleStore.IncrementThenSetAtSameTimestamp` | src/registry.rs:28-75 | Trace: increment (100,1), increment (200,1), set (200,10) gives `[(100,1),(200,10)]`. |
| `SampleStore.OlderSetAppends` | src/registry.rs:54-75 | Trace: set (100,1), (200,2), then (100,3) gives `[(100,1),(200,2),(100,3)]`. The older set is appended, not ignored. |
| `SampleStore.OlderIncrementAppends` | src/registry.rs:28-51 | Trace: increment (100,1), (200,1), then (100,1) gives `[(100,1),(200,2),(100,3)]`. The older increment appends the carried total. |
| `SampleStore.SentHistoryDroppedAtNewTimestamp` | src/registry.rs:28-51 | Trace: a new stream at (100,1) is compacted, then incremented by (100,1), which folds to (100,2) and keeps the stream marked sent. An increment by (200,1) then clears it to `[(200,3)]`, so (100,2) is never transmitted if the push in between failed. |
| `MetricKeys.SortedKeys` | src/registry.rs:89-92 | The ordered-map walk visits every key of the map and nothing else, as many times as there are keys. |
| `MetricKeys.SortedKeysAscending` | src/registry.rs:89-92 | The walk is in strictly ascending key order. |
| `MetricKeys.SortedKeysDistinct` | src/registry.rs:89-92 | The walk never visits a key twice. |
| `MetricRegistry.New` | src/registry.rs:95-100 | A new registry has no counters and no gauges. |
| `MetricRegistry.Record` | src/registry.rs:120-124 | Lazy insert. An absent key gets a new stream holding the sample. A present key has its stream incremented or set. No other key changes. The key's running value grows by the sample (add) or becomes it (overwrite). |
| `MetricRegistry.CounterIncrement` | src/registry.rs:114-125 | The gauges are untouched. The counters follow the lazy-insert rule with an increment. The key's counter value grows by the given count. Every stream stays non-empty. |
| `MetricRegistry.CounterSet` | src/registry.rs:128-139 | The gauges are untouched. The counters follow the lazy-insert rule with a set. The key's counter value becomes the given count. |
| `MetricRegistry.GaugeIncrement` | src/registry.rs:142-153 | The counters are untouched. The gauges follow the lazy-insert rule with an increment. The key's gauge value grows by the amount. |
| `MetricRegistry.GaugeDecrement` | src/registry.rs:156-158 | Decrementing by `v` is incrementing by `-v`. The key's gauge value falls by `v`. |
| `MetricRegistry.GaugeSet` | src/registry.rs:161-172 | The counters are untouched. The gauges follow the lazy-insert rule with a set. The key's gauge value becomes the given amount. |
| `MetricRegistry.SentAll` | src/registry.rs:104-110 | The per-map loop: the same keys, each stream replaced by its compaction `Samples::sent`. |
| `MetricRegistry.Sent` | src/registry.rs:103-111 | Every entry of both maps is compacted by the stream's `sent`. Both key sets are unchanged. Every stream stays non-empty. |
| `MetricRegistry.SentKeepsTotals` | src/registry.rs:103-111 | Compaction changes no counter or gauge running value. |
| `MetricRegistry.SentLeavesOneSample` | src/registry.rs:103-111 | After compaction, each stream holds exactly its former last sample. |
| `MetricRegistry.SentIdempotent` | src/registry.rs:103-111 | Compacting the registry twice equals compacting it once. |
| `Batcher.Dispatch` | src/batcher.rs:272-291 | Metadata and a failed receive leave the registry unchanged. A counter operation never touches the gauges, and a gauge operation never touches the counters. Only the command's key changes, by the lazy-insert rule. Increments add, a gauge decrement subtracts, and sets overwrite the running value. |
| `Batcher.LabelsRoundTrip` | src/batcher.rs:184-194 | A label list built from a key reads back as that key. |
| `Batcher.WireLabels` | src/batcher.rs:189-194 | One wire label per key label, in the same order, each with the label's key as name and its value. |
| `Batcher.KeyLabels` | src/batcher.rs:184-194 | The labels of a key's series are `("__name__", name)` followed by the key's labels in order, so there are `1 + number of key labels`. |
| `Batcher.SeriesList` | src/batcher.rs:183-201 | One series per listed key, in the listed order. The series at each position has that key's labels, that key's samples and no exemplars. |
| `Batcher.MapSeriesFor` | src/batcher.rs:183-201 | The series of a map, wherever they are placed in a request, are one per map key in ascending key order. |
| `Batcher.SnapshotIsRequest` | src/batcher.rs:180-227 | The snapshot has one series per counter key, then one per gauge key, each built from its key and its stream, and no metadata. |
| `Batcher.Snapshot` | src/batcher.rs:180-227 | Definition only, no contract: the request of one flush, the counters' series then the gauges', with empty metadata. Its properties are stated by `Batcher.SnapshotIsRequest`, `Batcher.RequestCoversRegistry` and `Batcher.SeriesForDistinct`, and `Batcher.BuildRequest` is proved to build it. |
| `Batcher.SeriesLabels` | src/batcher.rs:184-194 | The label loop builds exactly the key's label list, and that list decodes back to the key. |
| `Batcher.ListSeries` | src/batcher.rs:183-201 | The series loop builds exactly one series per listed key, in the listed order. |
| `Batcher.AppendSeries` | src/batcher.rs:183-201 | Walking a map appends exactly its series, in ascending key order, after the existing series, which are kept. |
| `Batcher.BuildRequest` | src/batcher.rs:180-227 | The request built is the snapshot: one series per counter key, then one per gauge key, and empty metadata. |
| `Batcher.SeriesForCovers` | src/batcher.rs:183-221 | Every key of a map has its series among the positions the map's series occupy. |
| `Batcher.RequestCoversRegistry` | src/batcher.rs:183-221 | Every counter stream appears among the first series of the request, and every gauge stream among the rest. |
| `Batcher.SeriesForDistinct` | src/batcher.rs:183-221 | Within the counter part, or within the gauge part, different series name different keys. |
| `Batcher.Write` | src/batcher.rs:180-269 | The request is the snapshot of the registry as it was before the flush. Compression failure or request failure: the failure is logged and the registry is left exactly as it was. Any response: the registry is compacted by `Registry::sent`. A 4xx status logs a client error and a 5xx status logs a server error, never both. Any other status logs nothing. |
| `Batcher.FlushKeepsTotals` | src/batcher.rs:229-269 | Whatever the flush outcome, both key sets and every running value are unchanged, and every stream stays non-empty. |
| `Batcher.NewBuilder` | src/batcher.rs:35-39 | The default interval between flushes is 100 ms. |
| `Batcher.DefaultBuilder` | src/batcher.rs:61-65 | The `Default` builder also flushes every tenth of a second, as `Builder::new` does. |
| `Batcher.TickInterval` | src/batcher.rs:44-47 | The interval becomes the given duration. |
| `Batcher.TickIntervalLastWins` | src/batcher.rs:44-47 | Of two interval settings, the later one wins. |
| `Batcher.DispatchCounterStep` | src/batcher.rs:275-291 | A received command that does not set a counter moves that counter's running value by exactly its increment, which is zero for any other key or kind. |
| `Batcher.DispatchGaugeStep` | src/batcher.rs:275-291 | A received command that does not set a gauge moves that gauge's running value by its increment or minus its decrement, which is zero for any other key or kind. |
| `Batcher.Step` | src/batcher.rs:273-296 | A receive is dispatched to the registry and produces no request. A tick, and only a tick, produces a request: the snapshot of the registry before the flush. After a tick the registry is compacted by `Registry::sent` if a response came back, and left as it was after a compression or request failure. A tick changes no running value. Every stream stays non-empty. |
| `Batcher.StepState` | src/batcher.rs:272-297 | Definition only, no contract: one turn of the loop. A receive dispatches, a tick compacts with `Registry::sent` after a response and keeps the registry after a failure. `Batcher.Step` is proved to do the same. |
| `Batcher.Replay` | src/batcher.rs:272-297 | Definition only, no contract: the turns of the loop applied first to last. Its properties are stated by `Batcher.ReplayExtend`, `Batcher.ReplayCounterTotals`, `Batcher.ReplayGaugeTotals` and `Batcher.ReplayValid`, and `Batcher.Worker` is proved to reach it. |
| `Batcher.TickRequests` | src/batcher.rs:272-297 | Over a sequence of events, one request is built per tick, whatever the flush outcome. |
| `Batcher.ReplayExtend` | src/batcher.rs:272-297 | One more event takes the registry one more step, and adds a request exactly when the event is a tick. |
| `Batcher.TickRequestIsSnapshot` | src/batcher.rs:272-297 | The request built at a tick is the snapshot of the registry that the events before the tick produced. Its position among the requests is the number of earlier ticks. |
| `Batcher.ReplayCounterTotals` | src/batcher.rs:272-297 | Over any events, with any flush outcomes, a counter that is never set ends at its start value plus every increment received for it. |
| `Batcher.ReplayGaugeTotals` | src/batcher.rs:272-297 | Over any events, with any flush outcomes, a gauge that is never set ends at its start value plus its increments minus its decrements. |
| `Batcher.ReplayValid` | src/batcher.rs:272-297 | No sequence of events empties a stream of the registry. |
| `Batcher.Worker` | src/batcher.rs:272-297 | The worker loop reaches exactly the registry that replaying the events step by step gives, so `Batcher.ReplayCounterTotals` and `Batcher.ReplayGaugeTotals` describe its running values. At each tick it builds the snapshot of the registry just before that tick, so there are as many requests as ticks. The request goes out only if compression succeeds (`src/batcher.rs:229-236`); the outcome decides that, not the list of requests. Every stream stays non-empty. |

## Left out

- `Registry::timestamp_millis` and `SystemTime`: timestamps are plain integer milliseconds. The panic before the epoch and the `as i64` truncation are not modelled.
- f64 arithmetic: values are `real`. Rounding and the lossy `u64 as f64` casts are not modelled.
- The metric key's order comes from the `metrics` crate, which is not part of this model. It is modelled as lexicographic order on the name, then on the label list (labels by key, then value; strings by character).
- Threads, the unbounded crossbeam channel, `select!` fairness and the tick timer (`src/batcher.rs:51-53`, `176-177`, `272-297`). These are concurrency. The worker is a sequential loop over a given event sequence.
- `Builder::install`, the global recorder, `Batcher::send` and `BatcherInner::send`: these are global state and channel I/O. Failed sends are silently dropped, which the model covers by never seeing the command.
- The `Recorder`, `CounterFn` and `GaugeFn` implementations only enqueue commands. The histogram methods panic via `unimplemented!`, so no histogram command exists to model.
- Protobuf encoding, snappy compression, the `ureq` POST, its URL, headers and timeout, and the log text: these are foreign libraries and I/O. Their effect is the `FlushOutcome` input. Logging is recorded only as which error kind was logged.
- Batcher.Write: a response with a 4xx or 5xx status is taken as an outcome the worker can see. With `ureq` 3's default configuration such a status comes back as an error and takes the "Request failed" path, which keeps the registry. The model quantifies over every outcome, so both readings are covered.
- The status classes (4xx client error, 5xx server error) follow the `http` crate's `StatusCode`, which is not part of this model.
- Metadata commands are received and dropped by the worker, as in the source. Their payload is kept only as data.
- `src/lib.rs` (module wiring and the generated `types`) and `examples/*.rs` (demo loops).
