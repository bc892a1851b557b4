/**
 The worker side of `src/batcher.rs`: the commands producers enqueue, the
 dispatch of each received command to one registry call, the snapshot of the
 registry into a remote-write request, the decision after a flush whether the
 registry is reset, the builder's tick interval, and the worker loop itself.

 The worker's `select!` over the command channel and the tick timer is
 modelled as a sequence of events: each event is either one receive on the
 command channel or one tick, and a tick carries what the compression and the
 HTTP request did.
 */
module Batcher {
  import opened Wrappers
  import opened Types
  import opened MetricKeys
  import SampleStore
  import opened MetricRegistry

  // ---------------------------------------------------------------------------
  // Commands

  datatype MetricOperation =
    | IncrementCounter(count: nat)
    | SetCounter(count: nat)
    | IncrementGauge(amount: real)
    | DecrementGauge(amount: real)
    | SetGauge(amount: real)

  datatype Command =
    | Metadata(name: string, kind: MetricType, unit: Option<string>, description: string)
    | Operation(timestamp: int, key: Key, op: MetricOperation)

  /** One receive on the command channel: a command, or an error once every sender is gone. */
  datatype Received = Got(command: Command) | Disconnected

  predicate IsCounterOperation(op: MetricOperation) {
    op.IncrementCounter? || op.SetCounter?
  }

  /**
   Applies one received command to the registry. Counter operations change
   only the command's key among the counters, gauge operations only its key
   among the gauges; increments add to the running value, a gauge decrement
   subtracts, and sets overwrite it. Metadata and a failed receive are ignored.
   */
  function Dispatch(r: Registry, received: Received): (r': Registry)
    ensures !(received.Got? && received.command.Operation?) ==> r' == r
    ensures received.Got? && received.command.Operation? ==>
              var c := received.command;
              match c.op
              case IncrementCounter(v) =>
                && r'.gauges == r.gauges
                && Recorded(r.counters, r'.counters, c.key, Sample(c.timestamp, v as real), Add)
                && Total(r'.counters, c.key) == Total(r.counters, c.key) + v as real
              case SetCounter(v) =>
                && r'.gauges == r.gauges
                && Recorded(r.counters, r'.counters, c.key, Sample(c.timestamp, v as real), Overwrite)
                && Total(r'.counters, c.key) == v as real
              case IncrementGauge(v) =>
                && r'.counters == r.counters
                && Recorded(r.gauges, r'.gauges, c.key, Sample(c.timestamp, v), Add)
                && Total(r'.gauges, c.key) == Total(r.gauges, c.key) + v
              case DecrementGauge(v) =>
                && r'.counters == r.counters
                && Recorded(r.gauges, r'.gauges, c.key, Sample(c.timestamp, -v), Add)
                && Total(r'.gauges, c.key) == Total(r.gauges, c.key) - v
              case SetGauge(v) =>
                && r'.counters == r.counters
                && Recorded(r.gauges, r'.gauges, c.key, Sample(c.timestamp, v), Overwrite)
                && Total(r'.gauges, c.key) == v
    ensures Valid(r) ==> Valid(r')
  {
    if received.Got? && received.command.Operation? then
      var Operation(timestamp, key, op) := received.command;
      match op
      case IncrementCounter(value) => CounterIncrement(r, timestamp, key, value)
      case SetCounter(value) => CounterSet(r, timestamp, key, value)
      case IncrementGauge(value) => GaugeIncrement(r, timestamp, key, value)
      case DecrementGauge(value) => GaugeDecrement(r, timestamp, key, value)
      case SetGauge(value) => GaugeSet(r, timestamp, key, value)
    else
      r
  }

  // ---------------------------------------------------------------------------
  // Snapshot of the registry as a remote-write request

  function WireLabel(l: KeyLabel): Label {
    Label(l.key, l.value)
  }

  /** `labels` name `key`: the name label first, then the key's labels in order. */
  ghost predicate LabelsOf(labels: seq<Label>, key: Key) {
    && |labels| == 1 + |key.labels|
    && labels[0] == Label(NameLabel, key.name)
    && forall i :: 0 <= i < |key.labels| ==> labels[i + 1] == WireLabel(key.labels[i])
  }

  /** Reads the metric key back from a series' labels, as a remote-write receiver does. */
  function KeyOfLabels(labels: seq<Label>): Option<Key> {
    if |labels| > 0 && labels[0].name == NameLabel then
      Some(Key(labels[0].value, seq(|labels| - 1, i requires 0 <= i < |labels| - 1 => KeyLabel(labels[i + 1].name, labels[i + 1].value))))
    else
      None
  }

  /** A series built from a key always reads back as that key. */
  lemma LabelsRoundTrip(labels: seq<Label>, key: Key)
    requires LabelsOf(labels, key)
    ensures KeyOfLabels(labels) == Some(key)
  {
    var back := KeyOfLabels(labels).value;
    assert back.labels == key.labels;
  }

  /** `ts` is the series of the stream `s` stored under `key`. */
  ghost predicate SeriesOf(ts: TimeSeries, key: Key, s: SampleStore.Samples) {
    && LabelsOf(ts.labels, key)
    && ts.samples == SampleStore.All(s)
    && ts.exemplars == []
  }

  /** From `offset` on, `timeseries` holds the series of the keys `keys` of `m`, in the order of `keys`. */
  ghost predicate SeriesAt(timeseries: seq<TimeSeries>, offset: nat, keys: seq<Key>, m: map<Key, SampleStore.Samples>) {
    && offset + |keys| <= |timeseries|
    && forall i :: 0 <= i < |keys| ==> keys[i] in m && SeriesOf(timeseries[offset + i], keys[i], m[keys[i]])
  }

  /**
   From `offset` on, `timeseries` holds one series per key of `m`, in ascending
   key order: `SeriesAt` of the sorted keys. It is spelled out rather than
   written as a call of `SeriesAt`, because the proofs about whole requests grow
   far more costly through the extra predicate layer; `MapSeriesFor` connects
   the two.
   */
  ghost predicate SeriesFor(timeseries: seq<TimeSeries>, offset: nat, m: map<Key, SampleStore.Samples>) {
    var keys := SortedKeys(m.Keys);
    && offset + |keys| <= |timeseries|
    && forall i :: 0 <= i < |keys| ==> keys[i] in m && SeriesOf(timeseries[offset + i], keys[i], m[keys[i]])
  }

  /** `request` is the snapshot of `r`: the counters' series, then the gauges', and no metadata. */
  ghost predicate RequestOf(request: WriteRequest, r: Registry) {
    && request.metadata == []
    && |request.timeseries| == |r.counters| + |r.gauges|
    && SeriesFor(request.timeseries, 0, r.counters)
    && SeriesFor(request.timeseries, |r.counters|, r.gauges)
  }

  /** The wire labels of a key's labels, in order. */
  function WireLabels(ls: seq<KeyLabel>): (r: seq<Label>)
    ensures |r| == |ls|
    ensures forall i :: 0 <= i < |ls| ==> r[i] == WireLabel(ls[i])
    decreases |ls|
  {
    if ls == [] then [] else WireLabels(ls[..|ls| - 1]) + [WireLabel(ls[|ls| - 1])]
  }

  /** The label list of the series for `key`: the name label, then the key's labels. */
  function KeyLabels(key: Key): (r: seq<Label>)
    ensures LabelsOf(r, key)
  {
    [Label(NameLabel, key.name)] + WireLabels(key.labels)
  }

  /** The series of the stream `s` stored under `key`. */
  function Series(key: Key, s: SampleStore.Samples): TimeSeries {
    TimeSeries(KeyLabels(key), SampleStore.All(s), [])
  }

  /** The series of the keys `keys` of `m`, in the order of `keys`. */
  function SeriesList(keys: seq<Key>, m: map<Key, SampleStore.Samples>): (r: seq<TimeSeries>)
    requires forall i :: 0 <= i < |keys| ==> keys[i] in m
    ensures |r| == |keys|
    ensures forall i :: 0 <= i < |keys| ==> r[i] == Series(keys[i], m[keys[i]])
    decreases |keys|
  {
    if keys == [] then [] else SeriesList(keys[..|keys| - 1], m) + [Series(keys[|keys| - 1], m[keys[|keys| - 1]])]
  }

  /** The series of every key of `m`, walking the map in ascending key order. */
  function MapSeries(m: map<Key, SampleStore.Samples>): seq<TimeSeries> {
    var keys := SortedKeys(m.Keys);
    assert forall i :: 0 <= i < |keys| ==> keys[i] in m;
    SeriesList(keys, m)
  }

  /** The request a flush builds for `r`: the counters' series, then the gauges', and no metadata. */
  function Snapshot(r: Registry): WriteRequest {
    WriteRequest(MapSeries(r.counters) + MapSeries(r.gauges), [])
  }

  /** Series built by `SeriesList` sit, after whatever precedes them, at the positions of their keys. */
  lemma SeriesListAt(before: seq<TimeSeries>, keys: seq<Key>, m: map<Key, SampleStore.Samples>, after: seq<TimeSeries>)
    requires forall i :: 0 <= i < |keys| ==> keys[i] in m
    ensures SeriesAt(before + SeriesList(keys, m) + after, |before|, keys, m)
  {
    var list := SeriesList(keys, m);
    var ts := before + list + after;
    forall i | 0 <= i < |keys| ensures SeriesOf(ts[|before| + i], keys[i], m[keys[i]]) {
      assert ts[|before| + i] == list[i];
    }
  }

  /** The series of a map are one series per key, in ascending key order. */
  lemma MapSeriesFor(before: seq<TimeSeries>, m: map<Key, SampleStore.Samples>, after: seq<TimeSeries>)
    ensures |MapSeries(m)| == |m|
    ensures SeriesFor(before + MapSeries(m) + after, |before|, m)
  {
    var keys := SortedKeys(m.Keys);
    assert forall i :: 0 <= i < |keys| ==> keys[i] in m;
    SeriesListAt(before, keys, m, after);
    assert SeriesAt(before + MapSeries(m) + after, |before|, keys, m);
  }

  /** A snapshot holds exactly one series per counter and per gauge, each built from its key and stream. */
  lemma SnapshotIsRequest(r: Registry)
    ensures RequestOf(Snapshot(r), r)
  {
    SnapshotCounters(r);
    SnapshotGauges(r);
  }

  lemma SnapshotCounters(r: Registry)
    ensures |MapSeries(r.counters)| == |r.counters|
    ensures SeriesFor(Snapshot(r).timeseries, 0, r.counters)
  {
    var cs := MapSeries(r.counters);
    var gs := MapSeries(r.gauges);
    MapSeriesFor([], r.counters, gs);
    assert Snapshot(r).timeseries == [] + cs + gs by {
      assert [] + cs == cs;
    }
  }

  lemma SnapshotGauges(r: Registry)
    ensures |MapSeries(r.gauges)| == |r.gauges|
    ensures SeriesFor(Snapshot(r).timeseries, |r.counters|, r.gauges)
  {
    var cs := MapSeries(r.counters);
    var gs := MapSeries(r.gauges);
    MapSeriesFor([], r.counters, []);
    MapSeriesFor(cs, r.gauges, []);
    assert Snapshot(r).timeseries == cs + gs + [] by {
      assert gs + [] == gs;
    }
  }

  /** Builds the label list of the series for `key`, one label at a time. */
  method SeriesLabels(key: Key) returns (labels: seq<Label>)
    ensures labels == KeyLabels(key)
    ensures LabelsOf(labels, key)
    ensures KeyOfLabels(labels) == Some(key)
  {
    labels := [Label(NameLabel, key.name)];
    var i := 0;
    while i < |key.labels|
      invariant 0 <= i <= |key.labels|
      invariant labels == [Label(NameLabel, key.name)] + WireLabels(key.labels[..i])
    {
      assert key.labels[..i + 1][..i] == key.labels[..i];
      labels := labels + [WireLabel(key.labels[i])];
      i := i + 1;
    }
    assert key.labels[..i] == key.labels;
    LabelsRoundTrip(labels, key);
  }

  /** Listing one more key appends that key's series. */
  lemma SeriesListExtend(keys: seq<Key>, m: map<Key, SampleStore.Samples>, i: nat)
    requires forall j :: 0 <= j < |keys| ==> keys[j] in m
    requires i < |keys|
    ensures SeriesList(keys[..i + 1], m) == SeriesList(keys[..i], m) + [Series(keys[i], m[keys[i]])]
  {
    assert keys[..i + 1][..i] == keys[..i];
  }

  /** Builds the series of the keys `keys` of `m`, one key at a time. */
  method ListSeries(keys: seq<Key>, m: map<Key, SampleStore.Samples>) returns (added: seq<TimeSeries>)
    requires forall j :: 0 <= j < |keys| ==> keys[j] in m
    ensures added == SeriesList(keys, m)
  {
    added := [];
    var i := 0;
    while i < |keys|
      invariant 0 <= i <= |keys|
      invariant added == SeriesList(keys[..i], m)
    {
      var key := keys[i];
      SeriesListExtend(keys, m, i);
      var labels := SeriesLabels(key);
      added := added + [TimeSeries(labels, SampleStore.All(m[key]), [])];
      i := i + 1;
    }
    assert keys[..i] == keys;
  }

  /** Appends one series per key of `m`, walking the map in ascending key order. */
  method AppendSeries(timeseries: seq<TimeSeries>, m: map<Key, SampleStore.Samples>) returns (out: seq<TimeSeries>)
    ensures out == timeseries + MapSeries(m)
    ensures |out| == |timeseries| + |m|
  {
    var keys := SortedKeys(m.Keys);
    assert forall j :: 0 <= j < |keys| ==> keys[j] in m;
    var added := ListSeries(keys, m);
    out := timeseries + added;
  }

  /** Builds the request of one flush: the counters' series, then the gauges'. */
  method BuildRequest(r: Registry) returns (request: WriteRequest)
    ensures request == Snapshot(r)
    ensures RequestOf(request, r)
  {
    var timeseries := AppendSeries([], r.counters);
    var withGauges := AppendSeries(timeseries, r.gauges);
    assert [] + MapSeries(r.counters) == MapSeries(r.counters);
    request := WriteRequest(withGauges, []);
    SnapshotIsRequest(r);
  }

  /** Every stream of the registry has its series in the snapshot: counters among the first series, gauges among the rest. */
  lemma RequestCoversRegistry(request: WriteRequest, r: Registry)
    requires RequestOf(request, r)
    ensures forall k :: k in r.counters ==>
              exists i :: 0 <= i < |r.counters| && SeriesOf(request.timeseries[i], k, r.counters[k])
    ensures forall k :: k in r.gauges ==>
              exists i :: |r.counters| <= i < |request.timeseries| && SeriesOf(request.timeseries[i], k, r.gauges[k])
  {
    forall k | k in r.counters
      ensures exists i :: 0 <= i < |r.counters| && SeriesOf(request.timeseries[i], k, r.counters[k])
    {
      SeriesForCovers(request.timeseries, 0, r.counters, k);
    }
    forall k | k in r.gauges
      ensures exists i :: |r.counters| <= i < |request.timeseries| && SeriesOf(request.timeseries[i], k, r.gauges[k])
    {
      SeriesForCovers(request.timeseries, |r.counters|, r.gauges, k);
    }
  }

  /** Every key of `m` has its series among the ones `SeriesFor` places. */
  lemma SeriesForCovers(timeseries: seq<TimeSeries>, offset: nat, m: map<Key, SampleStore.Samples>, k: Key)
    requires SeriesFor(timeseries, offset, m) && k in m
    ensures exists i :: offset <= i < offset + |m| && SeriesOf(timeseries[i], k, m[k])
  {
    var keys := SortedKeys(m.Keys);
    var j :| 0 <= j < |keys| && keys[j] == k;
    assert SeriesOf(timeseries[offset + j], k, m[k]);
  }

  /** Within the counter part or the gauge part of a snapshot, series at different positions name different keys. */
  lemma SeriesForDistinct(timeseries: seq<TimeSeries>, offset: nat, m: map<Key, SampleStore.Samples>, i: nat, j: nat)
    requires SeriesFor(timeseries, offset, m)
    requires i < j < |m|
    ensures KeyOfLabels(timeseries[offset + i].labels) != KeyOfLabels(timeseries[offset + j].labels)
  {
    var keys := SortedKeys(m.Keys);
    SortedKeysDistinct(m.Keys, i, j);
    LabelsRoundTrip(timeseries[offset + i].labels, keys[i]);
    LabelsRoundTrip(timeseries[offset + j].labels, keys[j]);
  }

  // ---------------------------------------------------------------------------
  // Flush

  /** What the compression and the HTTP request of one flush did. */
  datatype FlushOutcome = CompressFail | RequestFail | Response(status: nat)

  /** What the flush logs. */
  datatype LogEntry = CompressionFailed | RequestFailed | ClientError(status: nat) | ServerError(status: nat)

  predicate IsClientError(status: nat) {
    400 <= status < 500
  }

  predicate IsServerError(status: nat) {
    500 <= status < 600
  }

  /**
   One flush (`write` in the worker): snapshot the registry, then, unless
   compression or the request failed, reset it. An error status is only
   logged; the registry is reset all the same.

   The source resets with `registry.clear()`, which the registry does not
   define; the only reset it offers is `Registry::sent`, used here. The source
   also puts the stream itself (`samples.clone()`) into each series where its
   sample list (`Samples::all`) is meant; the snapshot uses the sample list.
   */
  method Write(r: Registry, outcome: FlushOutcome) returns (request: WriteRequest, logged: seq<LogEntry>, r': Registry)
    ensures request == Snapshot(r)
    ensures RequestOf(request, r)
    ensures outcome.CompressFail? ==> r' == r && logged == [CompressionFailed]
    ensures outcome.RequestFail? ==> r' == r && logged == [RequestFailed]
    ensures outcome.Response? ==> r' == Sent(r)
    ensures outcome.Response? ==>
              && |logged| <= 1
              && (ClientError(outcome.status) in logged <==> IsClientError(outcome.status))
              && (ServerError(outcome.status) in logged <==> IsServerError(outcome.status))
              && (logged == [] <==> !IsClientError(outcome.status) && !IsServerError(outcome.status))
  {
    request := BuildRequest(r);
    match outcome
    case CompressFail =>
      logged := [CompressionFailed];
      r' := r;
    case RequestFail =>
      logged := [RequestFailed];
      r' := r;
    case Response(status) =>
      logged := [];
      if IsClientError(status) {
        logged := logged + [ClientError(status)];
      }
      if IsServerError(status) {
        logged := logged + [ServerError(status)];
      }
      r' := Sent(r);
  }

  /**
   Whatever its outcome, a flush keeps every key and every running value, and
   every stream non-empty: a reset keeps each stream's last sample.
   */
  lemma FlushKeepsTotals(r: Registry, outcome: FlushOutcome, r': Registry)
    requires outcome.Response? ==> r' == Sent(r)
    requires !outcome.Response? ==> r' == r
    ensures r'.counters.Keys == r.counters.Keys && r'.gauges.Keys == r.gauges.Keys
    ensures forall k :: Total(r'.counters, k) == Total(r.counters, k) && Total(r'.gauges, k) == Total(r.gauges, k)
    ensures Valid(r) ==> Valid(r')
  {
    forall k ensures Total(r'.counters, k) == Total(r.counters, k) && Total(r'.gauges, k) == Total(r.gauges, k) {
      SentKeepsTotals(r, k);
    }
  }

  // ---------------------------------------------------------------------------
  // Builder

  datatype Duration = Duration(nanos: nat)

  function FromMillis(ms: nat): Duration {
    Duration(ms * 1_000_000)
  }

  datatype Builder = Builder(tickInterval: Duration)

  /** A builder with the default interval between flushes, a tenth of a second. */
  function NewBuilder(): (b: Builder)
    ensures b.tickInterval.nanos == 100_000_000
  {
    Builder(FromMillis(100))
  }

  /** `Default` for the builder: the same default interval, a tenth of a second. */
  function DefaultBuilder(): (b: Builder)
    ensures b.tickInterval == FromMillis(100)
  {
    NewBuilder()
  }

  /** Replaces the interval between flushes. */
  function TickInterval(b: Builder, interval: Duration): (b': Builder)
    ensures b'.tickInterval == interval
  {
    b.(tickInterval := interval)
  }

  /** Of two interval settings, the later one wins. */
  lemma TickIntervalLastWins(b: Builder, d1: Duration, d2: Duration)
    ensures TickInterval(TickInterval(b, d1), d2) == TickInterval(b, d2)
  {
  }

  // ---------------------------------------------------------------------------
  // The worker loop

  /** One turn of the worker's `select!`: a receive on the command channel, or a tick. */
  datatype Event = Recv(received: Received) | Tick(outcome: FlushOutcome)

  /** The operation an event applies to `key`, if any. */
  function OperationOn(e: Event, key: Key): Option<MetricOperation> {
    if e.Recv? && e.received.Got? && e.received.command.Operation? && e.received.command.key == key then
      Some(e.received.command.op)
    else
      None
  }

  predicate SetsCounter(e: Event, key: Key) {
    var op := OperationOn(e, key);
    op.Some? && op.value.SetCounter?
  }

  predicate SetsGauge(e: Event, key: Key) {
    var op := OperationOn(e, key);
    op.Some? && op.value.SetGauge?
  }

  /** What an event adds to the running value of the counter `key`. */
  function CounterStep(e: Event, key: Key): real {
    var op := OperationOn(e, key);
    if op.Some? && op.value.IncrementCounter? then op.value.count as real else 0.0
  }

  /** What an event adds to the running value of the gauge `key`. */
  function GaugeStep(e: Event, key: Key): real {
    var op := OperationOn(e, key);
    if op.Some? && op.value.IncrementGauge? then op.value.amount
    else if op.Some? && op.value.DecrementGauge? then -op.value.amount
    else 0.0
  }

  /** No event sets the counter `key`. */
  predicate NoCounterSet(events: seq<Event>, key: Key) {
    forall i :: 0 <= i < |events| ==> !SetsCounter(events[i], key)
  }

  /** No event sets the gauge `key`. */
  predicate NoGaugeSet(events: seq<Event>, key: Key) {
    forall i :: 0 <= i < |events| ==> !SetsGauge(events[i], key)
  }

  /** The sum of the counter increments the events apply to `key`. */
  function CounterDelta(events: seq<Event>, key: Key): real
    decreases |events|
  {
    if events == [] then 0.0
    else CounterDelta(events[..|events| - 1], key) + CounterStep(events[|events| - 1], key)
  }

  /** The gauge increments minus the gauge decrements the events apply to `key`. */
  function GaugeDelta(events: seq<Event>, key: Key): real
    decreases |events|
  {
    if events == [] then 0.0
    else GaugeDelta(events[..|events| - 1], key) + GaugeStep(events[|events| - 1], key)
  }

  function Ticks(events: seq<Event>): nat
    decreases |events|
  {
    if events == [] then 0 else Ticks(events[..|events| - 1]) + (if events[|events| - 1].Tick? then 1 else 0)
  }

  /** A received command moves the running value of a counter it does not set by exactly its increment. */
  lemma DispatchCounterStep(r: Registry, received: Received, key: Key)
    requires !SetsCounter(Recv(received), key)
    ensures Total(Dispatch(r, received).counters, key) == Total(r.counters, key) + CounterStep(Recv(received), key)
  {
    var r' := Dispatch(r, received);
    if received.Got? && received.command.Operation? && received.command.key != key {
      var c := received.command;
      if IsCounterOperation(c.op) {
        assert key in r.counters ==> r'.counters[key] == r.counters[key];
        assert key in r'.counters <==> key in r.counters;
      }
    }
  }

  /** A received command moves the running value of a gauge it does not set by exactly its increment or decrement. */
  lemma DispatchGaugeStep(r: Registry, received: Received, key: Key)
    requires !SetsGauge(Recv(received), key)
    ensures Total(Dispatch(r, received).gauges, key) == Total(r.gauges, key) + GaugeStep(Recv(received), key)
  {
    var r' := Dispatch(r, received);
    if received.Got? && received.command.Operation? && received.command.key != key {
      var c := received.command;
      if !IsCounterOperation(c.op) {
        assert key in r.gauges ==> r'.gauges[key] == r.gauges[key];
        assert key in r'.gauges <==> key in r.gauges;
      }
    }
  }

  /** The registry after one event: a receive is dispatched, a tick resets it unless the push failed. */
  function StepState(r: Registry, e: Event): Registry {
    match e
    case Recv(received) => Dispatch(r, received)
    case Tick(outcome) => if outcome.Response? then Sent(r) else r
  }

  /** The registry after the events `events`, applied first to last. */
  function Replay(r: Registry, events: seq<Event>): Registry
    decreases |events|
  {
    if events == [] then r else StepState(Replay(r, events[..|events| - 1]), events[|events| - 1])
  }

  /** The requests built over `events`: at each tick, whatever the flush outcome, the snapshot of the registry just before it. */
  function TickRequests(r: Registry, events: seq<Event>): (rs: seq<WriteRequest>)
    ensures |rs| == Ticks(events)
    decreases |events|
  {
    if events == [] then []
    else
      var prefix := events[..|events| - 1];
      TickRequests(r, prefix) + (if events[|events| - 1].Tick? then [Snapshot(Replay(r, prefix))] else [])
  }

  /**
   The request built at the tick `events[i]` is the snapshot of the registry
   reached by the events before it, and it is the request numbered by the
   ticks before it.
   */
  lemma {:induction false} TickRequestIsSnapshot(r: Registry, events: seq<Event>, i: nat)
    requires i < |events| && events[i].Tick?
    ensures Ticks(events[..i]) < |TickRequests(r, events)|
    ensures TickRequests(r, events)[Ticks(events[..i])] == Snapshot(Replay(r, events[..i]))
    decreases |events|
  {
    var n := |events| - 1;
    var prefix := events[..n];
    assert events == prefix + [events[n]];
    ReplayExtend(r, prefix, events[n]);
    if i < n {
      assert prefix[..i] == events[..i];
      TickRequestIsSnapshot(r, prefix, i);
    }
  }

  /** Replaying one more event takes one more step, and a tick adds its request. */
  lemma ReplayExtend(r: Registry, events: seq<Event>, e: Event)
    ensures Replay(r, events + [e]) == StepState(Replay(r, events), e)
    ensures TickRequests(r, events + [e]) == TickRequests(r, events) + (if e.Tick? then [Snapshot(Replay(r, events))] else [])
  {
    assert (events + [e])[..|events|] == events;
  }

  /**
   One turn of the worker's `select!`: a received command is dispatched to the
   registry; a tick flushes it, building the snapshot of the registry as it was
   before the flush.
   */
  method Step(r: Registry, e: Event) returns (r': Registry, request: Option<WriteRequest>)
    ensures e.Recv? ==> r' == Dispatch(r, e.received) && request == None
    ensures e.Tick? ==> r' == (if e.outcome.Response? then Sent(r) else r) && request == Some(Snapshot(r))
    ensures e.Tick? ==> forall k :: Total(r'.counters, k) == Total(r.counters, k) && Total(r'.gauges, k) == Total(r.gauges, k)
    ensures Valid(r) ==> Valid(r')
  {
    match e {
      case Recv(received) =>
        r' := Dispatch(r, received);
        request := None;
      case Tick(outcome) =>
        var built, logged;
        built, logged, r' := Write(r, outcome);
        FlushKeepsTotals(r, outcome, r');
        request := Some(built);
    }
  }

  /**
   A counter that no event sets ends at its start value plus every increment
   received for it, whatever the flushes do.
   */
  lemma {:induction false} ReplayCounterTotals(r: Registry, events: seq<Event>, key: Key)
    requires NoCounterSet(events, key)
    ensures Total(Replay(r, events).counters, key) == Total(r.counters, key) + CounterDelta(events, key)
    decreases |events|
  {
    if events != [] {
      var n := |events| - 1;
      var prefix := events[..n];
      assert NoCounterSet(prefix, key) by {
        forall i | 0 <= i < n ensures !SetsCounter(prefix[i], key) {
          assert prefix[i] == events[i];
        }
      }
      ReplayCounterTotals(r, prefix, key);
      var before := Replay(r, prefix);
      match events[n] {
        case Recv(received) => DispatchCounterStep(before, received, key);
        case Tick(outcome) => SentKeepsTotals(before, key);
      }
    }
  }

  /**
   A gauge that no event sets ends at its start value plus its increments
   minus its decrements, whatever the flushes do.
   */
  lemma {:induction false} ReplayGaugeTotals(r: Registry, events: seq<Event>, key: Key)
    requires NoGaugeSet(events, key)
    ensures Total(Replay(r, events).gauges, key) == Total(r.gauges, key) + GaugeDelta(events, key)
    decreases |events|
  {
    if events != [] {
      var n := |events| - 1;
      var prefix := events[..n];
      assert NoGaugeSet(prefix, key) by {
        forall i | 0 <= i < n ensures !SetsGauge(prefix[i], key) {
          assert prefix[i] == events[i];
        }
      }
      ReplayGaugeTotals(r, prefix, key);
      var before := Replay(r, prefix);
      match events[n] {
        case Recv(received) => DispatchGaugeStep(before, received, key);
        case Tick(outcome) => SentKeepsTotals(before, key);
      }
    }
  }

  /** No sequence of events empties a stream of a registry. */
  lemma {:induction false} ReplayValid(r: Registry, events: seq<Event>)
    requires Valid(r)
    ensures Valid(Replay(r, events))
    decreases |events|
  {
    if events != [] {
      ReplayValid(r, events[..|events| - 1]);
    }
  }

  /**
   Runs the worker over `events`, returning the final registry and the request
   built at each tick: the snapshot of the registry reached just before that
   tick. The running values of the final registry are described by
   `ReplayCounterTotals` and `ReplayGaugeTotals`.
   */
  method Worker(r: Registry, events: seq<Event>) returns (r': Registry, requests: seq<WriteRequest>)
    ensures r' == Replay(r, events)
    ensures requests == TickRequests(r, events)
    ensures Valid(r) ==> Valid(r')
    ensures |requests| == Ticks(events)
  {
    r' := r;
    requests := [];
    var i := 0;
    while i < |events|
      invariant 0 <= i <= |events|
      invariant r' == Replay(r, events[..i])
      invariant requests == TickRequests(r, events[..i])
    {
      var e := events[i];
      assert events[..i + 1] == events[..i] + [e];
      ReplayExtend(r, events[..i], e);
      var request;
      r', request := Step(r', e);
      if request.Some? {
        requests := requests + [request.value];
      }
      i := i + 1;
    }
    assert events[..i] == events;
    if Valid(r) {
      ReplayValid(r, events);
    }
  }
}
