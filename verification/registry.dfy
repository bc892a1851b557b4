/**
 The registry (`Registry` in `src/registry.rs`): two ordered maps from metric
 key to sample stream, one for counters and one for gauges. Entries are
 created lazily on the first operation for a key and never removed.

 Timestamps arrive already converted to milliseconds since the epoch; counter
 values are unsigned integers and gauge values reals (f64 rounding and the
 `u64 as f64` cast are not modelled).
 */
module MetricRegistry {
  import opened Types
  import opened MetricKeys
  import SampleStore

  type Samples = SampleStore.Samples

  datatype Registry = Registry(counters: map<Key, Samples>, gauges: map<Key, Samples>)

  /** How a sample is merged into an existing stream. */
  datatype Merge = Add | Overwrite

  /** Every stream in the registry holds at least one sample. */
  ghost predicate Valid(r: Registry) {
    && (forall k :: k in r.counters ==> SampleStore.NonEmpty(r.counters[k]))
    && (forall k :: k in r.gauges ==> SampleStore.NonEmpty(r.gauges[k]))
  }

  /** The running value of `key` in one map, 0 when the key has no stream yet. */
  function Total(m: map<Key, Samples>, key: Key): real {
    if key in m then SampleStore.Current(m[key]) else 0.0
  }

  function New(): (r: Registry)
    ensures Valid(r)
    ensures |r.counters| == 0 && |r.gauges| == 0
  {
    Registry(map[], map[])
  }

  /**
   The lazy-insert rule: `m'` is `m` with `sample` recorded for `key` -- a
   missing key gets a fresh stream, an existing one merges the sample by
   `merge` -- and no other key added, removed or changed.
   */
  ghost predicate Recorded(m: map<Key, Samples>, m': map<Key, Samples>, key: Key, sample: Sample, merge: Merge) {
    && m'.Keys == m.Keys + {key}
    && (forall k :: k in m && k != key ==> m'[k] == m[k])
    && (key !in m ==> m'[key] == SampleStore.New(sample))
    && (key in m && merge == Add ==> m'[key] == SampleStore.Increment(m[key], sample))
    && (key in m && merge == Overwrite ==> m'[key] == SampleStore.Set(m[key], sample))
  }

  /** Records `sample` for `key` in `m`. */
  function Record(m: map<Key, Samples>, key: Key, sample: Sample, merge: Merge): (r: map<Key, Samples>)
    ensures Recorded(m, r, key, sample, merge)
    ensures SampleStore.NonEmpty(r[key])
    ensures SampleStore.Last(r[key]).timestamp == sample.timestamp
    ensures merge == Add ==> Total(r, key) == Total(m, key) + sample.value
    ensures merge == Overwrite ==> Total(r, key) == sample.value
  {
    if key in m then
      var s := m[key];
      m[key := if merge == Add then SampleStore.Increment(s, sample) else SampleStore.Set(s, sample)]
    else
      m[key := SampleStore.New(sample)]
  }

  function CounterIncrement(r: Registry, timestamp: int, key: Key, value: nat): (r': Registry)
    ensures r'.gauges == r.gauges
    ensures Recorded(r.counters, r'.counters, key, Sample(timestamp, value as real), Add)
    ensures Total(r'.counters, key) == Total(r.counters, key) + value as real
    ensures Valid(r) ==> Valid(r')
  {
    r.(counters := Record(r.counters, key, Sample(timestamp, value as real), Add))
  }

  function CounterSet(r: Registry, timestamp: int, key: Key, value: nat): (r': Registry)
    ensures r'.gauges == r.gauges
    ensures Recorded(r.counters, r'.counters, key, Sample(timestamp, value as real), Overwrite)
    ensures Total(r'.counters, key) == value as real
    ensures Valid(r) ==> Valid(r')
  {
    r.(counters := Record(r.counters, key, Sample(timestamp, value as real), Overwrite))
  }

  function GaugeIncrement(r: Registry, timestamp: int, key: Key, value: real): (r': Registry)
    ensures r'.counters == r.counters
    ensures Recorded(r.gauges, r'.gauges, key, Sample(timestamp, value), Add)
    ensures Total(r'.gauges, key) == Total(r.gauges, key) + value
    ensures Valid(r) ==> Valid(r')
  {
    r.(gauges := Record(r.gauges, key, Sample(timestamp, value), Add))
  }

  /** Decrementing a gauge is incrementing it by the negated value. */
  function GaugeDecrement(r: Registry, timestamp: int, key: Key, value: real): (r': Registry)
    ensures r' == GaugeIncrement(r, timestamp, key, -value)
    ensures Total(r'.gauges, key) == Total(r.gauges, key) - value
  {
    GaugeIncrement(r, timestamp, key, -value)
  }

  function GaugeSet(r: Registry, timestamp: int, key: Key, value: real): (r': Registry)
    ensures r'.counters == r.counters
    ensures Recorded(r.gauges, r'.gauges, key, Sample(timestamp, value), Overwrite)
    ensures Total(r'.gauges, key) == value
    ensures Valid(r) ==> Valid(r')
  {
    r.(gauges := Record(r.gauges, key, Sample(timestamp, value), Overwrite))
  }

  /** `SampleStore.Sent` applied to every stream of `m`. */
  function SentAll(m: map<Key, Samples>): (r: map<Key, Samples>)
    ensures r.Keys == m.Keys
    ensures forall k :: k in m ==> r[k] == SampleStore.Sent(m[k])
  {
    map k | k in m :: SampleStore.Sent(m[k])
  }

  /** Marks every stream of both maps as sent, compacting each to its last sample. */
  function Sent(r: Registry): (r': Registry)
    ensures r'.counters.Keys == r.counters.Keys && r'.gauges.Keys == r.gauges.Keys
    ensures forall k :: k in r.counters ==> r'.counters[k] == SampleStore.Sent(r.counters[k])
    ensures forall k :: k in r.gauges ==> r'.gauges[k] == SampleStore.Sent(r.gauges[k])
    ensures Valid(r) ==> Valid(r')
  {
    Registry(SentAll(r.counters), SentAll(r.gauges))
  }

  /** Compaction never changes a running value. */
  lemma SentKeepsTotals(r: Registry, key: Key)
    ensures Total(Sent(r).counters, key) == Total(r.counters, key)
    ensures Total(Sent(r).gauges, key) == Total(r.gauges, key)
  {
  }

  /** After compaction of a valid registry, every stream holds exactly its former last sample. */
  lemma SentLeavesOneSample(r: Registry)
    requires Valid(r)
    ensures forall k :: k in r.counters ==> Sent(r).counters[k].samples == [SampleStore.Last(r.counters[k])]
    ensures forall k :: k in r.gauges ==> Sent(r).gauges[k].samples == [SampleStore.Last(r.gauges[k])]
  {
  }

  /** Compacting twice is compacting once. */
  lemma SentIdempotent(r: Registry)
    ensures Sent(Sent(r)) == Sent(r)
  {
    SentAllIdempotent(r.counters);
    SentAllIdempotent(r.gauges);
  }

  lemma SentAllIdempotent(m: map<Key, Samples>)
    ensures SentAll(SentAll(m)) == SentAll(m)
  {
    var once := SentAll(m);
    forall k | k in once ensures SentAll(once)[k] == once[k] {
      SampleStore.SentIdempotent(m[k]);
    }
  }
}
