/**
 The per-key sample stream of the registry (`Samples` in `src/registry.rs`):
 the samples gathered since the last flush plus a `sent` flag recording that
 the stream was compacted by a flush and not touched at a new timestamp since.

 Merging follows the code exactly: a sample folds into the last one only when
 the timestamps are EQUAL; any other timestamp, older or newer, appends a new
 sample (after dropping the already-sent history if `sent` is set). Streams
 are therefore not time-ordered in general.
 */
module SampleStore {
  import opened Types

  datatype Samples = Samples(sent: bool, samples: seq<Sample>)

  /** Every stream the registry creates holds at least one sample, and keeps one. */
  predicate NonEmpty(s: Samples) {
    |s.samples| > 0
  }

  function Last(s: Samples): Sample
    requires NonEmpty(s)
  {
    s.samples[|s.samples| - 1]
  }

  /** The running value of a stream: its last sample's value (0 for an empty stream). */
  function Current(s: Samples): real {
    if NonEmpty(s) then Last(s).value else 0.0
  }

  /** A sample at this timestamp merges into the last sample instead of being appended. */
  predicate FoldsInto(s: Samples, sample: Sample) {
    NonEmpty(s) && Last(s).timestamp == sample.timestamp
  }

  /** The history a newly appended sample is placed after: nothing once the stream was sent. */
  function Retained(s: Samples): seq<Sample> {
    if s.sent then [] else s.samples
  }

  /** Everything but the last sample. */
  function Earlier(s: Samples): seq<Sample>
    requires NonEmpty(s)
  {
    s.samples[..|s.samples| - 1]
  }

  function New(sample: Sample): (r: Samples)
    ensures NonEmpty(r) && !r.sent
    ensures r.samples == [sample]
  {
    Samples(false, [sample])
  }

  /** The samples to transmit for this stream. */
  function All(s: Samples): seq<Sample> {
    s.samples
  }

  /** Adds `sample.value` to the running value, at `sample.timestamp`. */
  function Increment(s: Samples, sample: Sample): (r: Samples)
    ensures NonEmpty(r)
    ensures Last(r).timestamp == sample.timestamp
    ensures Current(r) == Current(s) + sample.value
    ensures FoldsInto(s, sample) ==>
              && r.sent == s.sent
              && |r.samples| == |s.samples|
              && Earlier(r) == Earlier(s)
    ensures !FoldsInto(s, sample) ==>
              && !r.sent
              && r.samples == Retained(s) + [Sample(sample.timestamp, Current(s) + sample.value)]
  {
    if NonEmpty(s) then
      var last := Last(s);
      var current := last.value;
      if last.timestamp == sample.timestamp then
        Samples(s.sent, s.samples[|s.samples| - 1 := Sample(last.timestamp, last.value + sample.value)])
      else
        var kept := if s.sent then [] else s.samples;
        Samples(false, kept + [Sample(sample.timestamp, sample.value + current)])
    else
      Samples(false, s.samples + [sample])
  }

  /** Makes `sample.value` the value at `sample.timestamp`. */
  function Set(s: Samples, sample: Sample): (r: Samples)
    ensures NonEmpty(r)
    ensures Last(r) == sample
    ensures Current(r) == sample.value
    ensures FoldsInto(s, sample) ==>
              && r.sent == s.sent
              && |r.samples| == |s.samples|
              && Earlier(r) == Earlier(s)
    ensures !FoldsInto(s, sample) ==>
              && !r.sent
              && r.samples == Retained(s) + [sample]
  {
    if NonEmpty(s) then
      var last := Last(s);
      if last.timestamp == sample.timestamp then
        Samples(s.sent, s.samples[|s.samples| - 1 := Sample(last.timestamp, sample.value)])
      else
        var kept := if s.sent then [] else s.samples;
        Samples(false, kept + [Sample(sample.timestamp, sample.value)])
    else
      Samples(false, s.samples + [sample])
  }

  /** Marks the stream as sent, keeping only its last sample as the seed of the next window. */
  function Sent(s: Samples): (r: Samples)
    ensures r.sent
    ensures NonEmpty(r) <==> NonEmpty(s)
    ensures NonEmpty(s) ==> r.samples == [Last(s)]
    ensures !NonEmpty(s) ==> r.samples == []
    ensures Current(r) == Current(s)
  {
    var last := if NonEmpty(s) then [Last(s)] else [];
    Samples(true, last)
  }

  /**
   What a stream transmits after a flush compacted it: only the sample it
   carries into the next window.
   */
  lemma AllAfterSent(s: Samples)
    requires NonEmpty(s)
    ensures All(Sent(s)) == [Last(s)]
  {
  }

  /** Marking a stream as sent twice is the same as marking it once. */
  lemma SentIdempotent(s: Samples)
    ensures Sent(Sent(s)) == Sent(s)
  {
  }

  /** One call on a stream, as the registry issues them. */
  datatype Update = Inc(sample: Sample) | Assign(sample: Sample) | MarkSent

  function Apply(s: Samples, u: Update): Samples {
    match u
    case Inc(x) => Increment(s, x)
    case Assign(x) => Set(s, x)
    case MarkSent => Sent(s)
  }

  /** The stream after the updates `us`, applied first to last. */
  function ApplyAll(s: Samples, us: seq<Update>): Samples
    decreases |us|
  {
    if us == [] then s else Apply(ApplyAll(s, us[..|us| - 1]), us[|us| - 1])
  }

  /** The sum of the increments among `us`. */
  function Deltas(us: seq<Update>): real
    decreases |us|
  {
    if us == [] then 0.0
    else Deltas(us[..|us| - 1]) + (if us[|us| - 1].Inc? then us[|us| - 1].sample.value else 0.0)
  }

  /**
   Over any interleaving of increments and flush compactions, the running value
   is the initial value plus every delta: compaction keeps the last sample, and
   an increment at a new timestamp reads the running value before it drops the
   sent history.
   */
  lemma {:induction false} RunningTotal(s: Samples, us: seq<Update>)
    requires forall i :: 0 <= i < |us| ==> !us[i].Assign?
    ensures Current(ApplyAll(s, us)) == Current(s) + Deltas(us)
    decreases |us|
  {
    if us != [] {
      RunningTotal(s, us[..|us| - 1]);
    }
  }

  /** No update ever empties a non-empty stream. */
  lemma {:induction false} NonEmptyPreserved(s: Samples, us: seq<Update>)
    requires NonEmpty(s) || (us != [] && !us[0].MarkSent?)
    ensures NonEmpty(ApplyAll(s, us))
    decreases |us|
  {
    if |us| > 1 {
      NonEmptyPreserved(s, us[..|us| - 1]);
    }
  }

  /** The stream `s` after incrementing it with each sample of `xs`, first to last. */
  function IncrementAll(s: Samples, xs: seq<Sample>): Samples
    decreases |xs|
  {
    if xs == [] then s else Increment(IncrementAll(s, xs[..|xs| - 1]), xs[|xs| - 1])
  }

  function Sum(xs: seq<Sample>): real
    decreases |xs|
  {
    if xs == [] then 0.0 else Sum(xs[..|xs| - 1]) + xs[|xs| - 1].value
  }

  /** Reference stream: one sample per input, carrying the cumulative sum up to it. */
  function RunningSums(xs: seq<Sample>): (r: seq<Sample>)
    ensures |r| == |xs|
    decreases |xs|
  {
    if xs == [] then [] else RunningSums(xs[..|xs| - 1]) + [Sample(xs[|xs| - 1].timestamp, Sum(xs))]
  }

  /** Consecutive samples never share a timestamp (true of strictly increasing timestamps). */
  predicate DistinctSteps(xs: seq<Sample>) {
    forall i :: 0 < i < |xs| ==> xs[i - 1].timestamp != xs[i].timestamp
  }

  /**
   Increments at changing timestamps on a fresh stream leave one sample per
   increment, each holding the cumulative sum of the deltas so far.
   */
  lemma {:induction false} IncrementsAccumulate(xs: seq<Sample>)
    requires |xs| > 0 && DistinctSteps(xs)
    ensures IncrementAll(New(xs[0]), xs[1..]) == Samples(false, RunningSums(xs))
    decreases |xs|
  {
    if |xs| == 1 {
      assert xs[1..] == [];
      assert RunningSums(xs) == RunningSums([]) + [Sample(xs[0].timestamp, Sum(xs))];
      assert xs[..0] == [];
    } else {
      var ys := xs[..|xs| - 1];
      var x := xs[|xs| - 1];
      assert DistinctSteps(ys);
      IncrementsAccumulate(ys);
      assert ys[0] == xs[0];
      assert xs[1..][..|xs[1..]| - 1] == ys[1..];
      var before := IncrementAll(New(xs[0]), ys[1..]);
      assert before == Samples(false, RunningSums(ys));
      assert Last(before) == Sample(ys[|ys| - 1].timestamp, Sum(ys));
      assert IncrementAll(New(xs[0]), xs[1..]) == Increment(before, x);
    }
  }

  // Concrete traces. An older timestamp does not fold into the last sample: it
  // appends a new one.

  lemma IncrementThenSetAtSameTimestamp()
    ensures Set(Increment(New(Sample(100, 1.0)), Sample(200, 1.0)), Sample(200, 10.0)).samples
            == [Sample(100, 1.0), Sample(200, 10.0)]
  {
  }

  lemma OlderSetAppends()
    ensures Set(Set(New(Sample(100, 1.0)), Sample(200, 2.0)), Sample(100, 3.0)).samples
            == [Sample(100, 1.0), Sample(200, 2.0), Sample(100, 3.0)]
  {
  }

  // After a flush marked the stream sent, a fold at the same timestamp keeps the
  // flag; should that flush's push fail, the next increment at a new timestamp
  // still drops the unsent folded sample.
  lemma SentHistoryDroppedAtNewTimestamp()
    ensures Increment(Increment(Sent(New(Sample(100, 1.0))), Sample(100, 1.0)), Sample(200, 1.0)).samples
            == [Sample(200, 3.0)]
  {
  }

  lemma OlderIncrementAppends()
    ensures Increment(Increment(New(Sample(100, 1.0)), Sample(200, 1.0)), Sample(100, 1.0)).samples
            == [Sample(100, 1.0), Sample(200, 2.0), Sample(100, 3.0)]
  {
  }
}
