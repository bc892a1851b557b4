/**
 The remote-write records the worker builds and hands to the wire encoder.
 They are generated from the remote-write protobuf schema, which is not part
 of this model; only the fields the worker fills are kept.
 */
module Types {

  /** One observation: milliseconds since the epoch and a value (an f64 in the source). */
  datatype Sample = Sample(timestamp: int, value: real)

  /** A wire label. The metric name travels as the label named `NameLabel`. */
  datatype Label = Label(name: string, value: string)

  const NameLabel: string := "__name__"

  datatype Exemplar = Exemplar(labels: seq<Label>, value: real, timestamp: int)

  datatype TimeSeries = TimeSeries(labels: seq<Label>, samples: seq<Sample>, exemplars: seq<Exemplar>)

  /** The metric kinds the recorder describes; the schema's other kinds are never produced here. */
  datatype MetricType = Counter | Gauge

  datatype MetricMetadata = MetricMetadata(kind: MetricType, metricFamilyName: string, help: string, unit: string)

  datatype WriteRequest = WriteRequest(timeseries: seq<TimeSeries>, metadata: seq<MetricMetadata>)
}
