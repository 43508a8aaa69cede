/** The forwarding loop of `main` (main.go:45-63): every sensor event whose
    time series can be derived becomes one point handed to the writer, in
    arrival order; the others are dropped. The event stream is a finite
    prefix, `Timeseries()` an input function, and the writer's buffer a
    sequence it appends to. */
module Forwarding {
  import opened Wrappers

  /** A value in a point's field set (Go `interface{}`). */
  datatype FieldValue = IntValue(i: int) | FloatValue(f: real) | BoolValue(b: bool) | StringValue(s: string)

  datatype Sensor = Sensor(id: int, name: string, sensorType: string)

  /** A state change of one sensor; the payload's decoding is not modelled. */
  datatype SensorEvent = SensorEvent(sensor: Sensor, state: map<string, FieldValue>)

  /** The tags and fields `Timeseries()` derives from an event. */
  datatype Series = Series(tags: map<string, string>, fields: map<string, FieldValue>)

  datatype Point = Point(measurement: string, tags: map<string, string>, fields: map<string, FieldValue>)

  const MeasurementPrefix := "deflux_"

  /** `fmt.Sprintf("deflux_%s", sensorType)` */
  function Measurement(sensorType: string): (m: string)
    ensures |m| == |MeasurementPrefix| + |sensorType|
    ensures m[..|MeasurementPrefix|] == MeasurementPrefix && m[|MeasurementPrefix|..] == sensorType
  {
    MeasurementPrefix + sensorType
  }

  /** The point for an event whose series was derived: the sensor type can be
      read back from the measurement, and the series is carried unchanged. */
  function PointOf(e: SensorEvent, s: Series): (p: Point)
    ensures |p.measurement| >= |MeasurementPrefix|
    ensures p.measurement[..|MeasurementPrefix|] == MeasurementPrefix
    ensures p.measurement[|MeasurementPrefix|..] == e.sensor.sensorType
    ensures p.tags == s.tags && p.fields == s.fields
  {
    Point(Measurement(e.sensor.sensorType), s.tags, s.fields)
  }

  /** The points written after the events `events` were processed, in the
      order the loop produces them (the latest event last). */
  function WrittenPoints(events: seq<SensorEvent>, timeseries: SensorEvent -> Result<Series>): (points: seq<Point>)
    ensures |points| <= |events|
    ensures forall k :: 0 <= k < |points| ==>
      |points[k].measurement| >= |MeasurementPrefix| &&
      points[k].measurement[..|MeasurementPrefix|] == MeasurementPrefix
  {
    if events == [] then []
    else
      var last := events[|events| - 1];
      var earlier := WrittenPoints(events[..|events| - 1], timeseries);
      match timeseries(last)
      case Err(_) => earlier
      case Ok(s) => earlier + [PointOf(last, s)]
  }

  /** Independent reference: keep the events whose series can be derived ... */
  function Derivable(events: seq<SensorEvent>, timeseries: SensorEvent -> Result<Series>): (kept: seq<SensorEvent>)
    ensures forall e :: e in kept <==> e in events && timeseries(e).Ok?
  {
    if events == [] then []
    else if timeseries(events[0]).Ok? then [events[0]] + Derivable(events[1..], timeseries)
    else Derivable(events[1..], timeseries)
  }

  /** ... and map each to its point. */
  function ToPoints(events: seq<SensorEvent>, timeseries: SensorEvent -> Result<Series>): (points: seq<Point>)
    requires forall e :: e in events ==> timeseries(e).Ok?
    ensures |points| == |events|
    ensures forall k :: 0 <= k < |events| ==> points[k] == PointOf(events[k], timeseries(events[k]).value)
  {
    if events == [] then [] else [PointOf(events[0], timeseries(events[0]).value)] + ToPoints(events[1..], timeseries)
  }

  lemma {:induction false} WrittenPointsAppend(a: seq<SensorEvent>, b: seq<SensorEvent>, timeseries: SensorEvent -> Result<Series>)
    ensures WrittenPoints(a + b, timeseries) == WrittenPoints(a, timeseries) + WrittenPoints(b, timeseries)
    decreases |b|
  {
    if b == [] {
      assert a + b == a;
    } else {
      var b' := b[..|b| - 1];
      assert (a + b)[..|a + b| - 1] == a + b';
      assert (a + b)[|a + b| - 1] == b[|b| - 1];
      WrittenPointsAppend(a, b', timeseries);
    }
  }

  lemma {:induction false} DerivableAppend(a: seq<SensorEvent>, b: seq<SensorEvent>, timeseries: SensorEvent -> Result<Series>)
    ensures Derivable(a + b, timeseries) == Derivable(a, timeseries) + Derivable(b, timeseries)
    decreases |a|
  {
    if a == [] {
      assert a + b == b;
    } else {
      assert (a + b)[1..] == a[1..] + b;
      DerivableAppend(a[1..], b, timeseries);
    }
  }

  lemma ToPointsAppend(a: seq<SensorEvent>, b: seq<SensorEvent>, timeseries: SensorEvent -> Result<Series>)
    requires forall e :: e in a + b ==> timeseries(e).Ok?
    ensures ToPoints(a + b, timeseries) == ToPoints(a, timeseries) + ToPoints(b, timeseries)
  {
  }

  /** The loop is a filter-map: the written points are exactly the points of
      the derivable events, one each, in arrival order. */
  lemma {:induction false} WrittenPointsIsFilterMap(events: seq<SensorEvent>, timeseries: SensorEvent -> Result<Series>)
    ensures WrittenPoints(events, timeseries) == ToPoints(Derivable(events, timeseries), timeseries)
    decreases |events|
  {
    if events != [] {
      var init, last := events[..|events| - 1], events[|events| - 1];
      assert events == init + [last];
      WrittenPointsIsFilterMap(init, timeseries);
      DerivableAppend(init, [last], timeseries);
      assert [last][1..] == [];
      ToPointsAppend(Derivable(init, timeseries), Derivable([last], timeseries), timeseries);
    }
  }

  /** An event whose series cannot be derived contributes nothing, wherever it occurs. */
  lemma DroppedEventWritesNothing(before: seq<SensorEvent>, e: SensorEvent, after: seq<SensorEvent>,
                                  timeseries: SensorEvent -> Result<Series>)
    requires timeseries(e).Err?
    ensures WrittenPoints(before + [e] + after, timeseries) == WrittenPoints(before + after, timeseries)
  {
    WrittenPointsAppend(before + [e], after, timeseries);
    WrittenPointsAppend(before, [e], timeseries);
    WrittenPointsAppend(before, after, timeseries);
    assert [e][..0] == [];
  }

  /** Exactly one point per derivable event. */
  lemma {:induction false} OnePointPerDerivableEvent(events: seq<SensorEvent>, timeseries: SensorEvent -> Result<Series>)
    ensures |WrittenPoints(events, timeseries)| == |Derivable(events, timeseries)|
  {
    WrittenPointsIsFilterMap(events, timeseries);
  }

  /** Two temperature readings around an event of an unknown type: exactly two
      points are written, both measured as `deflux_temperature`, in order. */
  lemma TemperatureAroundUnknown(t1: SensorEvent, unknown: SensorEvent, t2: SensorEvent,
                                 timeseries: SensorEvent -> Result<Series>)
    requires t1.sensor.sensorType == "temperature" && t2.sensor.sensorType == "temperature"
    requires timeseries(t1).Ok? && timeseries(unknown).Err? && timeseries(t2).Ok?
    ensures var points := WrittenPoints([t1, unknown, t2], timeseries);
      && points == [PointOf(t1, timeseries(t1).value), PointOf(t2, timeseries(t2).value)]
      && points[0].measurement == "deflux_temperature" == points[1].measurement
  {
    assert [t1][..0] == [];
    assert WrittenPoints([t1], timeseries) == [PointOf(t1, timeseries(t1).value)];
    assert [t1, unknown][..1] == [t1];
    assert WrittenPoints([t1, unknown], timeseries) == [PointOf(t1, timeseries(t1).value)];
    assert [t1, unknown, t2][..2] == [t1, unknown];
  }

  /** The time-series writer: `WritePoint` appends to its buffer; batching
      and flushing belong to the client library and are not modelled. */
  class WriteApi {
    var points: seq<Point>

    constructor ()
      ensures points == []
    {
      points := [];
    }

    method WritePoint(p: Point)
      modifies this
      ensures points == old(points) + [p]
    {
      points := points + [p];
    }
  }

  /** The loop body run over the events received so far. */
  method Forward(events: seq<SensorEvent>, timeseries: SensorEvent -> Result<Series>, writer: WriteApi)
    modifies writer
    ensures writer.points == old(writer.points) + WrittenPoints(events, timeseries)
  {
    for i := 0 to |events|
      invariant writer.points == old(writer.points) + WrittenPoints(events[..i], timeseries)
    {
      assert events[..i + 1][..i] == events[..i];
      var sensorEvent := events[i];
      var series := timeseries(sensorEvent);
      if series.Err? {
        continue;
      }
      writer.WritePoint(Point(Measurement(sensorEvent.sensor.sensorType), series.value.tags, series.value.fields));
    }
    assert events[..|events|] == events;
  }
}
