/**
 * Metric points and batches (db.go). A batch is the unit handed to the
 * queue and written to the store in one call; `QueuePointInt` appends one
 * point to it in place.
 */
module Points {
  import opened Settings

  /** The one field every point carries. */
  const ValueField: string := "value"

  /** Timestamps are written with second precision. */
  const SecondPrecision: string := "s"

  /** A measurement name, a tag set and its fields; the timestamp is not modelled. */
  datatype Point = Point(measurement: string, tags: map<string, string>, fields: map<string, int>)

  /** The point `QueuePointInt` builds: the measurement, the tags and a single `value` field. */
  function IntPoint(measure: string, tags: map<string, string>, value: int): Point
  {
    Point(measure, tags, map[ValueField := value])
  }

  class Batch {
    const database: string
    const precision: string
    var points: seq<Point>

    /** `newInfluxBP`: an empty batch for the configured database. */
    constructor (cfg: Config)
      ensures database == cfg.influxDB && precision == SecondPrecision
      ensures points == []
    {
      database := cfg.influxDB;
      precision := SecondPrecision;
      points := [];
    }

    method AddPoint(p: Point)
      modifies this
      ensures points == old(points) + [p]
    {
      points := points + [p];
    }
  }

  /** Appends exactly one point, with the given measurement and tags and a single `value` field. */
  method QueuePointInt(measure: string, tags: map<string, string>, intValue: int, bp: Batch)
    modifies bp
    ensures bp.points == old(bp.points) + [IntPoint(measure, tags, intValue)]
    ensures |bp.points| == |old(bp.points)| + 1
    ensures bp.points[|bp.points| - 1].fields.Keys == {ValueField}
  {
    var fields := map[ValueField := intValue];
    var pt := Point(measure, tags, fields);
    bp.AddPoint(pt);
  }
}
