/** `TemperatureSensor`: a numeric sensor built from a bin table. */
module TemperatureSensors {
  import opened Wrappers
  import opened Sensors

  /**
   * `new TemperatureSensor(bins)`: the given bins, an empty `AllReadings` list,
   * `Description` "Temperature" and `StringFormat` "{0}". It has no buckets until it is
   * configured, and the class has no parameterless constructor.
   */
  method New(bins: seq<Edge>, id: Option<string>) returns (s: Sensor)
    ensures fresh(s) && s.Shaped() && s.cls == TemperatureSensor && s.id == id
    ensures s.bins == Some(bins)
    ensures s.allReadings != null && fresh(s.allReadings) && s.allReadings.items == []
    ensures s.description == Some("Temperature") && s.stringFormat == "{0}"
    ensures s.buckets == [] && s.isShared
  {
    s := new Sensor(TemperatureSensor, id, null, null);
    var readings := new RealList();
    s.bins := Some(bins);
    s.allReadings := readings;
    s.description := Some("Temperature");
    s.stringFormat := "{0}";
  }
}
