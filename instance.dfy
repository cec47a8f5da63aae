/**
 * `Instance`: one time step of the data, with the activities under way, the sensor
 * readings and the set of buckets that are on.
 */
module Instances {
  import opened Runtime
  import opened Activities
  import opened Sensors
  import opened SensorReadings

  /** `DateTime.MinValue`: tick 0, midnight, a Monday. */
  const MinDate: DateTime := DateTime(0, 0, 1)

  /** A `List<Activity>`. */
  class ActivityList {
    var items: seq<Activity>

    /** `new List<Activity>(items)`: a new list with the same elements, in order. */
    constructor (items: seq<Activity>)
      ensures this.items == items
    {
      this.items := items;
    }
  }

  /**
   * A `HashSet<SensorBucket>`, as the set of its bucket objects. `SensorBucket` equality is
   * structural, but a set built from another `HashSet` holds no two equal buckets to merge,
   * so the copy holds exactly the same objects.
   */
  class BucketSet {
    var items: set<SensorBucket>

    /** `new HashSet<SensorBucket>(items)`: a new set with the same elements. */
    constructor (items: set<SensorBucket>)
      ensures this.items == items
    {
      this.items := items;
    }
  }

  class Instance {
    var activities: ActivityList?
    var dateTime: DateTime
    var sensorReadings: SensorReadingCollection?
    var sensorsOn: BucketSet?

    /** `new Instance()`: empty activities and readings, no set of buckets that are on. */
    constructor ()
      ensures activities != null && fresh(activities) && activities.items == []
      ensures sensorReadings != null && fresh(sensorReadings) && sensorReadings.readings == {}
      ensures sensorsOn == null && dateTime == MinDate
    {
      activities := new ActivityList([]);
      sensorReadings := new SensorReadingCollection();
      sensorsOn := null;
      dateTime := MinDate;
    }

    /**
     * `new Instance(instance)`: from null, every field keeps its default; otherwise the
     * time stamp is copied and each container is a fresh copy with the same elements, or
     * null where the source's is null. A copy shares no container with its source.
     */
    constructor Copy(source: Instance?)
      ensures source == null ==> activities == null && sensorReadings == null && sensorsOn == null && dateTime == MinDate
      ensures source != null ==> dateTime == source.dateTime
      ensures source != null ==> (activities == null <==> source.activities == null)
      ensures source != null ==> (sensorReadings == null <==> source.sensorReadings == null)
      ensures source != null ==> (sensorsOn == null <==> source.sensorsOn == null)
      ensures activities != null ==>
        && source != null && source.activities != null
        && fresh(activities) && activities.items == source.activities.items
      ensures sensorReadings != null ==>
        && source != null && source.sensorReadings != null
        && fresh(sensorReadings) && sensorReadings.readings == source.sensorReadings.readings
      ensures sensorsOn != null ==>
        && source != null && source.sensorsOn != null
        && fresh(sensorsOn) && sensorsOn.items == source.sensorsOn.items
    {
      activities := null;
      sensorReadings := null;
      sensorsOn := null;
      dateTime := MinDate;
      if source != null {
        if source.activities != null {
          activities := new ActivityList(source.activities.items);
        }
        if source.sensorReadings != null {
          sensorReadings := new SensorReadingCollection.Copy(source.sensorReadings);
        }
        dateTime := source.dateTime;
        if source.sensorsOn != null {
          sensorsOn := new BucketSet(source.sensorsOn.items);
        }
      }
    }
  }
}
