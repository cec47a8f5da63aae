# SphereEngine sensor feature encoding, modelled in Dafny

SphereEngine turns a stream of CASAS smart-home events into feature vectors. Each event is a
time stamp, a sensor code such as `M012` and the value that sensor reported. A `SensorSet` keeps a
sorted registry of feature sensors, one per runtime class and id. It finds or creates the sensor an
event names, lets it compute a `SensorReading` for one of its `SensorBucket`s, and records that
reading in the `SensorReadingCollection` of the current time step. Binary sensors toggle their
bucket and report `IncorrectSensorState` when an event is redundant. One-of-N sensors evict older
readings of their class. An `HourOfDay` reading is refreshed after every event, and binary sensors
can get a `CompoundHourOfDay` companion. The schema of the feature vector is the concatenation of
every registered sensor's buckets in registry order; it is cached and each bucket is indexed by its
position. `FullSensorSet` and `SmallSensorSet` fix the tag table and pre-register the contextual
sensors. `CasasInputs` supplies the residents, the sorted activity list and the vector length.
`Instance`, `Activity`, `Resident`, `DataError` and a few `Utils` helpers complete the core.

The model has one Dafny module per source file, plus these supporting modules:

- `Wrappers` holds `Option` and `Result`.
- `Runtime` holds 32-bit integers, `DateTime`, exceptions, and the date and number parsers taken as parameters.
- `Text` holds ASCII case folding, decimal rendering, the first token of a text, `string.Format` with one item, and ordinal string order.
- `Registries` holds the sorted registry and the schema functions of `SensorSet`.
- `SensorKinds` dispatches `Compute` and creation on the runtime class.

Every sensor class is the one Dafny class `Sensors.Sensor`, with a constant `cls` tag for its
runtime type. Buckets and readings are classes, so the source's reference comparisons
(`ContainsKey`, `Remove`, the compound lookup) are reference comparisons in the model too.
Exceptions become `Result`/`Option` values. Classes whose source is not available
(`MotionSensor`, `LightSensor`, `KitchenItemSensor`, `DoorSensor`, `ElectricitySensor`,
`CompoundHourOfDay`, `PreviousActivity`, `SensorComparer`) enter only through the parameters
`Sensors.Collaborators` and `Registries.Order`. Their behaviour is left open, and the few
facts the model takes for granted about them are listed under "## Left out".

## Model

| member | source | states |
|---|---|---|
| Activities.Activity.HashKey | Activity.cs:109-114 | the hash key is the name alone; it fails with a null reference exactly when the name is null |
| Activities.EqMeansSameName | Activity.cs:124-141 | `==` holds iff both are null or both are non-null with the same name; `!=` is its negation |
| Activities.EqIsEquivalence | Activity.cs:84-87 | `==` is reflexive, symmetric and transitive, and ignores `Index` and `Resident` |
| Activities.HashAgreesWithEquals | Activity.cs:84-114 | equal activities have equal hash keys |
| Activities.UnknownEquality | Activity.cs:39-55 | nothing equals null; `Unknown` equals exactly the activities named "Unknown"; the default activity has no hash key |
| Residents.Resident.HashKey | Resident.cs:118-122 | the hash key is the name alone |
| Residents.ToStringAgreesWithEquals | Resident.cs:93-131 | two residents print alike iff `Equals` (and so `==`) holds between them |
| Residents.EqMeansSameName | Resident.cs:68-85 | `==` holds iff both are null or both are non-null with the same name; `!=` is its negation |
| Residents.EqIsEquivalence | Resident.cs:93-96 | `==` is an equivalence that ignores `Index` |
| Residents.HashAgreesWithEquals | Resident.cs:93-122 | `Equals` holds iff the hash keys agree |
| Residents.UnknownEquality | Resident.cs:40-46 | nothing equals null; `Unknown` equals exactly the residents named "Unknown" |
| DataErrors.IdName | DataError.cs:33-41 | each error id has a non-empty name |
| DataErrors.SixErrorIds | DataError.cs:33-41 | there are exactly six error ids, with pairwise distinct names |
| DataErrors.Field | DataError.cs:87-91 | an optional property contributes ", Key=value" iff it is neither null nor empty, and nothing otherwise |
| DataErrors.ToStringFrame | DataError.cs:86-92 | the text starts with "[DataError: Id=<Id>" and ends with "]" |
| DataErrors.ToStringOfBareError | DataError.cs:86-92 | with every optional property null or empty, the text is exactly "[DataError: Id=<Id>]" |
| DataErrors.ToStringIgnoresEmpty | DataError.cs:87-91 | null and empty properties render the same, so only non-empty properties shape the text |
| DataErrors.ToStringSensorFirst | DataError.cs:86-87 | a present Sensor comes directly after the header |
| DataErrors.ToStringMessageLast | DataError.cs:91-92 | a present Message comes last, directly before the closing bracket |
| DataErrors.UnknownSensorErrorText | Sensors/SensorSet.cs:231 | the unknown-tag error prints as "[DataError: Id=UnknownSensor" followed by ", Sensor=<code>" and ", SensorReading=<value>" (each only when non-empty) and "]" |
| DataErrors.SensorErrorText | Sensors/SensorSet.cs:279-328 | the errors of a known sensor print the id, the code, then the cut value and the message, each only when non-empty (a raw value of "" or " ON" cuts to ""), in that order and nothing else |
| Sensors.ClassName | Sensors/Sensor.cs:153-159 | every class name is non-empty |
| Sensors.ClassNameInjective | Sensors/Sensor.cs:153-159 | two sensors have the same `Name` iff they have the same runtime class |
| Sensors.Sensor.constructor | Sensors/Sensor.cs:48-70 | a new sensor has no buckets, the format "{0}", and is shared; binary sensors have a validity of 5 seconds; the constituents are those given |
| Sensors.DescriptionsShowBucketNames | Sensors/Sensor.cs:257-270 | with the format "{0}" or "[{0}]" and more than one bucket, a bucket not covered by `FirstDescription` is described by its name (bracketed for "[{0}]"), so two such buckets get equal descriptions iff their names read alike |
| Sensors.Sensor.HashKey | Sensors/Sensor.cs:227-231 | the hash combines exactly the name and the id |
| Sensors.SensorEqualsMeansSameKey | Sensors/Sensor.cs:201-219 | `Equals` holds iff the hash keys agree, iff class and id agree; `Equals(object)` agrees with it and is false for null |
| Sensors.SensorBucket.Key | Sensors/SensorBucket.cs:106-131 | the hash key holds the bucket name and index and the owner's name and id, and the constituent ids exactly for compound owners |
| Sensors.SensorBucket.ToString | Sensors/SensorBucket.cs:139-144 | the text starts with the owner's name and id; it is exactly that for binary and bias owners, and otherwise continues with "[bucket name]" |
| Sensors.BucketEqualsMeansSameKey | Sensors/SensorBucket.cs:74-98 | bucket `Equals` holds iff the hash keys agree; `Equals(object)` agrees with it and is false for null |
| Sensors.CompoundBucketsCompareConstituents | Sensors/SensorBucket.cs:79-81 | equal buckets of two compound owners have owners with the same constituent ids |
| Sensors.NewBuckets | Sensors/NumericSensor.cs:124-126 | building buckets from names gives fresh buckets with index i, name i and the given owner |
| SensorReadings.SensorReadingCollection.constructor | Sensors/SensorReadingCollection.cs:251 | a new collection is empty |
| SensorReadings.SensorReadingCollection.Copy | Sensors/SensorReadingCollection.cs:257 | the copy holds the same readings as its source |
| SensorReadings.SensorReadingCollection.Get | Sensors/SensorReadingCollection.cs:287-292 | the indexer succeeds iff some reading's bucket is the given bucket object, returns that reading's value, and otherwise throws `InvalidOperationException` |
| SensorReadings.SensorReadingCollection.Add | Sensors/SensorReadingCollection.cs:246 | adding inserts into the set and reports whether the reading was new |
| SensorReadings.SensorReadingCollection.Remove | Sensors/SensorReadingCollection.cs:306-309 | removing by bucket deletes exactly one reading of that bucket and keeps every other one; with none present it throws and changes nothing |
| SensorReadings.SensorReadingCollection.RemoveAll | Sensors/SensorReadingCollection.cs:246 | `RemoveAll(p)` deletes exactly the readings satisfying p and returns how many there were |
| SensorReadings.RemoveOneKeepsOthers | Sensors/SensorReadingCollection.cs:306-309 | removing one reading shrinks the set by one and keeps every reading of another bucket |
| SensorKinds.ExpectedBucketIsOwn | Sensors/BinarySensor.cs:66-70 | every reading a sensor computes is for one of that sensor's own buckets |
| SensorKinds.ExpectedValueIsOne | Sensors/NumericSensor.cs:86-89 | every sensor other than `Bias` and the compound reports the value 1.0 |
| SensorKinds.ExpectedOfBias | Sensors/Bias.cs:78-81 | `Bias` ignores the raw value, reports its configured value for bucket 0, and fails only without buckets |
| SensorKinds.Compute | Sensors/Sensor.cs:241 | `Compute` succeeds exactly when the class's computation does, with a fresh reading of its bucket, value and time stamp; only a numeric sensor's reading list changes |
| SensorKinds.CreateFails | Sensors/SensorSet.cs:239-242 | creation from the tag table fails exactly for `TemperatureSensor`, `BinaryAnd` and a missing `ElectricitySensor` constructor |
| SensorKinds.Create | Sensors/SensorSet.cs:239-242 | created sensors are fresh, have the given id and short name and are configured; binary ones have two buckets, hour-of-day 24, day-of-week 7 and bias one |
| SensorKinds.CreateBinary | Sensors/BinarySensor.cs:40-93 | a binary sensor is built and configured with two fresh buckets |
| SensorKinds.CreateElectricity | Sensors/NumericSensor.cs:54-127 | an electricity sensor gets the supplied bins, a fresh empty reading list and one bucket per bin |
| SensorKinds.CreateBias | Sensors/Bias.cs:40-68 | a bias sensor gets the default value and the single "Bias" bucket |
| SensorKinds.CreateOneOfN | Sensors/OneOfNSensor.cs:80-86 | hour-of-day, day-of-week and empty current-activity sensors keep the buckets of their constructors through `Configure` |
| SensorKinds.NewCompound | Sensors/SensorSet.cs:263 | the compound is fresh, has the hour-of-day sensor and the binary sensor as constituents, and takes its id and bucket names from its class |
| SensorKinds.NewPreviousActivity | Sensors/FullSensorSet.cs:60 | a previous-activity sensor is fresh, has no reading list, and takes its id and bucket names from its class |
| BinarySensors.Choose | Sensors/BinarySensor.cs:69 | a true decision selects bucket 0 and a false decision bucket 1; a missing bucket or a failed decision is an error |
| BinarySensors.Configure | Sensors/BinarySensor.cs:86-93 | there are exactly two fresh buckets, "Name-ON" at 0 and "Name-OFF" at 1, owned by the sensor, and the description becomes name plus id |
| BinarySensors.ChooseAfterConfigure | Sensors/BinarySensor.cs:69 | after `Configure`, true gives bucket 0, false gives bucket 1, and the choice fails only when the decision fails |
| NumericSensors.BinScanRange | Sensors/NumericSensor.cs:104-116 | without buckets the scan gives Count-1; otherwise a successful scan lies in [0, Count-1] |
| NumericSensors.BinScanFirstFit | Sensors/NumericSensor.cs:100-117 | with enough bins the scan gives the first i whose edge is not exceeded, or Count-1 when every edge is |
| NumericSensors.BinScanErrors | Sensors/NumericSensor.cs:105-107 | without bins it throws a null reference; with fewer bins than buckets it throws `IndexOutOfRange` iff the value exceeds every bin edge; with enough bins it succeeds |
| NumericSensors.BinScanBracket | Sensors/NumericSensor.cs:100-117 | with ascending bins ending in +infinity, the value lands in bucket k iff it exceeds edge k-1 and not edge k |
| NumericSensors.BinScanMonotonic | Sensors/NumericSensor.cs:100-117 | with ascending bins, a larger value never lands in a smaller bucket |
| NumericSensors.ComputeSensor | Sensors/NumericSensor.cs:100-117 | a parse failure throws before the reading list changes; a missing list throws; otherwise the value is appended once and the bin scan's index is returned |
| NumericSensors.Choose | Sensors/NumericSensor.cs:88 | the bucket chosen is the bucket at the scanned index, and scan or index failures are passed on |
| NumericSensors.ChooseAfterConfigure | Sensors/NumericSensor.cs:86-127 | after `Configure`, choosing succeeds whenever there are buckets and fails on an empty bin table |
| NumericSensors.Compute | Sensors/NumericSensor.cs:86-89 | `Compute` reports the chosen bucket with value 1.0 and the given time stamp, with the reading list updated as `ComputeSensor` says |
| NumericSensors.LabelOf | Sensors/NumericSensor.cs:154-169 | every bucket name is the rendering of one label: the edge, "prev+1-edge", or ">prev" |
| NumericSensors.RenderInjective | Sensors/NumericSensor.cs:154-169 | different labels over non-negative edges render as different names |
| NumericSensors.LabelOfInjective | Sensors/NumericSensor.cs:154-169 | with ascending bins, different buckets get different labels |
| NumericSensors.LengthStringsDistinct | Sensors/NumericSensor.cs:154-169 | with ascending non-negative bins, different buckets get different names |
| NumericSensors.LengthStringExamples | Sensors/NumericSensor.cs:154-169 | bins [10, 20, infinity] are named "10", "11-20", ">20", and an edge one above the previous is named by itself |
| NumericSensors.BucketNames | Sensors/NumericSensor.cs:124-126 | there is one name per bin, given by `GetLengthStrings` |
| NumericSensors.Configure | Sensors/NumericSensor.cs:122-127 | missing bins throw `ArgumentNullException`; otherwise there is one fresh bucket per bin edge, with index i, the bin's name and the sensor as owner |
| OneOfNSensors.NamesFrom | Sensors/OneOfNSensor.cs:84 | bucket i is the bucket function applied to name list i and i |
| OneOfNSensors.Configure | Sensors/OneOfNSensor.cs:80-86 | the buckets are rebuilt from the names only when both the names and the function are set; otherwise they are kept |
| OneOfNSensors.Compute | Sensors/OneOfNSensor.cs:61-64 | the reading is for the chosen bucket, with value 1.0 and the given time stamp |
| HoursOfDay.HourNames | Sensors/HourOfDay.cs:47-48 | there are 24 names, name i being the decimal text of i |
| HoursOfDay.HourNamesDistinct | Sensors/HourOfDay.cs:47-48 | the 24 hour names are pairwise different |
| HoursOfDay.New | Sensors/HourOfDay.cs:42-48 | the sensor has description "HourOfDay", format "[{0}]", no id, and 24 fresh buckets with index i |
| HoursOfDay.ComputeSensor | Sensors/HourOfDay.cs:64-68 | an unparsable time stamp throws; otherwise the bucket at the hour is chosen |
| HoursOfDay.ComputeSensorPicksHour | Sensors/HourOfDay.cs:64-68 | for a constructed sensor, the chosen bucket's index is the hour of the time stamp, and failures are format errors |
| DaysOfWeek.DayNames | Sensors/DayOfWeek.cs:40-54 | there are 7 names, Sun to Sat |
| DaysOfWeek.DayNamesDistinct | Sensors/DayOfWeek.cs:40-43 | the 7 names are pairwise different |
| DaysOfWeek.New | Sensors/DayOfWeek.cs:49-54 | the sensor has description "DayOfWeek", format "[{0}]", and 7 fresh buckets with index i |
| DaysOfWeek.ComputeSensor | Sensors/DayOfWeek.cs:70-74 | an unparsable time stamp throws; otherwise the bucket at the weekday number is chosen |
| DaysOfWeek.ComputeSensorPicksWeekday | Sensors/DayOfWeek.cs:70-74 | for a constructed sensor, the chosen bucket's index is the weekday with Sunday as 0, and failures are format errors |
| CurrentActivities.New | Sensors/CurrentActivity.cs:49-56 | the id is the resident's name, the description "CurrentActivity", the format "[{0}]", and bucket i is named after activity i with index i |
| CurrentActivities.NewEmpty | Sensors/CurrentActivity.cs:40 | the parameterless sensor has no buckets |
| CurrentActivities.FirstNamed | Sensors/CurrentActivity.cs:69 | the search finds the first bucket with the given name, or none iff no bucket has it |
| CurrentActivities.ComputeSensorMeaning | Sensors/CurrentActivity.cs:69 | the first bucket named like the reading is chosen |
| CurrentActivities.ComputeSensorFallback | Sensors/CurrentActivity.cs:69 | with no bucket of that name, bucket 0 is chosen, and without buckets the lookup throws |
| CurrentActivities.ComputeSensorFails | Sensors/CurrentActivity.cs:69 | the lookup fails iff there are no buckets |
| CurrentActivities.ComputeSensorFindsActivity | Sensors/CurrentActivity.cs:49-69 | for a constructed sensor, the first activity of a name gives the bucket at its position |
| CurrentActivities.ToStringNamesResident | Sensors/CurrentActivity.cs:51-81 | a current-activity sensor prints as "CurrentActivity" and its resident's name, so two print alike iff their ids read alike |
| Biases.New | Sensors/Bias.cs:51-55 | the value-taking constructor stores the value unchanged and is shared, with no buckets yet |
| Biases.NewDefault | Sensors/Bias.cs:40-42 | the parameterless constructor uses the default value |
| Biases.DefaultValueIsMinusRootTen | Sensors/Bias.cs:41 | the default value is negative and its square is 10 to ten decimal places |
| Biases.Configure | Sensors/Bias.cs:65-68 | there is exactly one fresh bucket, "Bias" at index 0, owned by the sensor |
| Biases.Choose | Sensors/Bias.cs:80 | bucket 0 is chosen, and choosing fails only without buckets |
| Biases.Compute | Sensors/Bias.cs:78-81 | the reading is for bucket 0 with the configured value and the given time stamp, whatever the input |
| BinaryAnds.Configure | Sensors/BinaryAnd.cs:82-97 | a missing constituent throws a null reference; otherwise there is exactly one bucket, index 0, named "d1 AND d2" |
| BinaryAnds.New | Sensors/BinaryAnd.cs:49-55 | the constructor stores both constituents, sets the description "d1 AND d2", and configures the one bucket of that name |
| BinaryAnds.DecideIsConjunction | Sensors/BinaryAnd.cs:106-109 | the decision is the short-circuit conjunction of the constituents' decisions: false or a failure of the first decides, and the second is consulted only after true |
| BinaryAnds.FalseConjunctionFails | Sensors/BinaryAnd.cs:84-96 | when the conjunction is false the inherited `Compute` asks for bucket 1, which does not exist, and throws |
| ExperimenterSwitches.ComputeSensorMeaning | Sensors/ExperimenterSwitch.cs:75-78 | the switch is on iff the value names `Open` ignoring case, off iff it names `Close`, and otherwise parsing throws an argument error |
| ExperimenterSwitches.ComputeSensorExamples | Sensors/ExperimenterSwitch.cs:75-78 | "OPEN" is on, "close" is off and "ajar" throws |
| TemperatureSensors.New | Sensors/TemperatureSensor.cs:53-57 | the sensor stores exactly the given bins, starts with a fresh empty reading list and no buckets, and has description "Temperature" and format "{0}" |
| Registries.InsertAt | Sensors/SensorSet.cs:153 | inserting into a sorted registry keeps it as it is when an equivalent sensor is there, and otherwise splices the sensor in where everything before is smaller and everything after larger |
| Registries.InsertKeepsOrder | Sensors/SensorSet.cs:153 | insertion keeps the registry sorted, drops nothing, and adds the sensor exactly when no equivalent one is registered |
| Registries.InsertChangesSchema | Sensors/SensorSet.cs:151-156 | registering a new sensor lengthens the schema by its bucket count |
| Registries.FlattenLength | Sensors/SensorSet.cs:131-137 | the schema has `SensorVectorLength` entries |
| Registries.FlattenConcat | Sensors/SensorSet.cs:88 | the schema of two registries side by side is their two schemas side by side |
| Registries.FlattenAround | Sensors/SensorSet.cs:88 | sensor i's buckets sit in the schema after the buckets of the sensors before it |
| Registries.InsertShiftsSchema | Sensors/SensorSet.cs:88 | splicing a sensor in splices its buckets into the schema at the same place |
| Registries.IndexMapSpec | Sensors/SensorSet.cs:124 | the index succeeds iff no two buckets share a key; it then has exactly the schema's keys, maps every bucket to its position, and otherwise `ToDictionary` throws `ArgumentException` |
| Registries.InitDistinct | Sensors/SensorSet.cs:124 | distinct keys hold for a schema iff they hold without its last bucket and that bucket's key is new |
| Registries.FlattenOwnersShaped | Sensors/SensorSet.cs:88 | every bucket of the schema is owned by a registered sensor |
| Registries.FindFirst | Sensors/SensorSet.cs:235 | `FirstOrDefault` gives the first matching sensor, or none iff none matches |
| Registries.FindFirstFinds | Sensors/SensorSet.cs:235 | a registry holding a match lets `FirstOrDefault` find one |
| Registries.ListsOfInsert | Sensors/SensorSet.cs:153 | registering a sensor adds at most its own reading list to the registry's lists |
| SensorSets.CutReading | Sensors/SensorSet.cs:216-219 | the kept value is the first space-free token of the raw value, a prefix of it |
| SensorSets.SensorSet.constructor | Sensors/SensorSet.cs:54-58 | a new set has an empty registry ordered by the comparer, the given tag table and empty caches |
| SensorSets.SensorSet.SensorVectorLength | Sensors/SensorSet.cs:131-137 | the vector length is the length of the schema |
| SensorSets.SensorSet.SensorBuckets | Sensors/SensorSet.cs:81-88 | a cached schema is returned unchanged; otherwise the schema of the registry is built and cached |
| SensorSets.SensorSet.SensorBucketIndices | Sensors/SensorSet.cs:118-125 | a cached index is returned unchanged; otherwise it is built by position from the (possibly stale) cached schema, so with coherent caches bucket i maps to i |
| SensorSets.SensorSet.Add | Sensors/SensorSet.cs:151-156 | `Add` inserts into the sorted registry, keeps it sorted, and clears both caches; the registry grows by one iff no equivalent sensor was registered |
| SensorSets.SensorSet.First | Sensors/SensorSet.cs:162-165 | the first registered sensor of the class, and `InvalidOperationException` iff there is none |
| SensorSets.SensorSet.ParseSensorStringOf | Sensors/SensorSet.cs:175-200 | the generic overload reuses the first sensor of the class (and id), or creates, configures and registers one without clearing the caches; it stores the reading, and for a one-of-N class the new reading is the only one of its class |
| SensorSets.SensorSet.ComputeAndStore | Sensors/SensorSet.cs:191-198 | computing fails iff the class's computation does, changing nothing; otherwise the reading is stored after one-of-N eviction |
| SensorSets.SensorSet.FindOrCreateOf | Sensors/SensorSet.cs:178-188 | a matching sensor is reused; otherwise a fresh one is created with the id and registered, or creation throws and the registry is unchanged |
| SensorSets.SensorSet.Register | Sensors/SensorSet.cs:187 | the generic path inserts into the sorted registry and leaves both caches as they were |
| SensorSets.SensorSet.StoreReading | Sensors/SensorSet.cs:192-198 | for a one-of-N class every reading of that class is evicted first; then the reading is inserted |
| SensorSets.SensorSet.ParseSensorString | Sensors/SensorSet.cs:210-331 | a bad time stamp or an empty code throws and changes nothing; an unknown tag is reported with the code and cut value and changes nothing; with a known tag, a missing sensor whose creation fails throws (the constructor's exception, or `InvalidOperationException` "Problem adding sensor") and changes nothing; otherwise the coded sensor is registered (a newly created one with the tag as its `ShortName`), and the readings change exactly as the `try` block's steps do (`TryBlock`) for readings equal to what each `Compute` gives; the outcome is `SensorReadingError` with the first exception's message, else `IncorrectSensorState`, else no error; a throwing `Compute` of the coded sensor changes no reading; without a `SensorReadingError` and with an `HourOfDay` registered exactly one hour-of-day reading remains; coherent caches stay coherent |
| SensorSets.SensorSet.ParseKnown | Sensors/SensorSet.cs:235-331 | with a known tag: a creation failure throws and changes nothing, and otherwise the coded sensor, reused or fresh (a fresh one with the tag as its `ShortName`), ends up registered, the readings change as `TryBlock` says and the outcome is the `Report` of the first exception and the incorrect-state flag |
| SensorSets.SensorSet.ReadResolved | Sensors/SensorSet.cs:253-331 | the `try` block always completes; the readings change as `TryBlock` says, and the outcome reports the first exception as `SensorReadingError` with its message, else an incorrect state as `IncorrectSensorState` |
| SensorSets.SensorSet.Resolve | Sensors/SensorSet.cs:235-251 | the first sensor of the class and id is reused, or a new one with that id is created and registered; a creation failure throws and changes nothing |
| SensorSets.SensorSet.CreateAndAdd | Sensors/SensorSet.cs:239-251 | the missing sensor is created with the tag as short name and the id, configured and added, and the registry then holds it; a failing constructor throws and changes nothing |
| SensorSets.SensorSet.ResolveCompound | Sensors/SensorSet.cs:253-266 | a compound exists iff an `HourOfDay` is registered, compounds are included and the sensor is binary; the first compound over the same sensor object is reused, otherwise a new one is added |
| SensorSets.SensorSet.ReadAll | Sensors/SensorSet.cs:268-325 | the registry and caches stay as they were; the readings change as `TryBlock` says for the readings each `Compute` gives, and the first exception (own, hour-of-day, then compound) is the one returned |
| SensorSets.SensorSet.ReadOwn | Sensors/SensorSet.cs:271-310 | the sensor's reading is recorded as `Recorded` says and then the hour-of-day reading refreshed; a throw of either stops there and is returned |
| SensorSets.SensorSet.RefreshIfPresent | Sensors/SensorSet.cs:304-310 | with an hour sensor and no earlier exception, the first `HourOfDay` refreshes its reading and a throw of its `Compute` is returned; with none, or after an exception, the readings stay as they were |
| SensorSets.SensorSet.ReadCompound | Sensors/SensorSet.cs:318-324 | the compound readings over the same binary sensor are evicted, then the compound's computed reading is inserted; a throwing `Compute` leaves the eviction standing |
| SensorSets.SensorSet.ReadCompoundAfter | Sensors/SensorSet.cs:316-325 | the compound step runs only when nothing was thrown before and there is a compound sensor; the readings then change as `TryBlock` says and the first exception of the whole block is returned |
| SensorSets.SensorSet.ReadSensor | Sensors/SensorSet.cs:271-302 | the sensor's reading throws iff its computation fails, changing nothing; otherwise the reading is the computed bucket and value at the time stamp, recorded as `Recorded` says |
| SensorSets.SensorSet.RefreshHour | Sensors/SensorSet.cs:306-310 | the first `HourOfDay` computes the reading; it throws iff that fails, changing nothing, and otherwise every hour-of-day reading is replaced by the new one |
| SensorSets.SensorSet.Record | Sensors/SensorSet.cs:272-302 | a non-binary reading is inserted; a non-zero binary reading is `IncorrectSensorState` iff its bucket is present and is otherwise inserted; a zero binary reading removes its bucket's reading, and is `IncorrectSensorState` iff there is none |
| SensorSets.SensorSet.ReplaceCompound | Sensors/SensorSet.cs:318-324 | every compound reading over the same second constituent is evicted first; then the compound's reading is inserted, or, when `Compute` throws, the eviction stands and nothing is inserted |
| SensorSets.Evicted | Sensors/SensorSet.cs:192-195 | only a one-of-N class evicts, and then exactly the readings of that class |
| SensorSets.EvictedThenAdded | Sensors/SensorSet.cs:192-198 | after eviction and insertion, the new reading is the only one of its one-of-N class |
| SensorSets.Replaced | Sensors/SensorSet.cs:320-322 | exactly the compound readings over the given second constituent are dropped |
| SensorSets.ReplacedKeepsOthers | Sensors/SensorSet.cs:318-324 | replacing a compound reading keeps every other class's readings as they were |
| SensorSets.Report | Sensors/SensorSet.cs:279-328 | the outcome is `SensorReadingError` with the message iff an exception was thrown, `IncorrectSensorState` with no message iff none was and the state was incorrect, and otherwise no error; every error carries the code and the cut value |
| SensorSets.ReportedOutcome | Sensors/SensorSet.cs:268-331 | a reported `SensorReadingError` from the coded sensor's `Compute` carries its message and comes with unchanged readings; any other report leaves exactly one hour-of-day reading when there is an hour sensor |
| SensorSets.OwnFailureIsReported | Sensors/SensorSet.cs:271-328 | when the coded sensor's `Compute` throws, that exception is the one reported and the readings are as they were |
| SensorSets.TryBlockLeavesOneHour | Sensors/SensorSet.cs:304-310 | when nothing throws and an `HourOfDay` is registered, its fresh reading is the only hour-of-day reading left |
| SensorSets.TryBlockKeepsOtherClasses | Sensors/SensorSet.cs:268-325 | the `try` block touches no reading of a class other than the coded sensor's, `HourOfDay` and `CompoundHourOfDay` |
| SensorSets.RecordedKeepsOtherClasses | Sensors/SensorSet.cs:272-302 | recording a reading touches no reading of another class |
| FullSensorSets.TagTables | Sensors/FullSensorSet.cs:44-112 | the small table is the full one without T and P, and names exactly the binary classes of the full table |
| FullSensorSets.AscendingFromAdjacent | Sensors/FullSensorSet.cs:77 | bins that ascend pair by pair ascend throughout |
| FullSensorSets.BinTablesProper | Sensors/FullSensorSet.cs:73-91 | both bin tables are strictly ascending, start at 0, end with +infinity, and name their buckets distinctly |
| FullSensorSets.NewFullSensorSet | Sensors/FullSensorSet.cs:44-66 | the full set has the seven-tag table and its class name, and holds one `HourOfDay`, then a previous-activity and a current-activity sensor per resident as the flags ask; a negative resident count throws only when a flag is set |
| FullSensorSets.NewSmallSensorSet | Sensors/FullSensorSet.cs:105-125 | the same for the small set, with the five-tag table |
| FullSensorSets.NewSensorSet | Sensors/FullSensorSet.cs:55-66 | the shared construction registers the hour-of-day sensor and the per-resident sensors, each given the activities with `Unknown` first |
| FullSensorSets.NewWithHour | Sensors/FullSensorSet.cs:55-56 | the new set's registry holds only a fresh `HourOfDay` with no id and its 24 buckets |
| FullSensorSets.Preregister | Sensors/FullSensorSet.cs:58-66 | each flag adds one sensor per resident, in resident order; the resident list fails iff the count is negative |
| FullSensorSets.AddPerResident | Sensors/FullSensorSet.cs:60 | one fresh sensor per resident is built and added, laid out for that resident, and the registry gains nothing else |
| FullSensorSets.AddForResident | Sensors/FullSensorSet.cs:60 | the next resident's sensor is built and added, and earlier sensors stay accounted for |
| FullSensorSets.NewForResident | Sensors/FullSensorSet.cs:60-65 | the resident's previous- or current-activity sensor is fresh and laid out for that resident |
| FullSensorSets.AddKeeping | Sensors/FullSensorSet.cs:60-65 | adding keeps the single hour-of-day sensor and leaves the new sensor or an equivalent one registered |
| FullSensorSets.KeptGrows | Sensors/FullSensorSet.cs:58-66 | a sensor accounted for in a registry stays accounted for as the registry grows |
| Inputs.InsertBy | CasasInputs.cs:223 | insertion adds exactly one element |
| Inputs.InsertByKeepsAscending | CasasInputs.cs:223 | inserting into an ascending list keeps it ascending |
| Inputs.SortBy | CasasInputs.cs:223 | `OrderBy` returns a permutation of its input in ascending order |
| Inputs.OrdinalIsStrictTotal | CasasInputs.cs:223 | the string order used is a strict total order |
| Inputs.ResidentName | CasasInputs.cs:208 | a resident's name is "R" followed by digits |
| Inputs.ResidentNamesDistinct | CasasInputs.cs:208 | different residents get different names, and none is called "Unknown" |
| Inputs.CasasInputs.constructor | CasasInputs.cs:61-65 | new inputs have the fixed activity table, no residents, no sensor set, and empty instance lists |
| Inputs.CasasInputs.GetResidents | CasasInputs.cs:206-210 | a negative count throws; otherwise item k is "R{k+1}" with index k, after `Unknown` when asked for |
| Inputs.CasasInputs.ResidentsList | CasasInputs.cs:77-80 | `Residents` has `NumberOfResidents` pairwise unequal residents, none equal to `Unknown` |
| Inputs.CasasInputs.SortedActivityNames | CasasInputs.cs:223 | the activity names in ascending order, as a permutation of the table |
| Inputs.CasasInputs.GetActivities | CasasInputs.cs:221-225 | item i is the i-th sorted name with index i, after `Unknown` when asked for, which leaves the other indices unchanged |
| Inputs.CasasInputs.ActivitiesList | CasasInputs.cs:86-89 | `Activities` has one activity per table name, ascending by name, with its position as index and no resident |
| Inputs.CasasInputs.SensorCount | CasasInputs.cs:95-101 | -1 without a sensor set, otherwise the vector length of its schema |
| Instances.ActivityList.constructor | Instance.cs:60 | a new activity list holds the given activities in order |
| Instances.BucketSet.constructor | Instance.cs:63 | a new bucket set holds the given buckets |
| Instances.Instance.constructor | Instance.cs:43-47 | a new instance has empty fresh activities and readings, no buckets that are on, and the minimum time stamp |
| Instances.Instance.Copy | Instance.cs:53-64 | copying null leaves every field at its default; otherwise the time stamp is copied and each container is a fresh copy with the same elements, or null where the source's is |
| Utils.ArgMax | Utils.cs:74-90 | -1 iff every element is `int.MinValue` (including the empty list); otherwise the earliest index of the maximum |
| Utils.Enumerator.MoveNext | Utils.cs:188 | `MoveNext` advances by one until past the end and says whether there was an element |
| Utils.TakeWhileIsLongestPrefix | Utils.cs:192-195 | the run taken is the longest prefix whose elements satisfy the predicate |
| Utils.PagesShape | Utils.cs:188-197 | every page is non-empty, and all but its first element satisfy the predicate |
| Utils.PagesDropFailing | Utils.cs:192 | the element on which the predicate fails closes its page and appears in no page |
| Utils.PagesLastPage | Utils.cs:188-197 | when the predicate holds up to the end, the last page runs to the end |
| Utils.ReadPage | Utils.cs:190-195 | one page is the current element plus the run of satisfying elements after it, and the first failing element is consumed |
| Utils.NextPage | Utils.cs:188-197 | reading one page from the enumerator yields the first page of the remaining elements |
| Utils.Page | Utils.cs:181-200 | `Page` yields exactly the pages of the source |
| Utils.Take | Utils.cs:217-234 | at most the first n elements, in order |
| Utils.BatchScanTakesMatches | Utils.cs:225-232 | the scan collects the first matching elements, up to the count |
| Utils.NextBatchOf | Utils.cs:212-234 | there is no batch iff the enumerator is exhausted; otherwise at least one element is consumed |
| Utils.NextBatchIsFirstMatches | Utils.cs:217-234 | a batch is the first `count` matching elements in source order, and empty for a non-positive count |
| Utils.NextBatchDropsOneAfterFull | Utils.cs:225 | when every element matches, a batch is the first `count` elements ahead; with more than `count` ahead, `count + 1` are consumed, so the one after the batch is lost |
| Utils.ScanRest | Utils.cs:225-232 | the loop collects what the scan describes and consumes what it says |
| Utils.NextBatch | Utils.cs:210-235 | `NextBatch` returns null iff the enumerator is exhausted, and otherwise the first matching elements up to the count, consuming as the scan says |
| Utils.ParseEnum | Utils.cs:139-142 | the result is the first name equal to the text ignoring case, and an argument error iff there is none |
| Text.EqualsIgnoreCaseIsEquivalence | Utils.cs:141 | case-insensitive comparison is an equivalence |
| Text.NatToStringRoundTrip | CasasInputs.cs:208 | decimal rendering gives canonical digits that read back as the number |
| Text.IntToStringInjective | Sensors/HourOfDay.cs:48 | different numbers render differently |
| Text.FirstToken | Sensors/SensorSet.cs:216-219 | the first token is a space-free prefix, followed by a space when it is shorter than the text |
| Text.FirstTokenOfSpaceless | Sensors/SensorSet.cs:216 | a text without a space is kept whole |
| Text.OrdinalLessTotal | CasasInputs.cs:223 | any two different strings are ordered one way or the other |

## Left out

- Sensors with no source here are parameters, not models: the motion, light, kitchen-item and door decisions, the electricity bins, and the layout and `Compute` of `CompoundHourOfDay` and `PreviousActivity`. `ICompoundFeature` and `ISensor` declare no behaviour of their own and are not part of this model.
- `SensorComparer` is not part of this model. It is taken to be a strict order that reads only a sensor's (Name, Id) pair (`Registries.Order` over `SortKey`), so nothing is proved about which pairs it deems equivalent.
- `CompoundHourOfDay.cs` and `PreviousActivity.cs` are not part of this model. `CompoundHourOfDay` is taken to be none of `HourOfDay`, `BinarySensor` and `OneOfNSensor`, so the `is HourOfDay` tests at lines 179, 194 and 254 of `Sensors/SensorSet.cs` are false for it, and so are the `is OneOfNSensor` and `is BinarySensor` tests at lines 192, 256 and 273. `PreviousActivity` is taken to be a `OneOfNSensor`.
- The `Compute` results of those two classes are forced onto their own buckets: the unseen choice gives a bucket position, and `SensorKinds.Expected` turns it into that sensor's bucket (`BucketAt`), failing when it is out of range. Their bucket layouts likewise come from an unseen (id, names) pair laid out by `NewBuckets`, so bucket i has index i and the sensor as owner.
- `SensorReading.cs` is not part of this model. A `SensorReading` is taken to compare by reference, so `SensorReadingCollection`, a `HashSet<SensorReading>`, is a set of reading objects. Its `ContainsKey`, `Remove` and the compound lookup compare buckets and sensors with `==`, which neither class overloads, so those are reference comparisons as in the source.
- Runtime reflection is replaced by a tag table from letters to sensor classes and a class-name function. The generic overload is modelled only for classes with a parameterless constructor (`Generic`); the source calls it only with `HourOfDay`.
- `DateTime.Parse` and `double.Parse` are arbitrary functions given as parameters, so nothing about culture, formats or floating point is modelled. `double.Epsilon` comparisons with zero are exact comparisons with zero. NaN and infinities are not values of the model; a bin edge is a whole number or positive infinity.
- `Enum.Parse` is modelled as a case-insensitive lookup of the member names. It does not trim the surrounding whitespace that `Enum.Parse` ignores, so a reading such as " Open" is an error in the model. Numeric and comma-separated forms are not modelled either, and only ASCII letters are case-folded.
- SensorSets.Tag: the sensor type letter is upper-cased with ASCII-only `Text.Upper`, independent of culture. The source's `ToUpper()` follows the current culture and all of Unicode, so a code such as "ı012" (dotless i) selects a kitchen-item sensor in the source but is an unknown sensor in the model, and under a Turkish culture "i012" is unknown in the source but not in the model. This affects `ParseSensorString` and `ParseKnown` for non-ASCII or culture-dependent first letters only.
- `OrderBy` on strings is modelled with the ordinal order; the source's culture-sensitive default comparer is not modelled.
- Exception messages other than `double.Parse`'s are not modelled; an exception is its class plus an opaque message.
- `Sensor.Name` and `BaseTypeName` caches are not modelled; `Name` is always the class name and `BaseTypeName` is left out. Setters that assign null to `Buckets` are not modelled, so `Count` never sees a null list.
- `SensorSet.Sensors` has a public setter, and `SensorBuckets`, `SensorBucketIndices` and `SensorVectorLength` return null, null and 0 when it is null (lines 85, 122 and 135 of `Sensors/SensorSet.cs`). No file of the modelled source assigns `Sensors` after the constructor, so the registry is never null in the model and those null branches are not modelled.
- Debug strings are left out: `SensorSet.ToString`, `SensorReadingCollection.Summary`, `Instance.Summary`, `CasasInputs.ToString`, `Bias.ToString` and `NumericSensor.ToString`.
- Integer overflow is not modelled. Activity positions are asked to fit in 32 bits (`GetActivities` requires at most `int.MaxValue` activities), which the fixed table of 12 always does.
- `FullSensorSet` and `SmallSensorSet` are construction methods returning a `SensorSet`, not subclasses; `ElectricitySensorBins` and `TemperatureSensorBins` are constants.
- OneOfNSensors.Configure: builds each bucket from a name only. The source's `SensorBucketFunc` (`Func<string[], int, SensorBucket>`) may return any bucket, or null. Here `BucketNamer` returns only the name, and the bucket is made with index i and this sensor as owner. No file of the modelled source assigns `SensorBucketFunc`.
- OneOfNSensors.NamesFrom: gives the names `BucketNamer` returns, for the same reason; a function that returns an existing bucket, or null, is not modelled.
- FullSensorSets.Preregistered: states that each added per-resident sensor, or a sensor equivalent to it under the comparer, is registered, because an equivalent sensor already in the sorted set makes `Add` drop the new one.
- SensorSets.SensorSet.ParseSensorStringOf: does not state that a created sensor is registered, because the sorted set drops it when the comparer deems it equivalent to a registered sensor; the reading is still computed by the created sensor, as in the source.
- Utils.Page: builds every page at once. The source's iterator uses `yield return` under `using`, so it produces pages lazily, disposes the enumerator, and never evaluates the predicate on elements after the point where a caller stops; for a pure predicate the pages it yields are the same.
- The floating-point and statistics helpers of `Utils.cs`, its `double` and `Bernoulli` `ArgMax` overloads, `WriteToFile` (file I/O) and `GetDescription<T>` (reflection) are left out, and so are `DistributionArrayHelpers.cs` (a foreign distribution library) and `Readers/TemporaryFlatFileReader.cs` (an I/O stub).
