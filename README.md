# Ecowitt cloud poller, modelled in Dafny

This project models the core of `ecowittcloud`, a .NET job that polls the Ecowitt weather cloud.
For each configured station it checks that the cloud knows the device and fetches its historical
readings: the last 360 minutes, or 89 days in day-long requests on an initial run. It parses the
JSON answer into per-channel time series and merges them into output channels. A channel writes
one CSV file, or one Azure append blob, per UTC year. It keeps a metadata document that records
the last timestamp already stored and the station's identity.

The model follows the program's own structure, one module per source file or revision:

- `InputData`, `LegacyInputData` and `DataChannels`: the streaming parsers of the API's JSON, over
  a token sequence, in the newer and the older revision.
- `OutputChannel`: channel metadata, its blob form, and the merge of parsed data into a channel's
  buffer.
- `Backend`, `CSVFileOutputChannel` and `BlobOutputChannel`: initialising a channel against its
  stored metadata and saving its buffer by year partitions. The files and blobs are one value of
  type `Store`.
- `Gateway`, `LegacyGateway` and `Units`: the device wrapper that checks its configuration,
  builds query strings and checks the time range of a request.
- `Configuration` and `LegacyConfiguration`: validation of the configuration file.
- `RunPlan`, `Controller` and `LegacyController`: the orchestration. This covers the request
  windows, the filter of verified devices, the sorted task list, channel binding, routing and
  saving, and the offline run over sample files.

The parser and channel classes are Dafny classes whose methods update their fields. The
orchestrators thread channel values and the `Store` through value-level specification functions,
and each loop is a method proved equal to its function.

Where the program's behaviour is surprising, the model follows the code:

- When a save spans a year boundary, the next year's file receives every buffered row, not only
  the rows of that year (see Findings).
- `src/BlobOutputChannel.cs:86` reads a behaviour flag named `AllowLocationChanges`. The
  configuration class only declares `AllowLocationChange`; the model reads that flag.
- `src/common_code/Controler.cs:252` assigns the configured `TimeStampFormat` to
  `meta.TimestampFormat`. The metadata class shown (`src/OutputChannel.cs:12-30`) declares no
  such member, so the model has no field for it and drops the assignment (see Left out).
- `src/BlobOutputChannel.cs:104-118` catches any failed request for the metadata blob, even on a
  blob that exists, and overwrites the blob with the current metadata. The stored checkpoint is
  then lost, and the next save starts from the current record's timestamp.
- In `AddData` of `src/OutputChannel.cs`, the flag `firstDataColumn` starts true and is never
  cleared. Every non-empty sensor therefore takes the first sensor's branch, which rewrites the
  time rows from slot 0.

## Model

| member | source | states |
|---|---|---|
| InputData.GetString | src/common_code/EcowittInputData.cs:126-127 | reading a string from the reader succeeds exactly on property names and string values (a JSON `null` reads as null) and throws on every other token type |
| InputData.ValueTextEquals | src/common_code/EcowittInputData.cs:102 | comparing the current token with a text throws unless it is a property name or a non-null string, and otherwise answers whether its text is that text |
| InputData.AttachSeries | src/common_code/EcowittInputData.cs:92-93 | handing a closed series to the current sensor fails on a null channel, on a channel not in the dictionary and on a null sensor, and succeeds only with both names present |
| InputData.AttachSeriesUpdates | src/common_code/EcowittInputData.cs:93 | for a known channel the series is stored under its sensor in that channel, and the dictionary's channel names are unchanged |
| InputData.CheckMsg | src/common_code/EcowittInputData.cs:102-107 | the `msg` test leaves the channels and flags untouched, and any value it reads is a string or name at the same depth |
| InputData.CheckChannelOpen | src/common_code/EcowittInputData.cs:108 | a property name below depth 2 throws exactly when no channel is open, and otherwise nothing changes |
| InputData.CheckData | src/common_code/EcowittInputData.cs:109-112 | at depth 1 outside the data section, the name `data` enters the section and any other name changes nothing; the reader stays on the name, and a token that is not text throws |
| InputData.CheckUnit | src/common_code/EcowittInputData.cs:113-117 | in the current revision, the name `unit` at depth 4 inside a sensor reads the one value after it as the sensor unit and moves onto it; the end of the data after the name throws, and otherwise nothing moves or changes |
| InputData.CheckList | src/common_code/EcowittInputData.cs:118-122 | the name `list` at depth 4 inside a sensor enters series mode with a new, empty series; the reader stays on the name, and any other name changes nothing |
| InputData.CheckSensor | src/common_code/EcowittInputData.cs:123-129 | at depth 3 inside a channel, the name read becomes the current sensor and a null name throws "Sensor name is null"; the reader stays on the name, and elsewhere nothing changes |
| InputData.CheckSeries | src/common_code/EcowittInputData.cs:130-137 | in series mode at depth 5, the name and the one value after it are appended to the series as a point and the reader moves onto the value; the uninitialised-series exception needs a missing series, and outside series mode nothing changes |
| InputData.CheckChannel | src/common_code/EcowittInputData.cs:138-146 | in channel mode, the name read opens a new, empty channel and becomes the current one, and it succeeds exactly when the name is not already a channel; a null name throws "Channel name is null", the reader stays on the name, and outside channel mode nothing changes |
| InputData.OnPropertyName | src/common_code/EcowittInputData.cs:101-147 | all the tests of one property name together consume only names and strings and keep the depth |
| InputData.Step | src/common_code/EcowittInputData.cs:53-148 | one turn of the read loop always moves the reader forward and never past the end |
| InputData.ReadMsg | src/common_code/EcowittInputData.cs:102-107 | the statements of the `msg` test do what `CheckMsg` specifies |
| InputData.ReadData | src/common_code/EcowittInputData.cs:109-112 | the statements of the `data` test do what `CheckData` specifies |
| InputData.ReadUnit | src/common_code/EcowittInputData.cs:113-117 | the statements of the `unit` test do what `CheckUnit` specifies |
| InputData.ReadList | src/common_code/EcowittInputData.cs:118-122 | the statements of the `list` test do what `CheckList` specifies |
| InputData.ReadSensor | src/common_code/EcowittInputData.cs:123-129 | the statements of the sensor-name test do what `CheckSensor` specifies |
| InputData.ReadSeriesPoint | src/common_code/EcowittInputData.cs:130-137 | the statements of the series-point test do what `CheckSeries` specifies |
| InputData.ReadChannel | src/common_code/EcowittInputData.cs:138-146 | the statements of the channel-name test do what `CheckChannel` specifies |
| InputData.ReadPropertyName | src/common_code/EcowittInputData.cs:101-147 | the `PropertyName` case, stopping at the first exception, equals `OnPropertyName` |
| InputData.ReadStartObject | src/common_code/EcowittInputData.cs:56-73 | the `StartObject` case equals the start-object transition of the locals |
| InputData.ReadEndObject | src/common_code/EcowittInputData.cs:74-100 | the `EndObject` case, including the exception of attaching a series, equals the end-object transition |
| InputData.RunAfterStep | src/common_code/EcowittInputData.cs:51 | after a turn that does not throw, the loop carries on from the state and position that turn left |
| InputData.RunStopsAtError | src/common_code/EcowittInputData.cs:51 | a turn that throws ends the run with that exception and the state from before the turn |
| InputData.StepOnEndObject | src/common_code/EcowittInputData.cs:74-100 | a closing brace makes exactly the end-object transition and consumes one token |
| InputData.StepOnPropertyName | src/common_code/EcowittInputData.cs:101-147 | a property name runs the tests of the `PropertyName` case and then moves one token past what they read |
| InputData.ReadToken | src/common_code/EcowittInputData.cs:53-148 | the switch on the token type equals one turn `Step` |
| InputData.ProcessTokens | src/common_code/EcowittInputData.cs:51-149 | the read loop leaves the channel dictionary, and stops with the exception, that the run from the initial locals gives |
| InputData.MsgMustBeSuccess | src/common_code/EcowittInputData.cs:102-107 | `msg` at depth 1 throws at the end of the data, on a string other than "success", and on a value that is not a string |
| InputData.SensorDataNeedsChannel | src/common_code/EcowittInputData.cs:108 | any property name deeper than 2 with no open channel throws "Sensor data without channel" |
| InputData.ChannelModeOpensChannel | src/common_code/EcowittInputData.cs:138-146 | in channel mode a new name opens an empty channel of that name and makes it current; a repeated name throws as `Dictionary.Add` does |
| InputData.SeriesPairAppended | src/common_code/EcowittInputData.cs:130-137 | inside `list` a name/value pair is appended to the series and the reader moves past the value |
| InputData.SeriesCloseAttaches | src/common_code/EcowittInputData.cs:88-97 | closing `list` hands the series to the current sensor with the unit read (the sensor name in the older revision), clears the series and returns to depth 4 |
| InputData.ChannelCloseReentersChannelMode | src/common_code/EcowittInputData.cs:76-81 | closing a channel object clears the current channel and re-enters channel mode at depth 2 |
| InputData.DataCloseKeepsChannelMode | src/common_code/EcowittInputData.cs:82 | closing `data` only leaves the data section and lowers the depth; channel mode is not reset |
| InputData.DepthAppend | src/common_code/EcowittInputData.cs:71 | the number of objects opened minus closed adds up over concatenated token streams |
| InputData.DepthOfScalars | src/common_code/EcowittInputData.cs:71 | names and strings open and close no object |
| InputData.EndObjectLevel | src/common_code/EcowittInputData.cs:98 | a closing brace that does not throw lowers the depth by one |
| InputData.PropertyNameLevel | src/common_code/EcowittInputData.cs:101-147 | a property name keeps the depth, and the tokens it consumes are balanced |
| InputData.StepLevel | src/common_code/EcowittInputData.cs:71 | one turn moves the depth by the objects opened minus closed among the tokens it read |
| InputData.RunLevel | src/common_code/EcowittInputData.cs:51-149 | a run that ends without exception moves the depth by the depth of the rest of the stream |
| InputData.BalancedStreamEndsAtDepthZero | src/common_code/EcowittInputData.cs:50 | on a balanced stream a run without exception leaves the depth counter at 0 |
| InputData.ChannelAddKeepsKeysDistinct | src/common_code/EcowittInputData.cs:145 | adding a name not yet present keeps the channel names distinct |
| InputData.CheckMsgKeepsConsistent | src/common_code/EcowittInputData.cs:102-107 | the `msg` test keeps the channels and the series locals consistent |
| InputData.CheckChannelOpenKeepsConsistent | src/common_code/EcowittInputData.cs:108 | the open-channel test keeps the channels and the series locals consistent |
| InputData.CheckDataKeepsConsistent | src/common_code/EcowittInputData.cs:109-112 | the `data` test keeps the channels and the series locals consistent |
| InputData.CheckUnitKeepsConsistent | src/common_code/EcowittInputData.cs:113-117 | the `unit` test keeps the channels and the series locals consistent |
| InputData.CheckListKeepsConsistent | src/common_code/EcowittInputData.cs:118-122 | `list` creates the series as it enters series mode, so a series being collected always exists |
| InputData.CheckSensorKeepsConsistent | src/common_code/EcowittInputData.cs:123-129 | the sensor-name test keeps the channels and the series locals consistent |
| InputData.CheckSeriesKeepsConsistent | src/common_code/EcowittInputData.cs:130-137 | the "Data series object not initalized" exception cannot happen from a consistent state |
| InputData.CheckChannelKeepsConsistent | src/common_code/EcowittInputData.cs:138-146 | adding a channel keeps its names distinct and the series locals consistent |
| InputData.PropertyNameKeepsConsistent | src/common_code/EcowittInputData.cs:101-147 | a property name never meets an uncreated series and keeps the locals consistent |
| InputData.CloseSeriesKeepsConsistent | src/common_code/EcowittInputData.cs:88-97 | closing a series keeps the channel names distinct and the locals consistent |
| InputData.EndObjectKeepsConsistent | src/common_code/EcowittInputData.cs:74-100 | a closing brace keeps the locals consistent |
| InputData.StepKeepsConsistent | src/common_code/EcowittInputData.cs:53-148 | one turn from a consistent state never meets an uncreated series and stays consistent |
| InputData.RunKeepsConsistent | src/common_code/EcowittInputData.cs:51-149 | a whole run from a consistent state never raises "Data series object not initalized" and stays consistent to the end |
| InputData.ParseKeepsChannelsDistinct | src/common_code/EcowittInputData.cs:36-150 | parsing into a dictionary with distinct names never meets an uncreated series and keeps the names distinct |
| InputData.EcowittInputData.constructor | src/common_code/EcowittInputData.cs:30-34 | the object keeps the payload and starts with an empty channel dictionary |
| InputData.EcowittInputData.ProcessInput | src/common_code/EcowittInputData.cs:36-150 | the channels become those the token run gives from the ones already held, an exception keeps the channels added before it, and distinct names stay distinct |
| InputData.EcowittInputData.GetChannels | src/common_code/EcowittInputData.cs:152-161 | one summary per parsed channel, in the order the channels were added, each carrying that channel's name |
| InputData.EcowittInputData.GetChannel | src/common_code/EcowittInputData.cs:163-168 | a blank name throws; otherwise the answer is null exactly when the name is not parsed, and else that channel's entry |
| LegacyInputData.EcowittInputData.constructor | src/EcowittInputData.cs:28-32 | the object keeps the payload and starts with an empty channel dictionary |
| LegacyInputData.EcowittInputData.ProcessInput | src/EcowittInputData.cs:34-135 | the channels become those the older token run gives, an exception keeps the channels added before it, and distinct names stay distinct |
| LegacyInputData.EcowittInputData.GetChannels | src/EcowittInputData.cs:137-145 | the loop over the channels has an empty body, so the list returned is always empty |
| LegacyInputData.MsgIgnored | src/EcowittInputData.cs:97-99 | the older parser never inspects `msg`, so a failed API answer parses like a successful one |
| LegacyInputData.UnitIgnored | src/EcowittInputData.cs:103-107 | nor does it read `unit`: the name is passed over by every test |
| DataChannels.NewDataChannel | src/DataChannels.cs:23-30 | a new channel has zero dates and count and an empty name whatever text it is built from, and keeps that text |
| DataChannels.ProcessChannel | src/DataChannels.cs:32-35 | the source method has an empty body, so processing a channel changes nothing |
| DataChannels.DataChannelMetaData | src/DataChannels.cs:45-51 | the summary copies the four members of its source verbatim |
| DataChannels.SummaryIgnoresRawData | src/DataChannels.cs:23-51 | the text a channel is built from never reaches its summary: any two texts give the same all-zero summary, before and after processing |
| OutputChannel.ConvertToBlobMetadata | src/OutputChannel.cs:40-46 | the channel name, MAC, device name and station type are stored verbatim under their own names |
| OutputChannel.ConvertToBlobMetadataKeys | src/OutputChannel.cs:40-59 | the blob form holds exactly the fourteen persisted fields, one key per field |
| OutputChannel.ConvertToBlobMetadataNumbers | src/OutputChannel.cs:47-51 | the checkpoint, creation time, cloud id and coordinates are stored as their decimal or `double` text |
| OutputChannel.ConvertToBlobMetadataUnits | src/OutputChannel.cs:52-56 | the five units are stored as the names of their enumeration members |
| OutputChannel.ParseBlobMetadata | src/OutputChannel.cs:61-119 | as written: null, an empty map or a missing or empty name field gives null; otherwise the names are copied and every number reads back as 0, temperature and pressure become Celsius and hPa when present (0 when missing), and wind, rain and solar keep their defaults |
| OutputChannel.ParseBlobMetadataLosesCheckpoint | src/OutputChannel.cs:79-81 | a checkpoint written to blob metadata reads back as 0, not as written |
| OutputChannel.ParseBlobMetadataCounterexample | src/OutputChannel.cs:106-109 | a channel checkpointed at 1700000000 with wind in km/h reads back with checkpoint 0 and wind in m/s |
| OutputChannel.ParseBlobMetadataCorrected | src/OutputChannel.cs:61-119 | the reader as intended rejects exactly what the original rejects |
| OutputChannel.ParseBlobMetadataCorrectedRoundTrip | src/OutputChannel.cs:40-119 | the intended reader inverts the blob form on every record with non-empty names whose coordinates survive `double` formatting; only the output configuration comes back as the default |
| OutputChannel.ParseUnitOf | src/OutputChannel.cs:98-101 | a unit written by its name under a key reads back as that unit |
| OutputChannel.Kept | src/OutputChannel.cs:175 | the points after the checkpoint are at most the points given |
| OutputChannel.FillFromOk | src/OutputChannel.cs:170-179 | the first-sensor loop succeeds exactly when every timestamp is non-blank and parses as an unsigned number, and the kept points fit the rows |
| OutputChannel.FillFromValue | src/OutputChannel.cs:170-179 | when it succeeds it writes the timestamps of the points after the checkpoint, in order, into the leading row slots, and their values (null as "") into the column |
| OutputChannel.MergeFromMeaning | src/OutputChannel.cs:222-238 | the column merge succeeds exactly when every buffered column is in the batch, and keeps the buffered columns in order, each followed by the batch's slots for it |
| OutputChannel.MergeMeaning | src/OutputChannel.cs:219-240 | the same for the whole merge, both directions of the success condition |
| OutputChannel.MergeDropsNewColumns | src/OutputChannel.cs:222-238 | a column that only the new batch has is dropped |
| OutputChannel.AddDataKeepsPrefix | src/OutputChannel.cs:209-242 | once the buffer has rows they stay a prefix of the buffer and the first timestamp never changes |
| OutputChannel.AddDataIgnoresEmptyChannel | src/OutputChannel.cs:155 | a null channel or one without sensors leaves the buffer unchanged and raises nothing |
| OutputChannel.AddDataLaterCall | src/OutputChannel.cs:209-242 | a later call that raises nothing appends the batch's rows, appends each buffered column's new slots to it, keeps the column names, and moves the last timestamp to the final new row |
| OutputChannel.AddDataMissingColumn | src/OutputChannel.cs:224-229 | a later batch missing a buffered column throws after the rows were already appended |
| OutputChannel.BatchFromShape | src/OutputChannel.cs:161-198 | a batch that builds has one row per point of the first series and one column per sensor with points, named `<sensor>_<unit>` in sensor order, no two alike |
| OutputChannel.BatchShape | src/OutputChannel.cs:157-198 | the same for the whole sensor loop |
| OutputChannel.MisalignedSensorsAccepted | src/OutputChannel.cs:159-197 | `firstDataColumn` is never cleared, so the timestamp-alignment check is unreachable: two sensors with different timestamps build a batch whose rows hold the second sensor's timestamps |
| OutputChannel.BatchFromStale | src/OutputChannel.cs:175 | when every point is at or before the checkpoint the batch has all its row slots unwritten |
| OutputChannel.StaleBatchAppendsNullRows | src/OutputChannel.cs:211-241 | a later batch with only old points still appends one unwritten row per point of the first series, then throws (parsing a null slot or a missing column) with the last timestamp unchanged |
| OutputChannel.FillColumn | src/OutputChannel.cs:170-179 | the first-sensor loop over an array of rows does what `FillFrom` specifies: same success, same error, same rows and column |
| OutputChannel.BuildBatch | src/OutputChannel.cs:157-198 | the sensor loop builds exactly the batch `Batch` specifies, or its exception |
| OutputChannel.ConcatSlots | src/OutputChannel.cs:211-217 | the copy loop yields the old slots followed by the new ones |
| OutputChannel.MergeColumns | src/OutputChannel.cs:219-240 | the column loop yields exactly `Merge` of the buffered and the new columns |
| OutputChannel.OutputChannel.constructor | src/OutputChannel.cs:137-146 | a channel starts with the metadata's name, zero dates and count, the given configuration and an empty buffer |
| OutputChannel.OutputChannel.AddData | src/OutputChannel.cs:148-243 | the buffer moves as the specification of `AddData` says and nothing else about the channel changes |
| OutputChannel.NewOutputChannel | src/OutputChannel.cs:137-139 | construction throws "Invalid output channel configuration" exactly when the metadata does not validate |
| Backend.MetadataDrift | src/CSVFileOutputChannel.cs:65-105 | the stored metadata is accepted exactly when all five units agree and the location and station type agree unless their change is allowed; a temperature change is reported first, and a station-type message only when that change is not allowed |
| Backend.InitSpec | src/CSVFileOutputChannel.cs:47-125 | a missing metadata document is written from the current metadata and accepted; an unreadable one is treated the same way when failed reads count as missing, and otherwise throws; any other existing document leaves the storage unchanged, the files are never touched, and a stored record is adopted only when it is non-null and passes the drift check |
| Backend.RowCells | src/CSVFileOutputChannel.cs:269-272 | formatting the cells of a row can only fail on a column too short for that row |
| Backend.ScanYear | src/CSVFileOutputChannel.cs:261-280 | the same-year row loop stops inside the rows, at or after where it started, and can only raise a row error |
| Backend.DumpFrom | src/CSVFileOutputChannel.cs:299-308 | the later-year row loop can only fail on a short column |
| Backend.ScanYearStops | src/CSVFileOutputChannel.cs:261-280 | when the same-year scan raises nothing, every row before its stop is of that year and formats, and the row at the split is of another year |
| Backend.ScanYearLines | src/CSVFileOutputChannel.cs:261-280 | the same-year scan writes the line of each of those rows, in order, after the lines already written |
| Backend.DumpFromMeaning | src/CSVFileOutputChannel.cs:299-308 | the later-year loop writes the line of every row from where it starts, in order |
| Backend.RowLines | src/CSVFileOutputChannel.cs:261-308 | the lines of a range of rows are one per row, in order |
| Backend.RowLinesSplit | src/CSVFileOutputChannel.cs:261-308 | the lines of consecutive row ranges join into the lines of the whole range |
| Backend.ScanYearIsRowLines | src/CSVFileOutputChannel.cs:261-280 | the same-year scan from row 0 that raises nothing writes exactly the lines of the rows before the first row of another year |
| Backend.DumpFromIsRowLines | src/CSVFileOutputChannel.cs:299-308 | the dump raises nothing exactly when every row from its start formats, and then writes exactly their lines |
| Backend.DistinctSuffixes | src/CSVFileOutputChannel.cs:246 | partition names built from one channel name and different years differ |
| Backend.AppendFile | src/CSVFileOutputChannel.cs:248-249 | appending creates the file when missing, adds the block after the existing lines and changes no other file |
| Backend.FilesGrowTrans | src/CSVFileOutputChannel.cs:236-313 | files that only grew in two steps only grew overall |
| Backend.HeaderIsJoin | src/CSVFileOutputChannel.cs:254-259 | the header is the quoted "Timestamp" and the quoted column names joined by commas |
| Backend.RowCellsIsJoin | src/CSVFileOutputChannel.cs:268-272 | row cells format exactly when every column has a slot for the row, and are the quoted values joined by commas |
| Backend.RowLineIsJoin | src/CSVFileOutputChannel.cs:268-273 | a row line formats exactly when every column has a slot for it, and is the quoted timestamp and values joined by commas |
| Backend.BuildHeader | src/CSVFileOutputChannel.cs:254-258 | the string-builder header loop builds `HeaderLine` |
| Backend.BuildRow | src/CSVFileOutputChannel.cs:267-272 | the string-builder row loop builds the row line, or fails on a short column |
| Backend.RowCellsStopsAtShortColumn | src/CSVFileOutputChannel.cs:271 | once a column is short every longer prefix of the row fails |
| Backend.ScanSameYear | src/CSVFileOutputChannel.cs:261-280 | the same-year row loop computes `ScanYear` from row 0 |
| Backend.DumpRows | src/CSVFileOutputChannel.cs:299-308 | the later-year row loop computes `DumpFrom` from its start row |
| CSVFileOutputChannel.SaveWith | src/CSVFileOutputChannel.cs:236-313 | `SaveData` without buffered rows throws "No data added to channel", without columns "Empty data columns"; the checkpoint advances to the last buffered timestamp when every file was written (and when only the metadata file was missing), is untouched after any other exception, and a save without exception leaves the new record in the channel's metadata document |
| CSVFileOutputChannel.AppendSameYearGrows | src/CSVFileOutputChannel.cs:244-283 | the same-year block only appends, and only to that year's partition |
| CSVFileOutputChannel.WritePartitionsToGrow | src/CSVFileOutputChannel.cs:244-311 | the two partition blocks only grow files, only the two named partitions, and leave the metadata documents alone |
| CSVFileOutputChannel.SaveOnlyAppends | src/CSVFileOutputChannel.cs:236-313 | a save never loses text: every file keeps its content as a prefix, no file but the partitions of the first buffered year and the year after appears or grows, and no metadata document but the channel's changes |
| CSVFileOutputChannel.UntouchedFile | src/CSVFileOutputChannel.cs:248-249 | a write to one file leaves every other file as it was |
| CSVFileOutputChannel.WritePartitionsToSameYear | src/CSVFileOutputChannel.cs:244-283 | a save in the checkpoint's year that raises nothing gives its partition a header only when it was empty, and then the scanned lines |
| CSVFileOutputChannel.WritePartitionsToNextYear | src/CSVFileOutputChannel.cs:284-311 | a buffer running into the next year creates the next year's partition, distinct from the first, with a header and the dump |
| CSVFileOutputChannel.CreatePartitionGrows | src/CSVFileOutputChannel.cs:289-310 | creating a partition adds only that file and leaves the others as they were |
| CSVFileOutputChannel.SameYearPartition | src/CSVFileOutputChannel.cs:244-283 | in the checkpoint's year the partition gains, after its lines (and a header when empty), the lines of the leading rows of that year up to the first row of another year |
| CSVFileOutputChannel.NextYearPartitionRepeatsRows | src/CSVFileOutputChannel.cs:299-308 | as written, the next year's partition receives every buffered row from row 0, so the rows before the split are written to both partitions |
| CSVFileOutputChannel.CorrectedPartitionsSplitRows | src/CSVFileOutputChannel.cs:244-311 | with the next year's partition starting at the split, the two partitions together gain every buffered row's line exactly once, in order, each in its own year |
| CSVFileOutputChannel.CSVFileOutputChannel.constructor | src/CSVFileOutputChannel.cs:37-45 | a blank folder becomes "", the metadata file is `<channel>_metadata` under the folder (joined by a backslash), the checkpoint starts at 0 and the buffer is empty |
| CSVFileOutputChannel.CSVFileOutputChannel.InitChannel | src/CSVFileOutputChannel.cs:47-125 | the buffer is emptied, and the stored metadata is adopted with its checkpoint when present and compatible, as `InitSpec` says; only a missing file is rewritten, and a file that cannot be read throws |
| CSVFileOutputChannel.CSVFileOutputChannel.AddData | src/CSVFileOutputChannel.cs:139-234 | the buffer moves as the specification of `AddData` says; the metadata is untouched |
| CSVFileOutputChannel.CSVFileOutputChannel.UpdateMetadata | src/CSVFileOutputChannel.cs:127-137 | the checkpoint advances to the last buffered timestamp and the metadata file is rewritten, which fails when it is missing |
| CSVFileOutputChannel.CSVFileOutputChannel.SaveData | src/CSVFileOutputChannel.cs:236-313 | the partitions and the metadata change as `SaveSpec` says and the buffer is kept |
| CSVFileOutputChannel.WritePartitionFiles | src/CSVFileOutputChannel.cs:243-311 | the two partition blocks of `SaveData` do what `WritePartitionsTo` specifies |
| CSVFileOutputChannel.NewCSVFileOutputChannel | src/CSVFileOutputChannel.cs:37-38 | construction throws "Invalid output channel configuration" exactly when the metadata does not validate |
| BlobOutputChannel.WriteBlobsToScanError | src/BlobOutputChannel.cs:142-215 | a row that raises in the same-year branch leaves every blob as it was, since the lines are gathered in memory before the append |
| BlobOutputChannel.UpdateMetadataBlob | src/BlobOutputChannel.cs:122-132 | the checkpoint advances to the last buffered timestamp and the metadata blob holds the new record |
| BlobOutputChannel.UpdateMetadataBlobFrame | src/BlobOutputChannel.cs:122-132 | the metadata update changes no partition blob and no other document |
| BlobOutputChannel.BlobSaveWith | src/BlobOutputChannel.cs:134-217 | `SaveData` without rows throws "No data added to channel", without columns "Empty data columns"; the checkpoint advances exactly when nothing is raised, and then the metadata blob holds it; an exception leaves the documents as they were |
| BlobOutputChannel.YearBlobsDiffer | src/BlobOutputChannel.cs:178-179 | the blobs of consecutive years are distinct |
| BlobOutputChannel.WriteBlobsToGrow | src/BlobOutputChannel.cs:142-215 | the two append blocks only grow blobs, only the two named ones, and leave the documents alone |
| BlobOutputChannel.BlobSaveOnlyAppends | src/BlobOutputChannel.cs:134-217 | a save never loses text: every blob keeps its content as a prefix, no blob but those of the first buffered year and the year after appears or grows, and no document but the channel's metadata changes |
| BlobOutputChannel.UntouchedBlob | src/BlobOutputChannel.cs:181-182 | appending to one blob leaves every other blob as it was |
| BlobOutputChannel.WriteBlobsToSameYear | src/BlobOutputChannel.cs:142-184 | a save in the checkpoint's year that raises nothing appends a header (as written always, corrected only to an empty blob) and the scanned lines |
| BlobOutputChannel.WriteBlobsToNextYear | src/BlobOutputChannel.cs:185-215 | a buffer running into the next year appends a header and the dump from row 0 (as written) or from the split (corrected) to the next year's blob |
| BlobOutputChannel.BlobSameYearRepeatsHeader | src/BlobOutputChannel.cs:144-155 | as written, the header goes to a fresh memory stream, so a blob that already has content gets a second header in the middle of its data |
| BlobOutputChannel.BlobSameYearPartition | src/BlobOutputChannel.cs:142-184 | in the checkpoint's year the blob gains the lines of the leading rows of that year up to the first row of another year, after a header that the corrected save writes only to an empty blob |
| BlobOutputChannel.BlobNextYearRepeatsRows | src/BlobOutputChannel.cs:197-206 | as written, the next year's blob receives every buffered row from row 0, so the rows before the split are appended to both blobs |
| BlobOutputChannel.BlobCorrectedPartitionsSplitRows | src/BlobOutputChannel.cs:142-215 | corrected, the two blobs together gain every buffered row's line exactly once, in order, and the next year's blob gets a header only when empty |
| BlobOutputChannel.BlobOutputChannel.constructor | src/BlobOutputChannel.cs:29-40 | a blob channel keeps the URL as its base, starts with checkpoint 0 and an empty buffer and has the Blob type |
| BlobOutputChannel.BlobOutputChannel.InitChannel | src/BlobOutputChannel.cs:42-120 | the buffer is emptied and the metadata blob `<base><channel>/metadata` is read as `InitSpec` says; a failed request counts as a missing blob, so the blob is overwritten with the current metadata and the stored checkpoint is neither adopted nor kept |
| BlobOutputChannel.BlobOutputChannel.AddData | src/OutputChannel.cs:148-243 | the inherited `AddData` moves the buffer as its specification says |
| BlobOutputChannel.BlobOutputChannel.UpdateMetadata | src/BlobOutputChannel.cs:122-132 | the checkpoint advances and the metadata blob is overwritten, as `UpdateMetadataBlob` says |
| BlobOutputChannel.BlobOutputChannel.SaveData | src/BlobOutputChannel.cs:134-217 | the blobs and the metadata change as `BlobSaveSpec` says and the buffer is kept |
| BlobOutputChannel.WriteBlobFiles | src/BlobOutputChannel.cs:142-215 | the two append blocks do what `WriteBlobsTo` specifies |
| BlobOutputChannel.NewBlobOutputChannel | src/BlobOutputChannel.cs:29-36 | construction succeeds exactly when the metadata validates, the URL is not blank, credentials are given and the URL parses, and otherwise throws the message of the first of those checks that fails |
| Gateway.ValidateDetails | src/common_code/EcowittDevice.cs:65-72 | the device details the cloud returns are valid exactly when the id is non-zero and the name, MAC and station type are not blank |
| Gateway.ConstructorCheck | src/common_code/EcowittDevice.cs:102-112 | the device is built exactly when both keys are non-blank and the configuration is present and valid; otherwise the first failing check, in source order, gives its exception |
| Gateway.RangeCheck | src/common_code/EcowittDevice.cs:116-117 | a history request is allowed exactly when it starts at most 90 days back and ends at most one day ahead; the start is checked first |
| Gateway.QueryParts | src/common_code/EcowittDevice.cs:178-187 | one `key=encoded value` piece per argument, in order |
| Gateway.BuildQueryString | src/common_code/EcowittDevice.cs:173-189 | the loop with its first-argument flag builds the pieces joined by `&`, and "" for a null argument list |
| Gateway.QueryStringRoundTrip | src/common_code/EcowittDevice.cs:173-189 | when neither keys nor encoded values contain `&` or `=`, the query string splits back at `&` and `=` into the keys and encoded values, in order |
| Gateway.AttemptOf | src/common_code/EcowittDevice.cs:199-254 | a failure status throws at once (403, 404 and any other with their own exceptions); the body is accepted exactly when it is non-blank JSON, not null, with code 0 and message "success"; everything else is retried |
| Gateway.Decisive | src/common_code/EcowittDevice.cs:197-263 | the first attempt that is not retried, with every attempt before it retried, or the attempt limit when every attempt is retried |
| Gateway.CallFromOutcome | src/common_code/EcowittDevice.cs:191-266 | the first attempt that is not retried decides the call (its body or its exception); after three retried attempts the call returns null; every retried attempt sleeps its jitter times 1, 2 and 4 in turn, the last one too |
| Gateway.CallSleepBounds | src/common_code/EcowittDevice.cs:256-258 | every sleep lies in [2000, 4000) milliseconds times 1, 2 or 4 when the random draws lie in [2000, 4000) |
| Gateway.CallFromStep | src/common_code/EcowittDevice.cs:197-263 | a retried attempt defers the outcome to the next attempt |
| Gateway.CallDecided | src/common_code/EcowittDevice.cs:205-225 | at the attempt that decides, the call's outcome is that attempt's, after the sleeps made so far |
| Gateway.CallRetried | src/common_code/EcowittDevice.cs:256-262 | at a retried attempt the remaining outcome is that of the next attempt after one more sleep |
| Gateway.Examine | src/common_code/EcowittDevice.cs:205-254 | the tests on one response classify it exactly as `AttemptOf` |
| Gateway.APICall | src/common_code/EcowittDevice.cs:191-266 | the do-while loop returns the outcome and sleeps of the retry policy and sends one request per attempt up to the one that decides, or three |
| Gateway.HistoryArgs | src/common_code/EcowittDevice.cs:123-136 | the history request has the eleven arguments in the order the dictionary is filled |
| Gateway.HistoryRequestShape | src/common_code/EcowittDevice.cs:114-149 | a history request that passes the checks asks for the eleven arguments in order, each key with its encoded value (units as numbers, custom channels over configured ones, comma-joined); the range check decides whether it is made |
| Gateway.HistoryKeysDelimited | src/common_code/EcowittDevice.cs:125-135 | no history key contains `&` or `=` |
| Gateway.EcowittDevice.constructor | src/common_code/EcowittDevice.cs:102-112 | a device keeps the configuration and both keys |
| Gateway.EcowittDevice.ReadHistoricalData | src/common_code/EcowittDevice.cs:114-149 | the range checks, then the call to `device/history` with the query built from the arguments |
| Gateway.EcowittDevice.GetDeviceInfo | src/common_code/EcowittDevice.cs:151-171 | the call to `device/info` with the application key, API key and MAC |
| Gateway.NewEcowittDevice | src/common_code/EcowittDevice.cs:102-112 | construction throws exactly what the constructor's checks give, and otherwise keeps the configuration |
| Units.UnitEnumerationsWellFormed | src/common_code/EcowittDevice.cs:19-23 | the five unit enumerations have distinct member names and values |
| Units.NameOf | src/common_code/EcowittDevice.cs:19-23 | the name printed for a value belongs to a member with that value, and there is none exactly when no member has it |
| Units.ValueOf | src/common_code/EcowittDevice.cs:19-23 | the value parsed for a name belongs to a member of that name, and there is none exactly when no member has it |
| Units.EnumTryParse | src/OutputChannel.cs:100 | parsing a null text fails |
| Units.ValueOfNameOf | src/common_code/EcowittDevice.cs:19-23 | with unique members, naming a value and parsing the name back gives the value |
| Units.EnumRoundTrip | src/OutputChannel.cs:52-56 | a unit written with `ToString` is non-empty and reads back with `Enum.TryParse`, whether or not it is a declared member |
| LegacyGateway.EcowittDevice.constructor | src/EcowittDevice.cs:40-50 | a device keeps the configuration and both keys |
| LegacyGateway.EcowittDevice.ReadHistoricalData | src/EcowittDevice.cs:54-81 | the range checks, then the call to `device/history`; the older configuration holds the unit ids as integers, so their text is the same as in the newer revision |
| LegacyGateway.EcowittDevice.GetDeviceInfo | src/EcowittDevice.cs:83-95 | the call to `device/info` with the application key, API key and MAC |
| LegacyGateway.NewEcowittDevice | src/EcowittDevice.cs:40-50 | construction throws exactly what the constructor's checks give for the older configuration validated without its output channel |
| Configuration.ValidateDevice | common_code/Configuration.cs:33-65 | a device is valid exactly when its MAC is set, its poll rate lies in [10, 10080], it has at least one channel, and (when output channels are checked) it has an output channel with a non-negative ID; an unset MAC and a bad poll rate give their own messages first |
| Configuration.IdsOf | common_code/Configuration.cs:199-212 | the IDs of the channel definitions, one per definition, in order |
| Configuration.DefinitionsFromOk | common_code/Configuration.cs:200-221 | the definition loop passes exactly when every remaining ID is non-negative, unseen and distinct from the others and, for the Azure Function context, every URL parses; it then collects all IDs in order |
| Configuration.DevicesFromOk | common_code/Configuration.cs:222-230 | the device loop passes exactly when every device validates with its output channel and names a defined channel ID |
| Configuration.CheckSettingsIsWellFormed | common_code/Configuration.cs:189-230 | the settings pass every check exactly when there are devices and definitions, the IDs are non-negative and distinct, the URLs parse where required, and every device is valid and names a defined ID |
| Configuration.Configuration.constructor | common_code/Configuration.cs:105-109 | a configuration starts with no text read and empty settings |
| Configuration.Configuration.ReadConfiguration | common_code/Configuration.cs:157-173 | a failed read returns false with the exception's message and keeps what was read before; a successful one keeps the text; the settings never change |
| Configuration.Configuration.ValidateConfiguration | common_code/Configuration.cs:175-239 | returns the verdict and message of the checks in source order (false with no message when nothing was read or the document is null, the exception's message when deserialising throws); the settings are replaced by the document exactly when it passes |
| LegacyConfiguration.ValidateDevice | src/Configuration.cs:30-72 | a device is valid exactly when its MAC is set, its poll rate lies in [10, 10080], it has channels, and (when output channels are checked) it has an output channel whose type and timestamp format parse and whose ID is non-negative; an unparsable type gives "Invalid channel type: " and the type |
| LegacyConfiguration.DefinitionsFromOk | src/Configuration.cs:196-216 | the definition loop passes exactly when every type parses, every ID is non-negative and, for the Azure Function context, every URL parses |
| LegacyConfiguration.DevicesFromOk | src/Configuration.cs:217-221 | the device loop passes exactly when every device validates with its output channel |
| LegacyConfiguration.CheckSettingsIsWellFormed | src/Configuration.cs:186-221 | the settings pass every check exactly when there are devices and definitions, every definition's type parses and its ID is non-negative, the URLs parse where required, and every device is valid |
| LegacyConfiguration.DuplicateAndDanglingIdsAccepted | src/Configuration.cs:196-221 | an example, not a general property: one concrete configuration, with two definitions sharing an ID and a device naming an ID no definition has, passes the older revision's checks, which lack those of the newer revision |
| LegacyConfiguration.Configuration.constructor | src/Configuration.cs:110-114 | a configuration starts with no text read and empty settings |
| LegacyConfiguration.Configuration.ReadConfiguration | src/Configuration.cs:159-175 | a failed read returns false with the exception's message; a successful one keeps the text; the settings never change |
| LegacyConfiguration.Configuration.ValidateConfiguration | src/Configuration.cs:177-230 | returns the verdict and message of the older checks in source order; the settings are replaced by the document exactly when it passes |
| Assoc.Keys | src/common_code/EcowittInputData.cs:155 | the keys of a dictionary in enumeration order, one per entry |
| Assoc.Lookup | src/common_code/EcowittInputData.cs:166-167 | a lookup finds nothing exactly when the key is absent, and otherwise an entry's value under that key |
| Assoc.Put | src/OutputChannel.cs:168 | assigning under a key replaces an existing key in place (its position kept) and appends a new key at the end; only that key's value changes |
| Assoc.PutKeepsKeysDistinct | src/common_code/EcowittInputData.cs:93 | assigning under a key keeps the keys distinct |
| Text.SplitJoin | src/common_code/EcowittDevice.cs:135 | splitting a comma-joined list at a separator no part contains gives the parts back |
| Text.SplitAround | src/common_code/EcowittDevice.cs:185 | a separator between two strings splits them apart |
| Decimal.ParseUInt32 | src/OutputChannel.cs:174 | `UInt32.TryParse` fails on null, and reads a plain string of decimal digits as its value when that fits in 32 bits; what it accepts around the digits is `ParseUInt32Of` and `ParseUInt32Shape` |
| Decimal.SignAndDigitsOf | src/OutputChannel.cs:174 | a string made of white space (U+0009 to U+000D or the space), an optional `+` or `-`, decimal digits, white space and trailing NULs is read as that sign and those digits |
| Decimal.SignAndDigitsShape | src/OutputChannel.cs:174 | whenever the part read between the white space is a run of digits, the string has exactly that shape: white space, optional sign, the digits, white space, NULs |
| Decimal.ParseUInt32Of | src/OutputChannel.cs:174 | `UInt32.TryParse` of a string of that shape gives the digits' value when it fits in 32 bits and the sign is not a minus, or the minus stands before a zero value; otherwise it fails |
| Decimal.ParseUInt32Shape | src/OutputChannel.cs:174 | every string `UInt32.TryParse` accepts has that shape, and its value is the value of its digits |
| Decimal.NatToString | src/OutputChannel.cs:47 | the decimal text of a number is non-empty and all digits |
| Decimal.IntToString | src/OutputChannel.cs:49 | a negative number prints as a minus sign and its magnitude |
| Decimal.DigitsValueOfNatToString | src/OutputChannel.cs:47 | printing a number and reading its digits back gives the number |
| Decimal.NatToStringInjective | src/CSVFileOutputChannel.cs:246 | different numbers print differently |
| Decimal.ParseUInt32OfNatToString | src/OutputChannel.cs:47 | every 32-bit unsigned value printed with `ToString` reads back with `UInt32.TryParse` |
| Decimal.ParseInt32OfIntToString | src/OutputChannel.cs:49 | every 32-bit signed value printed with `ToString` reads back with `Int32.TryParse` |
| CivilTime.UtcYear | src/common_code/Controler.cs:71-76 | the UTC year of a Unix timestamp is 1970 or later |
| CivilTime.UtcYearBounds | src/common_code/Controler.cs:71-76 | a timestamp lies between the first second of its year and the first second of the next |
| CivilTime.UtcYearIs | src/common_code/Controler.cs:71-76 | a timestamp between the starts of a year and the next lies in that year |
| CivilTime.UtcYearMonotonic | src/CSVFileOutputChannel.cs:261-265 | later timestamps never fall in earlier years |
| CivilTime.NewYearExample | src/CSVFileOutputChannel.cs:263-265 | an example of the year split, not a general property: 23:00 on 31 December 1970 falls in 1970 and 01:00 on 1 January 1971 in 1971 |
| Decimal.ParseInt32 | src/OutputChannel.cs:88 | `Int32.TryParse` fails on null, and reads a plain string of decimal digits as its value when that fits in 32 bits; what it accepts around the digits is `ParseInt32Of` and `ParseInt32Shape` |
| Decimal.ParseInt32Of | src/OutputChannel.cs:88 | `Int32.TryParse` of a string of white space, optional sign, digits, white space and NULs gives the signed value of the digits when it lies in the 32-bit signed range, and fails otherwise |
| Decimal.ParseInt32Shape | src/OutputChannel.cs:88 | every string `Int32.TryParse` accepts has that shape, and its value is the signed value of its digits |
| Decimal.ParseInt32OfNegative | src/OutputChannel.cs:88 | a minus sign before digits reads as the negated value, down to -2147483648, and fails below it |
| RunPlan.UnixTimeStampToDateTime | src/common_code/Controler.cs:71-76 | the date of a Unix timestamp is that many seconds after the 1970 epoch, in UTC |
| RunPlan.UnixTimeStampYear | src/common_code/Controler.cs:71-76 | the year of that date is the UTC year the partitions are named after, and the timestamp lies within it |
| RunPlan.RequestWindows | src/common_code/Controler.cs:174-207 | the window loop for one device yields exactly the run's request windows |
| RunPlan.BackfillShape | src/common_code/Controler.cs:176-197 | the backfill loop from a start a whole number of days back makes one window per day, 1439 minutes long and a day apart, then a last window up to the run's time |
| RunPlan.WindowsShape | src/common_code/Controler.cs:119-122 | an initial run makes 89 requests indexed 0, 1, ...: 88 windows of 1439 minutes a day apart from 89 days back, then the last day up to the run's time; otherwise one request covers the last 360 minutes |
| RunPlan.WindowsWithinApiRange | src/common_code/EcowittDevice.cs:116-117 | every window passes the range check of `ReadHistoricalData` whenever its clock reads between the run's time and a day later |
| RunPlan.FetchDetails | src/common_code/Controler.cs:126-134 | one details task per configured device, in configuration order, each the outcome of that device's `GetDeviceDetails` |
| RunPlan.FilterVerified | src/common_code/Controler.cs:138-156 | the filter loop yields the verified devices and the details dictionary their specifications give |
| RunPlan.VerifiedMeaning | src/common_code/Controler.cs:138-156 | the verified devices are exactly the configured devices whose details are a record that passes `Validate`, each with its own index, in configuration order |
| RunPlan.DetailsFirstPerMac | src/common_code/Controler.cs:153 | the details dictionary holds, for each MAC, the record of the first verified device with that MAC, and nothing for a MAC no verified device has |
| RunPlan.DeviceTasks | src/common_code/Controler.cs:174-207 | one task per window of the device, each carrying the device index and the window's request index |
| RunPlan.MakeDeviceTasks | src/common_code/Controler.cs:174-207 | the inner loop builds exactly the device's tasks |
| RunPlan.TasksStep | src/common_code/Controler.cs:164-210 | a device that passes the constructor's checks adds its tasks, one per window, to the list |
| RunPlan.MakeTasks | src/common_code/Controler.cs:163-210 | the request loop, which stops at the first device whose construction throws, yields the data request tasks of its specification |
| RunPlan.TaskFaultsOnlyFromFetch | src/common_code/Controler.cs:182-202 | when the API's clock reads within a day of the run's time no range check fails, so a task faults only where the API answer itself faults |
| RunPlan.CompareTasks | src/common_code/Controler.cs:215-225 | the comparison is 0 exactly on equal device and request indices, and negative exactly when the first task's device index is smaller, or equal with a smaller request index |
| RunPlan.InsertOrdered | src/common_code/Controler.cs:215-225 | inserting into an ordered list keeps it ordered |
| RunPlan.SortTasks | src/common_code/Controler.cs:215-225 | the sort yields a list ordered by the comparison with the same tasks |
| RunPlan.SortKeepsOrdered | src/common_code/Controler.cs:215-225 | a list already strictly ordered comes out of the sort unchanged |
| RunPlan.DeviceTasksOrdered | src/common_code/Controler.cs:174-207 | a device's tasks follow its windows, whose indices count up from 0 |
| RunPlan.TasksErrSticks | src/common_code/Controler.cs:172 | once a device's construction throws, no later device adds tasks |
| RunPlan.TasksStrictlyOrdered | src/common_code/Controler.cs:164-210 | the request loop already emits data request tasks by increasing device index and each device's requests by increasing index |
| RunPlan.AppendStrictlyOrdered | src/common_code/Controler.cs:215-225 | two strictly ordered lists, the first ending before the second begins, join into a strictly ordered list |
| RunPlan.SortIsGenerationOrder | src/common_code/Controler.cs:211-225 | the sort changes nothing: the data request tasks of the verified devices, emitted device by device, are already in the comparison's order |
| Controller.FirstWithId | src/common_code/Controler.cs:258-261 | nothing is found exactly when no output channel definition has the id; what is found is a definition with that id |
| Controller.ConstructChannel | src/common_code/Controler.cs:262-297 | a type other than File or Blob is only logged; File and Blob reject metadata that fails `Validate`; a File channel writes to the configured folder, a Blob channel also needs a URL that is not blank and parses, and then writes to that container |
| Controller.BindChannelStep | src/common_code/Controler.cs:235-299 | one pass of the inner binding loop, with the channel objects themselves, ends as its specification does |
| Controller.BindOutputChannels | src/common_code/Controler.cs:231-300 | the binding loops over the verified devices and their channels end as their specification does |
| Controller.RouteChannelStep | src/common_code/Controler.cs:325-339 | one pass of the routing loop feeds the parsed channel to the output channel bound to MAC + name, and to none when no channel is bound |
| Controller.RouteData | src/common_code/Controler.cs:307-346 | the routing loops, with a new parser per payload, end as their specification does |
| Controller.SaveAll | src/common_code/Controler.cs:351-354 | the save loop saves the bound channels in binding order and stops at the first `SaveData` that throws |
| Controller.DetailsOutcomes | src/common_code/Controler.cs:78-100 | one outcome per configured device, each what that device's `GetDeviceDetails` ends with |
| Controller.WaitAllDetails | src/common_code/Controler.cs:135 | the wait throws exactly when some details task faulted |
| Controller.WaitAllData | src/common_code/Controler.cs:211-212 | the wait throws exactly when some data task faulted |
| Controller.Controler.constructor | src/common_code/Controler.cs:29-36 | the controller holds its edition, its configuration and whether that configuration was accepted |
| Controller.Controler.RunOnlineProcessing | src/common_code/Controler.cs:117-357 | the online run, given what the API and the files answer, leaves the files and ends as its specification does |
| Controller.Controler.RunOfflineProcessing | src/common_code/Controler.cs:359-404 | the offline run, given what each sample file holds, leaves the files and ends as its specification does |
| Controller.Controler.RunProcessing | src/common_code/Controler.cs:102-115 | without a configuration the call throws; otherwise it runs the selected mode |
| Controller.NewControler | src/common_code/Controler.cs:38-69 | a failed validation throws "Error loading configuration: " and its message; a failed read does so in this copy and only logs in common_code/Controler.cs; an accepted controller holds the settings read, one built after a failed read holds the defaults and no configuration |
| Controller.BindingKeepsFiles | src/common_code/Controler.cs:231-300 | binding touches channel metadata documents only: every data file is as it was |
| Controller.ChannelBindingKeepsFiles | src/common_code/Controler.cs:235-299 | the same holds for the channels of one device |
| Controller.SaveChannelGrows | src/common_code/Controler.cs:353 | saving one channel only appends to data files or creates them, even when it throws |
| Controller.SaveFromGrows | src/common_code/Controler.cs:351-354 | the same holds for the whole save loop |
| Controller.BindRouteSaveGrows | src/common_code/Controler.cs:231-354 | binding, routing and saving together only append to data files or create them |
| Controller.OnlineRunOnlyAppends | src/common_code/Controler.cs:117-357 | however the online run ends, every file it found is still there with its old content as a prefix |
| Controller.BindChannelWell | src/common_code/Controler.cs:237-298 | one binding step keeps each id bound at most once, only for a channel configured on a verified device, with an empty buffer |
| Controller.BindChannelsWell | src/common_code/Controler.cs:235-299 | the channel loop of one device keeps the bindings well formed |
| Controller.BindingIsWell | src/common_code/Controler.cs:231-300 | each id, MAC + channel name, is bound at most once and only for a channel configured on a verified device, and each bound channel starts with an empty buffer |
| Controller.OnlineBindingIsWell | src/common_code/Controler.cs:138-300 | the bindings of a whole run are well formed for the devices the details filter verified |
| Controller.SameChannelsTrans | src/common_code/Controler.cs:307-346 | keeping the same bound channels is transitive |
| Controller.SameChannelsDistinct | src/common_code/Controler.cs:238 | the same bound channels keep distinct ids |
| Controller.RouteChannelSame | src/common_code/Controler.cs:327-338 | feeding one channel keeps the same ids in the same order, with the same destinations, names, checkpoints and metadata |
| Controller.RouteChannelsSame | src/common_code/Controler.cs:325-339 | the same holds for all channels of one payload |
| Controller.RoutingKeepsChannels | src/common_code/Controler.cs:307-346 | routing only feeds the channels bound before it: no channel is added, removed, reordered or redirected, and only buffers take data |
| Controller.SaveChannelNeedsData | src/CSVFileOutputChannel.cs:238-239 | `SaveData` throws on a channel that received no rows or has no columns |
| Controller.SaveNeedsData | src/common_code/Controler.cs:351-354 | the save loop gets through only if every bound channel it reaches received data |
| Controller.NoVerifiedDeviceNoWrites | src/common_code/Controler.cs:157-161 | when the cloud confirms no configured device the run returns before touching any file |
| Controller.NothingVerified | src/common_code/Controler.cs:138-156 | when no device has details the filter verifies no device |
| Controller.Selected | src/common_code/Controler.cs:379-385 | the names gained are exactly the parsed names the configuration lists, in parse order; a missing list throws once there is a name to test |
| Controller.SelectChannels | src/common_code/Controler.cs:379-385 | the selection loop yields what its specification gives |
| Controller.OfflineChannelStep | src/common_code/Controler.cs:386-402 | one pass of the offline channel loop, with the file channel object itself, leaves the files and ends as its specification does |
| Controller.OfflineChannels | src/common_code/Controler.cs:386-402 | the channel loop over the names selected so far does the same |
| Controller.OfflineChannelGrows | src/common_code/Controler.cs:386-402 | one offline channel only appends to files or creates them |
| Controller.OfflineChannelsGrow | src/common_code/Controler.cs:386-402 | the same holds for all names selected so far |
| Controller.OfflineSamplesGrow | src/common_code/Controler.cs:365-403 | the same holds for the remaining samples |
| Controller.OfflineRunOnlyAppends | src/common_code/Controler.cs:359-404 | however the offline run ends, every file it found is still there with its old content as a prefix |
| Controller.SelectNothing | src/common_code/Controler.cs:381 | an empty list of configured channels selects nothing |
| Controller.NothingSelectedFrom | src/common_code/Controler.cs:365-403 | with nothing configured, no sample writes anything |
| Controller.NoConfiguredChannelNoWrites | src/common_code/Controler.cs:362 | when the second device lists no channel the offline run leaves every file as it was |
| Controller.ProcessingOnlyAppends | src/common_code/Controler.cs:102-115 | both runs only append, and without a configuration nothing changes and the call throws |
| LegacyController.ReadPayload | src/Controler.cs:81-99 | one payload, read by the older parser, ends as its specification does |
| LegacyController.LegacyControler.constructor | src/Controler.cs:19-21 | the controller holds its configuration and whether that configuration was accepted |
| LegacyController.LegacyControler.RunOnlineProcessing | src/Controler.cs:59-115 | the online run, given what the API answers, hands over the channels its specification gives and ends as it does |
| LegacyController.LegacyControler.RunOfflineProcessing | src/Controler.cs:117-154 | the offline run, given what each sample file holds, does the same |
| LegacyController.LegacyControler.RunProcessing | src/Controler.cs:50-57 | without a configuration the call throws; otherwise it runs the selected mode |
| LegacyController.HandOver | src/Controler.cs:100-108 | every pending name is handed to a new file output channel, in order |
| LegacyController.NewLegacyControler | src/Controler.cs:23-41 | the constructor never throws: the controller has a configuration exactly when it could be read and validated, and holds the defaults otherwise |
| LegacyController.LegacyTasksShape | src/Controler.cs:68-74 | when the request loop gets through, each configured device has exactly one request, in configuration order |
| LegacyController.LegacyTasksOk | src/Controler.cs:68-74 | from any device on, the request loop gets through exactly when every remaining device passes the constructor's checks |
| LegacyController.LegacyRequestsMade | src/Controler.cs:68-76 | the request loop gets through exactly when every device passes the constructor's checks, and makes one request per device in configuration order |
| LegacyController.LegacyTasksFailure | src/Controler.cs:70 | the request loop can fail only because a device's constructor throws |
| LegacyController.OnlineWindowShape | src/Controler.cs:65-66 | the window is the 360 minutes up to the run's time, and the API accepts it up to a day later |
| LegacyController.NothingReported | src/Controler.cs:93-99 | since the older parser reports no channel, the configured list is never consulted and nothing is selected |
| LegacyController.ProcessHandsNothing | src/Controler.cs:77-114 | processing the payloads hands no channel over, and can end early only on a faulted request |
| LegacyController.LegacyOnlineWritesNothing | src/Controler.cs:59-115 | the online run hands no channel to an output channel, so no file is written; past its checks it fails only on a faulted request |
| LegacyController.OfflineHandsNothing | src/Controler.cs:123-153 | processing the samples hands no channel over, and can end early only on a sample that cannot be read |
| LegacyController.LegacyOfflineWritesNothing | src/Controler.cs:117-154 | the offline run hands no channel over either; it fails only on a sample that cannot be read |

## Left out

- I/O is not modelled directly. HTTP calls, files, blobs, the console, the logger, `Stopwatch`, `Thread.Sleep` and `Guid` become parameters or a `Store` value, or are dropped.
- The clock `DateTime.Now` is a parameter: the run's time, and the time at which each request checks its range.
- Concurrency is left out. The `async` tasks and `Task.WaitAll` are modelled as a sequence of outcomes, each completed or faulted.
- JSON text is modelled as a token sequence, as `Utf8JsonReader` yields it. `JsonSerializer.Deserialize` of the configuration, the device details and the query answers is an input to the model.
- Secrets are not modelled: the Key Vault or environment lookups of the API keys and the credential set-up in the `Configuration` constructors (`common_code/Configuration.cs:110-154`, `src/Configuration.cs:115-156`). The keys are parameters.
- `DefaultAzureCredential` is never null, so the Blob constructor's null check is taken as passing.
- `Uri.TryCreate` and number formatting are function parameters. This covers `double.ToString` and `Double.TryParse` of latitude and longitude.
- Floating point is left out: coordinates are Dafny reals.
- `InputDataChannel`, `DataSeries` and `AddSensorData` are used but not shown in the source, so they are not part of this model. `AddSensorData` is taken to put or replace one sensor, and a channel's summary name to be its dictionary key.
- `ChannelTypes` is not shown either. It is modelled as File, Blob and other values, which are not implemented.
- Channels as heap objects are left out. The orchestrators hold output channels as values, so aliasing between channel objects is not captured. The classes' own methods are modelled as classes.
- `Dictionary` enumeration is taken to be insertion order. This matches .NET for dictionaries without removals, and the model never removes entries.
- `List.Sort` is not stable. The sorted task list is unaffected, because its keys, device index and request index, are distinct.
- The one-argument `CSVFileOutputChannel(name)` constructor and the argument-less `InitChannel()` used by `src/Controler.cs` do not exist in the channel class shown. They are modelled as handing the channel over, and the model proves that no channel is ever handed over there.
- `Program.cs` and both `MainFunction.cs` files are hosting entry points: argument parsing, the timer trigger and environment set-up. They are not modelled.
- Decimal.ParseUInt32: the signs are those of the invariant culture (`+` and `-`); a current culture with other sign symbols is not modelled.
- Decimal.ParseInt32: the same culture assumption as `ParseUInt32`.
- Units.EnumTryParse: white space around a member name, a comma-separated list of names and the formats of other cultures are not modelled; such a text falls through to the number parse.
- Controller.ChannelMetadata: does not model the assignment of `TimestampFormat` at `src/common_code/Controler.cs:252`, because the metadata class shown has no such member; the record keeps its other fields as built.
- Enum parsing in `ParseBlobMetadata` is only reached on a missing key, where `Enum.TryParse` of null fails. It therefore always yields the defaults, as modelled.

## Findings

| source | as written | input that shows it | evidently intended | confidence | as-written member | corrected member |
|---|---|---|---|---|---|---|
| src/OutputChannel.cs:79-117 | the optional fields are parsed only when `TryGetValue` fails, and every unit is stored into `PressureUnit` | metadata written by `ConvertToBlobMetadata` with `LastTimestamp` 1700000000 and wind unit km/h | parse each present field into its own member, so that a written document reads back as written | not executed | OutputChannel.ParseBlobMetadataCounterexample | OutputChannel.ParseBlobMetadataCorrectedRoundTrip |
| src/CSVFileOutputChannel.cs:299-308 | the next year's partition file receives every buffered row from row 0 | a buffer with one row on 31 December and one on 1 January, after a checkpoint in December | the next year's file receives only the rows from the first row of the next year on | not executed | CSVFileOutputChannel.NextYearPartitionRepeatsRows | CSVFileOutputChannel.CorrectedPartitionsSplitRows |
| src/BlobOutputChannel.cs:197-206 | the next year's blob receives every buffered row from row 0 | the same buffer, saved to a blob channel | the next year's blob receives only the rows of the next year | not executed | BlobOutputChannel.BlobNextYearRepeatsRows | BlobOutputChannel.BlobCorrectedPartitionsSplitRows |
| src/BlobOutputChannel.cs:144-155 | each save to an existing year's blob first appends the header line again, since the fresh memory stream is always empty | any save whose first row falls in the checkpoint's year | write the header only when the blob is created | not executed | BlobOutputChannel.BlobSameYearRepeatsHeader | BlobOutputChannel.BlobSameYearPartition |

The partition rows are one definition with a flag: `false` is the code as written, `true` the
corrected split. The channel classes' `SaveData` keep the code as written. The properties the
orchestration relies on, that saving only appends and never loses a file, are proved for both
values (`CSVFileOutputChannel.SaveOnlyAppends`, `BlobOutputChannel.BlobSaveOnlyAppends`).
`ParseBlobMetadata` has no caller in the program: the blob channel reads its metadata document as
JSON.
