/**
 * src/CSVFileOutputChannel.cs: an output channel writing yearly CSV partitions
 * `[<folder>\]<channel>_<year>` next to a JSON metadata file `[<folder>\]<channel>_metadata`.
 */
module CSVFileOutputChannel {
  import opened Wrappers
  import opened Assoc
  import opened Text
  import opened Decimal
  import opened CivilTime
  import opened InputData
  import opened OutputChannel
  import opened Backend
  import Configuration

  /** `filePath` as the constructor sets it: "" for a blank folder. */
  function FolderOf(folderPath: Option<string>): string {
    if IsNullOrWhiteSpace(folderPath) then "" else folderPath.value
  }

  /** A name placed in the folder, when there is one. */
  function InFolder(filePath: string, name: string): string {
    if filePath != "" then filePath + "\\" + name else name
  }

  function MetadataFileName(filePath: string, channelName: string): string {
    InFolder(filePath, channelName + "_metadata")
  }

  function PartitionFileName(filePath: string, channelName: string, year: int): string {
    InFolder(filePath, channelName + "_" + IntToString(year))
  }

  /**
   * The same-year branch: lines are appended to the year's file, after a header only when the
   * file is missing or empty; the lines written before an exception stay in the file.
   */
  function AppendSameYear(name: string, rows: Slots, cols: Columns, year: int, store: Store): (Store, Scan) {
    var existing := if name in store.files then store.files[name] else [];
    var header := if existing == [] then [HeaderLine(cols)] else [];
    var scan := ScanYear(rows, cols, year, 0, []);
    (store.(files := store.files[name := existing + header + scan.lines]), scan)
  }

  /**
   * The later-year branch: a new file, which must not exist, gets the header and the line of
   * every buffered row from row `start`.
   */
  function CreatePartition(name: string, rows: Slots, cols: Columns, start: nat, store: Store): (Store, Option<SaveError>)
    requires start <= |rows|
  {
    if name in store.files then (store, Some(FileExists(name)))
    else
      var dump := DumpFrom(rows, cols, start, []);
      (store.(files := store.files[name := [HeaderLine(cols)] + dump.lines]), dump.error)
  }

  /** `UpdateMetadata`: the checkpoint advances, and the file (which must exist) is rewritten. */
  function UpdateMetadataSpec(metaFile: string, input: SaveInput, store: Store)
    : (Store, OutputChannelMetadata, Option<SaveError>)
  {
    var m := Checkpointed(input);
    if metaFile !in store.docs then (store, m, Some(MetadataMissing(metaFile)))
    else (store.(docs := store.docs[metaFile := Doc(m)]), m, None)
  }

  /**
   * The partition writes of `SaveData` and the exception that stopped them, if any, to the
   * partition of the buffer's first year `thisFile` and of the year after `nextFile`. With
   * `fromSplit` false this is the source, whose later-year branch copies every row from row 0;
   * with it true that branch starts at the first row of the next year.
   */
  function WritePartitionsTo(thisFile: string, nextFile: string, rows: Slots, cols: Columns, year: int, original: int,
                             store: Store, fromSplit: bool): (Store, Option<SaveError>)
  {
    var (store1, scan) :=
      if year == original then AppendSameYear(thisFile, rows, cols, year, store)
      else (store, Scan([], -1, None));
    if scan.error.Some? then (store1, scan.error)
    else if year > original || scan.split > 0 then
      var start := if fromSplit && scan.split > 0 then scan.split else 0;
      CreatePartition(if scan.split > 0 then nextFile else thisFile, rows, cols, start, store1)
    else (store1, None)
  }

  /** The partition named after the year of the first buffered row. */
  function FirstYearFile(filePath: string, input: SaveInput): string {
    PartitionFileName(filePath, input.ChannelName, UtcYear(input.buffer.FirstTimeStamp))
  }

  /** The partition of the year after it. */
  function NextYearFile(filePath: string, input: SaveInput): string {
    PartitionFileName(filePath, input.ChannelName, UtcYear(input.buffer.FirstTimeStamp) + 1)
  }

  /** The partition writes of `SaveData` for a buffer it accepts. */
  function WritePartitions(filePath: string, input: SaveInput, store: Store, fromSplit: bool): (Store, Option<SaveError>)
    requires HasData(input.buffer)
  {
    WritePartitionsTo(FirstYearFile(filePath, input), NextYearFile(filePath, input),
                      input.buffer.timeRows.value, input.buffer.dataColumns.value,
                      UtcYear(input.buffer.FirstTimeStamp), UtcYear(input.OriginalLastTimeStamp), store, fromSplit)
  }

  /**
   * `SaveData`: the new store, the new metadata record and the exception raised, if any. The
   * checkpoint advances to the buffer's last timestamp when every file was written, and also when
   * only the metadata file was missing (the record is updated before the file is opened); after
   * any other exception it is untouched. Without an exception the channel's metadata document
   * holds the new record.
   */
  function SaveWith(filePath: string, metaFile: string, input: SaveInput, store: Store, fromSplit: bool)
    : (r: (Store, OutputChannelMetadata, Option<SaveError>))
    ensures r.2.None? || r.2 == Some(MetadataMissing(metaFile)) ==> r.1 == Checkpointed(input)
    ensures r.2.Some? && r.2 != Some(MetadataMissing(metaFile)) ==> r.1 == input.metaData
    ensures r.2.None? ==> metaFile in r.0.docs && r.0.docs[metaFile] == Doc(r.1)
    ensures input.buffer.timeRows.None? ==> r.2 == Some(NoData)
    ensures input.buffer.timeRows.Some? && !HasData(input.buffer) ==> r.2 == Some(EmptyColumns)
  {
    var b := input.buffer;
    if b.timeRows.None? then (store, input.metaData, Some(NoData))
    else if !HasData(b) then (store, input.metaData, Some(EmptyColumns))
    else
      var (store1, err) := WritePartitions(filePath, input, store, fromSplit);
      if err.Some? then (store1, input.metaData, err)
      else UpdateMetadataSpec(metaFile, input, store1)
  }

  /** `SaveData` as written. */
  function SaveSpec(filePath: string, metaFile: string, input: SaveInput, store: Store)
    : (Store, OutputChannelMetadata, Option<SaveError>)
  {
    SaveWith(filePath, metaFile, input, store, false)
  }

  /** `SaveData` with the next-year partition starting at the first row of that year. */
  function SaveSpecCorrected(filePath: string, metaFile: string, input: SaveInput, store: Store)
    : (Store, OutputChannelMetadata, Option<SaveError>)
  {
    SaveWith(filePath, metaFile, input, store, true)
  }

  // ---------------------------------------------------------------------------------------------
  // What a save does to the files

  lemma AppendSameYearGrows(name: string, rows: Slots, cols: Columns, year: int, store: Store)
    ensures var r := AppendSameYear(name, rows, cols, year, store).0;
      FilesGrow(store, r, {name}) && r.docs == store.docs
  {
    var r := AppendSameYear(name, rows, cols, year, store).0;
    if name in store.files {
      var existing := store.files[name];
      assert r.files[name][..|existing|] == existing;
    }
  }

  /** A step that grows one of `names` grows the files within `names`. */
  lemma StepGrows(store: Store, store': Store, name: string, names: set<string>)
    requires FilesGrow(store, store', {name}) && name in names
    ensures FilesGrow(store, store', names)
  {
  }

  /** The partition writes on their own: files only grow, only the two named ones, and documents are untouched. */
  lemma WritePartitionsToGrow(thisFile: string, nextFile: string, rows: Slots, cols: Columns, year: int, original: int,
                              store: Store, fromSplit: bool)
    ensures var r := WritePartitionsTo(thisFile, nextFile, rows, cols, year, original, store, fromSplit).0;
      FilesGrow(store, r, {thisFile, nextFile}) && r.docs == store.docs
  {
    var names := {thisFile, nextFile};
    var (store1, scan) :=
      if year == original then AppendSameYear(thisFile, rows, cols, year, store)
      else (store, Scan([], -1, None));
    if year == original {
      AppendSameYearGrows(thisFile, rows, cols, year, store);
      StepGrows(store, store1, thisFile, names);
    }
    if scan.error.None? && (year > original || scan.split > 0) {
      var start := if fromSplit && scan.split > 0 then scan.split else 0;
      var name := if scan.split > 0 then nextFile else thisFile;
      var store2 := CreatePartition(name, rows, cols, start, store1).0;
      StepGrows(store1, store2, name, names);
      FilesGrowTrans(store, store1, store2, names);
    }
  }

  /**
   * A save never loses text: every file keeps its content as a prefix, no file other than the two
   * partitions of the buffer's first year and the year after appears or grows, and no metadata
   * document other than the channel's changes.
   */
  lemma SaveOnlyAppends(filePath: string, metaFile: string, input: SaveInput, store: Store, fromSplit: bool)
    ensures var r := SaveWith(filePath, metaFile, input, store, fromSplit).0;
      && FilesGrow(store, r, {FirstYearFile(filePath, input), NextYearFile(filePath, input)})
      && (forall n :: n in r.docs && n != metaFile ==> n in store.docs && r.docs[n] == store.docs[n])
      && r.docs.Keys <= store.docs.Keys + {metaFile}
  {
    if HasData(input.buffer) {
      WritePartitionsToGrow(FirstYearFile(filePath, input), NextYearFile(filePath, input),
                            input.buffer.timeRows.value, input.buffer.dataColumns.value,
                            UtcYear(input.buffer.FirstTimeStamp), UtcYear(input.OriginalLastTimeStamp), store, fromSplit);
    }
  }

  // ---------------------------------------------------------------------------------------------
  // Which rows land in which partition

  /** A write to one file leaves every other file as it was. */
  lemma UntouchedFile(store: Store, written: string, store': Store, other: string)
    requires other != written && other in store.files
    requires FilesGrow(store, store', {written})
    ensures other in store'.files && store'.files[other] == store.files[other]
  {
  }

  /**
   * A save in the checkpoint's year that raises nothing: the scan raised nothing, and the first
   * year's partition gained a header when it had no content, and the scanned lines.
   */
  lemma WritePartitionsToSameYear(thisFile: string, nextFile: string, rows: Slots, cols: Columns, year: int,
                                  store: Store, fromSplit: bool)
    requires WritePartitionsTo(thisFile, nextFile, rows, cols, year, year, store, fromSplit).1.None?
    ensures
      var scan := ScanYear(rows, cols, year, 0, []);
      var r := WritePartitionsTo(thisFile, nextFile, rows, cols, year, year, store, fromSplit).0;
      && scan.error.None?
      && thisFile in r.files
      && r.files[thisFile] == FileOrEmpty(store, thisFile)
                              + (if FileOrEmpty(store, thisFile) != [] then [] else [HeaderLine(cols)])
                              + scan.lines
  {
    var scan := ScanYear(rows, cols, year, 0, []);
    var store1 := AppendSameYear(thisFile, rows, cols, year, store).0;
    if scan.split > 0 {
      var start := if fromSplit then scan.split else 0;
      var r := CreatePartition(nextFile, rows, cols, start, store1);
      assert thisFile != nextFile;
      CreatePartitionGrows(nextFile, rows, cols, start, store1);
      UntouchedFile(store1, nextFile, r.0, thisFile);
    }
  }

  /**
   * ... and a run into the next year created the next year's partition, distinct from the first,
   * holding a header and the dump from row 0 (as written) or from the split (corrected).
   */
  lemma WritePartitionsToNextYear(thisFile: string, nextFile: string, rows: Slots, cols: Columns, year: int,
                                  store: Store, fromSplit: bool)
    requires ScanYear(rows, cols, year, 0, []).split > 0
    requires WritePartitionsTo(thisFile, nextFile, rows, cols, year, year, store, fromSplit).1.None?
    ensures
      var scan := ScanYear(rows, cols, year, 0, []);
      var r := WritePartitionsTo(thisFile, nextFile, rows, cols, year, year, store, fromSplit).0;
      var start := if fromSplit then scan.split else 0;
      && thisFile != nextFile && nextFile !in store.files
      && 0 <= start <= |rows|
      && DumpFrom(rows, cols, start, []).error.None?
      && nextFile in r.files
      && r.files[nextFile] == [HeaderLine(cols)] + DumpFrom(rows, cols, start, []).lines
  {
  }

  lemma CreatePartitionGrows(name: string, rows: Slots, cols: Columns, start: nat, store: Store)
    requires start <= |rows|
    ensures var r := CreatePartition(name, rows, cols, start, store).0;
      FilesGrow(store, r, {name}) && r.docs == store.docs
  {
  }

  /**
   * When the buffer starts in the checkpoint's year and nothing is raised, that year's partition
   * gains, after its existing lines (and a header when it had none), the lines of the leading rows
   * of that year, up to the first row of another year.
   */
  lemma SameYearPartition(thisFile: string, nextFile: string, rows: Slots, cols: Columns, year: int,
                          store: Store, fromSplit: bool)
    requires WritePartitionsTo(thisFile, nextFile, rows, cols, year, year, store, fromSplit).1.None?
    ensures
      var stop := StopOf(ScanYear(rows, cols, year, 0, []), rows);
      var existing := FileOrEmpty(store, thisFile);
      var r := WritePartitionsTo(thisFile, nextFile, rows, cols, year, year, store, fromSplit).0;
      && stop <= |rows| && LinesOk(rows, cols, 0, stop)
      && (forall q :: 0 <= q < stop ==> RowOfYear(rows, cols, year, q))
      && thisFile in r.files
      && r.files[thisFile] == existing + (if existing != [] then [] else [HeaderLine(cols)]) + RowLines(rows, cols, 0, stop)
  {
    ScanYearIsRowLines(rows, cols, year);
    WritePartitionsToSameYear(thisFile, nextFile, rows, cols, year, store, fromSplit);
  }

  /**
   * As written, when the buffer runs into the next year the next year's partition receives the
   * header and every buffered row from row 0, so the rows before the split, which are of the
   * earlier year, are written to both partitions.
   */
  lemma NextYearPartitionRepeatsRows(thisFile: string, nextFile: string, rows: Slots, cols: Columns, year: int, store: Store)
    requires ScanYear(rows, cols, year, 0, []).split > 0
    requires WritePartitionsTo(thisFile, nextFile, rows, cols, year, year, store, false).1.None?
    ensures
      var split := ScanYear(rows, cols, year, 0, []).split;
      var existing := FileOrEmpty(store, thisFile);
      var r := WritePartitionsTo(thisFile, nextFile, rows, cols, year, year, store, false).0;
      && thisFile in r.files && nextFile in r.files && thisFile != nextFile
      && LinesOk(rows, cols, 0, |rows|)
      && (forall q :: 0 <= q < split ==> RowOfYear(rows, cols, year, q))
      && r.files[thisFile] == existing + (if existing != [] then [] else [HeaderLine(cols)]) + RowLines(rows, cols, 0, split)
      && r.files[nextFile] == [HeaderLine(cols)] + RowLines(rows, cols, 0, |rows|)
  {
    WritePartitionsToSameYear(thisFile, nextFile, rows, cols, year, store, false);
    WritePartitionsToNextYear(thisFile, nextFile, rows, cols, year, store, false);
    ScanYearIsRowLines(rows, cols, year);
    DumpFromIsRowLines(rows, cols, 0);
  }

  /**
   * With the next year's partition starting at the split, the two partitions together gain the
   * line of every buffered row exactly once and in order: the rows before the split go to the
   * earlier year, the rest to the next.
   */
  lemma CorrectedPartitionsSplitRows(thisFile: string, nextFile: string, rows: Slots, cols: Columns, year: int, store: Store)
    requires ScanYear(rows, cols, year, 0, []).split > 0
    requires WritePartitionsTo(thisFile, nextFile, rows, cols, year, year, store, true).1.None?
    ensures
      var split := ScanYear(rows, cols, year, 0, []).split;
      var existing := FileOrEmpty(store, thisFile);
      var r := WritePartitionsTo(thisFile, nextFile, rows, cols, year, year, store, true).0;
      && thisFile in r.files && nextFile in r.files
      && LinesOk(rows, cols, 0, |rows|)
      && r.files[thisFile] == existing + (if existing != [] then [] else [HeaderLine(cols)]) + RowLines(rows, cols, 0, split)
      && r.files[nextFile] == [HeaderLine(cols)] + RowLines(rows, cols, split, |rows|)
      && RowLines(rows, cols, 0, split) + RowLines(rows, cols, split, |rows|) == RowLines(rows, cols, 0, |rows|)
  {
    var split := ScanYear(rows, cols, year, 0, []).split;
    WritePartitionsToSameYear(thisFile, nextFile, rows, cols, year, store, true);
    WritePartitionsToNextYear(thisFile, nextFile, rows, cols, year, store, true);
    ScanYearIsRowLines(rows, cols, year);
    DumpFromIsRowLines(rows, cols, split);
    assert LinesOk(rows, cols, 0, |rows|) by {
      forall q | 0 <= q < |rows|
        ensures RowLine(rows, cols, q).Ok?
      {
        if q < split {
          assert RowOfYear(rows, cols, year, q);
        }
      }
    }
    RowLinesSplit(rows, cols, 0, split, |rows|);
  }

  // ---------------------------------------------------------------------------------------------
  // The channel object

  /**
   * `CSVFileOutputChannel`. The source class derives from `OutputChannel`; here it holds its base
   * part in `base`, whose buffer fields its `AddData` (a copy of the base's) updates.
   */
  class CSVFileOutputChannel {
    const base: OutputChannel
    const filePath: string
    const metaDataFileName: string
    var OriginalLastTimeStamp: UInt32
    const ChannelType: Configuration.ChannelType

    /** The constructor proper; `NewCSVFileOutputChannel` performs the base's validity check. */
    constructor (folderPath: Option<string>, sourceMetadata: OutputChannelMetadata, config: OutputChannelBehaviorConfiguration)
      requires Validate(sourceMetadata)
      ensures fresh(base)
      ensures base.ChannelName == sourceMetadata.ChannelName && base.metaData == sourceMetadata && base.configuration == config
      ensures base.State() == Buffer(None, None, 0, 0)
      ensures filePath == FolderOf(folderPath)
      ensures metaDataFileName == MetadataFileName(filePath, sourceMetadata.ChannelName)
      ensures OriginalLastTimeStamp == 0 && ChannelType == Configuration.File
    {
      base := new OutputChannel(sourceMetadata, config);
      filePath := FolderOf(folderPath);
      metaDataFileName := MetadataFileName(FolderOf(folderPath), sourceMetadata.ChannelName);
      OriginalLastTimeStamp := 0;
      ChannelType := Configuration.File;
    }

    /** What `SaveData` works from. */
    function Input(): SaveInput
      reads this, base
    {
      SaveInput(base.State(), OriginalLastTimeStamp, base.ChannelName, base.metaData)
    }

    /**
     * `InitChannel`, given the files: the buffer is emptied, and the stored metadata, when it is
     * present and compatible, is adopted with its checkpoint.
     */
    method InitChannel(store: Store) returns (store': Store, outcome: InitOutcome)
      modifies this, base
      ensures var spec := InitSpec(metaDataFileName, old(base.metaData), base.configuration, store, false);
        && store' == spec.0 && outcome == spec.1
        && base.metaData == (if spec.2.Some? then spec.2.value else old(base.metaData))
        && OriginalLastTimeStamp == (if spec.2.Some? then spec.2.value.LastTimestamp else old(OriginalLastTimeStamp))
      ensures base.State() == old(base.State()).(timeRows := None, dataColumns := None)
      ensures base.Count == old(base.Count)
    {
      base.timeRows := None;
      base.dataColumns := None;
      var spec := InitSpec(metaDataFileName, base.metaData, base.configuration, store, false);
      store', outcome := spec.0, spec.1;
      if spec.2.Some? {
        base.metaData := spec.2.value;
        OriginalLastTimeStamp := spec.2.value.LastTimestamp;
      }
    }

    /** `AddData`: the base's buffer moves as `AddDataSpec` says. */
    method AddData(channel: Option<Sensors>) returns (err: Option<AddError>)
      modifies base
      ensures (base.State(), err) == AddDataSpec(old(base.State()), channel)
      ensures base.metaData == old(base.metaData)
    {
      err := base.AddData(channel);
    }

    /** `UpdateMetadata`: the checkpoint advances, and the metadata file is rewritten. */
    method UpdateMetadata(store: Store) returns (store': Store, err: Option<SaveError>)
      modifies base
      ensures (store', base.metaData, err) == UpdateMetadataSpec(metaDataFileName, old(Input()), store)
      ensures base.State() == old(base.State())
    {
      base.metaData := base.metaData.(LastTimestamp := base.LastTimeStamp);
      if metaDataFileName !in store.docs {
        return store, Some(MetadataMissing(metaDataFileName));
      }
      return store.(docs := store.docs[metaDataFileName := Doc(base.metaData)]), None;
    }

    /** `SaveData`, given the files: the partitions and the metadata as `SaveSpec` says. */
    method SaveData(store: Store) returns (store': Store, err: Option<SaveError>)
      modifies base
      ensures (store', base.metaData, err) == SaveSpec(filePath, metaDataFileName, old(Input()), store)
      ensures base.State() == old(base.State())
    {
      ghost var input := Input();
      if base.timeRows.None? {
        return store, Some(NoData);
      }
      if base.dataColumns.None? || base.dataColumns.value == [] {
        return store, Some(EmptyColumns);
      }
      var rows := base.timeRows.value;
      var cols := base.dataColumns.value;
      var year := UtcYear(base.FirstTimeStamp);
      var original := UtcYear(OriginalLastTimeStamp);
      var thisFile := PartitionFileName(filePath, base.ChannelName, year);
      var nextFile := PartitionFileName(filePath, base.ChannelName, year + 1);
      store', err := WritePartitionFiles(thisFile, nextFile, rows, cols, year, original, store);
      assert (store', err) == WritePartitions(filePath, input, store, false);
      if err.None? {
        store', err := UpdateMetadata(store');
      }
    }
  }

  /** The two blocks of `SaveData` that write partitions. */
  method WritePartitionFiles(thisFile: string, nextFile: string, rows: Slots, cols: Columns, year: int, original: int,
                             store: Store) returns (store': Store, err: Option<SaveError>)
    ensures (store', err) == WritePartitionsTo(thisFile, nextFile, rows, cols, year, original, store, false)
  {
    store', err := store, None;
    var split := -1;
    if year == original {
      var existing := FileOrEmpty(store, thisFile);
      var header := [];
      if existing == [] {
        var line := BuildHeader(cols);
        header := [line];
      }
      var scan := ScanSameYear(rows, cols, year);
      store' := store.(files := store.files[thisFile := existing + header + scan.lines]);
      if scan.error.Some? {
        return store', scan.error;
      }
      split := scan.split;
    }
    if year > original || split > 0 {
      var name := if split > 0 then nextFile else thisFile;
      if name in store'.files {
        return store', Some(FileExists(name));
      }
      var header := BuildHeader(cols);
      var dump := DumpRows(rows, cols, 0);
      store' := store'.(files := store'.files[name := [header] + dump.lines]);
      err := dump.error;
    }
  }

  /** `new CSVFileOutputChannel(...)`: the base constructor's check comes first. */
  method NewCSVFileOutputChannel(folderPath: Option<string>, sourceMetadata: OutputChannelMetadata,
                                 config: OutputChannelBehaviorConfiguration)
    returns (r: Result<CSVFileOutputChannel, string>)
    ensures r.Err? <==> !Validate(sourceMetadata)
    ensures r.Err? ==> r.error == "Invalid output channel configuration"
    ensures r.Ok? ==> fresh(r.value) && fresh(r.value.base)
                      && r.value.Input() == SaveInput(Buffer(None, None, 0, 0), 0, sourceMetadata.ChannelName, sourceMetadata)
                      && r.value.metaDataFileName == MetadataFileName(FolderOf(folderPath), sourceMetadata.ChannelName)
                      && r.value.filePath == FolderOf(folderPath) && r.value.base.configuration == config
  {
    if !Validate(sourceMetadata) {
      return Err("Invalid output channel configuration");
    }
    var c := new CSVFileOutputChannel(folderPath, sourceMetadata, config);
    return Ok(c);
  }
}
