/**
 * src/BlobOutputChannel.cs: an output channel writing yearly append blobs `<base><channel>/<year>`
 * next to a JSON metadata blob `<base><channel>/metadata`.
 */
module BlobOutputChannel {
  import opened Wrappers
  import opened Text
  import opened Decimal
  import opened CivilTime
  import opened InputData
  import opened OutputChannel
  import opened Backend
  import Configuration

  function MetadataBlobName(blobBase: string, channelName: string): string {
    blobBase + channelName + "/metadata"
  }

  function PartitionBlobName(blobBase: string, channelName: string, year: int): string {
    blobBase + channelName + "/" + IntToString(year)
  }

  /**
   * The same-year branch: the block is built in memory and appended to the year's blob (created
   * when missing) only once every row is formatted, so a row that raises leaves the blob as it
   * was. As written the block always starts with a header, since the fresh memory stream is
   * empty; with `headerOnce` the header is written only to a missing or empty blob.
   */
  function BlobSameYear(name: string, rows: Slots, cols: Columns, year: int, store: Store, headerOnce: bool)
    : (Store, Scan)
  {
    var scan := ScanYear(rows, cols, year, 0, []);
    var header := if headerOnce && FileOrEmpty(store, name) != [] then [] else [HeaderLine(cols)];
    if scan.error.Some? then (store, scan)
    else (AppendFile(store, name, header + scan.lines), scan)
  }

  /**
   * The later-year branch: the header and every row from `start`, appended to the blob (created
   * when missing) once all are formatted; with `headerOnce` the header only goes to a missing or
   * empty blob.
   */
  function BlobLaterYear(name: string, rows: Slots, cols: Columns, start: nat, store: Store, headerOnce: bool)
    : (Store, Option<SaveError>)
    requires start <= |rows|
  {
    var dump := DumpFrom(rows, cols, start, []);
    var header := if headerOnce && FileOrEmpty(store, name) != [] then [] else [HeaderLine(cols)];
    if dump.error.Some? then (store, dump.error)
    else (AppendFile(store, name, header + dump.lines), None)
  }

  /**
   * The blob writes of `SaveData`, to the blob of the buffer's first year `thisBlob` and of the
   * year after `nextBlob`. With `corrected` false this is the source; with it true the header is
   * written once per blob and the next year's blob starts at the split.
   */
  function WriteBlobsTo(thisBlob: string, nextBlob: string, rows: Slots, cols: Columns, year: int, original: int,
                        store: Store, corrected: bool): (r: (Store, Option<SaveError>))
  {
    var (store1, scan) :=
      if year == original then BlobSameYear(thisBlob, rows, cols, year, store, corrected)
      else (store, Scan([], -1, None));
    if scan.error.Some? then (store1, scan.error)
    else if year > original || scan.split > 0 then
      var start := if corrected && scan.split > 0 then scan.split else 0;
      BlobLaterYear(if scan.split > 0 then nextBlob else thisBlob, rows, cols, start, store1, corrected)
    else (store1, None)
  }

  /**
   * A row that raises in the same-year branch leaves every blob as it was, where the file channel
   * keeps the lines written before it.
   */
  lemma WriteBlobsToScanError(thisBlob: string, nextBlob: string, rows: Slots, cols: Columns, year: int,
                              store: Store, corrected: bool)
    requires ScanYear(rows, cols, year, 0, []).error.Some?
    ensures WriteBlobsTo(thisBlob, nextBlob, rows, cols, year, year, store, corrected)
         == (store, ScanYear(rows, cols, year, 0, []).error)
  {
  }

  /** The blob of the buffer's first year. */
  function FirstYearBlob(blobBase: string, input: SaveInput): string {
    PartitionBlobName(blobBase, input.ChannelName, UtcYear(input.buffer.FirstTimeStamp))
  }

  /** The blob of the year after it. */
  function NextYearBlob(blobBase: string, input: SaveInput): string {
    PartitionBlobName(blobBase, input.ChannelName, UtcYear(input.buffer.FirstTimeStamp) + 1)
  }

  /** The blob writes of `SaveData` for a buffer it accepts. */
  function WriteBlobs(blobBase: string, input: SaveInput, store: Store, corrected: bool): (Store, Option<SaveError>)
    requires HasData(input.buffer)
  {
    WriteBlobsTo(FirstYearBlob(blobBase, input), NextYearBlob(blobBase, input),
                 input.buffer.timeRows.value, input.buffer.dataColumns.value,
                 UtcYear(input.buffer.FirstTimeStamp), UtcYear(input.OriginalLastTimeStamp), store, corrected)
  }

  /** `UpdateMetadata`: the checkpoint advances, and the metadata blob is overwritten or created. */
  function UpdateMetadataBlob(metaBlob: string, input: SaveInput, store: Store): (r: (Store, OutputChannelMetadata))
    ensures r.1 == Checkpointed(input) && metaBlob in r.0.docs && r.0.docs[metaBlob] == Doc(r.1)
  {
    var m := Checkpointed(input);
    (store.(docs := store.docs[metaBlob := Doc(m)]), m)
  }

  /** The metadata update leaves the blobs and every other document alone. */
  lemma UpdateMetadataBlobFrame(metaBlob: string, input: SaveInput, store: Store)
    ensures var r := UpdateMetadataBlob(metaBlob, input, store);
      && r.0.files == store.files
      && forall n :: n in r.0.docs && n != metaBlob ==> n in store.docs && r.0.docs[n] == store.docs[n]
  {
  }

  /**
   * `SaveData`: the new store, the new metadata record and the exception raised, if any. The
   * checkpoint advances exactly when nothing is raised, and the metadata blob then holds it.
   */
  function BlobSaveWith(blobBase: string, metaBlob: string, input: SaveInput, store: Store, corrected: bool)
    : (r: (Store, OutputChannelMetadata, Option<SaveError>))
    ensures r.2.None? ==> r.1 == Checkpointed(input) && metaBlob in r.0.docs && r.0.docs[metaBlob] == Doc(r.1)
    ensures r.2.Some? ==> r.1 == input.metaData && r.0.docs == store.docs
    ensures input.buffer.timeRows.None? ==> r.2 == Some(NoData)
    ensures input.buffer.timeRows.Some? && !HasData(input.buffer) ==> r.2 == Some(EmptyColumns)
  {
    var b := input.buffer;
    if b.timeRows.None? then (store, input.metaData, Some(NoData))
    else if !HasData(b) then (store, input.metaData, Some(EmptyColumns))
    else
      var (store1, err) := WriteBlobs(blobBase, input, store, corrected);
      if err.Some? then (store1, input.metaData, err)
      else
        var (store2, m) := UpdateMetadataBlob(metaBlob, input, store1);
        (store2, m, None)
  }

  /** For a buffer it accepts, the save is the blob writes, then the metadata update when they raise nothing. */
  lemma BlobSaveWithData(blobBase: string, metaBlob: string, input: SaveInput, store: Store, corrected: bool)
    requires HasData(input.buffer)
    ensures var (store1, err) := WriteBlobs(blobBase, input, store, corrected);
      BlobSaveWith(blobBase, metaBlob, input, store, corrected)
      == if err.Some? then (store1, input.metaData, err)
         else (UpdateMetadataBlob(metaBlob, input, store1).0, UpdateMetadataBlob(metaBlob, input, store1).1, None)
  {
  }

  /** `SaveData` as written. */
  function BlobSaveSpec(blobBase: string, metaBlob: string, input: SaveInput, store: Store)
    : (Store, OutputChannelMetadata, Option<SaveError>)
  {
    BlobSaveWith(blobBase, metaBlob, input, store, false)
  }

  /** `SaveData` with one header per blob and the next year's blob starting at the split. */
  function BlobSaveSpecCorrected(blobBase: string, metaBlob: string, input: SaveInput, store: Store)
    : (Store, OutputChannelMetadata, Option<SaveError>)
  {
    BlobSaveWith(blobBase, metaBlob, input, store, true)
  }

  // ---------------------------------------------------------------------------------------------
  // What a save does to the blobs

  /** The blobs of consecutive years are distinct. */
  lemma YearBlobsDiffer(blobBase: string, channelName: string, year: nat)
    ensures PartitionBlobName(blobBase, channelName, year) != PartitionBlobName(blobBase, channelName, year + 1)
  {
    NatToStringInjective(year, year + 1);
    DistinctSuffixes(blobBase + channelName + "/", IntToString(year), IntToString(year + 1));
  }

  /** A step that grows one of `names` grows the files within `names`. */
  lemma BlobStepGrows(store: Store, store': Store, name: string, names: set<string>)
    requires FilesGrow(store, store', {name}) && name in names
    ensures FilesGrow(store, store', names)
  {
  }

  /** The blob writes on their own: blobs only grow, only the two named ones, and documents are untouched. */
  lemma WriteBlobsToGrow(thisBlob: string, nextBlob: string, rows: Slots, cols: Columns, year: int, original: int,
                         store: Store, corrected: bool)
    ensures var r := WriteBlobsTo(thisBlob, nextBlob, rows, cols, year, original, store, corrected).0;
      FilesGrow(store, r, {thisBlob, nextBlob}) && r.docs == store.docs
  {
    var names := {thisBlob, nextBlob};
    var (store1, scan) :=
      if year == original then BlobSameYear(thisBlob, rows, cols, year, store, corrected)
      else (store, Scan([], -1, None));
    if year == original {
      BlobStepGrows(store, store1, thisBlob, names);
    }
    if scan.error.None? && (year > original || scan.split > 0) {
      var start := if corrected && scan.split > 0 then scan.split else 0;
      var name := if scan.split > 0 then nextBlob else thisBlob;
      var store2 := BlobLaterYear(name, rows, cols, start, store1, corrected).0;
      BlobStepGrows(store1, store2, name, names);
      FilesGrowTrans(store, store1, store2, names);
    }
  }

  /**
   * A save never loses text: every blob keeps its content as a prefix, no blob other than those
   * of the buffer's first year and the year after appears or grows, and no metadata document
   * other than the channel's changes.
   */
  lemma BlobSaveOnlyAppends(blobBase: string, metaBlob: string, input: SaveInput, store: Store, corrected: bool)
    ensures var r := BlobSaveWith(blobBase, metaBlob, input, store, corrected).0;
      && FilesGrow(store, r, {FirstYearBlob(blobBase, input), NextYearBlob(blobBase, input)})
      && (forall n :: n in r.docs && n != metaBlob ==> n in store.docs && r.docs[n] == store.docs[n])
  {
    if HasData(input.buffer) {
      WriteBlobsToGrow(FirstYearBlob(blobBase, input), NextYearBlob(blobBase, input),
                       input.buffer.timeRows.value, input.buffer.dataColumns.value,
                       UtcYear(input.buffer.FirstTimeStamp), UtcYear(input.OriginalLastTimeStamp), store, corrected);
    }
  }

  // ---------------------------------------------------------------------------------------------
  // Which rows and headers land in which blob

  /** A later-year write leaves every other blob as it was. */
  lemma UntouchedBlob(store: Store, written: string, store': Store, other: string)
    requires other != written && other in store.files
    requires FilesGrow(store, store', {written})
    ensures other in store'.files && store'.files[other] == store.files[other]
  {
  }

  /** In the checkpoint's year the blob writes are the same-year branch, then the later-year one on a split. */
  lemma WriteBlobsToInYear(thisBlob: string, nextBlob: string, rows: Slots, cols: Columns, year: int,
                           store: Store, corrected: bool)
    ensures var (store1, scan) := BlobSameYear(thisBlob, rows, cols, year, store, corrected);
      && scan == ScanYear(rows, cols, year, 0, [])
      && WriteBlobsTo(thisBlob, nextBlob, rows, cols, year, year, store, corrected)
         == if scan.error.Some? then (store1, scan.error)
            else if scan.split > 0 then
              BlobLaterYear(nextBlob, rows, cols, if corrected then scan.split else 0, store1, corrected)
            else (store1, None)
  {
  }

  /** A same-year branch whose scan raises nothing appends the header and the scanned lines. */
  lemma BlobSameYearOk(name: string, rows: Slots, cols: Columns, year: int, store: Store, headerOnce: bool)
    requires ScanYear(rows, cols, year, 0, []).error.None?
    ensures var store1 := BlobSameYear(name, rows, cols, year, store, headerOnce).0;
      && FilesGrow(store, store1, {name})
      && name in store1.files
      && store1.files[name] == FileOrEmpty(store, name)
                               + (if headerOnce && FileOrEmpty(store, name) != [] then [] else [HeaderLine(cols)])
                               + ScanYear(rows, cols, year, 0, []).lines
  {
    var header := if headerOnce && FileOrEmpty(store, name) != [] then [] else [HeaderLine(cols)];
    var lines := ScanYear(rows, cols, year, 0, []).lines;
    assert FileOrEmpty(store, name) + (header + lines) == FileOrEmpty(store, name) + header + lines;
  }

  /**
   * A save in the checkpoint's year that raises nothing: the scan raised nothing, and the first
   * year's blob gained a header (as written always, corrected only when it had no content) and
   * the scanned lines.
   */
  lemma WriteBlobsToSameYear(thisBlob: string, nextBlob: string, rows: Slots, cols: Columns, year: int,
                             store: Store, corrected: bool)
    requires thisBlob != nextBlob
    requires WriteBlobsTo(thisBlob, nextBlob, rows, cols, year, year, store, corrected).1.None?
    ensures
      var scan := ScanYear(rows, cols, year, 0, []);
      var r := WriteBlobsTo(thisBlob, nextBlob, rows, cols, year, year, store, corrected).0;
      && scan.error.None?
      && thisBlob in r.files
      && r.files[thisBlob] == FileOrEmpty(store, thisBlob)
                              + (if corrected && FileOrEmpty(store, thisBlob) != [] then [] else [HeaderLine(cols)])
                              + scan.lines
  {
    var scan := ScanYear(rows, cols, year, 0, []);
    var store1 := BlobSameYear(thisBlob, rows, cols, year, store, corrected).0;
    WriteBlobsToInYear(thisBlob, nextBlob, rows, cols, year, store, corrected);
    BlobSameYearOk(thisBlob, rows, cols, year, store, corrected);
    if scan.split > 0 {
      var start := if corrected then scan.split else 0;
      var r := BlobLaterYear(nextBlob, rows, cols, start, store1, corrected);
      UntouchedBlob(store1, nextBlob, r.0, thisBlob);
    }
  }

  /**
   * ... and a run into the next year gave the next year's blob a header (corrected, only when it
   * had no content) and the dump from row 0 (as written) or from the split (corrected).
   */
  lemma WriteBlobsToNextYear(thisBlob: string, nextBlob: string, rows: Slots, cols: Columns, year: int,
                             store: Store, corrected: bool)
    requires thisBlob != nextBlob
    requires ScanYear(rows, cols, year, 0, []).split > 0
    requires WriteBlobsTo(thisBlob, nextBlob, rows, cols, year, year, store, corrected).1.None?
    ensures
      var scan := ScanYear(rows, cols, year, 0, []);
      var r := WriteBlobsTo(thisBlob, nextBlob, rows, cols, year, year, store, corrected).0;
      var start := if corrected then scan.split else 0;
      && 0 <= start <= |rows|
      && DumpFrom(rows, cols, start, []).error.None?
      && nextBlob in r.files
      && r.files[nextBlob] == FileOrEmpty(store, nextBlob)
                              + (if corrected && FileOrEmpty(store, nextBlob) != [] then [] else [HeaderLine(cols)])
                              + DumpFrom(rows, cols, start, []).lines
  {
    var store1 := BlobSameYear(thisBlob, rows, cols, year, store, corrected).0;
    BlobSameYearElsewhere(thisBlob, nextBlob, rows, cols, year, store, corrected);
    var scan := ScanYear(rows, cols, year, 0, []);
    var start := if corrected then scan.split else 0;
    BlobLaterYearWritten(nextBlob, rows, cols, start, store1, corrected);
  }

  /** The same-year branch reports the scan and touches no other blob. */
  lemma BlobSameYearElsewhere(thisBlob: string, other: string, rows: Slots, cols: Columns, year: int,
                              store: Store, headerOnce: bool)
    requires thisBlob != other
    ensures BlobSameYear(thisBlob, rows, cols, year, store, headerOnce).1 == ScanYear(rows, cols, year, 0, [])
    ensures FileOrEmpty(BlobSameYear(thisBlob, rows, cols, year, store, headerOnce).0, other) == FileOrEmpty(store, other)
  {
  }

  /** A later-year branch that raises nothing appends the header, if due, and the whole dump. */
  lemma BlobLaterYearWritten(name: string, rows: Slots, cols: Columns, start: nat, store: Store, headerOnce: bool)
    requires start <= |rows|
    ensures var r := BlobLaterYear(name, rows, cols, start, store, headerOnce);
      r.1.None? ==>
        && DumpFrom(rows, cols, start, []).error.None?
        && name in r.0.files
        && r.0.files[name] == FileOrEmpty(store, name)
                              + (if headerOnce && FileOrEmpty(store, name) != [] then [] else [HeaderLine(cols)])
                              + DumpFrom(rows, cols, start, []).lines
  {
  }

  /**
   * As written, a save in the checkpoint's year appends a header to the year's blob even when it
   * already has content: every later save repeats the header in the middle of the data.
   */
  lemma BlobSameYearRepeatsHeader(thisBlob: string, nextBlob: string, rows: Slots, cols: Columns, year: int, store: Store)
    requires thisBlob != nextBlob
    requires FileOrEmpty(store, thisBlob) != []
    requires WriteBlobsTo(thisBlob, nextBlob, rows, cols, year, year, store, false).1.None?
    ensures
      var existing := FileOrEmpty(store, thisBlob);
      var r := WriteBlobsTo(thisBlob, nextBlob, rows, cols, year, year, store, false).0;
      && thisBlob in r.files && |r.files[thisBlob]| > |existing|
      && r.files[thisBlob][..|existing|] == existing
      && r.files[thisBlob][|existing|] == HeaderLine(cols)
  {
    WriteBlobsToSameYear(thisBlob, nextBlob, rows, cols, year, store, false);
  }

  /**
   * When the buffer starts in the checkpoint's year and nothing is raised, that year's blob gains
   * the lines of the leading rows of that year, up to the first row of another year, after a
   * header which the corrected save writes only to a missing or empty blob.
   */
  lemma BlobSameYearPartition(thisBlob: string, nextBlob: string, rows: Slots, cols: Columns, year: int,
                              store: Store, corrected: bool)
    requires thisBlob != nextBlob
    requires WriteBlobsTo(thisBlob, nextBlob, rows, cols, year, year, store, corrected).1.None?
    ensures
      var stop := StopOf(ScanYear(rows, cols, year, 0, []), rows);
      var existing := FileOrEmpty(store, thisBlob);
      var r := WriteBlobsTo(thisBlob, nextBlob, rows, cols, year, year, store, corrected).0;
      && stop <= |rows| && LinesOk(rows, cols, 0, stop)
      && (forall q :: 0 <= q < stop ==> RowOfYear(rows, cols, year, q))
      && thisBlob in r.files
      && r.files[thisBlob] == existing + (if corrected && existing != [] then [] else [HeaderLine(cols)]) + RowLines(rows, cols, 0, stop)
  {
    ScanYearIsRowLines(rows, cols, year);
    WriteBlobsToSameYear(thisBlob, nextBlob, rows, cols, year, store, corrected);
  }

  /**
   * As written, when the buffer runs into the next year the next year's blob receives a header
   * and every buffered row from row 0, so the rows before the split, which are of the earlier
   * year, are written to both blobs.
   */
  lemma BlobNextYearRepeatsRows(thisBlob: string, nextBlob: string, rows: Slots, cols: Columns, year: int, store: Store)
    requires thisBlob != nextBlob
    requires ScanYear(rows, cols, year, 0, []).split > 0
    requires WriteBlobsTo(thisBlob, nextBlob, rows, cols, year, year, store, false).1.None?
    ensures
      var split := ScanYear(rows, cols, year, 0, []).split;
      var r := WriteBlobsTo(thisBlob, nextBlob, rows, cols, year, year, store, false).0;
      && thisBlob in r.files && nextBlob in r.files
      && LinesOk(rows, cols, 0, |rows|)
      && (forall q :: 0 <= q < split ==> RowOfYear(rows, cols, year, q))
      && r.files[thisBlob] == FileOrEmpty(store, thisBlob) + [HeaderLine(cols)] + RowLines(rows, cols, 0, split)
      && r.files[nextBlob] == FileOrEmpty(store, nextBlob) + [HeaderLine(cols)] + RowLines(rows, cols, 0, |rows|)
  {
    WriteBlobsToSameYear(thisBlob, nextBlob, rows, cols, year, store, false);
    WriteBlobsToNextYear(thisBlob, nextBlob, rows, cols, year, store, false);
    ScanYearIsRowLines(rows, cols, year);
    DumpFromIsRowLines(rows, cols, 0);
  }

  /**
   * Corrected, the two blobs together gain the line of every buffered row exactly once and in
   * order, and the next year's blob gains a header only when it had no content.
   */
  lemma BlobCorrectedPartitionsSplitRows(thisBlob: string, nextBlob: string, rows: Slots, cols: Columns, year: int, store: Store)
    requires thisBlob != nextBlob
    requires ScanYear(rows, cols, year, 0, []).split > 0
    requires WriteBlobsTo(thisBlob, nextBlob, rows, cols, year, year, store, true).1.None?
    ensures
      var split := ScanYear(rows, cols, year, 0, []).split;
      var r := WriteBlobsTo(thisBlob, nextBlob, rows, cols, year, year, store, true).0;
      && thisBlob in r.files && nextBlob in r.files
      && LinesOk(rows, cols, 0, |rows|)
      && r.files[thisBlob] == FileOrEmpty(store, thisBlob)
                              + (if FileOrEmpty(store, thisBlob) != [] then [] else [HeaderLine(cols)])
                              + RowLines(rows, cols, 0, split)
      && r.files[nextBlob] == FileOrEmpty(store, nextBlob)
                              + (if FileOrEmpty(store, nextBlob) != [] then [] else [HeaderLine(cols)])
                              + RowLines(rows, cols, split, |rows|)
      && RowLines(rows, cols, 0, split) + RowLines(rows, cols, split, |rows|) == RowLines(rows, cols, 0, |rows|)
  {
    var split := ScanYear(rows, cols, year, 0, []).split;
    WriteBlobsToSameYear(thisBlob, nextBlob, rows, cols, year, store, true);
    WriteBlobsToNextYear(thisBlob, nextBlob, rows, cols, year, store, true);
    ScanYearIsRowLines(rows, cols, year);
    DumpFromIsRowLines(rows, cols, split);
    assert LinesOk(rows, cols, 0, |rows|) by {
      forall q | 0 <= q < |rows|
        ensures RowLine(rows, cols, q).Ok?
      {
        if q < split {
          assert RowOfYear(rows, cols, year, q);
        }
      }
    }
    RowLinesSplit(rows, cols, 0, split, |rows|);
  }

  // ---------------------------------------------------------------------------------------------
  // The channel object

  /**
   * `BlobOutputChannel`. The source class derives from `OutputChannel`; here it holds its base
   * part in `base`. The Azure credentials are not modelled.
   */
  class BlobOutputChannel {
    const base: OutputChannel
    const blobBase: string
    var OriginalLastTimeStamp: UInt32
    const ChannelType: Configuration.ChannelType

    /** The constructor proper; `NewBlobOutputChannel` performs the checks that throw. */
    constructor (blobURL: string, sourceMetadata: OutputChannelMetadata, config: OutputChannelBehaviorConfiguration)
      requires Validate(sourceMetadata)
      ensures fresh(base)
      ensures base.ChannelName == sourceMetadata.ChannelName && base.metaData == sourceMetadata && base.configuration == config
      ensures base.State() == Buffer(None, None, 0, 0)
      ensures blobBase == blobURL && OriginalLastTimeStamp == 0 && ChannelType == Configuration.Blob
    {
      base := new OutputChannel(sourceMetadata, config);
      blobBase := blobURL;
      OriginalLastTimeStamp := 0;
      ChannelType := Configuration.Blob;
    }

    /** The metadata blob of this channel. */
    function MetadataBlob(): string
      reads base
    {
      MetadataBlobName(blobBase, base.ChannelName)
    }

    /** What `SaveData` works from. */
    function Input(): SaveInput
      reads this, base
    {
      SaveInput(base.State(), OriginalLastTimeStamp, base.ChannelName, base.metaData)
    }

    /**
     * `InitChannel`, given the blobs: the buffer is emptied, and the stored metadata, when it is
     * present and compatible, is adopted with its checkpoint. A failed request for the metadata
     * blob is taken as a missing blob.
     */
    method InitChannel(store: Store) returns (store': Store, outcome: InitOutcome)
      modifies this, base
      ensures var spec := InitSpec(MetadataBlob(), old(base.metaData), base.configuration, store, true);
        && store' == spec.0 && outcome == spec.1
        && base.metaData == (if spec.2.Some? then spec.2.value else old(base.metaData))
        && OriginalLastTimeStamp == (if spec.2.Some? then spec.2.value.LastTimestamp else old(OriginalLastTimeStamp))
      ensures base.State() == old(base.State()).(timeRows := None, dataColumns := None)
      ensures base.Count == old(base.Count)
    {
      base.timeRows := None;
      base.dataColumns := None;
      var spec := InitSpec(MetadataBlob(), base.metaData, base.configuration, store, true);
      store', outcome := spec.0, spec.1;
      if spec.2.Some? {
        base.metaData := spec.2.value;
        OriginalLastTimeStamp := spec.2.value.LastTimestamp;
      }
    }

    /** `AddData`, inherited: the base's buffer moves as `AddDataSpec` says. */
    method AddData(channel: Option<Sensors>) returns (err: Option<AddError>)
      modifies base
      ensures (base.State(), err) == AddDataSpec(old(base.State()), channel)
      ensures base.metaData == old(base.metaData)
    {
      err := base.AddData(channel);
    }

    /** `UpdateMetadata`: the checkpoint advances, and the metadata blob is overwritten. */
    method UpdateMetadata(store: Store) returns (store': Store)
      modifies base
      ensures (store', base.metaData) == UpdateMetadataBlob(MetadataBlob(), old(Input()), store)
      ensures base.State() == old(base.State())
    {
      base.metaData := base.metaData.(LastTimestamp := base.LastTimeStamp);
      store' := store.(docs := store.docs[MetadataBlob() := Doc(base.metaData)]);
    }

    /** `SaveData`, given the blobs: the partitions and the metadata as `BlobSaveSpec` says. */
    method SaveData(store: Store) returns (store': Store, err: Option<SaveError>)
      modifies base
      ensures (store', base.metaData, err) == BlobSaveSpec(blobBase, MetadataBlob(), old(Input()), store)
      ensures base.State() == old(base.State())
    {
      if base.timeRows.None? {
        return store, Some(NoData);
      }
      if base.dataColumns.None? || base.dataColumns.value == [] {
        return store, Some(EmptyColumns);
      }
      ghost var input := Input();
      BlobSaveWithData(blobBase, MetadataBlob(), input, store, false);
      store', err := SaveRows(store);
    }

    /** The part of `SaveData` after its checks: the blob writes, then the metadata update. */
    method SaveRows(store: Store) returns (store': Store, err: Option<SaveError>)
      requires HasData(Input().buffer)
      modifies base
      ensures var (written, e) := WriteBlobs(blobBase, old(Input()), store, false);
        && err == e
        && (e.Some? ==> store' == written && base.metaData == old(base.metaData))
        && (e.None? ==> (store', base.metaData) == UpdateMetadataBlob(MetadataBlob(), old(Input()), written))
      ensures base.State() == old(base.State())
    {
      var input := Input();
      var written;
      written, err := WriteBlobFiles(FirstYearBlob(blobBase, input), NextYearBlob(blobBase, input),
                                     input.buffer.timeRows.value, input.buffer.dataColumns.value,
                                     UtcYear(input.buffer.FirstTimeStamp), UtcYear(input.OriginalLastTimeStamp), store);
      if err.None? {
        store' := UpdateMetadata(written);
      } else {
        store' := written;
      }
    }
  }

  /** The two blocks of `SaveData` that append to partition blobs. */
  method WriteBlobFiles(thisBlob: string, nextBlob: string, rows: Slots, cols: Columns, year: int, original: int,
                        store: Store) returns (store': Store, err: Option<SaveError>)
    ensures (store', err) == WriteBlobsTo(thisBlob, nextBlob, rows, cols, year, original, store, false)
  {
    store', err := store, None;
    var split := -1;
    if year == original {
      var header := BuildHeader(cols);
      var scan := ScanSameYear(rows, cols, year);
      if scan.error.Some? {
        return store, scan.error;
      }
      store' := AppendFile(store, thisBlob, [header] + scan.lines);
      split := scan.split;
    }
    if year > original || split > 0 {
      var header := BuildHeader(cols);
      var dump := DumpRows(rows, cols, 0);
      if dump.error.Some? {
        return store', dump.error;
      }
      store' := AppendFile(store', if split > 0 then nextBlob else thisBlob, [header] + dump.lines);
    }
  }

  /**
   * `new BlobOutputChannel(...)`: the base constructor's check, then a blank URL, missing
   * credentials and a URL that does not parse, in that order. Whether the URL parses is given.
   */
  method NewBlobOutputChannel(blobURL: Option<string>, credentialsProvided: bool, urlParses: bool,
                              sourceMetadata: OutputChannelMetadata, config: OutputChannelBehaviorConfiguration)
    returns (r: Result<BlobOutputChannel, string>)
    ensures r.Ok? <==> Validate(sourceMetadata) && !IsNullOrWhiteSpace(blobURL) && credentialsProvided && urlParses
    ensures !Validate(sourceMetadata) ==> r == Err("Invalid output channel configuration")
    ensures Validate(sourceMetadata) && IsNullOrWhiteSpace(blobURL) ==> r == Err("Blob URL is empty")
    ensures Validate(sourceMetadata) && !IsNullOrWhiteSpace(blobURL) && !credentialsProvided ==>
      r == Err("No Azure credentials provided")
    ensures Validate(sourceMetadata) && !IsNullOrWhiteSpace(blobURL) && credentialsProvided && !urlParses ==>
      r == Err("Invalid URL provided")
    ensures r.Ok? ==> fresh(r.value) && fresh(r.value.base) && r.value.blobBase == blobURL.value
                      && r.value.Input() == SaveInput(Buffer(None, None, 0, 0), 0, sourceMetadata.ChannelName, sourceMetadata)
                      && r.value.base.configuration == config
  {
    if !Validate(sourceMetadata) {
      return Err("Invalid output channel configuration");
    }
    if IsNullOrWhiteSpace(blobURL) {
      return Err("Blob URL is empty");
    }
    if !credentialsProvided {
      return Err("No Azure credentials provided");
    }
    if !urlParses {
      return Err("Invalid URL provided");
    }
    var c := new BlobOutputChannel(blobURL.value, sourceMetadata, config);
    return Ok(c);
  }
}
