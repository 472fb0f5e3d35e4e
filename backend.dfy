/**
 * What src/CSVFileOutputChannel.cs and src/BlobOutputChannel.cs share, written there twice: the
 * storage both write to, the ordered drift check of `InitChannel`, the header and row text, the
 * scan of the same-year branch of `SaveData` that stops at the first row of another year, and the
 * full dump of the later-year branch. The backends differ only in where the lines go.
 */
module Backend {
  import opened Wrappers
  import opened Assoc
  import opened Text
  import opened Decimal
  import opened CivilTime
  import opened OutputChannel

  /**
   * What reading a stored metadata document gives: the record, `null`, a `JsonException`, or a
   * document that is present but cannot be read (a blob request that fails, a file that cannot be
   * opened). Serialising a record and reading it back gives the record.
   */
  datatype MetaDoc = Doc(metadata: OutputChannelMetadata) | NullDoc | Malformed | Unreadable

  /**
   * Files (or blobs) by name, each a sequence of lines, and the metadata documents by name. An
   * absent name is a file that does not exist.
   */
  datatype Store = Store(files: map<string, seq<string>>, docs: map<string, MetaDoc>)

  /** What `InitChannel` ends with: true, false with a message, or a rethrown exception. */
  datatype InitOutcome = Ready | Refused(message: string) | Threw

  /**
   * The checks of `InitChannel` against the stored metadata, in source order: the first that fails
   * gives the message; location and station type may change when the configuration allows it.
   */
  function MetadataDrift(existing: OutputChannelMetadata, current: OutputChannelMetadata,
                         config: OutputChannelBehaviorConfiguration): (r: Option<string>)
    ensures r.None? <==>
      && existing.TemperatureUnit == current.TemperatureUnit
      && existing.PressureUnit == current.PressureUnit
      && existing.RainfallUnit == current.RainfallUnit
      && existing.WindSpeedUnit == current.WindSpeedUnit
      && existing.SolarIrradianceUnit == current.SolarIrradianceUnit
      && (config.AllowLocationChange || (existing.DeviceLatitude == current.DeviceLatitude
                                         && existing.DeviceLongitude == current.DeviceLongitude))
      && (config.AllowStationTypeChange || existing.StationType == current.StationType)
    ensures r == Some("Temperature units changed") <==> existing.TemperatureUnit != current.TemperatureUnit
    ensures r == Some("Station type changed") ==>
      !config.AllowStationTypeChange && existing.StationType != current.StationType
  {
    if existing.TemperatureUnit != current.TemperatureUnit then Some("Temperature units changed")
    else if existing.PressureUnit != current.PressureUnit then Some("Pressure units changed")
    else if existing.RainfallUnit != current.RainfallUnit then Some("Rainfall units changed")
    else if existing.WindSpeedUnit != current.WindSpeedUnit then Some("Wind speed units changed")
    else if existing.SolarIrradianceUnit != current.SolarIrradianceUnit then Some("Solar irradiance units changed")
    else if !config.AllowLocationChange
            && (existing.DeviceLatitude != current.DeviceLatitude || existing.DeviceLongitude != current.DeviceLongitude)
    then Some("Station location changed")
    else if !config.AllowStationTypeChange && existing.StationType != current.StationType then Some("Station type changed")
    else None
  }

  /**
   * `InitChannel` after the buffer reset, reading the metadata document `name`: a missing one is
   * written from the current metadata and accepted; otherwise the stored record must be non-null
   * and pass the drift check, and is then returned to be adopted. An unreadable document is
   * treated as a missing one when `failedReadIsMissing` (the blob channel catches the failed
   * request) and otherwise throws (the file channel catches only a missing file).
   */
  function InitSpec(name: string, current: OutputChannelMetadata, config: OutputChannelBehaviorConfiguration,
                    store: Store, failedReadIsMissing: bool): (r: (Store, InitOutcome, Option<OutputChannelMetadata>))
    ensures r.2.Some? ==> r.1 == Ready && r.0 == store && name in store.docs && store.docs[name] == Doc(r.2.value)
    ensures name !in store.docs || (store.docs[name].Unreadable? && failedReadIsMissing) ==>
      r == (store.(docs := store.docs[name := Doc(current)]), Ready, None)
    ensures name in store.docs && store.docs[name].Unreadable? && !failedReadIsMissing ==> r == (store, Threw, None)
    ensures name in store.docs && !(store.docs[name].Unreadable? && failedReadIsMissing) ==> r.0 == store
    ensures r.0.files == store.files
  {
    if name !in store.docs || (store.docs[name].Unreadable? && failedReadIsMissing) then
      (store.(docs := store.docs[name := Doc(current)]), Ready, None)
    else
      match store.docs[name]
      case NullDoc => (store, Refused("Deserialization failed to produce non-null data"), None)
      case Malformed => (store, Threw, None)
      case Unreadable => (store, Threw, None)
      case Doc(existing) =>
        match MetadataDrift(existing, current, config)
        case Some(message) => (store, Refused(message), None)
        case None => (store, Ready, Some(existing))
  }

  /** The inputs of `SaveData`: the buffer, the checkpoint read by `InitChannel`, and the metadata. */
  datatype SaveInput = SaveInput(buffer: Buffer, OriginalLastTimeStamp: UInt32, ChannelName: string,
                                 metaData: OutputChannelMetadata)

  /** A buffer `SaveData` accepts: rows were added and there is at least one column. */
  predicate HasData(b: Buffer) {
    b.timeRows.Some? && b.dataColumns.Some? && b.dataColumns.value != []
  }

  /** `UpdateMetadata`'s change to the record: the checkpoint advances to LastTimeStamp. */
  function Checkpointed(input: SaveInput): OutputChannelMetadata {
    input.metaData.(LastTimestamp := input.buffer.LastTimeStamp)
  }

  /** The exceptions `SaveData` can raise. */
  datatype SaveError =
    | NoData                 // InvalidOperationException "No data added to channel"
    | EmptyColumns           // InvalidOperationException "Empty data columns"
    | NullRow                // UInt32.Parse of an unwritten time row (ArgumentNullException)
    | RowFormat              // UInt32.Parse of a malformed time row (FormatException)
    | ShortColumn            // a column with fewer slots than the row index (IndexOutOfRangeException)
    | FileExists(name: string)        // FileMode.CreateNew on an existing file (IOException)
    | MetadataMissing(name: string)   // FileMode.Truncate on a missing metadata file

  /** The exceptions a row loop can raise. */
  predicate RowError(e: SaveError) {
    e.NullRow? || e.RowFormat? || e.ShortColumn?
  }

  /** `"` + text + `"`. */
  function Quote(s: string): string {
    "\"" + s + "\""
  }

  /** The header cells after "Timestamp": `,"<key>"` for the first `k` columns. */
  function HeaderCells(cols: Columns, k: nat): string
    requires k <= |cols|
  {
    if k == 0 then "" else HeaderCells(cols, k - 1) + "," + Quote(cols[k - 1].0)
  }

  /** The partition header: `"Timestamp"` and then every column name, quoted and comma-separated. */
  function HeaderLine(cols: Columns): string {
    Quote("Timestamp") + HeaderCells(cols, |cols|)
  }

  /** The row cells after the timestamp: `,"<value>"` of row `i` in the first `k` columns. */
  function RowCells(cols: Columns, i: nat, k: nat): (r: Result<string, SaveError>)
    requires k <= |cols|
    ensures r.Err? ==> r.error == ShortColumn
  {
    if k == 0 then Ok("")
    else
      match RowCells(cols, i, k - 1)
      case Err(e) => Err(e)
      case Ok(prefix) =>
        if i >= |cols[k - 1].1| then Err(ShortColumn)
        else Ok(prefix + "," + Quote(OrEmpty(cols[k - 1].1[i])))
  }

  /** The text of row `i`: its quoted timestamp (empty for an unwritten slot), then its cells. */
  function RowLine(rows: Slots, cols: Columns, i: nat): Result<string, SaveError>
    requires i < |rows|
  {
    match RowCells(cols, i, |cols|)
    case Err(e) => Err(e)
    case Ok(cells) => Ok(Quote(OrEmpty(rows[i])) + cells)
  }

  /** `UInt32.Parse` of a time row. */
  function RowStamp(slot: Option<string>): Result<UInt32, SaveError> {
    if slot.None? then Err(NullRow)
    else match ParseUInt32(slot)
      case None => Err(RowFormat)
      case Some(n) => Ok(n)
  }

  /**
   * The lines a loop over rows wrote, the index of the first row of another year (-1 when it ran
   * to the end), and the exception that stopped it, if any.
   */
  datatype Scan = Scan(lines: seq<string>, split: int, error: Option<SaveError>)

  /** The row loop of the same-year branch, from row `i`: rows of `year`, up to the first that is not. */
  function ScanYear(rows: Slots, cols: Columns, year: int, i: nat, lines: seq<string>): (r: Scan)
    requires i <= |rows|
    ensures r.split < |rows| && (r.split >= 0 ==> i <= r.split)
    ensures r.error.Some? ==> RowError(r.error.value)
    decreases |rows| - i
  {
    if i == |rows| then Scan(lines, -1, None)
    else
      match RowStamp(rows[i])
      case Err(e) => Scan(lines, -1, Some(e))
      case Ok(ts) =>
        if UtcYear(ts) != year then Scan(lines, i, None)
        else
          match RowLine(rows, cols, i)
          case Err(e) => Scan(lines, -1, Some(e))
          case Ok(line) => ScanYear(rows, cols, year, i + 1, lines + [line])
  }

  /** The row loop of the later-year branch, from row `i`: every row, whatever its year. */
  function DumpFrom(rows: Slots, cols: Columns, i: nat, lines: seq<string>): (r: Scan)
    requires i <= |rows|
    ensures r.error.Some? ==> r.error.value == ShortColumn
    decreases |rows| - i
  {
    if i == |rows| then Scan(lines, -1, None)
    else
      match RowLine(rows, cols, i)
      case Err(e) => Scan(lines, -1, Some(e))
      case Ok(line) => DumpFrom(rows, cols, i + 1, lines + [line])
  }

  /** A row of `year` whose line can be formatted. */
  predicate RowOfYear(rows: Slots, cols: Columns, year: int, i: nat)
    requires i < |rows|
  {
    RowStamp(rows[i]).Ok? && UtcYear(RowStamp(rows[i]).value) == year && RowLine(rows, cols, i).Ok?
  }

  /** Where the scan would stop: at the split, or after the last row. */
  function StopOf(s: Scan, rows: Slots): int {
    if s.split >= 0 then s.split else |rows|
  }

  /**
   * The same-year scan without its loop, part one: when it raises nothing, every row before
   * where it stops is of `year` and formats, and the row at the split is of another year.
   */
  lemma {:induction false} ScanYearStops(rows: Slots, cols: Columns, year: int, i: nat, lines: seq<string>)
    requires i <= |rows|
    ensures var s := ScanYear(rows, cols, year, i, lines);
      s.error.None? ==>
        && i <= StopOf(s, rows) <= |rows|
        && (s.split >= 0 ==> s.split < |rows| && RowStamp(rows[s.split]).Ok?
                             && UtcYear(RowStamp(rows[s.split]).value) != year)
        && forall q :: i <= q < StopOf(s, rows) ==> RowOfYear(rows, cols, year, q)
    decreases |rows| - i
  {
    if i < |rows| && RowOfYear(rows, cols, year, i) {
      ScanYearStops(rows, cols, year, i + 1, lines + [RowLine(rows, cols, i).value]);
    }
  }

  /** Where no row of `year` that formats is left, the scan writes nothing more. */
  lemma ScanYearHalts(rows: Slots, cols: Columns, year: int, i: nat, lines: seq<string>)
    requires i <= |rows| && (i == |rows| || !RowOfYear(rows, cols, year, i))
    ensures var s := ScanYear(rows, cols, year, i, lines);
      s.error.None? ==> StopOf(s, rows) == i && s.lines == lines
  {
  }

  /** A row of `year` that formats is written, and the scan goes on with the next row. */
  lemma ScanYearStep(rows: Slots, cols: Columns, year: int, i: nat, lines: seq<string>)
    requires i < |rows| && RowOfYear(rows, cols, year, i)
    ensures ScanYear(rows, cols, year, i, lines)
         == ScanYear(rows, cols, year, i + 1, lines + [RowLine(rows, cols, i).value])
  {
  }

  /**
   * `s` holds the given `lines` and then the line of each row from `i` up to where it stopped, in
   * order.
   */
  ghost predicate LinesWritten(s: Scan, rows: Slots, cols: Columns, i: nat, lines: seq<string>) {
    && i <= StopOf(s, rows) <= |rows|
    && |s.lines| == |lines| + StopOf(s, rows) - i
    && s.lines[..|lines|] == lines
    && forall q :: i <= q < StopOf(s, rows) ==>
         RowLine(rows, cols, q).Ok? && s.lines[|lines| + q - i] == RowLine(rows, cols, q).value
  }

  /** Writing the line of row `i` first and the rest after it is writing them all from `i`. */
  lemma LinesWrittenStep(s: Scan, rows: Slots, cols: Columns, i: nat, lines: seq<string>)
    requires i < |rows| && RowLine(rows, cols, i).Ok?
    requires LinesWritten(s, rows, cols, i + 1, lines + [RowLine(rows, cols, i).value])
    ensures LinesWritten(s, rows, cols, i, lines)
  {
    var line := RowLine(rows, cols, i).value;
    var lines' := lines + [line];
    assert s.lines[..|lines|] == s.lines[..|lines'|][..|lines|];
    assert s.lines[|lines|] == lines'[|lines|] == line;
    forall q | i <= q < StopOf(s, rows)
      ensures RowLine(rows, cols, q).Ok? && s.lines[|lines| + q - i] == RowLine(rows, cols, q).value
    {
      if q > i {
        assert |lines'| + q - (i + 1) == |lines| + q - i;
      }
    }
  }

  /** Part two: it has written the line of each of those rows, in order, after the given ones. */
  lemma {:induction false} ScanYearLines(rows: Slots, cols: Columns, year: int, i: nat, lines: seq<string>)
    requires i <= |rows|
    ensures var s := ScanYear(rows, cols, year, i, lines);
      s.error.None? ==> LinesWritten(s, rows, cols, i, lines)
    decreases |rows| - i
  {
    if i < |rows| && RowOfYear(rows, cols, year, i) {
      var lines' := lines + [RowLine(rows, cols, i).value];
      ScanYearLines(rows, cols, year, i + 1, lines');
      ScanYearStep(rows, cols, year, i, lines);
      var s := ScanYear(rows, cols, year, i + 1, lines');
      if s.error.None? {
        LinesWrittenStep(s, rows, cols, i, lines);
      }
    } else {
      ScanYearHalts(rows, cols, year, i, lines);
    }
  }

  /** The full dump without its loop: the line of every row from `i`, in order. */
  lemma {:induction false} DumpFromMeaning(rows: Slots, cols: Columns, i: nat, lines: seq<string>)
    requires i <= |rows|
    ensures var s := DumpFrom(rows, cols, i, lines);
      && s.split == -1
      && (s.error.None? <==> forall q :: i <= q < |rows| ==> RowLine(rows, cols, q).Ok?)
      && (s.error.None? ==>
            && |s.lines| == |lines| + |rows| - i
            && s.lines[..|lines|] == lines
            && forall q :: i <= q < |rows| ==> s.lines[|lines| + q - i] == RowLine(rows, cols, q).value)
    decreases |rows| - i
  {
    if i < |rows| && RowLine(rows, cols, i).Ok? {
      var lines' := lines + [RowLine(rows, cols, i).value];
      DumpFromMeaning(rows, cols, i + 1, lines');
      var s := DumpFrom(rows, cols, i + 1, lines');
      if s.error.None? {
        assert s.lines[..|lines|] == s.lines[..|lines'|][..|lines|];
      }
    }
  }

  /** Every row in `[lo, hi)` formats. */
  predicate LinesOk(rows: Slots, cols: Columns, lo: nat, hi: nat)
    requires lo <= hi <= |rows|
  {
    forall q :: lo <= q < hi ==> RowLine(rows, cols, q).Ok?
  }

  /** The lines of the rows in `[lo, hi)`, in order. */
  function RowLines(rows: Slots, cols: Columns, lo: nat, hi: nat): (r: seq<string>)
    requires lo <= hi <= |rows| && LinesOk(rows, cols, lo, hi)
    ensures |r| == hi - lo && forall j :: 0 <= j < hi - lo ==> r[j] == RowLine(rows, cols, lo + j).value
  {
    seq(hi - lo, j requires 0 <= j < hi - lo => RowLine(rows, cols, lo + j).value)
  }

  /** Consecutive ranges of rows: their lines join. */
  lemma RowLinesSplit(rows: Slots, cols: Columns, lo: nat, mid: nat, hi: nat)
    requires lo <= mid <= hi <= |rows| && LinesOk(rows, cols, lo, hi)
    ensures LinesOk(rows, cols, lo, mid) && LinesOk(rows, cols, mid, hi)
    ensures RowLines(rows, cols, lo, mid) + RowLines(rows, cols, mid, hi) == RowLines(rows, cols, lo, hi)
  {
    var a := RowLines(rows, cols, lo, mid);
    var b := RowLines(rows, cols, mid, hi);
    var c := RowLines(rows, cols, lo, hi);
    forall j | 0 <= j < hi - lo
      ensures (a + b)[j] == c[j]
    {
      if j >= mid - lo {
        assert (a + b)[j] == b[j - (mid - lo)];
      }
    }
  }

  /** The same-year scan from row 0 that raises nothing: the lines of rows of `year` up to its stop. */
  lemma ScanYearIsRowLines(rows: Slots, cols: Columns, year: int)
    ensures var s := ScanYear(rows, cols, year, 0, []);
      s.error.None? ==>
        && StopOf(s, rows) <= |rows|
        && LinesOk(rows, cols, 0, StopOf(s, rows))
        && s.lines == RowLines(rows, cols, 0, StopOf(s, rows))
        && forall q :: 0 <= q < StopOf(s, rows) ==> RowOfYear(rows, cols, year, q)
  {
    ScanYearStops(rows, cols, year, 0, []);
    ScanYearLines(rows, cols, year, 0, []);
  }

  /** The dump from row `i` that raises nothing: the lines of every row from `i`, and only then. */
  lemma DumpFromIsRowLines(rows: Slots, cols: Columns, i: nat)
    requires i <= |rows|
    ensures DumpFrom(rows, cols, i, []).error.None? <==> LinesOk(rows, cols, i, |rows|)
    ensures DumpFrom(rows, cols, i, []).error.None? ==>
      DumpFrom(rows, cols, i, []).lines == RowLines(rows, cols, i, |rows|)
  {
    DumpFromMeaning(rows, cols, i, []);
  }

  /** `a` is a prefix of `b`. */
  predicate Extends(a: seq<string>, b: seq<string>) {
    |a| <= |b| && b[..|a|] == a
  }

  /** The files of `store'` extend those of `store`, and only `names` may have changed. */
  predicate FilesGrow(store: Store, store': Store, names: set<string>) {
    && (forall n :: n in store.files ==> n in store'.files && Extends(store.files[n], store'.files[n]))
    && (forall n :: n in store'.files && n !in names ==> n in store.files && store'.files[n] == store.files[n])
  }

  /** Names that share a prefix and differ after it differ. */
  lemma DistinctSuffixes(prefix: string, a: string, b: string)
    requires a != b
    ensures prefix + a != prefix + b
  {
    assert (prefix + a)[|prefix|..] == a;
    assert (prefix + b)[|prefix|..] == b;
  }

  /** The content of file `name`, empty when there is none. */
  function FileOrEmpty(store: Store, name: string): seq<string> {
    if name in store.files then store.files[name] else []
  }

  /** `block` appended to file `name`, which is created when missing. */
  function AppendFile(store: Store, name: string, block: seq<string>): (r: Store)
    ensures FilesGrow(store, r, {name}) && r.docs == store.docs
    ensures name in r.files && r.files[name] == FileOrEmpty(store, name) + block
  {
    var r := store.(files := store.files[name := FileOrEmpty(store, name) + block]);
    assert r.files[name][..|FileOrEmpty(store, name)|] == FileOrEmpty(store, name);
    r
  }

  lemma FilesGrowTrans(s0: Store, s1: Store, s2: Store, names: set<string>)
    requires FilesGrow(s0, s1, names) && FilesGrow(s1, s2, names)
    ensures FilesGrow(s0, s2, names)
  {
    forall n | n in s0.files
      ensures n in s2.files && Extends(s0.files[n], s2.files[n])
    {
      assert s2.files[n][..|s1.files[n]|][..|s0.files[n]|] == s2.files[n][..|s0.files[n]|];
    }
  }

  // ---------------------------------------------------------------------------------------------
  // The header and row text against `string.Join`

  function QuotedKeys(cols: Columns, k: nat): (r: seq<string>)
    requires k <= |cols|
    ensures |r| == k && forall q :: 0 <= q < k ==> r[q] == Quote(cols[q].0)
  {
    seq(k, q requires 0 <= q < k => Quote(cols[q].0))
  }

  /** The header is the quoted "Timestamp" and column names joined by commas. */
  lemma {:induction false} HeaderIsJoin(cols: Columns, k: nat)
    requires k <= |cols|
    ensures Quote("Timestamp") + HeaderCells(cols, k) == Join(",", [Quote("Timestamp")] + QuotedKeys(cols, k))
  {
    var parts := [Quote("Timestamp")] + QuotedKeys(cols, k);
    if k > 0 {
      HeaderIsJoin(cols, k - 1);
      assert parts[..|parts| - 1] == [Quote("Timestamp")] + QuotedKeys(cols, k - 1);
    }
  }

  function QuotedCells(cols: Columns, i: nat, k: nat): (r: seq<string>)
    requires k <= |cols|
    requires forall q :: 0 <= q < k ==> i < |cols[q].1|
    ensures |r| == k && forall q :: 0 <= q < k ==> r[q] == Quote(OrEmpty(cols[q].1[i]))
  {
    seq(k, q requires 0 <= q < k => Quote(OrEmpty(cols[q].1[i])))
  }

  /** The cells of row `i` can be formatted exactly when every column has a slot `i`. */
  lemma {:induction false} RowCellsOk(cols: Columns, i: nat, k: nat)
    requires k <= |cols|
    ensures RowCells(cols, i, k).Ok? <==> forall q :: 0 <= q < k ==> i < |cols[q].1|
  {
    if k > 0 {
      RowCellsOk(cols, i, k - 1);
    }
  }

  lemma AppendAssoc(a: string, b: string, c: string)
    ensures a + (b + c) == (a + b) + c
  {
  }

  lemma JoinSnoc(separator: string, parts: seq<string>, x: string)
    requires parts != []
    ensures Join(separator, parts + [x]) == Join(separator, parts) + separator + x
  {
    assert (parts + [x])[..|parts|] == parts;
  }

  lemma QuotedCellsLast(cols: Columns, i: nat, k: nat)
    requires 0 < k <= |cols| && forall q :: 0 <= q < k ==> i < |cols[q].1|
    ensures QuotedCells(cols, i, k) == QuotedCells(cols, i, k - 1) + [Quote(OrEmpty(cols[k - 1].1[i]))]
  {
  }

  /** Formatted cells end with the last column's quoted cell after a comma. */
  lemma RowCellsLast(cols: Columns, i: nat, k: nat)
    requires 0 < k <= |cols| && RowCells(cols, i, k).Ok?
    ensures RowCells(cols, i, k - 1).Ok? && i < |cols[k - 1].1|
    ensures RowCells(cols, i, k).value == RowCells(cols, i, k - 1).value + "," + Quote(OrEmpty(cols[k - 1].1[i]))
  {
  }

  /** Formatted cells are the quoted timestamp and values joined by commas. */
  lemma {:induction false} RowCellsJoin(rows: Slots, cols: Columns, i: nat, k: nat)
    requires i < |rows| && k <= |cols| && RowCells(cols, i, k).Ok?
    ensures forall q :: 0 <= q < k ==> i < |cols[q].1|
    ensures Quote(OrEmpty(rows[i])) + RowCells(cols, i, k).value
         == Join(",", [Quote(OrEmpty(rows[i]))] + QuotedCells(cols, i, k))
  {
    RowCellsOk(cols, i, k);
    if k > 0 {
      RowCellsLast(cols, i, k);
      RowCellsJoin(rows, cols, i, k - 1);
      var head := Quote(OrEmpty(rows[i]));
      var prior := RowCells(cols, i, k - 1).value;
      var cell := Quote(OrEmpty(cols[k - 1].1[i]));
      var ps := [head] + QuotedCells(cols, i, k - 1);
      QuotedCellsLast(cols, i, k);
      assert [head] + QuotedCells(cols, i, k) == ps + [cell];
      JoinSnoc(",", ps, cell);
      AppendAssoc(head, prior + ",", cell);
      AppendAssoc(head, prior, ",");
    }
  }

  /**
   * Row `i` can be formatted exactly when every column has a slot `i`, and it is then the quoted
   * timestamp and values joined by commas.
   */
  lemma RowCellsIsJoin(rows: Slots, cols: Columns, i: nat, k: nat)
    requires i < |rows| && k <= |cols|
    ensures RowCells(cols, i, k).Ok? <==> forall q :: 0 <= q < k ==> i < |cols[q].1|
    ensures RowCells(cols, i, k).Ok? ==>
      Quote(OrEmpty(rows[i])) + RowCells(cols, i, k).value
        == Join(",", [Quote(OrEmpty(rows[i]))] + QuotedCells(cols, i, k))
  {
    RowCellsOk(cols, i, k);
    if RowCells(cols, i, k).Ok? {
      RowCellsJoin(rows, cols, i, k);
    }
  }

  lemma RowLineIsJoin(rows: Slots, cols: Columns, i: nat)
    requires i < |rows|
    ensures RowLine(rows, cols, i).Ok? <==> forall q :: 0 <= q < |cols| ==> i < |cols[q].1|
    ensures RowLine(rows, cols, i).Ok? ==>
      RowLine(rows, cols, i).value == Join(",", [Quote(OrEmpty(rows[i]))] + QuotedCells(cols, i, |cols|))
  {
    RowCellsIsJoin(rows, cols, i, |cols|);
  }

  // ---------------------------------------------------------------------------------------------
  // The loops that build the lines, each proved to compute its specification above

  /** The header loop: a string builder gets `"Timestamp"` and then `,"<key>"` per column. */
  method BuildHeader(cols: Columns) returns (line: string)
    ensures line == HeaderLine(cols)
  {
    line := Quote("Timestamp");
    for k := 0 to |cols|
      invariant line == Quote("Timestamp") + HeaderCells(cols, k)
    {
      line := line + "," + Quote(cols[k].0);
    }
  }

  /** The row text of row `i`: its quoted timestamp, then `,"<value>"` per column. */
  method BuildRow(rows: Slots, cols: Columns, i: nat) returns (r: Result<string, SaveError>)
    requires i < |rows|
    ensures r == RowLine(rows, cols, i)
  {
    var cells := "";
    for k := 0 to |cols|
      invariant RowCells(cols, i, k) == Ok(cells)
    {
      if i >= |cols[k].1| {
        RowCellsStopsAtShortColumn(cols, i, k + 1);
        return Err(ShortColumn);
      }
      cells := cells + "," + Quote(OrEmpty(cols[k].1[i]));
    }
    return Ok(Quote(OrEmpty(rows[i])) + cells);
  }

  /** Once a column is short, every longer prefix of cells fails. */
  lemma {:induction false} RowCellsStopsAtShortColumn(cols: Columns, i: nat, k: nat)
    requires 0 < k <= |cols|
    requires RowCells(cols, i, k - 1).Ok? && i >= |cols[k - 1].1|
    ensures forall k' :: k <= k' <= |cols| ==> RowCells(cols, i, k').Err?
  {
    forall k' | k <= k' <= |cols|
      ensures RowCells(cols, i, k').Err?
    {
      RowCellsErrFrom(cols, i, k, k');
    }
  }

  lemma {:induction false} RowCellsErrFrom(cols: Columns, i: nat, k: nat, k': nat)
    requires 0 < k <= k' <= |cols|
    requires RowCells(cols, i, k).Err?
    ensures RowCells(cols, i, k').Err?
    decreases k' - k
  {
    if k' > k {
      RowCellsErrFrom(cols, i, k, k' - 1);
    }
  }

  /** The row loop of the same-year branch. */
  method ScanSameYear(rows: Slots, cols: Columns, year: int) returns (s: Scan)
    ensures s == ScanYear(rows, cols, year, 0, [])
  {
    var lines: seq<string> := [];
    var i := 0;
    while i < |rows|
      invariant i <= |rows|
      invariant ScanYear(rows, cols, year, i, lines) == ScanYear(rows, cols, year, 0, [])
      decreases |rows| - i
    {
      var ts := RowStamp(rows[i]);
      if ts.Err? {
        return Scan(lines, -1, Some(ts.error));
      }
      if UtcYear(ts.value) != year {
        return Scan(lines, i, None);
      }
      var line := BuildRow(rows, cols, i);
      if line.Err? {
        return Scan(lines, -1, Some(line.error));
      }
      lines := lines + [line.value];
      i := i + 1;
    }
    return Scan(lines, -1, None);
  }

  /** The row loop of the later-year branch, from row `start`. */
  method DumpRows(rows: Slots, cols: Columns, start: nat) returns (s: Scan)
    requires start <= |rows|
    ensures s == DumpFrom(rows, cols, start, [])
  {
    var lines: seq<string> := [];
    var i := start;
    while i < |rows|
      invariant start <= i <= |rows|
      invariant DumpFrom(rows, cols, i, lines) == DumpFrom(rows, cols, start, [])
      decreases |rows| - i
    {
      var line := BuildRow(rows, cols, i);
      if line.Err? {
        return Scan(lines, -1, Some(line.error));
      }
      lines := lines + [line.value];
      i := i + 1;
    }
    return Scan(lines, -1, None);
  }
}
