/**
 * src/OutputChannel.cs: the channel metadata record with its validation and its blob-metadata
 * form, and the output channel's row buffer that `AddData` grows. The two storage backends
 * (csvchannel.dfy, blobchannel.dfy) share this state.
 */
module OutputChannel {
  import opened Wrappers
  import opened Assoc
  import opened Text
  import opened Decimal
  import opened Units
  import opened Configuration
  import opened InputData

  // ---------------------------------------------------------------------------------------------
  // OutputChannelMetadata

  datatype OutputChannelMetadata = OutputChannelMetadata(
    ChannelName: string,
    DeviceName: string,
    StationType: string,
    MAC: string,
    LastTimestamp: UInt32,
    DeviceCreationTime: UInt32,
    DeviceCloudId: Int32,
    DeviceLongitude: real,
    DeviceLatitude: real,
    TemperatureUnit: Int32,
    PressureUnit: Int32,
    WindSpeedUnit: Int32,
    RainfallUnit: Int32,
    SolarIrradianceUnit: Int32,
    OutputChannel: OutputChannelConfiguration)

  /** `Validate`: a 17-character MAC, a non-blank channel name and coordinates within range. */
  predicate Validate(m: OutputChannelMetadata) {
    && |m.MAC| == 17
    && !IsBlank(m.ChannelName)
    && -90.0 <= m.DeviceLatitude <= 90.0
    && -180.0 <= m.DeviceLongitude <= 180.0
  }

  /** The fourteen keys of the blob-metadata form, one per persisted field. */
  const MetadataKeys: set<string> := {
    "ChannelName", "DeviceName", "StationType", "MAC", "LastTimestamp", "DeviceCreationTime",
    "DeviceCloudId", "DeviceLongitude", "DeviceLatitude", "TemperatureUnit", "PressureUnit",
    "WindSpeedUnit", "RainfallUnit", "SolarIrradianceUnit"}

  /**
   * `ConvertToBlobMetadata`: every persisted field under its own name, numbers and units as their
   * `ToString` text. `formatDouble` stands for `double.ToString`.
   */
  function ConvertToBlobMetadata(m: OutputChannelMetadata, formatDouble: real -> string): (r: map<string, string>)
    ensures "ChannelName" in r && r["ChannelName"] == m.ChannelName
    ensures "MAC" in r && r["MAC"] == m.MAC
    ensures "DeviceName" in r && r["DeviceName"] == m.DeviceName
    ensures "StationType" in r && r["StationType"] == m.StationType
  {
    map[
      "LastTimestamp" := NatToString(m.LastTimestamp),
      "DeviceCreationTime" := NatToString(m.DeviceCreationTime),
      "DeviceCloudId" := IntToString(m.DeviceCloudId),
      "DeviceLongitude" := formatDouble(m.DeviceLongitude),
      "DeviceLatitude" := formatDouble(m.DeviceLatitude),
      "TemperatureUnit" := EnumToString(TemperatureUnits, m.TemperatureUnit),
      "PressureUnit" := EnumToString(PressureUnits, m.PressureUnit),
      "WindSpeedUnit" := EnumToString(WindSpeedUnits, m.WindSpeedUnit),
      "RainfallUnit" := EnumToString(RainfallUnits, m.RainfallUnit),
      "SolarIrradianceUnit" := EnumToString(SolarIrradianceUnits, m.SolarIrradianceUnit),
      "StationType" := m.StationType,
      "DeviceName" := m.DeviceName,
      "MAC" := m.MAC,
      "ChannelName" := m.ChannelName]
  }

  /** A required text field: present and non-empty. */
  function Required(b: map<string, string>, key: string): Option<string> {
    if key in b && b[key] != "" then Some(b[key]) else None
  }

  /** The four required fields are present and non-empty. */
  predicate HasRequiredFields(b: map<string, string>) {
    Required(b, "ChannelName").Some? && Required(b, "MAC").Some?
    && Required(b, "DeviceName").Some? && Required(b, "StationType").Some?
  }

  /**
   * `ParseBlobMetadata` as written. Every optional field is guarded by `!TryGetValue(...)`, so
   * its parse only runs when the key is missing, on a null value: numbers stay 0, and a unit
   * becomes 0 (what a failed `Enum.TryParse` leaves) when its key is missing and keeps its
   * initial value when present. Wind, rainfall and solar units are never stored.
   */
  function ParseBlobMetadata(b: Option<map<string, string>>): (r: Option<OutputChannelMetadata>)
    ensures r.None? <==> b.None? || b.value == map[] || !HasRequiredFields(b.value)
    ensures r.Some? ==>
      && r.value.ChannelName == b.value["ChannelName"] && r.value.MAC == b.value["MAC"]
      && r.value.DeviceName == b.value["DeviceName"] && r.value.StationType == b.value["StationType"]
      && r.value.LastTimestamp == 0 && r.value.DeviceCreationTime == 0 && r.value.DeviceCloudId == 0
      && r.value.DeviceLatitude == 0.0 && r.value.DeviceLongitude == 0.0
      && r.value.TemperatureUnit == (if "TemperatureUnit" in b.value then Celsius else 0)
      && r.value.PressureUnit == (if "PressureUnit" in b.value then hPa else 0)
      && r.value.WindSpeedUnit == mps && r.value.RainfallUnit == mm && r.value.SolarIrradianceUnit == Wpm
  {
    if b.None? || b.value == map[] || !HasRequiredFields(b.value) then None
    else
      var blob := b.value;
      // A missing key leaves the out value null, and `Enum.TryParse(null, ...)` fails with 0.
      var tUnit := if "TemperatureUnit" !in blob then 0 else Celsius;
      var pUnit := if "PressureUnit" !in blob then 0 else hPa;
      Some(OutputChannelMetadata(
        ChannelName := blob["ChannelName"],
        DeviceName := blob["DeviceName"],
        StationType := blob["StationType"],
        MAC := blob["MAC"],
        LastTimestamp := 0,
        DeviceCreationTime := 0,
        DeviceCloudId := 0,
        DeviceLongitude := 0.0,
        DeviceLatitude := 0.0,
        TemperatureUnit := tUnit,
        PressureUnit := pUnit,
        WindSpeedUnit := mps,
        RainfallUnit := mm,
        SolarIrradianceUnit := Wpm,
        OutputChannel := DefaultOutputChannel))
  }

  /** The checkpoint written as blob metadata does not survive being read back. */
  lemma ParseBlobMetadataLosesCheckpoint(m: OutputChannelMetadata, formatDouble: real -> string)
    requires m.ChannelName != "" && m.MAC != "" && m.DeviceName != "" && m.StationType != ""
    requires m.LastTimestamp != 0
    ensures var r := ParseBlobMetadata(Some(ConvertToBlobMetadata(m, formatDouble)));
      r.Some? && r.value.LastTimestamp == 0 && r.value.LastTimestamp != m.LastTimestamp
  {
  }

  /** A concrete instance: a channel checkpointed at 1700000000 with wind in km/h reads back as 0 and m/s. */
  lemma ParseBlobMetadataCounterexample(formatDouble: real -> string)
    ensures var m := OutputChannelMetadata("outdoor", "station", "GW1000", "AA:BB:CC:DD:EE:FF", 1700000000, 0, 0,
                                           0.0, 0.0, Celsius, hPa, kmh, mm, Wpm, DefaultOutputChannel);
      var r := ParseBlobMetadata(Some(ConvertToBlobMetadata(m, formatDouble)));
      r.Some? && r != Some(m) && r.value.LastTimestamp == 0 && r.value.WindSpeedUnit == mps
  {
  }

  /** `TryParse`'s out value: the parsed number, or 0 when parsing fails. */
  function OrZero<T>(r: Option<T>, zero: T): T {
    if r.Some? then r.value else zero
  }

  /**
   * `ParseBlobMetadata` as evidently intended: each optional field is parsed when its key is
   * present with a non-empty value, into its own field; a failed parse leaves 0 as `TryParse`
   * does, and a missing key keeps the field's initial value. `parseDouble` stands for
   * `Double.TryParse`.
   */
  function ParseBlobMetadataCorrected(b: Option<map<string, string>>, parseDouble: string -> Option<real>)
    : (r: Option<OutputChannelMetadata>)
    ensures r.None? <==> b.None? || b.value == map[] || !HasRequiredFields(b.value)
  {
    if b.None? || b.value == map[] || !HasRequiredFields(b.value) then None
    else
      var blob := b.value;
      Some(OutputChannelMetadata(
        ChannelName := blob["ChannelName"],
        DeviceName := blob["DeviceName"],
        StationType := blob["StationType"],
        MAC := blob["MAC"],
        LastTimestamp := ParseUIntField(blob, "LastTimestamp"),
        DeviceCreationTime := ParseUIntField(blob, "DeviceCreationTime"),
        DeviceCloudId := ParseIntField(blob, "DeviceCloudId"),
        DeviceLongitude := ParseDoubleField(blob, "DeviceLongitude", parseDouble),
        DeviceLatitude := ParseDoubleField(blob, "DeviceLatitude", parseDouble),
        TemperatureUnit := ParseUnit(blob, "TemperatureUnit", TemperatureUnits, Celsius),
        PressureUnit := ParseUnit(blob, "PressureUnit", PressureUnits, hPa),
        WindSpeedUnit := ParseUnit(blob, "WindSpeedUnit", WindSpeedUnits, mps),
        RainfallUnit := ParseUnit(blob, "RainfallUnit", RainfallUnits, mm),
        SolarIrradianceUnit := ParseUnit(blob, "SolarIrradianceUnit", SolarIrradianceUnits, Wpm),
        OutputChannel := DefaultOutputChannel))
  }

  predicate Present(blob: map<string, string>, key: string) {
    key in blob && blob[key] != ""
  }

  function ParseUIntField(blob: map<string, string>, key: string): UInt32 {
    if Present(blob, key) then OrZero(ParseUInt32(Some(blob[key])), 0) else 0
  }

  function ParseIntField(blob: map<string, string>, key: string): Int32 {
    if Present(blob, key) then OrZero(ParseInt32(Some(blob[key])), 0) else 0
  }

  function ParseDoubleField(blob: map<string, string>, key: string, parseDouble: string -> Option<real>): real {
    if Present(blob, key) then OrZero(parseDouble(blob[key]), 0.0) else 0.0
  }

  function ParseUnit(blob: map<string, string>, key: string, members: Members, initial: Int32): Int32 {
    if Present(blob, key) then OrZero(EnumTryParse(members, Some(blob[key])), 0) else initial
  }

  /** The blob-metadata form holds exactly the fourteen persisted fields. */
  lemma ConvertToBlobMetadataKeys(m: OutputChannelMetadata, formatDouble: real -> string)
    ensures ConvertToBlobMetadata(m, formatDouble).Keys == MetadataKeys
  {
  }

  /** The numeric fields of the blob-metadata form, as written. */
  lemma ConvertToBlobMetadataNumbers(m: OutputChannelMetadata, formatDouble: real -> string)
    ensures var r := ConvertToBlobMetadata(m, formatDouble);
      && "LastTimestamp" in r && r["LastTimestamp"] == NatToString(m.LastTimestamp)
      && "DeviceCreationTime" in r && r["DeviceCreationTime"] == NatToString(m.DeviceCreationTime)
      && "DeviceCloudId" in r && r["DeviceCloudId"] == IntToString(m.DeviceCloudId)
      && "DeviceLongitude" in r && r["DeviceLongitude"] == formatDouble(m.DeviceLongitude)
      && "DeviceLatitude" in r && r["DeviceLatitude"] == formatDouble(m.DeviceLatitude)
  {
  }

  /** The unit fields of the blob-metadata form, as written. */
  lemma ConvertToBlobMetadataUnits(m: OutputChannelMetadata, formatDouble: real -> string)
    ensures var r := ConvertToBlobMetadata(m, formatDouble);
      && "TemperatureUnit" in r && r["TemperatureUnit"] == EnumToString(TemperatureUnits, m.TemperatureUnit)
      && "PressureUnit" in r && r["PressureUnit"] == EnumToString(PressureUnits, m.PressureUnit)
      && "WindSpeedUnit" in r && r["WindSpeedUnit"] == EnumToString(WindSpeedUnits, m.WindSpeedUnit)
      && "RainfallUnit" in r && r["RainfallUnit"] == EnumToString(RainfallUnits, m.RainfallUnit)
      && "SolarIrradianceUnit" in r && r["SolarIrradianceUnit"] == EnumToString(SolarIrradianceUnits, m.SolarIrradianceUnit)
  {
  }

  /**
   * The corrected reader inverts `ConvertToBlobMetadata` on every metadata record with non-empty
   * names whose coordinates survive `double` formatting; only the output configuration, which
   * the blob form does not carry, comes back as the default.
   */
  lemma ParseBlobMetadataCorrectedRoundTrip(m: OutputChannelMetadata, formatDouble: real -> string,
                                            parseDouble: string -> Option<real>)
    requires m.ChannelName != "" && m.MAC != "" && m.DeviceName != "" && m.StationType != ""
    requires formatDouble(m.DeviceLongitude) != "" && parseDouble(formatDouble(m.DeviceLongitude)) == Some(m.DeviceLongitude)
    requires formatDouble(m.DeviceLatitude) != "" && parseDouble(formatDouble(m.DeviceLatitude)) == Some(m.DeviceLatitude)
    ensures ParseBlobMetadataCorrected(Some(ConvertToBlobMetadata(m, formatDouble)), parseDouble)
            == Some(m.(OutputChannel := DefaultOutputChannel))
  {
    var b := ConvertToBlobMetadata(m, formatDouble);
    ConvertToBlobMetadataNumbers(m, formatDouble);
    ConvertToBlobMetadataUnits(m, formatDouble);
    ParseCorrectedOfFields(b, m, parseDouble);
  }

  /** The corrected reader on any blob-metadata form that holds the fields of `m` as written. */
  lemma ParseCorrectedOfFields(b: map<string, string>, m: OutputChannelMetadata, parseDouble: string -> Option<real>)
    requires m.ChannelName != "" && m.MAC != "" && m.DeviceName != "" && m.StationType != ""
    requires "ChannelName" in b && b["ChannelName"] == m.ChannelName && "MAC" in b && b["MAC"] == m.MAC
    requires "DeviceName" in b && b["DeviceName"] == m.DeviceName && "StationType" in b && b["StationType"] == m.StationType
    requires "LastTimestamp" in b && b["LastTimestamp"] == NatToString(m.LastTimestamp)
    requires "DeviceCreationTime" in b && b["DeviceCreationTime"] == NatToString(m.DeviceCreationTime)
    requires "DeviceCloudId" in b && b["DeviceCloudId"] == IntToString(m.DeviceCloudId)
    requires "DeviceLongitude" in b && b["DeviceLongitude"] != "" && parseDouble(b["DeviceLongitude"]) == Some(m.DeviceLongitude)
    requires "DeviceLatitude" in b && b["DeviceLatitude"] != "" && parseDouble(b["DeviceLatitude"]) == Some(m.DeviceLatitude)
    requires "TemperatureUnit" in b && b["TemperatureUnit"] == EnumToString(TemperatureUnits, m.TemperatureUnit)
    requires "PressureUnit" in b && b["PressureUnit"] == EnumToString(PressureUnits, m.PressureUnit)
    requires "WindSpeedUnit" in b && b["WindSpeedUnit"] == EnumToString(WindSpeedUnits, m.WindSpeedUnit)
    requires "RainfallUnit" in b && b["RainfallUnit"] == EnumToString(RainfallUnits, m.RainfallUnit)
    requires "SolarIrradianceUnit" in b && b["SolarIrradianceUnit"] == EnumToString(SolarIrradianceUnits, m.SolarIrradianceUnit)
    ensures ParseBlobMetadataCorrected(Some(b), parseDouble) == Some(m.(OutputChannel := DefaultOutputChannel))
  {
    CorrectedNumbersOf(b, m, parseDouble);
    CorrectedUnitsOf(b, m);
    assert b != map[] by { assert "ChannelName" in b; }
  }

  /** The numeric fields written as text read back as the numbers. */
  lemma CorrectedNumbersOf(b: map<string, string>, m: OutputChannelMetadata, parseDouble: string -> Option<real>)
    requires "LastTimestamp" in b && b["LastTimestamp"] == NatToString(m.LastTimestamp)
    requires "DeviceCreationTime" in b && b["DeviceCreationTime"] == NatToString(m.DeviceCreationTime)
    requires "DeviceCloudId" in b && b["DeviceCloudId"] == IntToString(m.DeviceCloudId)
    requires "DeviceLongitude" in b && b["DeviceLongitude"] != "" && parseDouble(b["DeviceLongitude"]) == Some(m.DeviceLongitude)
    requires "DeviceLatitude" in b && b["DeviceLatitude"] != "" && parseDouble(b["DeviceLatitude"]) == Some(m.DeviceLatitude)
    ensures ParseUIntField(b, "LastTimestamp") == m.LastTimestamp
    ensures ParseUIntField(b, "DeviceCreationTime") == m.DeviceCreationTime
    ensures ParseIntField(b, "DeviceCloudId") == m.DeviceCloudId
    ensures ParseDoubleField(b, "DeviceLongitude", parseDouble) == m.DeviceLongitude
    ensures ParseDoubleField(b, "DeviceLatitude", parseDouble) == m.DeviceLatitude
  {
    ParseUInt32OfNatToString(m.LastTimestamp);
    ParseUInt32OfNatToString(m.DeviceCreationTime);
    ParseInt32OfIntToString(m.DeviceCloudId);
  }

  /** The unit fields written with `ToString` read back as the units. */
  lemma CorrectedUnitsOf(b: map<string, string>, m: OutputChannelMetadata)
    requires "TemperatureUnit" in b && b["TemperatureUnit"] == EnumToString(TemperatureUnits, m.TemperatureUnit)
    requires "PressureUnit" in b && b["PressureUnit"] == EnumToString(PressureUnits, m.PressureUnit)
    requires "WindSpeedUnit" in b && b["WindSpeedUnit"] == EnumToString(WindSpeedUnits, m.WindSpeedUnit)
    requires "RainfallUnit" in b && b["RainfallUnit"] == EnumToString(RainfallUnits, m.RainfallUnit)
    requires "SolarIrradianceUnit" in b && b["SolarIrradianceUnit"] == EnumToString(SolarIrradianceUnits, m.SolarIrradianceUnit)
    ensures ParseUnit(b, "TemperatureUnit", TemperatureUnits, Celsius) == m.TemperatureUnit
    ensures ParseUnit(b, "PressureUnit", PressureUnits, hPa) == m.PressureUnit
    ensures ParseUnit(b, "WindSpeedUnit", WindSpeedUnits, mps) == m.WindSpeedUnit
    ensures ParseUnit(b, "RainfallUnit", RainfallUnits, mm) == m.RainfallUnit
    ensures ParseUnit(b, "SolarIrradianceUnit", SolarIrradianceUnits, Wpm) == m.SolarIrradianceUnit
  {
    UnitEnumerationsWellFormed();
    ParseUnitOf(b, "TemperatureUnit", TemperatureUnits, Celsius, m.TemperatureUnit);
    ParseUnitOf(b, "PressureUnit", PressureUnits, hPa, m.PressureUnit);
    ParseUnitOf(b, "WindSpeedUnit", WindSpeedUnits, mps, m.WindSpeedUnit);
    ParseUnitOf(b, "RainfallUnit", RainfallUnits, mm, m.RainfallUnit);
    ParseUnitOf(b, "SolarIrradianceUnit", SolarIrradianceUnits, Wpm, m.SolarIrradianceUnit);
  }

  /** A unit written with `ToString` under `key` reads back as itself. */
  lemma ParseUnitOf(blob: map<string, string>, key: string, members: Members, initial: Int32, v: Int32)
    requires Units.WellFormed(members) && key in blob && blob[key] == EnumToString(members, v)
    ensures ParseUnit(blob, key, members, initial) == v
  {
    EnumRoundTrip(members, v);
  }

  // ---------------------------------------------------------------------------------------------
  // The row buffer grown by `AddData`

  /** A buffered column: one slot per row, `None` for a slot never written. */
  type Slots = seq<Option<string>>

  /** The buffered data columns, keyed `<sensor>_<unit>` in the order they were added. */
  type Columns = Assoc<Slots>

  /** The exceptions `AddData` can raise. */
  datatype AddError =
    | NullTimestamp           // NullReferenceException "Null timestamp in dataset"
    | TimestampFormat         // InvalidDataException "Timestamp format error"
    | IndexOutOfRange         // a sensor keeps more points than the batch has rows
    | DuplicateColumn(name: string)  // Dictionary.Add of a column name already present
    | MissingColumn(name: string)    // InvalidDataException "Newly added values do not contain column named ..."
    | NullSlot                // UInt32.Parse of an unwritten slot (ArgumentNullException)
    | NoRows                  // Last() of an empty batch (InvalidOperationException)

  /** The fields of an output channel that `AddData` reads and writes. */
  datatype Buffer = Buffer(timeRows: Option<Slots>, dataColumns: Option<Columns>,
                           FirstTimeStamp: UInt32, LastTimeStamp: UInt32)

  /** `n` unwritten slots, as in a fresh `string[n]`. */
  function Nones(n: nat): (r: Slots)
    ensures |r| == n && forall i :: 0 <= i < n ==> r[i].None?
  {
    seq(n, _ => None)
  }

  /** A point's timestamp as `AddData` checks it: not blank, then a decimal `uint`. */
  function PointStamp(p: Point): Result<UInt32, AddError> {
    if IsNullOrWhiteSpace(p.0) then Err(NullTimestamp)
    else match ParseUInt32(p.0)
      case None => Err(TimestampFormat)
      case Some(ts) => Ok(ts)
  }

  /**
   * The inner loop of `AddData` for one sensor, from point `j` with `i` rows written: a point at
   * or before `last` is skipped; any other writes its timestamp into row `i` and its value (or
   * "") into slot `i` of the sensor's column.
   */
  function FillFrom(points: seq<Point>, j: nat, i: nat, rows: Slots, col: Slots, last: nat)
    : Result<(Slots, Slots), AddError>
    requires i <= j <= |points| == |col|
    decreases |points| - j
  {
    if j == |points| then Ok((rows, col))
    else
      match PointStamp(points[j])
      case Err(e) => Err(e)
      case Ok(ts) =>
        if ts <= last then FillFrom(points, j + 1, i, rows, col, last)
        else if i >= |rows| then Err(IndexOutOfRange)
        else FillFrom(points, j + 1, i + 1, rows[i := points[j].0], col[i := Some(OrEmpty(points[j].1))], last)
  }

  /** What `FillFrom` does, stated without its loop: every timestamp is valid ... */
  predicate AllStampsValid(points: seq<Point>) {
    forall j :: 0 <= j < |points| ==> PointStamp(points[j]).Ok?
  }

  /** ... the points strictly after `last` are kept, in order ... */
  function Kept(points: seq<Point>, last: nat): (r: seq<Point>)
    requires AllStampsValid(points)
    ensures |r| <= |points|
  {
    if points == [] then []
    else
      var rest := Kept(points[1..], last);
      if PointStamp(points[0]).value <= last then rest else [points[0]] + rest
  }

  /** ... and they overwrite the leading slots. */
  function Overlay(slots: Slots, xs: Slots): (r: Slots)
    requires |xs| <= |slots|
    ensures |r| == |slots|
  {
    xs + slots[|xs|..]
  }

  function StampsOf(points: seq<Point>): (r: Slots)
    ensures |r| == |points| && forall k :: 0 <= k < |points| ==> r[k] == points[k].0
  {
    seq(|points|, k requires 0 <= k < |points| => points[k].0)
  }

  function ValuesOf(points: seq<Point>): (r: Slots)
    ensures |r| == |points| && forall k :: 0 <= k < |points| ==> r[k] == Some(OrEmpty(points[k].1))
  {
    seq(|points|, k requires 0 <= k < |points| => Some(OrEmpty(points[k].1)))
  }

  lemma KeptCons(points: seq<Point>, last: nat)
    requires points != [] && AllStampsValid(points)
    ensures AllStampsValid(points[1..])
    ensures Kept(points, last) == if PointStamp(points[0]).value <= last then Kept(points[1..], last)
                                  else [points[0]] + Kept(points[1..], last)
  {
    assert forall j :: 0 <= j < |points| - 1 ==> points[1..][j] == points[j + 1];
  }

  lemma InvalidSuffix(ps: seq<Point>)
    requires ps != [] && PointStamp(ps[0]).Ok? && !AllStampsValid(ps)
    ensures !AllStampsValid(ps[1..])
  {
    var q :| 0 <= q < |ps| && PointStamp(ps[q]).Err?;
    assert ps[1..][q - 1] == ps[q];
  }

  /** The loop of `AddData` for one sensor succeeds exactly when every timestamp is valid and the kept points fit. */
  lemma {:induction false} FillFromOk(points: seq<Point>, j: nat, i: nat, rows: Slots, col: Slots, last: nat)
    requires i <= j <= |points| == |col| && i <= |rows|
    ensures FillFrom(points, j, i, rows, col, last).Ok?
            <==> AllStampsValid(points[j..]) && i + |Kept(points[j..], last)| <= |rows|
    decreases |points| - j
  {
    var ps := points[j..];
    if j < |points| {
      assert ps[0] == points[j] && ps[1..] == points[j + 1..];
      var st := PointStamp(points[j]);
      if st.Err? {
        assert !AllStampsValid(ps);
      } else {
        if AllStampsValid(ps) { KeptCons(ps, last); } else { InvalidSuffix(ps); }
        if st.value <= last {
          FillFromOk(points, j + 1, i, rows, col, last);
        } else if i < |rows| {
          FillFromOk(points, j + 1, i + 1, rows[i := points[j].0], col[i := Some(OrEmpty(points[j].1))], last);
        }
      }
    }
  }

  /** Writing `x` into slot `i` and then `xs` after it is writing `[x] + xs` from slot `i`. */
  lemma WriteThenOverlay(slots: Slots, i: nat, x: Option<string>, xs: Slots)
    requires i + 1 + |xs| <= |slots|
    ensures var s1 := slots[i := x];
      s1[..i + 1] + xs + s1[i + 1 + |xs|..] == slots[..i] + ([x] + xs) + slots[i + 1 + |xs|..]
  {
    var s1 := slots[i := x];
    assert s1[..i + 1] == slots[..i] + [x];
    assert s1[i + 1 + |xs|..] == slots[i + 1 + |xs|..];
  }

  /** One point of the loop: skipped at or before `last`, otherwise written into slot `i`. */
  lemma FillFromStep(points: seq<Point>, j: nat, i: nat, rows: Slots, col: Slots, last: nat)
    requires i <= j < |points| == |col| && PointStamp(points[j]).Ok?
    ensures var ts := PointStamp(points[j]).value;
      FillFrom(points, j, i, rows, col, last)
      == if ts <= last then FillFrom(points, j + 1, i, rows, col, last)
         else if i >= |rows| then Err(IndexOutOfRange)
         else FillFrom(points, j + 1, i + 1, rows[i := points[j].0], col[i := Some(OrEmpty(points[j].1))], last)
  {
  }

  /**
   * `r` is `rows` and `col` with the timestamps and the values of the points `k` written over
   * their slots from `i` on.
   */
  ghost predicate FilledAs(r: (Slots, Slots), rows: Slots, col: Slots, i: nat, k: seq<Point>) {
    && i + |k| <= |rows| && i + |k| <= |col|
    && r == (rows[..i] + StampsOf(k) + rows[i + |k|..], col[..i] + ValuesOf(k) + col[i + |k|..])
  }

  /** Writing point `p` into slot `i` and the points `k1` after it writes `[p] + k1` from `i`. */
  lemma FilledAsStep(r: (Slots, Slots), rows: Slots, col: Slots, i: nat, p: Point, k1: seq<Point>)
    requires i < |rows| && i < |col|
    requires FilledAs(r, rows[i := p.0], col[i := Some(OrEmpty(p.1))], i + 1, k1)
    ensures FilledAs(r, rows, col, i, [p] + k1)
  {
    var v := Some(OrEmpty(p.1));
    assert StampsOf([p] + k1) == [p.0] + StampsOf(k1);
    assert ValuesOf([p] + k1) == [v] + ValuesOf(k1);
    WriteThenOverlay(rows, i, p.0, StampsOf(k1));
    WriteThenOverlay(col, i, v, ValuesOf(k1));
  }

  /** With nothing kept, nothing is written. */
  lemma FilledAsNothing(rows: Slots, col: Slots, i: nat)
    requires i <= |rows| && i <= |col|
    ensures FilledAs((rows, col), rows, col, i, [])
  {
    assert rows[..i] + [] + rows[i..] == rows;
    assert col[..i] + [] + col[i..] == col;
  }

  /** In that case it overlays the kept timestamps on the rows and the kept values on the column. */
  lemma {:induction false} FillFromValue(points: seq<Point>, j: nat, i: nat, rows: Slots, col: Slots, last: nat)
    requires i <= j <= |points| == |col| && i <= |rows|
    requires FillFrom(points, j, i, rows, col, last).Ok?
    ensures AllStampsValid(points[j..])
    ensures FilledAs(FillFrom(points, j, i, rows, col, last).value, rows, col, i, Kept(points[j..], last))
    decreases |points| - j
  {
    FillFromOk(points, j, i, rows, col, last);
    var ps := points[j..];
    if j == |points| {
      FilledAsNothing(rows, col, i);
    } else {
      assert ps[0] == points[j] && ps[1..] == points[j + 1..];
      KeptCons(ps, last);
      var ts := PointStamp(points[j]).value;
      FillFromStep(points, j, i, rows, col, last);
      if ts <= last {
        FillFromValue(points, j + 1, i, rows, col, last);
      } else {
        var rows1 := rows[i := points[j].0];
        var col1 := col[i := Some(OrEmpty(points[j].1))];
        FillFromValue(points, j + 1, i + 1, rows1, col1, last);
        FilledAsStep(FillFrom(points, j + 1, i + 1, rows1, col1, last).value, rows, col, i, points[j], Kept(ps[1..], last));
      }
    }
  }

  /** The column a sensor's series goes to: `string.Format("{0}_{1}", key, unit)`. */
  function ColumnName(key: string, series: DataSeries): string {
    key + "_" + OrEmpty(series.Unit)
  }

  /** A sensor `AddData` skips: no series, or an empty one. */
  predicate NoPoints(series: DataSeries) {
    series.Data.None? || |series.Data.value| == 0
  }

  /**
   * The sensor loop of `AddData` from sensor `k`: an empty sensor is skipped; any other adds its
   * column, and, since `firstDataColumn` is never cleared, runs the first sensor's branch, which
   * rewrites the time rows from slot 0.
   */
  function BatchFrom(sensors: Sensors, k: nat, rows: Slots, cols: Columns, last: nat)
    : Result<(Slots, Columns), AddError>
    decreases |sensors| - k
  {
    if k >= |sensors| then Ok((rows, cols))
    else
      var (key, series) := sensors[k];
      if NoPoints(series) then BatchFrom(sensors, k + 1, rows, cols, last)
      else
        var name := ColumnName(key, series);
        var points := series.Data.value;
        if name in Keys(cols) then Err(DuplicateColumn(name))
        else
          match FillFrom(points, 0, 0, rows, Nones(|points|), last)
          case Err(e) => Err(e)
          case Ok(filled) => BatchFrom(sensors, k + 1, filled.0, cols + [(name, filled.1)], last)
  }

  /** The batch's row count: the length of the first sensor's series, or 0 when it has none. */
  function BatchLength(sensors: Sensors): nat
    requires sensors != []
  {
    var first := sensors[0].1;
    if first.Data.Some? then |first.Data.value| else 0
  }

  /** The new rows and columns `AddData` builds from a non-empty channel before touching the buffer. */
  function Batch(sensors: Sensors, last: nat): Result<(Slots, Columns), AddError>
    requires sensors != []
  {
    BatchFrom(sensors, 0, Nones(BatchLength(sensors)), [], last)
  }

  /** `UInt32.Parse` of a slot. */
  function ParseSlot(slot: Option<string>): Result<UInt32, AddError> {
    if slot.None? then Err(NullSlot)
    else match ParseUInt32(slot)
      case None => Err(TimestampFormat)
      case Some(n) => Ok(n)
  }

  /**
   * The column merge of a later `AddData` call, from buffered column `k`: every buffered column must be in
   * the batch and gets the batch's slots appended; a column only in the batch is dropped.
   */
  function MergeFrom(prior: Columns, cur: Columns, k: nat, acc: Columns): Result<Columns, AddError>
    requires k <= |prior|
    decreases |prior| - k
  {
    if k == |prior| then Ok(acc)
    else
      var (key, slots) := prior[k];
      match Lookup(cur, key)
      case None => Err(MissingColumn(key))
      case Some(added) => MergeFrom(prior, cur, k + 1, acc + [(key, slots + added)])
  }

  function Merge(prior: Columns, cur: Columns): Result<Columns, AddError> {
    MergeFrom(prior, cur, 0, [])
  }

  /** The first call: the batch becomes the buffer, then First/Last come from its first and last slots. */
  function AddFirst(b: Buffer, rows: Slots, cols: Columns): (Buffer, Option<AddError>) {
    var b1 := b.(timeRows := Some(rows), dataColumns := Some(cols));
    if rows == [] then (b1, None)
    else
      match ParseSlot(rows[0])
      case Err(e) => (b1, Some(e))
      case Ok(first) =>
        var b2 := b1.(FirstTimeStamp := first);
        match ParseSlot(rows[|rows| - 1])
        case Err(e) => (b2, Some(e))
        case Ok(lastTs) => (b2.(LastTimeStamp := lastTs), None)
  }

  /** A later call: the rows are appended first, then the columns merged, then Last is parsed. */
  function AddLater(b: Buffer, rows: Slots, cols: Columns): (Buffer, Option<AddError>)
    requires b.timeRows.Some?
  {
    var b1 := b.(timeRows := Some(b.timeRows.value + rows));
    match (if b.dataColumns.Some? then Merge(b.dataColumns.value, cols) else Ok([]))
    case Err(e) => (b1, Some(e))
    case Ok(m) =>
      var b2 := if b.dataColumns.Some? then b1.(dataColumns := Some(m)) else b1;
      if rows == [] then (b2, Some(NoRows))
      else
        match ParseSlot(rows[|rows| - 1])
        case Err(e) => (b2, Some(e))
        case Ok(lastTs) => (b2.(LastTimeStamp := lastTs), None)
  }

  /**
   * `AddData(channel)` on a buffer: the new buffer and the exception raised, if any. The buffer
   * keeps whatever the source had assigned before the exception.
   */
  function AddDataSpec(b: Buffer, channel: Option<Sensors>): (Buffer, Option<AddError>) {
    if channel.None? || channel.value == [] then (b, None)
    else
      match Batch(channel.value, b.LastTimeStamp)
      case Err(e) => (b, Some(e))
      case Ok(batch) =>
        if b.timeRows.None? then AddFirst(b, batch.0, batch.1) else AddLater(b, batch.0, batch.1)
  }

  /**
   * The merge succeeds exactly when every buffered column is in the batch; it then keeps the
   * buffered columns, in their order, each followed by the batch's slots for it.
   */
  lemma {:induction false} MergeFromMeaning(prior: Columns, cur: Columns, k: nat, acc: Columns)
    requires k <= |prior|
    ensures var r := MergeFrom(prior, cur, k, acc);
      && (r.Ok? <==> forall q :: k <= q < |prior| ==> prior[q].0 in Keys(cur))
      && (r.Ok? ==>
           && |r.value| == |acc| + |prior| - k
           && r.value[..|acc|] == acc
           && forall q :: k <= q < |prior| ==>
                r.value[|acc| + q - k] == (prior[q].0, prior[q].1 + Lookup(cur, prior[q].0).value))
    decreases |prior| - k
  {
    if k < |prior| {
      var (key, slots) := prior[k];
      match Lookup(cur, key)
      case None =>
      case Some(added) =>
        var acc' := acc + [(key, slots + added)];
        MergeFromMeaning(prior, cur, k + 1, acc');
        var r := MergeFrom(prior, cur, k + 1, acc');
        if r.Ok? {
          assert r.value[..|acc|] == r.value[..|acc'|][..|acc|];
        }
    }
  }

  /** The merged columns: the buffered keys in order, each with the batch's slots appended. */
  lemma MergeMeaning(prior: Columns, cur: Columns)
    ensures Merge(prior, cur).Ok? <==> forall q :: 0 <= q < |prior| ==> prior[q].0 in Keys(cur)
    ensures Merge(prior, cur).Ok? ==>
      && Keys(Merge(prior, cur).value) == Keys(prior)
      && forall q :: 0 <= q < |prior| ==>
           Merge(prior, cur).value[q].1 == prior[q].1 + Lookup(cur, prior[q].0).value
  {
    MergeFromMeaning(prior, cur, 0, []);
    var r := Merge(prior, cur);
    if r.Ok? {
      var m := r.value;
      assert |m| == |prior|;
      forall q | 0 <= q < |prior|
        ensures m[q] == (prior[q].0, prior[q].1 + Lookup(cur, prior[q].0).value)
      {
        assert m[0 + q - 0] == (prior[q].0, prior[q].1 + Lookup(cur, prior[q].0).value);
      }
      assert Keys(m) == Keys(prior);
    }
  }

  /** A column that only the batch has is dropped by the merge. */
  lemma MergeDropsNewColumns(prior: Columns, cur: Columns, name: string)
    requires Merge(prior, cur).Ok? && name !in Keys(prior)
    ensures name !in Keys(Merge(prior, cur).value)
  {
    MergeMeaning(prior, cur);
  }

  /**
   * `AddData` never rewrites buffered rows: once the buffer has rows, they stay a prefix of the
   * buffer, and FirstTimeStamp stays as the first call set it.
   */
  lemma AddDataKeepsPrefix(b: Buffer, channel: Option<Sensors>)
    requires b.timeRows.Some?
    ensures var r := AddDataSpec(b, channel).0;
      && r.timeRows.Some? && b.timeRows.value <= r.timeRows.value
      && r.FirstTimeStamp == b.FirstTimeStamp
  {
  }

  /** A null or sensor-less channel leaves the buffer as it was and raises nothing. */
  lemma AddDataIgnoresEmptyChannel(b: Buffer, channel: Option<Sensors>)
    requires channel.None? || channel.value == []
    ensures AddDataSpec(b, channel) == (b, None)
  {
  }

  /**
   * A later call that raises nothing appends the batch's rows and, to every buffered column,
   * that column's batch slots; Last becomes the timestamp of the final new row.
   */
  lemma AddDataLaterCall(b: Buffer, sensors: Sensors)
    requires b.timeRows.Some? && b.dataColumns.Some? && sensors != []
    requires Batch(sensors, b.LastTimeStamp).Ok?
    requires AddDataSpec(b, Some(sensors)).1.None?
    ensures var (rows, cols) := Batch(sensors, b.LastTimeStamp).value;
      var r := AddDataSpec(b, Some(sensors)).0;
      && rows != []
      && r.timeRows == Some(b.timeRows.value + rows)
      && r.dataColumns.Some? && Keys(r.dataColumns.value) == Keys(b.dataColumns.value)
      && (forall q :: 0 <= q < |b.dataColumns.value| ==>
            b.dataColumns.value[q].0 in Keys(cols) &&
            r.dataColumns.value[q].1 == b.dataColumns.value[q].1 + Lookup(cols, b.dataColumns.value[q].0).value)
      && ParseSlot(rows[|rows| - 1]) == Ok(r.LastTimeStamp)
  {
    var (rows, cols) := Batch(sensors, b.LastTimeStamp).value;
    MergeMeaning(b.dataColumns.value, cols);
  }

  /** A later call fails, with the rows already appended, when the batch lacks a buffered column. */
  lemma AddDataMissingColumn(b: Buffer, sensors: Sensors, q: nat)
    requires b.timeRows.Some? && b.dataColumns.Some? && sensors != []
    requires Batch(sensors, b.LastTimeStamp).Ok?
    requires q < |b.dataColumns.value| && b.dataColumns.value[q].0 !in Keys(Batch(sensors, b.LastTimeStamp).value.1)
    ensures var r := AddDataSpec(b, Some(sensors));
      && r.1.Some? && r.1.value.MissingColumn?
      && r.0 == b.(timeRows := Some(b.timeRows.value + Batch(sensors, b.LastTimeStamp).value.0))
  {
    MergeMeaning(b.dataColumns.value, Batch(sensors, b.LastTimeStamp).value.1);
    var m := Merge(b.dataColumns.value, Batch(sensors, b.LastTimeStamp).value.1);
    if m.Ok? {
      assert false;
    }
    MergeFromErrorKind(b.dataColumns.value, Batch(sensors, b.LastTimeStamp).value.1, 0, []);
  }

  lemma {:induction false} MergeFromErrorKind(prior: Columns, cur: Columns, k: nat, acc: Columns)
    requires k <= |prior|
    ensures MergeFrom(prior, cur, k, acc).Err? ==> MergeFrom(prior, cur, k, acc).error.MissingColumn?
    decreases |prior| - k
  {
    if k < |prior| {
      var (key, slots) := prior[k];
      match Lookup(cur, key)
      case None =>
      case Some(added) =>
        MergeFromErrorKind(prior, cur, k + 1, acc + [(key, slots + added)]);
    }
  }

  /** The column names of the sensors from `k` on that have points, in order. */
  function ColumnNamesFrom(sensors: Sensors, k: nat): seq<string>
    decreases |sensors| - k
  {
    if k >= |sensors| then []
    else if NoPoints(sensors[k].1) then ColumnNamesFrom(sensors, k + 1)
    else [ColumnName(sensors[k].0, sensors[k].1)] + ColumnNamesFrom(sensors, k + 1)
  }

  /** A column added under a new name keeps the names distinct. */
  lemma AddNewKey(cols: Columns, name: string, slots: Slots)
    requires DistinctKeys(cols) && name !in Keys(cols)
    ensures Keys(cols + [(name, slots)]) == Keys(cols) + [name] && DistinctKeys(cols + [(name, slots)])
  {
    var cols' := cols + [(name, slots)];
    assert Keys(cols') == Keys(cols) + [name];
    forall i, j | 0 <= i < j < |cols'| ensures cols'[i].0 != cols'[j].0 {
      if j == |cols| {
        assert cols'[i].0 == Keys(cols)[i];
      }
    }
  }

  /** A sensor with points whose loop succeeds adds its column and the loop goes on with the next. */
  lemma BatchFromStep(sensors: Sensors, k: nat, rows: Slots, cols: Columns, last: nat)
    requires k < |sensors| && !NoPoints(sensors[k].1)
    requires ColumnName(sensors[k].0, sensors[k].1) !in Keys(cols)
    requires var points := sensors[k].1.Data.value;
      FillFrom(points, 0, 0, rows, Nones(|points|), last).Ok?
    ensures var points := sensors[k].1.Data.value;
      var f := FillFrom(points, 0, 0, rows, Nones(|points|), last).value;
      BatchFrom(sensors, k, rows, cols, last)
      == BatchFrom(sensors, k + 1, f.0, cols + [(ColumnName(sensors[k].0, sensors[k].1), f.1)], last)
  {
  }

  /**
   * A batch that builds has one row per point of the first sensor's series and one column per
   * sensor with points, named `<sensor>_<unit>` in sensor order, no two alike.
   */
  lemma {:induction false} BatchFromShape(sensors: Sensors, k: nat, rows: Slots, cols: Columns, last: nat)
    requires DistinctKeys(cols)
    ensures var r := BatchFrom(sensors, k, rows, cols, last);
      r.Ok? ==> && |r.value.0| == |rows|
                && Keys(r.value.1) == Keys(cols) + ColumnNamesFrom(sensors, k)
                && DistinctKeys(r.value.1)
    decreases |sensors| - k
  {
    if k < |sensors| {
      var (key, series) := sensors[k];
      if NoPoints(series) {
        BatchFromShape(sensors, k + 1, rows, cols, last);
      } else {
        var name := ColumnName(key, series);
        var points := series.Data.value;
        if name !in Keys(cols) {
          var f := FillFrom(points, 0, 0, rows, Nones(|points|), last);
          if f.Ok? {
            FillFromValue(points, 0, 0, rows, Nones(|points|), last);
            var cols' := cols + [(name, f.value.1)];
            AddNewKey(cols, name, f.value.1);
            BatchFromStep(sensors, k, rows, cols, last);
            BatchFromShape(sensors, k + 1, f.value.0, cols', last);
          }
        }
      }
    }
  }

  lemma BatchShape(sensors: Sensors, last: nat)
    requires sensors != []
    ensures var r := Batch(sensors, last);
      r.Ok? ==> && |r.value.0| == BatchLength(sensors)
                && Keys(r.value.1) == ColumnNamesFrom(sensors, 0)
                && DistinctKeys(r.value.1)
  {
    BatchFromShape(sensors, 0, Nones(BatchLength(sensors)), [], last);
  }

  /**
   * The alignment check of `AddData` cannot be reached: two sensors whose timestamps disagree
   * build a batch, whose rows hold the second sensor's timestamp over the first's.
   */
  lemma MisalignedSensorsAccepted()
    ensures var sensors := [("a", DataSeries(Some("C"), Some([(Some("1"), Some("x")), (Some("2"), Some("y"))]))),
                            ("b", DataSeries(Some("C"), Some([(Some("3"), Some("z"))])))];
      Batch(sensors, 0) == Ok(([Some("3"), Some("2")],
                               [("a_C", [Some("x"), Some("y")]), ("b_C", [Some("z")])]))
  {
    var pa := [(Some("1"), Some("x")), (Some("2"), Some("y"))];
    var pb := [(Some("3"), Some("z"))];
    var sensors := [("a", DataSeries(Some("C"), Some(pa))), ("b", DataSeries(Some("C"), Some(pb)))];
    var n2 := Nones(2);
    assert BatchLength(sensors) == 2;
    MisalignedFirstFill();
    MisalignedSecondFill();
    assert ColumnName("a", sensors[0].1) == "a_C";
    assert ColumnName("b", sensors[1].1) == "b_C";
    var c1: Columns := [("a_C", [Some("x"), Some("y")])];
    assert [] + c1 == c1;
    assert Keys(c1) == ["a_C"];
    BatchFromStep(sensors, 0, n2, [], 0);
    BatchFromStep(sensors, 1, [Some("1"), Some("2")], c1, 0);
    assert c1 + [("b_C", [Some("z")])] == [("a_C", [Some("x"), Some("y")]), ("b_C", [Some("z")])];
  }

  /** The first sensor of that example fills both rows. */
  lemma MisalignedFirstFill()
    ensures FillFrom([(Some("1"), Some("x")), (Some("2"), Some("y"))], 0, 0, Nones(2), Nones(2), 0)
         == Ok(([Some("1"), Some("2")], [Some("x"), Some("y")]))
  {
    var pa := [(Some("1"), Some("x")), (Some("2"), Some("y"))];
    DigitPointStamp('1', Some("x"));
    DigitPointStamp('2', Some("y"));
    assert pa[0] == (Some(['1']), Some("x")) && pa[1] == (Some(['2']), Some("y"));
    var n2 := Nones(2);
    assert n2 == [None, None];
    FillFromStep(pa, 0, 0, n2, n2, 0);
    assert n2[0 := Some("1")] == [Some("1"), None];
    assert n2[0 := Some("x")] == [Some("x"), None];
    FillFromStep(pa, 1, 1, [Some("1"), None], [Some("x"), None], 0);
    assert [Some("1"), None][1 := Some("2")] == [Some("1"), Some("2")];
    assert [Some("x"), None][1 := Some("y")] == [Some("x"), Some("y")];
  }

  /** The second sensor of that example overwrites the first row. */
  lemma MisalignedSecondFill()
    ensures FillFrom([(Some("3"), Some("z"))], 0, 0, [Some("1"), Some("2")], Nones(1), 0)
         == Ok(([Some("3"), Some("2")], [Some("z")]))
  {
    var pb := [(Some("3"), Some("z"))];
    DigitPointStamp('3', Some("z"));
    assert pb[0] == (Some(['3']), Some("z"));
    var n1 := Nones(1);
    assert n1 == [None];
    FillFromStep(pb, 0, 0, [Some("1"), Some("2")], n1, 0);
    assert [Some("1"), Some("2")][0 := Some("3")] == [Some("3"), Some("2")];
    assert n1[0 := Some("z")] == [Some("z")];
  }

  /** A point stamped with one digit has that digit's value as its timestamp. */
  lemma DigitPointStamp(c: char, v: Option<string>)
    requires IsDigit(c)
    ensures PointStamp((Some([c]), v)) == Ok(DigitValue(c))
  {
    SingleDigitStamp(c);
    assert [c][0] == c && !IsWhiteSpace(c);
  }

  lemma SingleDigitStamp(c: char)
    requires IsDigit(c)
    ensures ParseUInt32(Some([c])) == Some(DigitValue(c))
  {
    assert [c][..0] == [];
    assert AllDigits([c]);
    assert DigitsValue([c]) == DigitValue(c);
    assert DigitValue(c) <= UInt32Max;
  }

  /** A series whose every point is valid and at or before `last`. */
  predicate SeriesStale(series: DataSeries, last: nat) {
    series.Data.Some? ==>
      && AllStampsValid(series.Data.value)
      && forall j :: 0 <= j < |series.Data.value| ==> PointStamp(series.Data.value[j]).value <= last
  }

  lemma {:induction false} KeptOfStale(points: seq<Point>, last: nat)
    requires AllStampsValid(points)
    requires forall j :: 0 <= j < |points| ==> PointStamp(points[j]).value <= last
    ensures Kept(points, last) == []
    decreases |points|
  {
    if points != [] {
      KeptCons(points, last);
      assert forall j :: 0 <= j < |points| - 1 ==> points[1..][j] == points[j + 1];
      KeptOfStale(points[1..], last);
    }
  }

  lemma {:induction false} BatchFromStale(sensors: Sensors, k: nat, rows: Slots, cols: Columns, last: nat)
    requires forall q :: 0 <= q < |sensors| ==> SeriesStale(sensors[q].1, last)
    ensures var r := BatchFrom(sensors, k, rows, cols, last);
      r.Ok? ==> r.value.0 == rows
    decreases |sensors| - k
  {
    if k < |sensors| {
      var (key, series) := sensors[k];
      if NoPoints(series) {
        BatchFromStale(sensors, k + 1, rows, cols, last);
      } else {
        var name := ColumnName(key, series);
        var points := series.Data.value;
        assert SeriesStale(sensors[k].1, last);
        KeptOfStale(points, last);
        FillFromOk(points, 0, 0, rows, Nones(|points|), last);
        FillFromValue(points, 0, 0, rows, Nones(|points|), last);
        var f := FillFrom(points, 0, 0, rows, Nones(|points|), last);
        assert f.value.0 == rows by {
          assert points[0..] == points;
          assert rows[..0] + [] + rows[0..] == rows;
        }
        if name !in Keys(cols) {
          BatchFromStale(sensors, k + 1, rows, cols + [(name, f.value.1)], last);
        }
      }
    }
  }

  /**
   * The skip filter compares with the running LastTimeStamp: a later batch of sensors whose every
   * point is at or before it still appends one unwritten row per slot of the first series, and
   * then fails (parsing a null slot, or a missing column) with LastTimeStamp unchanged.
   */
  lemma StaleBatchAppendsNullRows(b: Buffer, sensors: Sensors)
    requires b.timeRows.Some? && sensors != [] && BatchLength(sensors) > 0
    requires forall q :: 0 <= q < |sensors| ==> SeriesStale(sensors[q].1, b.LastTimeStamp)
    requires Batch(sensors, b.LastTimeStamp).Ok?
    ensures var r := AddDataSpec(b, Some(sensors));
      && r.0.timeRows == Some(b.timeRows.value + Nones(BatchLength(sensors)))
      && r.0.LastTimeStamp == b.LastTimeStamp
      && r.1.Some? && (r.1.value.NullSlot? || r.1.value.MissingColumn?)
  {
    BatchFromStale(sensors, 0, Nones(BatchLength(sensors)), [], b.LastTimeStamp);
    if b.dataColumns.Some? {
      MergeFromErrorKind(b.dataColumns.value, Batch(sensors, b.LastTimeStamp).value.1, 0, []);
    }
  }

  // ---------------------------------------------------------------------------------------------
  // The loops of `AddData`, each proved to compute its specification above

  /** The first-sensor branch of `AddData` for one sensor: fills `rows` in place and returns the column. */
  method FillColumn(points: seq<Point>, rows: array<Option<string>>, last: nat) returns (r: Result<Slots, AddError>)
    modifies rows
    ensures var f := FillFrom(points, 0, 0, old(rows[..]), Nones(|points|), last);
      && (r.Ok? <==> f.Ok?)
      && (f.Err? ==> r == Err(f.error))
      && (f.Ok? ==> rows[..] == f.value.0 && r.value == f.value.1)
  {
    var col := new Option<string>[|points|](_ => None);
    assert col[..] == Nones(|points|);
    ghost var rows0 := rows[..];
    var i := 0;
    var j := 0;
    while j < |points|
      invariant i <= j <= |points| == col.Length && i <= rows.Length
      invariant FillFrom(points, j, i, rows[..], col[..], last) == FillFrom(points, 0, 0, rows0, Nones(|points|), last)
      decreases |points| - j
    {
      var (t, v) := points[j];
      if IsNullOrWhiteSpace(t) {
        return Err(NullTimestamp);
      }
      var ts := ParseUInt32(t);
      if ts.None? {
        return Err(TimestampFormat);
      }
      if ts.value <= last {
        j := j + 1;
      } else {
        if i >= rows.Length {
          return Err(IndexOutOfRange);
        }
        rows[i] := t;
        col[i] := Some(OrEmpty(v));
        i := i + 1;
        j := j + 1;
      }
    }
    return Ok(col[..]);
  }

  /** The sensor loop of `AddData`: the batch of new rows and columns, or the exception. */
  method BuildBatch(sensors: Sensors, last: nat) returns (r: Result<(Slots, Columns), AddError>)
    requires sensors != []
    ensures r == Batch(sensors, last)
  {
    var rows := new Option<string>[BatchLength(sensors)](_ => None);
    assert rows[..] == Nones(BatchLength(sensors));
    var cols: Columns := [];
    var k := 0;
    while k < |sensors|
      invariant k <= |sensors|
      invariant BatchFrom(sensors, k, rows[..], cols, last) == Batch(sensors, last)
      decreases |sensors| - k
    {
      var (key, series) := sensors[k];
      if !NoPoints(series) {
        var name := ColumnName(key, series);
        if name in Keys(cols) {
          return Err(DuplicateColumn(name));
        }
        var filled := FillColumn(series.Data.value, rows, last);
        if filled.Err? {
          return Err(filled.error);
        }
        cols := cols + [(name, filled.value)];
      }
      k := k + 1;
    }
    return Ok((rows[..], cols));
  }

  /** The copy loops of `AddData`: a new array holding `a` and then `b`. */
  method ConcatSlots(a: Slots, b: Slots) returns (r: Slots)
    ensures r == a + b
  {
    var n := |a| + |b|;
    var arr := new Option<string>[n](_ => None);
    for i := 0 to n
      invariant forall q :: 0 <= q < i ==> arr[q] == (a + b)[q]
    {
      if i < |a| {
        arr[i] := a[i];
      } else {
        arr[i] := b[i - |a|];
      }
    }
    return arr[..];
  }

  /** The column loop of a later `AddData` call. */
  method MergeColumns(prior: Columns, cur: Columns) returns (r: Result<Columns, AddError>)
    ensures r == Merge(prior, cur)
  {
    var merged: Columns := [];
    for k := 0 to |prior|
      invariant MergeFrom(prior, cur, k, merged) == Merge(prior, cur)
    {
      var (key, slots) := prior[k];
      var added := Lookup(cur, key);
      if added.None? {
        return Err(MissingColumn(key));
      }
      var joined := ConcatSlots(slots, added.value);
      merged := merged + [(key, joined)];
    }
    return Ok(merged);
  }

  // ---------------------------------------------------------------------------------------------
  // The output channel

  /** What the caller allows to differ from the stored metadata. */
  datatype OutputChannelBehaviorConfiguration = OutputChannelBehaviorConfiguration(
    AllowLocationChange: bool, AllowStationTypeChange: bool)

  /** The state common to every output channel; the file and blob channels each hold one. */
  class OutputChannel {
    const ChannelName: string
    var ChannelStartDate: UInt32
    var ChannelEndDate: UInt32
    var Count: UInt32
    var LastTimeStamp: UInt32
    var FirstTimeStamp: UInt32
    const configuration: OutputChannelBehaviorConfiguration
    var dataColumns: Option<Columns>
    var timeRows: Option<Slots>
    var metaData: OutputChannelMetadata

    /** The constructor proper; `NewOutputChannel` performs its validity check. */
    constructor (sourceMetadata: OutputChannelMetadata, config: OutputChannelBehaviorConfiguration)
      requires Validate(sourceMetadata)
      ensures ChannelName == sourceMetadata.ChannelName && metaData == sourceMetadata && configuration == config
      ensures ChannelStartDate == 0 && ChannelEndDate == 0 && Count == 0
      ensures State() == Buffer(None, None, 0, 0)
    {
      ChannelName := sourceMetadata.ChannelName;
      ChannelStartDate := 0;
      ChannelEndDate := 0;
      Count := 0;
      configuration := config;
      metaData := sourceMetadata;
      LastTimeStamp := 0;
      FirstTimeStamp := 0;
      dataColumns := None;
      timeRows := None;
    }

    /** The buffer fields as one value. */
    function State(): Buffer
      reads this
    {
      Buffer(timeRows, dataColumns, FirstTimeStamp, LastTimeStamp)
    }

    /** `AddData(channel)`: the buffer moves as `AddDataSpec` says; nothing else changes. */
    method AddData(channel: Option<Sensors>) returns (err: Option<AddError>)
      modifies this
      ensures (State(), err) == AddDataSpec(old(State()), channel)
      ensures metaData == old(metaData) && Count == old(Count)
      ensures ChannelStartDate == old(ChannelStartDate) && ChannelEndDate == old(ChannelEndDate)
    {
      if channel.None? || channel.value == [] {
        return None;
      }
      var batch := BuildBatch(channel.value, LastTimeStamp);
      if batch.Err? {
        return Some(batch.error);
      }
      var (rows, cols) := batch.value;
      if timeRows.None? {
        timeRows := Some(rows);
        dataColumns := Some(cols);
        if rows != [] {
          var first := ParseSlot(rows[0]);
          if first.Err? {
            return Some(first.error);
          }
          FirstTimeStamp := first.value;
          var lastTs := ParseSlot(rows[|rows| - 1]);
          if lastTs.Err? {
            return Some(lastTs.error);
          }
          LastTimeStamp := lastTs.value;
        }
        return None;
      }
      var joined := ConcatSlots(timeRows.value, rows);
      timeRows := Some(joined);
      if dataColumns.Some? {
        var merged := MergeColumns(dataColumns.value, cols);
        if merged.Err? {
          return Some(merged.error);
        }
        dataColumns := Some(merged.value);
      }
      if rows == [] {
        return Some(NoRows);
      }
      var lastTs := ParseSlot(rows[|rows| - 1]);
      if lastTs.Err? {
        return Some(lastTs.error);
      }
      LastTimeStamp := lastTs.value;
      return None;
    }
  }

  /** `new OutputChannel(sourceMetadata, config)`: throws "Invalid output channel configuration" on invalid metadata. */
  method NewOutputChannel(sourceMetadata: OutputChannelMetadata, config: OutputChannelBehaviorConfiguration)
    returns (r: Result<OutputChannel, string>)
    ensures r.Err? <==> !Validate(sourceMetadata)
    ensures r.Err? ==> r.error == "Invalid output channel configuration"
    ensures r.Ok? ==> fresh(r.value) && r.value.metaData == sourceMetadata && r.value.configuration == config
                      && r.value.ChannelName == sourceMetadata.ChannelName
                      && r.value.ChannelStartDate == 0 && r.value.ChannelEndDate == 0 && r.value.Count == 0
                      && r.value.State() == Buffer(None, None, 0, 0)
  {
    if !Validate(sourceMetadata) {
      return Err("Invalid output channel configuration");
    }
    var c := new OutputChannel(sourceMetadata, config);
    return Ok(c);
  }
}
