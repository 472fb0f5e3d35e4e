/**
 * The history payload parser of `EcowittInputData.ProcessInput`: one pass over the JSON tokens of
 * an API answer, driven by a depth counter and five flags, that collects
 * channel -> sensor -> (unit, [(timestamp, value)]).
 *
 * Both revisions of the parser are modelled here. `Current` is src/common_code/EcowittInputData.cs
 * (checks `msg`, reads `unit`); `Legacy` is src/EcowittInputData.cs (neither, and it stores the
 * sensor name where the unit belongs). The token automaton is specified by the functions `Step`
 * and `Run`, and run by the loop of `ProcessTokens`.
 */
module InputData {
  import opened Wrappers
  import opened Assoc
  import opened Text

  /**
   * A token as `Utf8JsonReader` reports it. `Str(None)` is the JSON `null` literal; `Other` is
   * every token the parser never inspects for its kind (numbers, booleans, array brackets).
   */
  datatype Token = StartObject | EndObject | PropName(name: string) | Str(text: Option<string>) | Other

  datatype Revision = Current | Legacy

  /** A (timestamp, value) pair of a series, either of which may be null. */
  type Point = (Option<string>, Option<string>)

  /** `DataSeries(unit, list)`; the list reference may be null. */
  datatype DataSeries = DataSeries(Unit: Option<string>, Data: Option<seq<Point>>)

  /** `InputDataChannel.Data`: sensor name -> series, in insertion order. */
  type Sensors = Assoc<DataSeries>

  /** `_channelsList`: channel name -> sensors, in insertion order. */
  type Channels = Assoc<Sensors>

  /** The exceptions `ProcessInput` can raise. */
  datatype ParseError =
    | UnexpectedEndOfData                 // "Unexpected end of data"
    | InvalidResult(message: Option<string>) // "Invalid result: " + message
    | SensorDataWithoutChannel            // "Sensor data without channel"
    | SensorNameNull                      // "Sensor name is null"
    | ChannelNameNull                     // "Channel name is null"
    | DataSeriesNotInitialised            // "Data series object not initalized"
    | DuplicateChannel(name: string)      // Dictionary.Add of a key already present
    | WrongTokenType                      // GetString / ValueTextEquals on a token of another kind
    | NullKey                             // a dictionary indexed with a null key
    | UnknownChannel(name: string)        // a dictionary indexed with a missing key

  /** The local variables of `ProcessInput` and the dictionary it fills. */
  datatype ParserState = ParserState(
    level: int,
    inDataSection: bool,
    channelLevel: bool,
    sensorLevel: bool,
    sensorDataLevel: bool,
    seriesLevel: bool,
    currentChannel: Option<string>,
    currentSensor: Option<string>,
    sensorUnit: Option<string>,
    dataseries: Option<seq<Point>>,
    channels: Channels)

  /** The state before the first token; `channels` is whatever the dictionary already holds. */
  function Initial(channels: Channels): ParserState {
    ParserState(0, false, false, false, false, false, None, None, None, None, channels)
  }

  /** The parser state together with the position of the reader's current token. */
  datatype Cursor = Cursor(st: ParserState, pos: nat)

  /** Where a run stopped: the state reached, and the exception that stopped it, if any. */
  datatype ParseRun = ParseRun(state: ParserState, error: Option<ParseError>)

  /** `reader.GetString()`: the text of a string or property name, null for `null`. */
  function GetString(t: Token): (r: Result<Option<string>, ParseError>)
    ensures r.Ok? <==> (t.PropName? || t.Str?)
    ensures t.PropName? ==> r == Ok(Some(t.name))
    ensures t.Str? ==> r == Ok(t.text)
  {
    match t
    case PropName(n) => Ok(Some(n))
    case Str(o) => Ok(o)
    case _ => Err(WrongTokenType)
  }

  /** `reader.ValueTextEquals(text)`: only defined on strings and property names. */
  function ValueTextEquals(t: Token, text: string): (r: Result<bool, ParseError>)
    ensures r.Ok? <==> (t.PropName? || (t.Str? && t.text.Some?))
    ensures r.Ok? ==> (r.value <==> GetString(t) == Ok(Some(text)))
  {
    match t
    case PropName(n) => Ok(n == text)
    case Str(Some(v)) => Ok(v == text)
    case _ => Err(WrongTokenType)
  }

  function OnStartObject(st: ParserState): ParserState {
    var s1 := if st.inDataSection && st.level == 1 then st.(channelLevel := true) else st;
    var s2 := if s1.channelLevel && s1.level == 2 then s1.(sensorLevel := true, channelLevel := false) else s1;
    var s3 := if s2.inDataSection && s2.level == 3 then s2.(sensorDataLevel := true) else s2;
    s3.(level := s3.level + 1)
  }

  /**
   * `_channelsList[channel].AddSensorData(sensor, series)`: the series replaces or joins the
   * sensor's entry in that channel; nothing else changes.
   */
  function AttachSeries(channels: Channels, channel: Option<string>, sensor: Option<string>, series: DataSeries)
    : (r: Result<Channels, ParseError>)
    ensures channel.None? ==> r == Err(NullKey)
    ensures channel.Some? && Lookup(channels, channel.value).None? ==> r == Err(UnknownChannel(channel.value))
    ensures channel.Some? && Lookup(channels, channel.value).Some? && sensor.None? ==> r == Err(NullKey)
    ensures r.Ok? ==> channel.Some? && sensor.Some?
  {
    if channel.None? then Err(NullKey)
    else
      match Lookup(channels, channel.value)
      case None => Err(UnknownChannel(channel.value))
      case Some(sensors) =>
        if sensor.None? then Err(NullKey)
        else Ok(Put(channels, channel.value, Put(sensors, sensor.value, series)))
  }

  /** A series attached to a channel lands under its sensor there; no other channel changes. */
  lemma AttachSeriesUpdates(channels: Channels, channel: string, sensor: string, series: DataSeries)
    requires channel in Keys(channels)
    ensures var r := AttachSeries(channels, Some(channel), Some(sensor), series);
      && r.Ok?
      && Keys(r.value) == Keys(channels)
      && Lookup(r.value, channel) == Some(Put(Lookup(channels, channel).value, sensor, series))
      && Lookup(Lookup(r.value, channel).value, sensor) == Some(series)
      && forall c :: c != channel ==> Lookup(r.value, c) == Lookup(channels, c)
  {
  }

  /** The flag updates of the `EndObject` case, before a series is closed. */
  function EndObjectFlags(st: ParserState): ParserState {
    var s1 := if st.inDataSection && st.level == 3
      then st.(channelLevel := true, sensorLevel := false, currentChannel := None) else st;
    var s2 := if s1.inDataSection && s1.level == 2 then s1.(inDataSection := false) else s1;
    if s2.inDataSection && s2.level == 4 then s2.(sensorDataLevel := false, currentSensor := None) else s2
  }

  /** Closing the `list` object attaches the series collected in it to the current sensor. */
  function CloseSeries(rev: Revision, st: ParserState): Result<ParserState, ParseError> {
    var unit := if rev == Current then st.sensorUnit else st.currentSensor;
    match AttachSeries(st.channels, st.currentChannel, st.currentSensor, DataSeries(unit, st.dataseries))
    case Err(e) => Err(e)
    case Ok(chs) =>
      var s := st.(seriesLevel := false, channels := chs, dataseries := None);
      Ok(if rev == Current then s.(sensorUnit := None) else s)
  }

  function OnEndObject(rev: Revision, st: ParserState): Result<ParserState, ParseError> {
    var s3 := EndObjectFlags(st);
    if s3.seriesLevel && s3.level == 5 then
      match CloseSeries(rev, s3)
      case Err(e) => Err(e)
      case Ok(s5) => Ok(s5.(level := s5.level - 1))
    else
      Ok(s3.(level := s3.level - 1))
  }

  /** The checks on a property name. Those that read the value advance the cursor onto it. */
  ghost predicate Advanced(toks: seq<Token>, c: Cursor, r: Result<Cursor, ParseError>) {
    r.Ok? ==>
      && c.pos <= r.value.pos < |toks|
      && r.value.st.level == c.st.level
      && forall j :: c.pos < j <= r.value.pos ==> toks[j].PropName? || toks[j].Str?
  }

  /** Current revision only: a `msg` at depth 1 must be followed by the string "success". */
  function CheckMsg(rev: Revision, toks: seq<Token>, c: Cursor): (r: Result<Cursor, ParseError>)
    requires c.pos < |toks|
    ensures Advanced(toks, c, r)
    ensures r.Ok? ==> r.value.st == c.st
  {
    if rev == Current && c.st.level == 1 then
      var isMsg :- ValueTextEquals(toks[c.pos], "msg");
      if !isMsg then Ok(c)
      else if c.pos + 1 >= |toks| then Err(UnexpectedEndOfData)
      else
        var message :- GetString(toks[c.pos + 1]);
        if message != Some("success") then Err(InvalidResult(message))
        else Ok(Cursor(c.st, c.pos + 1))
    else Ok(c)
  }

  function CheckChannelOpen(c: Cursor): (r: Result<Cursor, ParseError>)
    ensures r.Err? <==> c.st.level > 2 && c.st.currentChannel.None?
    ensures r.Ok? ==> r.value == c
  {
    if c.st.level > 2 && c.st.currentChannel.None? then Err(SensorDataWithoutChannel) else Ok(c)
  }

  /** At depth 1 outside the data section, the name `data` enters it; the reader stays on the name. */
  function CheckData(toks: seq<Token>, c: Cursor): (r: Result<Cursor, ParseError>)
    requires c.pos < |toks|
    ensures Advanced(toks, c, r)
    ensures r.Err? <==> !c.st.inDataSection && c.st.level == 1 && ValueTextEquals(toks[c.pos], "data").Err?
    ensures r.Ok? ==> r.value.pos == c.pos
    ensures r.Ok? ==>
      r.value.st == if !c.st.inDataSection && c.st.level == 1 && GetString(toks[c.pos]) == Ok(Some("data"))
                    then c.st.(inDataSection := true) else c.st
  {
    if !c.st.inDataSection && c.st.level == 1 then
      var isData :- ValueTextEquals(toks[c.pos], "data");
      Ok(if isData then c.(st := c.st.(inDataSection := true)) else c)
    else Ok(c)
  }

  /** Current revision only: `unit` at depth 4 reads the unit of the sensor's series. */
  function CheckUnit(rev: Revision, toks: seq<Token>, c: Cursor): (r: Result<Cursor, ParseError>)
    requires c.pos < |toks|
    ensures Advanced(toks, c, r)
    ensures r.Ok? ==> r.value.pos <= c.pos + 1
    ensures r.Err? ==> rev == Current && c.st.sensorDataLevel && c.st.level == 4
    ensures r == Err(UnexpectedEndOfData) <==>
      rev == Current && c.st.sensorDataLevel && c.st.level == 4 && GetString(toks[c.pos]) == Ok(Some("unit")) && c.pos + 1 == |toks|
    ensures r.Ok? && r.value.pos == c.pos ==> r.value.st == c.st
    ensures r.Ok? && r.value.pos == c.pos + 1 ==>
      && rev == Current && c.st.sensorDataLevel && c.st.level == 4 && GetString(toks[c.pos]) == Ok(Some("unit"))
      && GetString(toks[c.pos + 1]).Ok? && r.value.st == c.st.(sensorUnit := GetString(toks[c.pos + 1]).value)
  {
    if rev == Current && c.st.sensorDataLevel && c.st.level == 4 then
      var isUnit :- ValueTextEquals(toks[c.pos], "unit");
      if !isUnit then Ok(c)
      else if c.pos + 1 >= |toks| then Err(UnexpectedEndOfData)
      else
        var unit :- GetString(toks[c.pos + 1]);
        Ok(Cursor(c.st.(sensorUnit := unit), c.pos + 1))
    else Ok(c)
  }

  /** At depth 4 in a sensor, the name `list` enters series mode with an empty series. */
  function CheckList(toks: seq<Token>, c: Cursor): (r: Result<Cursor, ParseError>)
    requires c.pos < |toks|
    ensures Advanced(toks, c, r)
    ensures r.Err? <==> c.st.sensorDataLevel && c.st.level == 4 && ValueTextEquals(toks[c.pos], "list").Err?
    ensures r.Ok? ==> r.value.pos == c.pos
    ensures r.Ok? ==>
      r.value.st == if c.st.sensorDataLevel && c.st.level == 4 && GetString(toks[c.pos]) == Ok(Some("list"))
                    then c.st.(seriesLevel := true, dataseries := Some([])) else c.st
  {
    if c.st.sensorDataLevel && c.st.level == 4 then
      var isList :- ValueTextEquals(toks[c.pos], "list");
      Ok(if isList then c.(st := c.st.(seriesLevel := true, dataseries := Some([]))) else c)
    else Ok(c)
  }

  /** At depth 3 in a channel, the name read becomes the current sensor; a null name throws. */
  function CheckSensor(toks: seq<Token>, c: Cursor): (r: Result<Cursor, ParseError>)
    requires c.pos < |toks|
    ensures Advanced(toks, c, r)
    ensures r.Err? ==> c.st.sensorLevel && c.st.level == 3
    ensures r == Err(SensorNameNull) <==> c.st.sensorLevel && c.st.level == 3 && GetString(toks[c.pos]) == Ok(None)
    ensures r.Ok? ==> r.value.pos == c.pos
    ensures !(c.st.sensorLevel && c.st.level == 3) ==> r == Ok(c)
    ensures r.Ok? && c.st.sensorLevel && c.st.level == 3 ==>
      && GetString(toks[c.pos]).Ok? && GetString(toks[c.pos]).value.Some?
      && r.value.st == c.st.(currentSensor := GetString(toks[c.pos]).value)
  {
    if c.st.sensorLevel && c.st.level == 3 then
      var s :- GetString(toks[c.pos]);
      if s.None? then Err(SensorNameNull) else Ok(c.(st := c.st.(currentSensor := s)))
    else Ok(c)
  }

  /** In series mode at depth 5, a name and the value after it are appended as one point. */
  function CheckSeries(toks: seq<Token>, c: Cursor): (r: Result<Cursor, ParseError>)
    requires c.pos < |toks|
    ensures Advanced(toks, c, r)
    ensures r.Ok? ==> r.value.pos <= c.pos + 1
    ensures !(c.st.seriesLevel && c.st.level == 5) ==> r == Ok(c)
    ensures r == Err(DataSeriesNotInitialised) ==> c.st.dataseries.None?
    ensures r.Ok? && c.st.seriesLevel && c.st.level == 5 ==>
      && r.value.pos == c.pos + 1
      && GetString(toks[c.pos]).Ok? && GetString(toks[c.pos + 1]).Ok? && c.st.dataseries.Some?
      && r.value.st == c.st.(dataseries := Some(c.st.dataseries.value + [(GetString(toks[c.pos]).value, GetString(toks[c.pos + 1]).value)]))
  {
    if c.st.seriesLevel && c.st.level == 5 then
      var s :- GetString(toks[c.pos]);
      if c.pos + 1 >= |toks| then Err(UnexpectedEndOfData)
      else
        var v :- GetString(toks[c.pos + 1]);
        if c.st.dataseries.None? then Err(DataSeriesNotInitialised)
        else Ok(Cursor(c.st.(dataseries := Some(c.st.dataseries.value + [(s, v)])), c.pos + 1))
    else Ok(c)
  }

  /** In channel mode, the name read opens a new, empty channel; a null or repeated name throws. */
  function CheckChannel(toks: seq<Token>, c: Cursor): (r: Result<Cursor, ParseError>)
    requires c.pos < |toks|
    ensures Advanced(toks, c, r)
    ensures !c.st.channelLevel ==> r == Ok(c)
    ensures r == Err(ChannelNameNull) <==> c.st.channelLevel && GetString(toks[c.pos]) == Ok(None)
    ensures c.st.channelLevel && GetString(toks[c.pos]).Ok? && GetString(toks[c.pos]).value.Some? ==>
      (r.Ok? <==> GetString(toks[c.pos]).value.value !in Keys(c.st.channels))
    ensures r.Ok? ==> r.value.pos == c.pos
    ensures r.Ok? && c.st.channelLevel ==>
      && GetString(toks[c.pos]).Ok? && GetString(toks[c.pos]).value.Some?
      && var name := GetString(toks[c.pos]).value.value;
         r.value.st == c.st.(currentChannel := Some(name), channels := c.st.channels + [(name, [])])
  {
    if c.st.channelLevel then
      var s :- GetString(toks[c.pos]);
      if s.None? then Err(ChannelNameNull)
      else if s.value in Keys(c.st.channels) then Err(DuplicateChannel(s.value))
      else Ok(c.(st := c.st.(currentChannel := s, channels := c.st.channels + [(s.value, [])])))
    else Ok(c)
  }

  /** The `PropertyName` case: every test in source order, each seeing the token the previous ones left current. */
  function OnPropertyName(rev: Revision, toks: seq<Token>, c: Cursor): (r: Result<Cursor, ParseError>)
    requires c.pos < |toks|
    ensures Advanced(toks, c, r)
  {
    match CheckMsg(rev, toks, c)
    case Err(e) => Err(e)
    case Ok(c1) =>
    match CheckChannelOpen(c1)
    case Err(e) => Err(e)
    case Ok(c2) =>
    match CheckData(toks, c2)
    case Err(e) => Err(e)
    case Ok(c3) =>
    match CheckUnit(rev, toks, c3)
    case Err(e) => Err(e)
    case Ok(c4) =>
    match CheckList(toks, c4)
    case Err(e) => Err(e)
    case Ok(c5) =>
    match CheckSensor(toks, c5)
    case Err(e) => Err(e)
    case Ok(c6) =>
    match CheckSeries(toks, c6)
    case Err(e) => Err(e)
    case Ok(c7) => CheckChannel(toks, c7)
  }

  /** One turn of `while (reader.Read())`: the token at `pos` and any value it consumed. */
  function Step(rev: Revision, toks: seq<Token>, pos: nat, st: ParserState): (r: Result<Cursor, ParseError>)
    requires pos < |toks|
    ensures r.Ok? ==> pos < r.value.pos <= |toks|
  {
    match toks[pos]
    case StartObject => Ok(Cursor(OnStartObject(st), pos + 1))
    case EndObject =>
      (match OnEndObject(rev, st)
       case Err(e) => Err(e)
       case Ok(s) => Ok(Cursor(s, pos + 1)))
    case PropName(_) =>
      (match OnPropertyName(rev, toks, Cursor(st, pos))
       case Err(e) => Err(e)
       case Ok(c) => Ok(Cursor(c.st, c.pos + 1)))
    case _ => Ok(Cursor(st, pos + 1))
  }

  /** The loop from the token at `pos` to the end of the stream or the first exception. */
  function Run(rev: Revision, toks: seq<Token>, pos: nat, st: ParserState): ParseRun
    decreases |toks| - pos
  {
    if pos >= |toks| then ParseRun(st, None)
    else
      match Step(rev, toks, pos, st)
      case Err(e) => ParseRun(st, Some(e))
      case Ok(c) => Run(rev, toks, c.pos, c.st)
  }

  /** `ProcessInput()` on a dictionary that already holds `channels`. */
  function Parse(rev: Revision, toks: seq<Token>, channels: Channels): ParseRun {
    Run(rev, toks, 0, Initial(channels))
  }

  function OutcomeOf(run: ParseRun): Outcome<ParseError> {
    if run.error.Some? then Fail(run.error.value) else Pass
  }

  // The tests of the `PropertyName` case as statements on the locals `c.st` and the reader
  // position `c.pos`, each proved to do what its function above specifies.

  method ReadMsg(rev: Revision, tokens: seq<Token>, c: Cursor) returns (r: Result<Cursor, ParseError>)
    requires c.pos < |tokens|
    ensures r == CheckMsg(rev, tokens, c)
  {
    var i := c.pos;
    if rev == Current && c.st.level == 1 {
      var isMsg := ValueTextEquals(tokens[i], "msg");
      if isMsg.Err? {
        return Err(isMsg.error);
      }
      if isMsg.value {
        if i + 1 >= |tokens| {
          return Err(UnexpectedEndOfData);
        }
        i := i + 1;
        var message := GetString(tokens[i]);
        if message.Err? {
          return Err(message.error);
        }
        if message.value != Some("success") {
          return Err(InvalidResult(message.value));
        }
      }
    }
    return Ok(Cursor(c.st, i));
  }

  method ReadData(tokens: seq<Token>, c: Cursor) returns (r: Result<Cursor, ParseError>)
    requires c.pos < |tokens|
    ensures r == CheckData(tokens, c)
  {
    var st := c.st;
    if !st.inDataSection && st.level == 1 {
      var isData := ValueTextEquals(tokens[c.pos], "data");
      if isData.Err? {
        return Err(isData.error);
      }
      if isData.value {
        st := st.(inDataSection := true);
      }
    }
    return Ok(Cursor(st, c.pos));
  }

  method ReadUnit(rev: Revision, tokens: seq<Token>, c: Cursor) returns (r: Result<Cursor, ParseError>)
    requires c.pos < |tokens|
    ensures r == CheckUnit(rev, tokens, c)
  {
    var st, i := c.st, c.pos;
    if rev == Current && st.sensorDataLevel && st.level == 4 {
      var isUnit := ValueTextEquals(tokens[i], "unit");
      if isUnit.Err? {
        return Err(isUnit.error);
      }
      if isUnit.value {
        if i + 1 >= |tokens| {
          return Err(UnexpectedEndOfData);
        }
        i := i + 1;
        var unit := GetString(tokens[i]);
        if unit.Err? {
          return Err(unit.error);
        }
        st := st.(sensorUnit := unit.value);
      }
    }
    return Ok(Cursor(st, i));
  }

  method ReadList(tokens: seq<Token>, c: Cursor) returns (r: Result<Cursor, ParseError>)
    requires c.pos < |tokens|
    ensures r == CheckList(tokens, c)
  {
    var st := c.st;
    if st.sensorDataLevel && st.level == 4 {
      var isList := ValueTextEquals(tokens[c.pos], "list");
      if isList.Err? {
        return Err(isList.error);
      }
      if isList.value {
        st := st.(seriesLevel := true, dataseries := Some([]));
      }
    }
    return Ok(Cursor(st, c.pos));
  }

  method ReadSensor(tokens: seq<Token>, c: Cursor) returns (r: Result<Cursor, ParseError>)
    requires c.pos < |tokens|
    ensures r == CheckSensor(tokens, c)
  {
    var st := c.st;
    if st.sensorLevel && st.level == 3 {
      var s := GetString(tokens[c.pos]);
      if s.Err? {
        return Err(s.error);
      }
      if s.value.None? {
        return Err(SensorNameNull);
      }
      st := st.(currentSensor := s.value);
    }
    return Ok(Cursor(st, c.pos));
  }

  method ReadSeriesPoint(tokens: seq<Token>, c: Cursor) returns (r: Result<Cursor, ParseError>)
    requires c.pos < |tokens|
    ensures r == CheckSeries(tokens, c)
  {
    var st, i := c.st, c.pos;
    if st.seriesLevel && st.level == 5 {
      var s := GetString(tokens[i]);
      if s.Err? {
        return Err(s.error);
      }
      if i + 1 >= |tokens| {
        return Err(UnexpectedEndOfData);
      }
      i := i + 1;
      var v := GetString(tokens[i]);
      if v.Err? {
        return Err(v.error);
      }
      if st.dataseries.None? {
        return Err(DataSeriesNotInitialised);
      }
      st := st.(dataseries := Some(st.dataseries.value + [(s.value, v.value)]));
    }
    return Ok(Cursor(st, i));
  }

  method ReadChannel(tokens: seq<Token>, c: Cursor) returns (r: Result<Cursor, ParseError>)
    requires c.pos < |tokens|
    ensures r == CheckChannel(tokens, c)
  {
    var st := c.st;
    if st.channelLevel {
      var s := GetString(tokens[c.pos]);
      if s.Err? {
        return Err(s.error);
      }
      if s.value.None? {
        return Err(ChannelNameNull);
      }
      st := st.(currentChannel := s.value);
      if s.value.value in Keys(st.channels) {
        return Err(DuplicateChannel(s.value.value));
      }
      st := st.(channels := st.channels + [(s.value.value, [])]);
    }
    return Ok(Cursor(st, c.pos));
  }

  /** The `PropertyName` case of the loop body: the tests in source order, stopping at the first exception. */
  method ReadPropertyName(rev: Revision, tokens: seq<Token>, c0: Cursor) returns (r: Result<Cursor, ParseError>)
    requires c0.pos < |tokens|
    ensures r == OnPropertyName(rev, tokens, c0)
  {
    var c1 := ReadMsg(rev, tokens, c0);
    if c1.Err? {
      return c1;
    }
    if c1.value.st.level > 2 && c1.value.st.currentChannel.None? {
      return Err(SensorDataWithoutChannel);
    }
    var c3 := ReadData(tokens, c1.value);
    if c3.Err? {
      return c3;
    }
    var c4 := ReadUnit(rev, tokens, c3.value);
    if c4.Err? {
      return c4;
    }
    var c5 := ReadList(tokens, c4.value);
    if c5.Err? {
      return c5;
    }
    var c6 := ReadSensor(tokens, c5.value);
    if c6.Err? {
      return c6;
    }
    var c7 := ReadSeriesPoint(tokens, c6.value);
    if c7.Err? {
      return c7;
    }
    r := ReadChannel(tokens, c7.value);
  }

  /** The `StartObject` case of the loop body on the parser's locals. */
  method ReadStartObject(st0: ParserState) returns (st: ParserState)
    ensures st == OnStartObject(st0)
  {
    st := st0;
    if st.inDataSection && st.level == 1 {
      st := st.(channelLevel := true);
    }
    if st.channelLevel && st.level == 2 {
      st := st.(sensorLevel := true, channelLevel := false);
    }
    if st.inDataSection && st.level == 3 {
      st := st.(sensorDataLevel := true);
    }
    st := st.(level := st.level + 1);
  }

  /** The `EndObject` case of the loop body on the parser's locals. */
  method ReadEndObject(rev: Revision, st0: ParserState) returns (r: Result<ParserState, ParseError>)
    ensures r == OnEndObject(rev, st0)
  {
    var st := st0;
    if st.inDataSection && st.level == 3 {
      st := st.(channelLevel := true, sensorLevel := false, currentChannel := None);
    }
    if st.inDataSection && st.level == 2 {
      st := st.(inDataSection := false);
    }
    if st.inDataSection && st.level == 4 {
      st := st.(sensorDataLevel := false, currentSensor := None);
    }
    assert st == EndObjectFlags(st0);
    if st.seriesLevel && st.level == 5 {
      ghost var open := st;
      var unit := if rev == Current then st.sensorUnit else st.currentSensor;
      var attached := AttachSeries(st.channels, st.currentChannel, st.currentSensor, DataSeries(unit, st.dataseries));
      if attached.Err? {
        assert CloseSeries(rev, open) == Err(attached.error);
        return Err(attached.error);
      }
      st := st.(seriesLevel := false, channels := attached.value, dataseries := None);
      if rev == Current {
        st := st.(sensorUnit := None);
      }
      assert CloseSeries(rev, open) == Ok(st);
    }
    return Ok(st.(level := st.level - 1));
  }

  lemma RunAfterStep(rev: Revision, toks: seq<Token>, pos: nat, st: ParserState, c: Cursor)
    requires pos < |toks| && Step(rev, toks, pos, st) == Ok(c)
    ensures Run(rev, toks, pos, st) == Run(rev, toks, c.pos, c.st)
  {
  }

  lemma RunStopsAtError(rev: Revision, toks: seq<Token>, pos: nat, st: ParserState, e: ParseError)
    requires pos < |toks| && Step(rev, toks, pos, st) == Err(e)
    ensures Run(rev, toks, pos, st) == ParseRun(st, Some(e))
  {
  }

  lemma StepOnEndObject(rev: Revision, toks: seq<Token>, pos: nat, st: ParserState)
    requires pos < |toks| && toks[pos] == EndObject
    ensures OnEndObject(rev, st).Err? ==> Step(rev, toks, pos, st) == Err(OnEndObject(rev, st).error)
    ensures OnEndObject(rev, st).Ok? ==> Step(rev, toks, pos, st) == Ok(Cursor(OnEndObject(rev, st).value, pos + 1))
  {
  }

  lemma StepOnPropertyName(rev: Revision, toks: seq<Token>, pos: nat, st: ParserState)
    requires pos < |toks| && toks[pos].PropName?
    ensures var p := OnPropertyName(rev, toks, Cursor(st, pos));
      && (p.Err? ==> Step(rev, toks, pos, st) == Err(p.error))
      && (p.Ok? ==> Step(rev, toks, pos, st) == Ok(Cursor(p.value.st, p.value.pos + 1)))
  {
  }

  /** One turn of the loop body: dispatch on the token type. */
  method ReadToken(rev: Revision, tokens: seq<Token>, i: nat, st: ParserState) returns (r: Result<Cursor, ParseError>)
    requires i < |tokens|
    ensures r == Step(rev, tokens, i, st)
  {
    match tokens[i]
    case StartObject =>
      var s := ReadStartObject(st);
      return Ok(Cursor(s, i + 1));
    case EndObject =>
      var e := ReadEndObject(rev, st);
      StepOnEndObject(rev, tokens, i, st);
      if e.Err? {
        return Err(e.error);
      }
      return Ok(Cursor(e.value, i + 1));
    case PropName(_) =>
      r := ReadPropertyToken(rev, tokens, i, st);
    case _ =>
      return Ok(Cursor(st, i + 1));
  }

  /** The loop body on a property name. */
  method ReadPropertyToken(rev: Revision, tokens: seq<Token>, i: nat, st: ParserState) returns (r: Result<Cursor, ParseError>)
    requires i < |tokens| && tokens[i].PropName?
    ensures r == Step(rev, tokens, i, st)
  {
    var p := ReadPropertyName(rev, tokens, Cursor(st, i));
    StepOnPropertyName(rev, tokens, i, st);
    if p.Err? {
      return Err(p.error);
    }
    return Ok(Cursor(p.value.st, p.value.pos + 1));
  }

  /**
   * The `while (reader.Read())` loop of `ProcessInput`. Its local variables are the fields of
   * `st`; `st.channels` is the channel dictionary, grown in place from `channels0`.
   */
  method ProcessTokens(rev: Revision, tokens: seq<Token>, channels0: Channels)
    returns (channels: Channels, outcome: Outcome<ParseError>)
    ensures channels == Parse(rev, tokens, channels0).state.channels
    ensures outcome == OutcomeOf(Parse(rev, tokens, channels0))
  {
    var st := Initial(channels0);
    var i := 0;
    while i < |tokens|
      invariant 0 <= i <= |tokens|
      invariant Run(rev, tokens, i, st) == Parse(rev, tokens, channels0)
      decreases |tokens| - i
    {
      var r := ReadToken(rev, tokens, i, st);
      if r.Err? {
        RunStopsAtError(rev, tokens, i, st, r.error);
        return st.channels, Fail(r.error);
      }
      RunAfterStep(rev, tokens, i, st, r.value);
      st, i := r.value.st, r.value.pos;
    }
    return st.channels, Pass;
  }

  // ---------------------------------------------------------------------------------------------
  // What one token does

  /** A `msg` property at depth 1 must be followed by the string "success". */
  lemma MsgMustBeSuccess(toks: seq<Token>, pos: nat, st: ParserState)
    requires pos < |toks| && toks[pos] == PropName("msg") && st.level == 1
    ensures pos + 1 == |toks| ==> Step(Current, toks, pos, st) == Err(UnexpectedEndOfData)
    ensures pos + 1 < |toks| && toks[pos + 1].Str? && toks[pos + 1].text != Some("success")
      ==> Step(Current, toks, pos, st) == Err(InvalidResult(toks[pos + 1].text))
    ensures pos + 1 < |toks| && !(toks[pos + 1].Str? || toks[pos + 1].PropName?)
      ==> Step(Current, toks, pos, st) == Err(WrongTokenType)
  {
  }

  /** Below the channel level every property name needs an open channel. */
  lemma SensorDataNeedsChannel(rev: Revision, toks: seq<Token>, pos: nat, st: ParserState)
    requires pos < |toks| && toks[pos].PropName?
    requires st.level > 2 && st.currentChannel.None?
    ensures Step(rev, toks, pos, st) == Err(SensorDataWithoutChannel)
  {
  }

  /** In channel mode a property name opens a new, empty channel of that name; a repeated name throws. */
  lemma ChannelModeOpensChannel(rev: Revision, toks: seq<Token>, pos: nat, st: ParserState, name: string)
    requires pos < |toks| && toks[pos] == PropName(name)
    requires st.channelLevel && st.level == 2
    ensures name in Keys(st.channels) ==> Step(rev, toks, pos, st) == Err(DuplicateChannel(name))
    ensures name !in Keys(st.channels) ==> (Step(rev, toks, pos, st)
      == Ok(Cursor(st.(currentChannel := Some(name), channels := st.channels + [(name, [])]), pos + 1)))
  {
  }

  /** Inside a `list` object a name/value pair is appended to the series being collected. */
  lemma SeriesPairAppended(rev: Revision, toks: seq<Token>, pos: nat, st: ParserState, key: string)
    requires pos + 1 < |toks| && toks[pos] == PropName(key) && toks[pos + 1].Str?
    requires st.level == 5 && st.seriesLevel && st.currentChannel.Some? && !st.channelLevel
    requires st.dataseries.Some?
    ensures Step(rev, toks, pos, st)
      == Ok(Cursor(st.(dataseries := Some(st.dataseries.value + [(Some(key), toks[pos + 1].text)])), pos + 2))
  {
  }

  /** The `list` object's closing brace hands the series and its unit to the current sensor. */
  lemma SeriesCloseAttaches(rev: Revision, toks: seq<Token>, pos: nat, st: ParserState)
    requires pos < |toks| && toks[pos] == EndObject
    requires st.level == 5 && st.seriesLevel
    ensures var unit := if rev == Current then st.sensorUnit else st.currentSensor;
      var attached := AttachSeries(st.channels, st.currentChannel, st.currentSensor, DataSeries(unit, st.dataseries));
      && (attached.Err? ==> Step(rev, toks, pos, st) == Err(attached.error))
      && (attached.Ok? ==> Step(rev, toks, pos, st) == Ok(Cursor(st.(
            seriesLevel := false, channels := attached.value, dataseries := None,
            sensorUnit := if rev == Current then None else st.sensorUnit, level := 4), pos + 1)))
  {
  }

  /** Closing a channel object clears the current channel and re-enters channel mode. */
  lemma ChannelCloseReentersChannelMode(rev: Revision, toks: seq<Token>, pos: nat, st: ParserState)
    requires pos < |toks| && toks[pos] == EndObject
    requires st.inDataSection && st.level == 3
    ensures Step(rev, toks, pos, st)
      == Ok(Cursor(st.(channelLevel := true, sensorLevel := false, currentChannel := None, level := 2), pos + 1))
  {
  }

  /** Closing the `data` object leaves the data section and nothing else: channel mode stays as it was. */
  lemma DataCloseKeepsChannelMode(rev: Revision, toks: seq<Token>, pos: nat, st: ParserState)
    requires pos < |toks| && toks[pos] == EndObject
    requires st.inDataSection && st.level == 2
    ensures Step(rev, toks, pos, st) == Ok(Cursor(st.(inDataSection := false, level := 1), pos + 1))
  {
  }

  // ---------------------------------------------------------------------------------------------
  // What a whole run does

  /** Objects opened minus objects closed. */
  function Depth(toks: seq<Token>): int
    decreases |toks|
  {
    if toks == [] then 0
    else (if toks[0] == StartObject then 1 else if toks[0] == EndObject then -1 else 0) + Depth(toks[1..])
  }

  lemma {:induction false} DepthAppend(a: seq<Token>, b: seq<Token>)
    ensures Depth(a + b) == Depth(a) + Depth(b)
    decreases |a|
  {
    if a != [] {
      assert (a + b)[0] == a[0];
      assert (a + b)[1..] == a[1..] + b;
      DepthAppend(a[1..], b);
    } else {
      assert a + b == b;
    }
  }

  lemma {:induction false} DepthOfScalars(toks: seq<Token>)
    requires forall j :: 0 <= j < |toks| ==> toks[j].PropName? || toks[j].Str?
    ensures Depth(toks) == 0
    decreases |toks|
  {
    if toks != [] {
      DepthOfScalars(toks[1..]);
    }
  }

  lemma EndObjectLevel(rev: Revision, st: ParserState)
    requires OnEndObject(rev, st).Ok?
    ensures OnEndObject(rev, st).value.level == st.level - 1
  {
  }

  lemma PropertyNameLevel(rev: Revision, toks: seq<Token>, pos: nat, st: ParserState)
    requires pos < |toks| && toks[pos].PropName?
    requires OnPropertyName(rev, toks, Cursor(st, pos)).Ok?
    ensures var c := OnPropertyName(rev, toks, Cursor(st, pos)).value;
      && c.st.level == st.level
      && Depth(toks[pos..c.pos + 1]) == 0
  {
    var c := OnPropertyName(rev, toks, Cursor(st, pos)).value;
    assert Advanced(toks, Cursor(st, pos), Ok(c));
    DepthOfScalars(toks[pos..c.pos + 1]);
  }

  /** One step moves the depth counter by the objects opened and closed among the tokens it read. */
  lemma StepLevel(rev: Revision, toks: seq<Token>, pos: nat, st: ParserState)
    requires pos < |toks| && Step(rev, toks, pos, st).Ok?
    ensures var c := Step(rev, toks, pos, st).value;
      c.st.level == st.level + Depth(toks[pos..c.pos])
  {
    var t := toks[pos];
    if t.PropName? {
      PropertyNameLevel(rev, toks, pos, st);
    } else if t == EndObject {
      EndObjectLevel(rev, st);
      assert toks[pos..pos + 1] == [EndObject];
    } else {
      assert toks[pos..pos + 1] == [t];
    }
  }

  /** A run that ends without an exception leaves the depth counter moved by the stream's depth. */
  lemma {:induction false} RunLevel(rev: Revision, toks: seq<Token>, pos: nat, st: ParserState)
    requires pos <= |toks|
    ensures Run(rev, toks, pos, st).error.None?
      ==> Run(rev, toks, pos, st).state.level == st.level + Depth(toks[pos..])
    decreases |toks| - pos
  {
    if pos < |toks| && Step(rev, toks, pos, st).Ok? {
      var c := Step(rev, toks, pos, st).value;
      StepLevel(rev, toks, pos, st);
      RunLevel(rev, toks, c.pos, c.st);
      assert toks[pos..] == toks[pos..c.pos] + toks[c.pos..];
      DepthAppend(toks[pos..c.pos], toks[c.pos..]);
    }
  }

  /** On a balanced token stream the depth counter returns to 0. */
  lemma BalancedStreamEndsAtDepthZero(rev: Revision, toks: seq<Token>, channels: Channels)
    requires Depth(toks) == 0
    requires Parse(rev, toks, channels).error.None?
    ensures Parse(rev, toks, channels).state.level == 0
  {
    RunLevel(rev, toks, 0, Initial(channels));
    assert toks[0..] == toks;
  }

  // ---------------------------------------------------------------------------------------------
  // Invariants of the parser's locals

  /**
   * What holds of the parser's locals between tokens when it starts from an empty dictionary:
   * a series is being collected only after `list` created it, and channel names are distinct.
   */
  ghost predicate Consistent(st: ParserState) {
    SeriesReady(st) && DistinctKeys(st.channels)
  }

  lemma ChannelAddKeepsKeysDistinct(channels: Channels, name: string)
    requires DistinctKeys(channels) && name !in Keys(channels)
    ensures DistinctKeys(channels + [(name, [])])
  {
    var r := channels + [(name, [])];
    forall i, j | 0 <= i < j < |r| ensures r[i].0 != r[j].0 {
      if j == |channels| {
        assert Keys(channels)[i] == channels[i].0;
      }
    }
  }

  /** The locals a series depends on: one is collected only after `list` created it. */
  predicate SeriesReady(st: ParserState) {
    st.seriesLevel ==> st.dataseries.Some?
  }

  lemma CheckMsgKeepsConsistent(rev: Revision, toks: seq<Token>, c: Cursor)
    requires c.pos < |toks| && SeriesReady(c.st)
    ensures var r := CheckMsg(rev, toks, c);
      r.Ok? ==> r.value.st.channels == c.st.channels && SeriesReady(r.value.st)
  {
  }

  lemma CheckChannelOpenKeepsConsistent(rev: Revision, toks: seq<Token>, c: Cursor)
    requires c.pos < |toks| && SeriesReady(c.st)
    ensures var r := CheckChannelOpen(c);
      r.Ok? ==> r.value.st.channels == c.st.channels && SeriesReady(r.value.st)
  {
  }

  lemma CheckDataKeepsConsistent(rev: Revision, toks: seq<Token>, c: Cursor)
    requires c.pos < |toks| && SeriesReady(c.st)
    ensures var r := CheckData(toks, c);
      r.Ok? ==> r.value.st.channels == c.st.channels && SeriesReady(r.value.st)
  {
  }

  lemma CheckUnitKeepsConsistent(rev: Revision, toks: seq<Token>, c: Cursor)
    requires c.pos < |toks| && SeriesReady(c.st)
    ensures var r := CheckUnit(rev, toks, c);
      r.Ok? ==> r.value.st.channels == c.st.channels && SeriesReady(r.value.st)
  {
  }

  lemma CheckListKeepsConsistent(rev: Revision, toks: seq<Token>, c: Cursor)
    requires c.pos < |toks| && SeriesReady(c.st)
    ensures var r := CheckList(toks, c);
      r.Ok? ==> r.value.st.channels == c.st.channels && SeriesReady(r.value.st)
  {
  }

  lemma CheckSensorKeepsConsistent(rev: Revision, toks: seq<Token>, c: Cursor)
    requires c.pos < |toks| && SeriesReady(c.st)
    ensures var r := CheckSensor(toks, c);
      r.Ok? ==> r.value.st.channels == c.st.channels && SeriesReady(r.value.st)
  {
  }

  lemma CheckSeriesKeepsConsistent(rev: Revision, toks: seq<Token>, c: Cursor)
    requires c.pos < |toks| && SeriesReady(c.st)
    ensures CheckSeries(toks, c) != Err(DataSeriesNotInitialised)
    ensures var r := CheckSeries(toks, c);
      r.Ok? ==> r.value.st.channels == c.st.channels && SeriesReady(r.value.st)
  {
  }

  lemma CheckChannelKeepsConsistent(toks: seq<Token>, c: Cursor)
    requires c.pos < |toks| && Consistent(c.st)
    ensures CheckChannel(toks, c).Ok? ==> Consistent(CheckChannel(toks, c).value.st)
  {
    if c.st.channelLevel {
      var s := GetString(toks[c.pos]);
      if s.Ok? && s.value.Some? && s.value.value !in Keys(c.st.channels) {
        ChannelAddKeepsKeysDistinct(c.st.channels, s.value.value);
      }
    }
  }

  lemma PropertyNameKeepsConsistent(rev: Revision, toks: seq<Token>, c: Cursor)
    requires c.pos < |toks| && Consistent(c.st)
    ensures OnPropertyName(rev, toks, c) != Err(DataSeriesNotInitialised)
    ensures OnPropertyName(rev, toks, c).Ok? ==> Consistent(OnPropertyName(rev, toks, c).value.st)
  {
    CheckMsgKeepsConsistent(rev, toks, c);
    var r1 := CheckMsg(rev, toks, c);
    if r1.Err? { return; }
    CheckChannelOpenKeepsConsistent(rev, toks, r1.value);
    var r2 := CheckChannelOpen(r1.value);
    if r2.Err? { return; }
    CheckDataKeepsConsistent(rev, toks, r2.value);
    var r3 := CheckData(toks, r2.value);
    if r3.Err? { return; }
    CheckUnitKeepsConsistent(rev, toks, r3.value);
    var r4 := CheckUnit(rev, toks, r3.value);
    if r4.Err? { return; }
    CheckListKeepsConsistent(rev, toks, r4.value);
    var r5 := CheckList(toks, r4.value);
    if r5.Err? { return; }
    CheckSensorKeepsConsistent(rev, toks, r5.value);
    var r6 := CheckSensor(toks, r5.value);
    if r6.Err? { return; }
    CheckSeriesKeepsConsistent(rev, toks, r6.value);
    var r7 := CheckSeries(toks, r6.value);
    if r7.Err? { return; }
    CheckChannelKeepsConsistent(toks, r7.value);
  }

  lemma CloseSeriesKeepsConsistent(rev: Revision, st: ParserState)
    requires Consistent(st)
    ensures CloseSeries(rev, st).Ok? ==> Consistent(CloseSeries(rev, st).value)
  {
    var unit := if rev == Current then st.sensorUnit else st.currentSensor;
    var series := DataSeries(unit, st.dataseries);
    var attached := AttachSeries(st.channels, st.currentChannel, st.currentSensor, series);
    if attached.Ok? {
      AttachSeriesUpdates(st.channels, st.currentChannel.value, st.currentSensor.value, series);
      SameKeysDistinct(st.channels, attached.value);
    }
  }

  lemma EndObjectKeepsConsistent(rev: Revision, st: ParserState)
    requires Consistent(st)
    ensures OnEndObject(rev, st).Ok? ==> Consistent(OnEndObject(rev, st).value)
  {
    var s3 := EndObjectFlags(st);
    assert Consistent(s3);
    CloseSeriesKeepsConsistent(rev, s3);
  }

  lemma StepKeepsConsistent(rev: Revision, toks: seq<Token>, pos: nat, st: ParserState)
    requires pos < |toks| && Consistent(st)
    ensures Step(rev, toks, pos, st) != Err(DataSeriesNotInitialised)
    ensures Step(rev, toks, pos, st).Ok? ==> Consistent(Step(rev, toks, pos, st).value.st)
  {
    var t := toks[pos];
    if t.PropName? {
      PropertyNameKeepsConsistent(rev, toks, Cursor(st, pos));
      StepOnPropertyName(rev, toks, pos, st);
    } else if t == EndObject {
      EndObjectKeepsConsistent(rev, st);
      StepOnEndObject(rev, toks, pos, st);
    }
  }

  /**
   * From a consistent state the `NullReferenceException` of adding to a series that `list` never
   * created cannot happen, and the parser's locals stay consistent to the end of the run.
   */
  lemma {:induction false} RunKeepsConsistent(rev: Revision, toks: seq<Token>, pos: nat, st: ParserState)
    requires pos <= |toks| && Consistent(st)
    ensures Run(rev, toks, pos, st).error != Some(DataSeriesNotInitialised)
    ensures Consistent(Run(rev, toks, pos, st).state)
    decreases |toks| - pos
  {
    if pos < |toks| {
      StepKeepsConsistent(rev, toks, pos, st);
      if Step(rev, toks, pos, st).Ok? {
        var c := Step(rev, toks, pos, st).value;
        RunAfterStep(rev, toks, pos, st, c);
        RunKeepsConsistent(rev, toks, c.pos, c.st);
      } else {
        RunStopsAtError(rev, toks, pos, st, Step(rev, toks, pos, st).error);
      }
    }
  }

  /** Parsing into a dictionary with distinct keys never meets an uncreated series and keeps channel names distinct. */
  lemma ParseKeepsChannelsDistinct(rev: Revision, toks: seq<Token>, channels: Channels)
    requires DistinctKeys(channels)
    ensures Parse(rev, toks, channels).error != Some(DataSeriesNotInitialised)
    ensures DistinctKeys(Parse(rev, toks, channels).state.channels)
  {
    RunKeepsConsistent(rev, toks, 0, Initial(channels));
  }

  // ---------------------------------------------------------------------------------------------
  // The parser object of src/common_code/EcowittInputData.cs

  /** Holds one raw payload and the channels parsed out of it. */
  class EcowittInputData {
    const rawData: seq<Token>
    var channelsList: Channels

    constructor(rawData: seq<Token>)
      ensures this.rawData == rawData && channelsList == []
    {
      this.rawData := rawData;
      channelsList := [];
    }

    /**
     * Runs the token automaton over the payload, adding to the channels already held. An
     * exception leaves the channels added before it in place.
     */
    method ProcessInput() returns (outcome: Outcome<ParseError>)
      modifies this
      ensures channelsList == Parse(Current, rawData, old(channelsList)).state.channels
      ensures outcome == OutcomeOf(Parse(Current, rawData, old(channelsList)))
      ensures DistinctKeys(old(channelsList)) ==> DistinctKeys(channelsList)
    {
      if DistinctKeys(channelsList) {
        ParseKeepsChannelsDistinct(Current, rawData, channelsList);
      }
      channelsList, outcome := ProcessTokens(Current, rawData, channelsList);
    }

    /** One summary per parsed channel, in the order the channels were added. */
    method GetChannels() returns (result: seq<string>)
      ensures |result| == |channelsList|
      ensures forall i :: 0 <= i < |result| ==> result[i] == channelsList[i].0
    {
      result := [];
      var i := 0;
      while i < |channelsList|
        invariant 0 <= i <= |channelsList|
        invariant result == Keys(channelsList[..i])
      {
        result := result + [channelsList[i].0];
        i := i + 1;
      }
    }

    /** `GetChannel`: a blank name throws; an unknown name gives null. */
    function GetChannel(name: string): (r: Result<Option<Sensors>, string>)
      reads this
      ensures r.Err? <==> IsBlank(name)
      ensures r.Ok? ==> (r.value.None? <==> name !in Keys(channelsList))
      ensures r.Ok? && r.value.Some? ==> exists i :: 0 <= i < |channelsList| && channelsList[i] == (name, r.value.value)
    {
      if IsBlank(name) then Err("Channel name cannot be empty")
      else Ok(Lookup(channelsList, name))
    }
  }
}
