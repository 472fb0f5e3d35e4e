/**
 * The cloud gateway of src/common_code/EcowittDevice.cs: the check of the device details the API
 * reports, the checks of the constructor and of `ReadHistoricalData`, the query string of a
 * request, and the retry policy of `APICall`.
 *
 * The HTTP exchange is a given `Server`: the response to each attempt at a URL. The random part
 * of each back-off sleep is a given `Jitter`, and `HttpUtility.UrlEncode` a given `enc`.
 * `DateTime` values are whole seconds, and their `"u"` text (trailing `Z` trimmed) is a given
 * `formatTime`.
 */
module Gateway {
  import opened Wrappers
  import opened Text
  import opened Decimal
  import Configuration

  const ApiBaseUrl := "https://api.ecowitt.net/api/v3/"
  const ApiReadHistoricalData := "device/history"
  const ApiGetDeviceInfo := "device/info"

  /** A minute and a day, in seconds. */
  const Minute: int := 60
  const Day: int := 86400

  // ---------------------------------------------------------------------------------------------
  // Device details

  /** `APIDeviceDetailData`, as deserialised from the `data` member of a `device/info` answer. */
  datatype DeviceDetailData = DeviceDetailData(
    Id: Int32,
    Name: Option<string>,
    MAC: Option<string>,
    Type: Int32,
    DateZoneId: Option<string>,
    CreateTime: UInt32,
    Longitude: real,
    Latitude: real,
    StationType: Option<string>)

  /** A non-null string with at least one character that is not white space. */
  predicate HasText(s: Option<string>) {
    s.Some? && exists i :: 0 <= i < |s.value| && !IsWhiteSpace(s.value[i])
  }

  /** `APIDeviceDetailData.Validate`: a device the cloud knows has an id, a name, a MAC and a station type. */
  function ValidateDetails(d: DeviceDetailData): (r: bool)
    ensures r <==> d.Id != 0 && HasText(d.Name) && HasText(d.MAC) && HasText(d.StationType)
  {
    if d.Id == 0 then false
    else if IsNullOrWhiteSpace(d.Name) then false
    else if IsNullOrWhiteSpace(d.MAC) then false
    else if IsNullOrWhiteSpace(d.StationType) then false
    else true
  }

  // ---------------------------------------------------------------------------------------------
  // Exceptions and checks

  /** The exceptions the gateway raises. */
  datatype Failure =
    | ArgumentNull(message: string)                    // ArgumentNullException
    | InvalidData(message: string)                     // InvalidDataException
    | Argument(message: string)                        // ArgumentException
    | Unauthorized                                     // UnauthorizedAccessException
    | HttpRequest(status: int, reason: Option<string>) // HttpRequestException

  /**
   * The constructor's checks, in order, for either revision of the device configuration: both
   * keys must be non-blank, and the configuration present and valid (`validate` gives the
   * message of its first failing check).
   */
  function ConstructorCheck<C>(configuration: Option<C>, apiKey: Option<string>, applicationKey: Option<string>,
                               validate: C -> Option<string>): (r: Option<Failure>)
    ensures r.None? <==>
      HasText(apiKey) && HasText(applicationKey) && configuration.Some? && validate(configuration.value).None?
    ensures !HasText(apiKey) ==> r == Some(ArgumentNull("API key not set"))
    ensures HasText(apiKey) && !HasText(applicationKey) ==> r == Some(ArgumentNull("Application key not set"))
    ensures HasText(apiKey) && HasText(applicationKey) && configuration.None? ==>
      r == Some(ArgumentNull("Device configuration not set"))
    ensures HasText(apiKey) && HasText(applicationKey) && configuration.Some? && validate(configuration.value).Some? ==>
      r == Some(InvalidData("Bad device configuration: " + validate(configuration.value).value))
  {
    if IsNullOrWhiteSpace(apiKey) then Some(ArgumentNull("API key not set"))
    else if IsNullOrWhiteSpace(applicationKey) then Some(ArgumentNull("Application key not set"))
    else if configuration.None? then Some(ArgumentNull("Device configuration not set"))
    else
      match validate(configuration.value)
      case Some(message) => Some(InvalidData("Bad device configuration: " + message))
      case None => None
  }

  /** The range the history endpoint serves: from 90 days before now to one day after. */
  predicate WithinApiRange(now: int, startTime: int, endTime: int) {
    now - 90 * Day <= startTime && endTime <= now + Day
  }

  /** The argument checks of `ReadHistoricalData`. */
  function RangeCheck(now: int, startTime: int, endTime: int): (r: Option<Failure>)
    ensures r.None? <==> WithinApiRange(now, startTime, endTime)
    ensures startTime < now - 90 * Day ==>
      r == Some(Argument("Start time too far in the past - maximum is 90 days"))
    ensures now - 90 * Day <= startTime && now + Day < endTime ==>
      r == Some(Argument("End time is too far in the future - maximum is 1 day"))
  {
    if startTime < now - 90 * Day then Some(Argument("Start time too far in the past - maximum is 90 days"))
    else if endTime > now + Day then Some(Argument("End time is too far in the future - maximum is 1 day"))
    else None
  }

  // ---------------------------------------------------------------------------------------------
  // Query strings

  /** The query arguments, in the order the dictionary enumerates them (insertion order). */
  type QueryArgs = seq<(string, string)>

  /** `key=encoded value` for every argument. */
  function QueryParts(args: QueryArgs, enc: string -> string): (r: seq<string>)
    ensures |r| == |args|
    ensures forall i :: 0 <= i < |args| ==> r[i] == args[i].0 + "=" + enc(args[i].1)
  {
    seq(|args|, i requires 0 <= i < |args| => args[i].0 + "=" + enc(args[i].1))
  }

  /** What `BuildQueryString` returns: the parts joined by `&`, and "" for a null dictionary. */
  function QueryString(args: Option<QueryArgs>, enc: string -> string): string {
    if args.None? then "" else Join("&", QueryParts(args.value, enc))
  }

  /** `BuildQueryString`: a first-argument flag decides whether `&` goes before the key. */
  method BuildQueryString(args: Option<QueryArgs>, enc: string -> string) returns (s: string)
    ensures s == QueryString(args, enc)
  {
    if args.None? {
      return "";
    }
    var list := args.value;
    s := "";
    var first := true;
    var i := 0;
    while i < |list|
      invariant 0 <= i <= |list|
      invariant first <==> i == 0
      invariant s == Join("&", QueryParts(list[..i], enc))
    {
      var (key, value) := list[i];
      if first {
        s := s + key + "=";
        first := false;
      } else {
        s := s + "&" + key + "=";
      }
      s := s + enc(value);
      assert QueryParts(list[..i + 1], enc) == QueryParts(list[..i], enc) + [key + "=" + enc(value)];
      i := i + 1;
    }
    assert list[..i] == list;
  }

  /** Keys and encoded values free of `&` and `=`, as `HttpUtility.UrlEncode` leaves every value. */
  predicate Delimited(args: QueryArgs, enc: string -> string) {
    forall i :: 0 <= i < |args| ==>
      '&' !in args[i].0 && '=' !in args[i].0 && '&' !in enc(args[i].1) && '=' !in enc(args[i].1)
  }

  /** The query string splits back at `&` and `=` into the keys and the encoded values, in order. */
  lemma QueryStringRoundTrip(args: QueryArgs, enc: string -> string)
    requires |args| > 0 && Delimited(args, enc)
    ensures var pieces := Split(QueryString(Some(args), enc), '&');
      && |pieces| == |args|
      && forall i :: 0 <= i < |args| ==> Split(pieces[i], '=') == [args[i].0, enc(args[i].1)]
  {
    var parts := QueryParts(args, enc);
    forall i | 0 <= i < |parts|
      ensures '&' !in parts[i]
      ensures Split(parts[i], '=') == [args[i].0, enc(args[i].1)]
    {
      assert parts[i] == args[i].0 + ['='] + enc(args[i].1);
      SplitAround(args[i].0, '=', enc(args[i].1));
      SplitWithout(args[i].0, '=');
      SplitWithout(enc(args[i].1), '=');
    }
    SplitJoin(parts, '&');
  }

  // ---------------------------------------------------------------------------------------------
  // The retry policy of APICall

  /** What `JsonSerializer.Deserialize<APIResult>` makes of a response body. */
  datatype Decoded = NotJson | NullResult | ApiResult(Code: int, Message: Option<string>)

  /** One HTTP response: status code, reason phrase, body text and the body deserialised. */
  datatype Response = Response(status: int, reason: Option<string>, data: string, decoded: Decoded)

  /** The response to attempt `n` (counting from 0) at a URL. */
  type Server = (string, nat) -> Response

  /** `rnd.Next(2000, 4000)` drawn after attempt `n` at a URL. */
  type Jitter = (string, nat) -> int

  const MaxAttempts: nat := 3
  const MinDelay: int := 2000
  const MaxDelay: int := 4000

  predicate IsSuccessStatusCode(status: int) {
    200 <= status <= 299
  }

  /** What one attempt decides: return the body, try again, or throw. */
  datatype Attempt = Accepted(data: string) | Retry | Fatal(failure: Failure)

  /** The exception for a status that is not a success: 403 and 404 have their own. */
  function StatusFailure(r: Response): Failure {
    if r.status == 403 then Unauthorized
    else if r.status == 404 then Argument("Result not found")
    else HttpRequest(r.status, r.reason)
  }

  /**
   * One attempt: a failure status throws at once; a body that is blank, not JSON, the JSON null,
   * a non-zero code or a message other than "success" is retried.
   */
  function AttemptOf(r: Response): (a: Attempt)
    ensures a.Fatal? <==> !IsSuccessStatusCode(r.status)
    ensures a.Fatal? ==> a.failure == StatusFailure(r)
    ensures a.Accepted? <==>
      IsSuccessStatusCode(r.status) && !IsBlank(r.data) && r.decoded == ApiResult(0, Some("success"))
    ensures a.Accepted? ==> a.data == r.data
  {
    if !IsSuccessStatusCode(r.status) then Fatal(StatusFailure(r))
    else if IsBlank(r.data) then Retry
    else
      match r.decoded
      case ApiResult(code, message) => if code == 0 && message == Some("success") then Accepted(r.data) else Retry
      case _ => Retry
  }

  function Pow2(n: nat): nat {
    if n == 0 then 1 else 2 * Pow2(n - 1)
  }

  /** A call's outcome: the body, null, or the exception; and the sleeps it made, in milliseconds. */
  datatype Call = Call(result: Result<Option<string>, Failure>, sleeps: seq<int>)

  /** `APICall` from attempt `n` on: a retried attempt sleeps its jitter times 2^n first. */
  function CallFrom(url: string, server: Server, jitter: Jitter, n: nat): Call
    requires n <= MaxAttempts
    decreases MaxAttempts - n
  {
    if n == MaxAttempts then Call(Ok(None), [])
    else
      match AttemptOf(server(url, n))
      case Accepted(data) => Call(Ok(Some(data)), [])
      case Fatal(failure) => Call(Err(failure), [])
      case Retry =>
        var rest := CallFrom(url, server, jitter, n + 1);
        Call(rest.result, [jitter(url, n) * Pow2(n)] + rest.sleeps)
  }

  /** `APICall(url)`. */
  function CallSpec(url: string, server: Server, jitter: Jitter): Call {
    CallFrom(url, server, jitter, 0)
  }

  /** The first attempt from `n` on that is not retried, or `MaxAttempts` when every one is. */
  function Decisive(url: string, server: Server, n: nat): (k: nat)
    requires n <= MaxAttempts
    ensures n <= k <= MaxAttempts
    ensures forall j :: n <= j < k ==> AttemptOf(server(url, j)).Retry?
    ensures k < MaxAttempts ==> !AttemptOf(server(url, k)).Retry?
    decreases MaxAttempts - n
  {
    if n == MaxAttempts then MaxAttempts
    else if AttemptOf(server(url, n)).Retry? then Decisive(url, server, n + 1)
    else n
  }

  /**
   * The policy: the first attempt that is not retried decides the outcome (its body, or its
   * exception), and after three retried attempts the call returns null. Every retried attempt
   * sleeps, the last one too, for its jitter times 1, 2 and 4.
   */
  lemma {:induction false} CallFromOutcome(url: string, server: Server, jitter: Jitter, n: nat)
    requires n <= MaxAttempts
    ensures var k, c := Decisive(url, server, n), CallFrom(url, server, jitter, n);
      && |c.sleeps| == k - n
      && (forall j :: 0 <= j < k - n ==> c.sleeps[j] == jitter(url, n + j) * Pow2(n + j))
      && (k == MaxAttempts ==> c.result == Ok(None))
      && (k < MaxAttempts && AttemptOf(server(url, k)).Accepted? ==> c.result == Ok(Some(server(url, k).data)))
      && (k < MaxAttempts && AttemptOf(server(url, k)).Fatal? ==> c.result == Err(StatusFailure(server(url, k))))
    decreases MaxAttempts - n
  {
    if n < MaxAttempts && AttemptOf(server(url, n)).Retry? {
      CallFromOutcome(url, server, jitter, n + 1);
    }
  }

  /** The sleeps of a call lie in [2000, 4000) times 1, 2 and 4 milliseconds when the draws do. */
  lemma CallSleepBounds(url: string, server: Server, jitter: Jitter)
    requires forall n: nat :: n < MaxAttempts ==> MinDelay <= jitter(url, n) < MaxDelay
    ensures var c := CallSpec(url, server, jitter);
      && |c.sleeps| <= MaxAttempts
      && forall j :: 0 <= j < |c.sleeps| ==> MinDelay * Pow2(j) <= c.sleeps[j] < MaxDelay * Pow2(j)
  {
    CallFromOutcome(url, server, jitter, 0);
    var c := CallSpec(url, server, jitter);
    forall j | 0 <= j < |c.sleeps|
      ensures MinDelay * Pow2(j) <= c.sleeps[j] < MaxDelay * Pow2(j)
    {
      assert c.sleeps[j] == jitter(url, j) * Pow2(j);
      assert MinDelay <= jitter(url, j) < MaxDelay;
      MultiplyBounds(jitter(url, j), Pow2(j));
    }
  }

  lemma MultiplyBounds(d: int, m: nat)
    requires MinDelay <= d < MaxDelay && m > 0
    ensures MinDelay * m <= d * m < MaxDelay * m
  {
  }

  /** One attempt of `CallFrom`: a retried attempt defers to the next one, which then decides. */
  lemma CallFromStep(url: string, server: Server, jitter: Jitter, n: nat)
    requires n < MaxAttempts
    ensures var a, c := AttemptOf(server(url, n)), CallFrom(url, server, jitter, n);
      && (a.Accepted? ==> c == Call(Ok(Some(a.data)), []))
      && (a.Fatal? ==> c == Call(Err(a.failure), []))
      && (a.Retry? ==> Decisive(url, server, n) == Decisive(url, server, n + 1)
                       && c.result == CallFrom(url, server, jitter, n + 1).result
                       && c.sleeps == [jitter(url, n) * Pow2(n)] + CallFrom(url, server, jitter, n + 1).sleeps)
      && (!a.Retry? ==> Decisive(url, server, n) == n)
  {
  }

  /** The loop of `APICall` at attempt `n`, after `sleeps`, when that attempt decides the call. */
  lemma CallDecided(url: string, server: Server, jitter: Jitter, n: nat, sleeps: seq<int>)
    requires n < MaxAttempts && !AttemptOf(server(url, n)).Retry?
    requires CallSpec(url, server, jitter) ==
      Call(CallFrom(url, server, jitter, n).result, sleeps + CallFrom(url, server, jitter, n).sleeps)
    ensures var a := AttemptOf(server(url, n));
      CallSpec(url, server, jitter) == Call(if a.Fatal? then Err(a.failure) else Ok(Some(a.data)), sleeps)
    ensures Decisive(url, server, n) == n
  {
    CallFromStep(url, server, jitter, n);
    assert sleeps + [] == sleeps;
  }

  /** The loop of `APICall` at attempt `n`, after `sleeps`, when that attempt is retried. */
  lemma CallRetried(url: string, server: Server, jitter: Jitter, n: nat, sleeps: seq<int>)
    requires n < MaxAttempts && AttemptOf(server(url, n)).Retry?
    requires CallSpec(url, server, jitter) ==
      Call(CallFrom(url, server, jitter, n).result, sleeps + CallFrom(url, server, jitter, n).sleeps)
    ensures var sleeps' := sleeps + [jitter(url, n) * Pow2(n)];
      CallSpec(url, server, jitter) ==
        Call(CallFrom(url, server, jitter, n + 1).result, sleeps' + CallFrom(url, server, jitter, n + 1).sleeps)
    ensures Decisive(url, server, n) == Decisive(url, server, n + 1)
  {
    CallFromStep(url, server, jitter, n);
    var rest := CallFrom(url, server, jitter, n + 1).sleeps;
    assert sleeps + [jitter(url, n) * Pow2(n)] + rest == sleeps + ([jitter(url, n) * Pow2(n)] + rest);
  }

  /** The tests of one response in the body of `APICall`'s loop. */
  method Examine(res: Response) returns (a: Attempt)
    ensures a == AttemptOf(res)
  {
    if !IsSuccessStatusCode(res.status) {
      if res.status == 403 {
        return Fatal(Unauthorized);
      }
      if res.status == 404 {
        return Fatal(Argument("Result not found"));
      }
      return Fatal(HttpRequest(res.status, res.reason));
    }
    var data := res.data;
    if !IsBlank(data) && res.decoded.ApiResult? && res.decoded.Code == 0 && res.decoded.Message == Some("success") {
      return Accepted(data);
    }
    return Retry;
  }

  /**
   * `APICall`: the do-while loop with `retryCounter` counting down from 3 and `delayMultiplier`
   * doubling; `attempts` is the number of requests sent.
   */
  method APICall(url: string, server: Server, jitter: Jitter)
    returns (r: Result<Option<string>, Failure>, sleeps: seq<int>, attempts: nat)
    ensures Call(r, sleeps) == CallSpec(url, server, jitter)
    ensures attempts == if Decisive(url, server, 0) == MaxAttempts then MaxAttempts else Decisive(url, server, 0) + 1
  {
    var delayMultiplier := 1;
    var retryCounter := 3;
    sleeps := [];
    attempts := 0;
    while retryCounter > 0
      invariant 0 <= retryCounter <= MaxAttempts && attempts == MaxAttempts - retryCounter
      invariant delayMultiplier == Pow2(attempts)
      invariant Decisive(url, server, 0) == Decisive(url, server, attempts)
      invariant CallSpec(url, server, jitter) ==
        Call(CallFrom(url, server, jitter, attempts).result, sleeps + CallFrom(url, server, jitter, attempts).sleeps)
      decreases retryCounter
    {
      var res := server(url, attempts);
      var attempt := Examine(res);
      match attempt {
        case Fatal(failure) =>
          CallDecided(url, server, jitter, attempts, sleeps);
          return Err(failure), sleeps, attempts + 1;
        case Accepted(data) =>
          CallDecided(url, server, jitter, attempts, sleeps);
          return Ok(Some(data)), sleeps, attempts + 1;
        case Retry =>
      }
      var currentRandomDelay := jitter(url, attempts);
      CallRetried(url, server, jitter, attempts, sleeps);
      sleeps := sleeps + [currentRandomDelay * delayMultiplier];
      delayMultiplier := delayMultiplier * 2;
      retryCounter := retryCounter - 1;
      attempts := attempts + 1;
    }
    assert sleeps + [] == sleeps;
    r := Ok(None);
  }

  // ---------------------------------------------------------------------------------------------
  // Requests

  /** The unit ids a device configuration asks for, in the order the query lists them. */
  datatype UnitIds = UnitIds(temperature: int, pressure: int, windSpeed: int, rainfall: int, solarIrradiance: int)

  const HistoryKeys: seq<string> := [
    "application_key", "api_key", "mac", "temp_unitid", "pressure_unitid", "wind_speed_unitid",
    "rainfall_unitid", "solar_irradiance_unitid", "start_date", "end_date", "call_back"]

  /** The arguments of a `device/history` request, in the order `ReadHistoricalData` adds them. */
  function HistoryArgs(applicationKey: string, apiKey: string, mac: string, units: UnitIds,
                       startText: string, endText: string, channels: seq<string>): (r: QueryArgs)
    ensures |r| == |HistoryKeys| && forall i :: 0 <= i < |r| ==> r[i].0 == HistoryKeys[i]
  {
    [("application_key", applicationKey), ("api_key", apiKey), ("mac", mac),
     ("temp_unitid", IntToString(units.temperature)), ("pressure_unitid", IntToString(units.pressure)),
     ("wind_speed_unitid", IntToString(units.windSpeed)), ("rainfall_unitid", IntToString(units.rainfall)),
     ("solar_irradiance_unitid", IntToString(units.solarIrradiance)),
     ("start_date", startText), ("end_date", endText), ("call_back", Join(",", channels))]
  }

  /**
   * The URL `ReadHistoricalData` requests, or the exception it raises first: the range checks,
   * then a null channel list (custom channels, when given, replace the configured ones).
   */
  function HistoryRequest(applicationKey: string, apiKey: string, mac: string, units: UnitIds,
                          configuredChannels: Option<seq<string>>, now: int, startTime: int, endTime: int,
                          customChannels: Option<seq<string>>, formatTime: int -> string, enc: string -> string)
    : Result<string, Failure>
  {
    match RangeCheck(now, startTime, endTime)
    case Some(failure) => Err(failure)
    case None =>
      var channels := if customChannels.Some? then customChannels else configuredChannels;
      if channels.None? then Err(ArgumentNull("values"))
      else
        var args := HistoryArgs(applicationKey, apiKey, mac, units, formatTime(startTime), formatTime(endTime), channels.value);
        Ok(ApiBaseUrl + ApiReadHistoricalData + "?" + QueryString(Some(args), enc))
  }

  /** The call a request makes, or the exception raised before it. */
  function RequestCall(request: Result<string, Failure>, server: Server, jitter: Jitter): Call {
    match request
    case Err(failure) => Call(Err(failure), [])
    case Ok(url) => CallSpec(url, server, jitter)
  }

  /** The arguments of a `device/info` request. */
  function InfoArgs(applicationKey: string, apiKey: string, mac: string): QueryArgs {
    [("application_key", applicationKey), ("api_key", apiKey), ("mac", mac)]
  }

  /** The URL `GetDeviceInfo` requests. */
  function InfoUrl(applicationKey: string, apiKey: string, mac: string, enc: string -> string): string {
    ApiBaseUrl + ApiGetDeviceInfo + "?" + QueryString(Some(InfoArgs(applicationKey, apiKey, mac)), enc)
  }

  /** `HttpUtility.UrlEncode` encodes `&` and `=`. */
  ghost predicate EncodesDelimiters(enc: string -> string) {
    forall v :: '&' !in enc(v) && '=' !in enc(v)
  }

  /**
   * A history request that passes the checks asks for the eleven arguments in order, each key
   * with its encoded value; the range and channel checks decide whether it is made at all.
   */
  lemma HistoryRequestShape(applicationKey: string, apiKey: string, mac: string, units: UnitIds,
                            configuredChannels: Option<seq<string>>, now: int, startTime: int, endTime: int,
                            customChannels: Option<seq<string>>, formatTime: int -> string, enc: string -> string)
    requires EncodesDelimiters(enc)
    ensures var request := HistoryRequest(applicationKey, apiKey, mac, units, configuredChannels, now, startTime, endTime,
                                          customChannels, formatTime, enc);
      request.Ok? <==> WithinApiRange(now, startTime, endTime) && (customChannels.Some? || configuredChannels.Some?)
    ensures var request := HistoryRequest(applicationKey, apiKey, mac, units, configuredChannels, now, startTime, endTime,
                                          customChannels, formatTime, enc);
      request.Ok? ==>
        var prefix := ApiBaseUrl + ApiReadHistoricalData + "?";
        var channels := if customChannels.Some? then customChannels.value else configuredChannels.value;
        var args := HistoryArgs(applicationKey, apiKey, mac, units, formatTime(startTime), formatTime(endTime), channels);
        var pieces := Split(request.value[|prefix|..], '&');
        && request.value[..|prefix|] == prefix
        && |pieces| == |args|
        && forall i :: 0 <= i < |args| ==> Split(pieces[i], '=') == [HistoryKeys[i], enc(args[i].1)]
  {
    var request := HistoryRequest(applicationKey, apiKey, mac, units, configuredChannels, now, startTime, endTime,
                                  customChannels, formatTime, enc);
    if request.Ok? {
      var channels := if customChannels.Some? then customChannels.value else configuredChannels.value;
      var args := HistoryArgs(applicationKey, apiKey, mac, units, formatTime(startTime), formatTime(endTime), channels);
      HistoryKeysDelimited();
      QueryStringRoundTrip(args, enc);
      var prefix := ApiBaseUrl + ApiReadHistoricalData + "?";
      assert request.value == prefix + QueryString(Some(args), enc);
      assert request.value[|prefix|..] == QueryString(Some(args), enc);
    }
  }

  /** No history key holds `&` or `=`. */
  lemma HistoryKeysDelimited()
    ensures forall i :: 0 <= i < |HistoryKeys| ==> '&' !in HistoryKeys[i] && '=' !in HistoryKeys[i]
  {
  }

  // ---------------------------------------------------------------------------------------------
  // The device object

  /** The unit ids of a device configuration. */
  function UnitsOf(d: Configuration.EcowittDeviceConfiguration): UnitIds {
    UnitIds(d.TemperatureUnit, d.PressureUnit, d.WindSpeedUnit, d.RainfallUnit, d.SolarIrradianceUnit)
  }

  /** `Validate(false, ...)` of a device configuration: the output channel is not checked here. */
  function DeviceValidation(d: Configuration.EcowittDeviceConfiguration): Option<string> {
    Configuration.ValidateDevice(d, false)
  }

  /** `EcowittDevice`: a validated configuration and the two API keys. */
  class EcowittDevice {
    const Configuration: Configuration.EcowittDeviceConfiguration
    const apiKey: string
    const applicationKey: string

    /** The constructor proper; `NewEcowittDevice` performs its checks. */
    constructor (configuration: Configuration.EcowittDeviceConfiguration, apiKey: string, applicationKey: string)
      requires ConstructorCheck(Some(configuration), Some(apiKey), Some(applicationKey), DeviceValidation).None?
      ensures Configuration == configuration && this.apiKey == apiKey && this.applicationKey == applicationKey
    {
      Configuration := configuration;
      this.apiKey := apiKey;
      this.applicationKey := applicationKey;
    }

    /** The request `ReadHistoricalData` makes for these arguments. */
    function History(now: int, startTime: int, endTime: int, customChannels: Option<seq<string>>,
                     formatTime: int -> string, enc: string -> string): Result<string, Failure>
    {
      HistoryRequest(applicationKey, apiKey, Configuration.MAC, UnitsOf(Configuration), Configuration.ConfiguredChannels,
                     now, startTime, endTime, customChannels, formatTime, enc)
    }

    /** `ReadHistoricalData`: the checks, the query, and the call. */
    method ReadHistoricalData(now: int, startTime: int, endTime: int, customChannels: Option<seq<string>>,
                              formatTime: int -> string, enc: string -> string, server: Server, jitter: Jitter)
      returns (r: Result<Option<string>, Failure>, sleeps: seq<int>)
      ensures Call(r, sleeps) == RequestCall(History(now, startTime, endTime, customChannels, formatTime, enc), server, jitter)
    {
      var check := RangeCheck(now, startTime, endTime);
      if check.Some? {
        return Err(check.value), [];
      }
      var channels := if customChannels.Some? then customChannels else Configuration.ConfiguredChannels;
      if channels.None? {
        return Err(ArgumentNull("values")), [];
      }
      var args := HistoryArgs(applicationKey, apiKey, Configuration.MAC, UnitsOf(Configuration),
                              formatTime(startTime), formatTime(endTime), channels.value);
      var query := BuildQueryString(Some(args), enc);
      var attempts;
      r, sleeps, attempts := APICall(ApiBaseUrl + ApiReadHistoricalData + "?" + query, server, jitter);
    }

    /** `GetDeviceInfo`: the call for the device's details. */
    method GetDeviceInfo(enc: string -> string, server: Server, jitter: Jitter)
      returns (r: Result<Option<string>, Failure>, sleeps: seq<int>)
      ensures Call(r, sleeps) == CallSpec(InfoUrl(applicationKey, apiKey, Configuration.MAC, enc), server, jitter)
    {
      var query := BuildQueryString(Some(InfoArgs(applicationKey, apiKey, Configuration.MAC)), enc);
      var attempts;
      r, sleeps, attempts := APICall(ApiBaseUrl + ApiGetDeviceInfo + "?" + query, server, jitter);
    }
  }

  /** `new EcowittDevice(configuration, apiKey, applicationKey)`, which throws when a check fails. */
  method NewEcowittDevice(configuration: Option<Configuration.EcowittDeviceConfiguration>,
                          apiKey: Option<string>, applicationKey: Option<string>)
    returns (r: Result<EcowittDevice, Failure>)
    ensures var check := ConstructorCheck(configuration, apiKey, applicationKey, DeviceValidation);
      && (r.Err? <==> check.Some?)
      && (r.Err? ==> Some(r.error) == check)
    ensures r.Ok? ==> fresh(r.value) && r.value.Configuration == configuration.value
                      && r.value.apiKey == apiKey.value && r.value.applicationKey == applicationKey.value
  {
    var check := ConstructorCheck(configuration, apiKey, applicationKey, DeviceValidation);
    if check.Some? {
      return Err(check.value);
    }
    var device := new EcowittDevice(configuration.value, apiKey.value, applicationKey.value);
    return Ok(device);
  }
}
