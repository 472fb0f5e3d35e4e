/**
 * The device object of the older revision (src/EcowittDevice.cs). It talks to the API exactly as
 * the newer one does, so the checks, the query string and the retrying call are those of
 * `Gateway`; only the configuration record differs.
 */
module LegacyGateway {
  import opened Wrappers
  import opened Gateway
  import LC = LegacyConfiguration

  /** The unit ids of an older device configuration. */
  function DeviceUnits(d: LC.EcowittDeviceConfiguration): UnitIds {
    UnitIds(d.TemperatureUnit, d.PressureUnit, d.WindSpeedUnit, d.RainfallUnit, d.SolarIrradianceUnit)
  }

  /** `Enum.TryParse` is not consulted when the output channel is not validated; any parsers do. */
  const Unconsulted := LC.Parsers(t => false, t => false)

  /** `Validate(false, ...)` of an older device configuration. */
  function BasicValidation(d: LC.EcowittDeviceConfiguration): Option<string> {
    LC.ValidateDevice(d, false, Unconsulted)
  }

  /** `EcowittDevice` of the older revision. */
  class EcowittDevice {
    const Configuration: LC.EcowittDeviceConfiguration
    const apiKey: string
    const applicationKey: string

    /** The constructor proper; `NewEcowittDevice` performs its checks. */
    constructor (configuration: LC.EcowittDeviceConfiguration, apiKey: string, applicationKey: string)
      requires ConstructorCheck(Some(configuration), Some(apiKey), Some(applicationKey), BasicValidation).None?
      ensures Configuration == configuration && this.apiKey == apiKey && this.applicationKey == applicationKey
    {
      Configuration := configuration;
      this.apiKey := apiKey;
      this.applicationKey := applicationKey;
    }

    /** The request `ReadHistoricalData` makes for these arguments. */
    function History(now: int, startTime: int, endTime: int, customChannels: Option<seq<string>>,
                     formatTime: int -> string, enc: string -> string): Result<string, Failure>
    {
      HistoryRequest(applicationKey, apiKey, Configuration.MAC, DeviceUnits(Configuration), Configuration.ConfiguredChannels,
                     now, startTime, endTime, customChannels, formatTime, enc)
    }

    /** `ReadHistoricalData`: the checks, the query, and the call. */
    method ReadHistoricalData(now: int, startTime: int, endTime: int, customChannels: Option<seq<string>>,
                              formatTime: int -> string, enc: string -> string, server: Server, jitter: Jitter)
      returns (r: Result<Option<string>, Failure>, sleeps: seq<int>)
      ensures Call(r, sleeps) == RequestCall(History(now, startTime, endTime, customChannels, formatTime, enc), server, jitter)
    {
      var check := RangeCheck(now, startTime, endTime);
      if check.Some? {
        return Err(check.value), [];
      }
      var channels := if customChannels.Some? then customChannels else Configuration.ConfiguredChannels;
      if channels.None? {
        return Err(ArgumentNull("values")), [];
      }
      var args := HistoryArgs(applicationKey, apiKey, Configuration.MAC, DeviceUnits(Configuration),
                              formatTime(startTime), formatTime(endTime), channels.value);
      var query := BuildQueryString(Some(args), enc);
      var attempts;
      r, sleeps, attempts := APICall(ApiBaseUrl + ApiReadHistoricalData + "?" + query, server, jitter);
    }

    /** `GetDeviceInfo`: the call for the device's details. */
    method GetDeviceInfo(enc: string -> string, server: Server, jitter: Jitter)
      returns (r: Result<Option<string>, Failure>, sleeps: seq<int>)
      ensures Call(r, sleeps) == CallSpec(InfoUrl(applicationKey, apiKey, Configuration.MAC, enc), server, jitter)
    {
      var query := BuildQueryString(Some(InfoArgs(applicationKey, apiKey, Configuration.MAC)), enc);
      var attempts;
      r, sleeps, attempts := APICall(ApiBaseUrl + ApiGetDeviceInfo + "?" + query, server, jitter);
    }
  }

  /** `new EcowittDevice(configuration, apiKey, applicationKey)`, which throws when a check fails. */
  method NewEcowittDevice(configuration: Option<LC.EcowittDeviceConfiguration>,
                          apiKey: Option<string>, applicationKey: Option<string>)
    returns (r: Result<EcowittDevice, Failure>)
    ensures var check := ConstructorCheck(configuration, apiKey, applicationKey, BasicValidation);
      && (r.Err? <==> check.Some?)
      && (r.Err? ==> Some(r.error) == check)
    ensures r.Ok? ==> fresh(r.value) && r.value.Configuration == configuration.value
                      && r.value.apiKey == apiKey.value && r.value.applicationKey == applicationKey.value
  {
    var check := ConstructorCheck(configuration, apiKey, applicationKey, BasicValidation);
    if check.Some? {
      return Err(check.value);
    }
    var device := new EcowittDevice(configuration.value, apiKey.value, applicationKey.value);
    return Ok(device);
  }
}
