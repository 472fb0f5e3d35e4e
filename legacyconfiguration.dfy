/**
 * The older configuration records and validators of src/Configuration.cs. The channel type and
 * the timestamp format are strings here, checked with `Enum.TryParse`; which strings parse is
 * given (`isChannelType`, `isTimestampFormat`), as is `Uri.TryCreate` (`isUri`). Unlike the newer
 * revision, nothing checks channel IDs for duplicates or a device's channel ID against the
 * definitions.
 */
module LegacyConfiguration {
  import opened Wrappers
  import opened Text
  import CC = Configuration

  datatype OutputChannelConfiguration = OutputChannelConfiguration(
    Type: Option<string>,
    ID: int,
    CustomChannelsNames: map<string, string>,
    TimeStampFormat: Option<string>)

  datatype EcowittDeviceConfiguration = EcowittDeviceConfiguration(
    MAC: string,
    PollRateMinutes: int,
    ConfiguredChannels: Option<seq<string>>,
    TemperatureUnit: int,
    PressureUnit: int,
    WindSpeedUnit: int,
    RainfallUnit: int,
    SolarIrradianceUnit: int,
    OutputChannel: Option<OutputChannelConfiguration>)

  datatype OutputChannelDefinition = OutputChannelDefinition(Type: Option<string>, ID: int, URL: Option<string>)

  datatype ConfigurationData = ConfigurationData(
    Devices: Option<seq<EcowittDeviceConfiguration>>,
    OutputChannels: Option<seq<OutputChannelDefinition>>)

  /** `new ConfigurationData()`: two empty lists. */
  const DefaultSettings := ConfigurationData(Some([]), Some([]))

  /** What deserialising the raw configuration text gives. */
  datatype Deserialized = NullDocument | Document(data: ConfigurationData) | Throws(message: string)

  /** Which strings `Enum.TryParse` accepts for the channel type and for the timestamp format. */
  datatype Parsers = Parsers(isChannelType: Option<string> -> bool, isTimestampFormat: Option<string> -> bool)

  /**
   * `EcowittDeviceConfiguration.Validate`: `None` when the device is valid, otherwise the message
   * of the first check that fails.
   */
  function ValidateDevice(d: EcowittDeviceConfiguration, validateOutputChannels: bool, parsers: Parsers)
    : (r: Option<string>)
    ensures r.None? <==>
      && d.MAC != CC.UnsetMAC
      && CC.MinPollRate <= d.PollRateMinutes <= CC.MaxPollRate
      && d.ConfiguredChannels.Some? && |d.ConfiguredChannels.value| > 0
      && (validateOutputChannels ==>
            && d.OutputChannel.Some?
            && parsers.isChannelType(d.OutputChannel.value.Type)
            && d.OutputChannel.value.ID >= 0
            && parsers.isTimestampFormat(d.OutputChannel.value.TimeStampFormat))
    ensures d.MAC == CC.UnsetMAC ==> r == Some("MAC address not defined for device")
    ensures validateOutputChannels && d.OutputChannel.Some? && !parsers.isChannelType(d.OutputChannel.value.Type)
            && ValidateDevice(d, false, parsers).None? ==>
      r == Some("Invalid channel type: " + OrEmpty(d.OutputChannel.value.Type))
  {
    if d.MAC == CC.UnsetMAC then Some("MAC address not defined for device")
    else if d.PollRateMinutes < CC.MinPollRate || d.PollRateMinutes > CC.MaxPollRate then
      Some("Invalid device poll rate")
    else if d.ConfiguredChannels.None? || |d.ConfiguredChannels.value| == 0 then Some("No channels defined for device")
    else if !validateOutputChannels then None
    else if d.OutputChannel.None? then Some("No output channel defined for device")
    else if !parsers.isChannelType(d.OutputChannel.value.Type) then
      Some("Invalid channel type: " + OrEmpty(d.OutputChannel.value.Type))
    else if d.OutputChannel.value.ID < 0 then Some("Invalid channel ID")
    else if !parsers.isTimestampFormat(d.OutputChannel.value.TimeStampFormat) then
      Some("Invalid timestamp format: " + OrEmpty(d.OutputChannel.value.TimeStampFormat))
    else None
  }

  /** The first loop of `ValidateConfiguration`, from definition `k` on. */
  function CheckDefinitionsFrom(defs: seq<OutputChannelDefinition>, k: nat, ctx: CC.ConfigurationContext,
                                parsers: Parsers, isUri: Option<string> -> bool): Option<string>
    requires k <= |defs|
    decreases |defs| - k
  {
    if k == |defs| then None
    else if !parsers.isChannelType(defs[k].Type) then Some("Invalid channel type: " + OrEmpty(defs[k].Type))
    else if defs[k].ID < 0 then Some("Invalid channel ID")
    else if ctx == CC.AzureFunction && !isUri(defs[k].URL) then Some("Invalid URL: " + OrEmpty(defs[k].URL))
    else CheckDefinitionsFrom(defs, k + 1, ctx, parsers, isUri)
  }

  /** The second loop, from device `k` on. */
  function CheckDevicesFrom(devices: seq<EcowittDeviceConfiguration>, k: nat, parsers: Parsers): Option<string>
    requires k <= |devices|
    decreases |devices| - k
  {
    if k == |devices| then None
    else if ValidateDevice(devices[k], true, parsers).Some? then ValidateDevice(devices[k], true, parsers)
    else CheckDevicesFrom(devices, k + 1, parsers)
  }

  /** The checks of `ValidateConfiguration` after deserialisation: `None`, or the message of the first failure. */
  function CheckSettings(config: ConfigurationData, ctx: CC.ConfigurationContext, parsers: Parsers,
                         isUri: Option<string> -> bool): Option<string>
  {
    if config.Devices.None? || |config.Devices.value| == 0 then Some("No devices found in configuration")
    else if config.OutputChannels.None? || |config.OutputChannels.value| == 0 then
      Some("No output channels found in configuration")
    else
      match CheckDefinitionsFrom(config.OutputChannels.value, 0, ctx, parsers, isUri)
      case Some(m) => Some(m)
      case None => CheckDevicesFrom(config.Devices.value, 0, parsers)
  }

  /** The value `ValidateConfiguration` returns and its `errorMessage`. */
  function ValidationOutcome(raw: Option<Deserialized>, ctx: CC.ConfigurationContext, parsers: Parsers,
                             isUri: Option<string> -> bool): (bool, string)
  {
    match raw
    case None => (false, "")
    case Some(NullDocument) => (false, "")
    case Some(Throws(m)) => (false, m)
    case Some(Document(config)) =>
      match CheckSettings(config, ctx, parsers, isUri)
      case None => (true, "")
      case Some(m) => (false, m)
  }

  /** A configuration this revision accepts, stated without the order of the checks. */
  ghost predicate WellFormed(config: ConfigurationData, ctx: CC.ConfigurationContext, parsers: Parsers,
                             isUri: Option<string> -> bool)
  {
    && config.Devices.Some? && |config.Devices.value| > 0
    && config.OutputChannels.Some? && |config.OutputChannels.value| > 0
    && var defs := config.OutputChannels.value;
       var devices := config.Devices.value;
       && (forall i :: 0 <= i < |defs| ==> parsers.isChannelType(defs[i].Type) && defs[i].ID >= 0)
       && (ctx == CC.AzureFunction ==> forall i :: 0 <= i < |defs| ==> isUri(defs[i].URL))
       && (forall i :: 0 <= i < |devices| ==> ValidateDevice(devices[i], true, parsers).None?)
  }

  lemma {:induction false} DefinitionsFromOk(defs: seq<OutputChannelDefinition>, k: nat,
                                             ctx: CC.ConfigurationContext, parsers: Parsers,
                                             isUri: Option<string> -> bool)
    requires k <= |defs|
    ensures CheckDefinitionsFrom(defs, k, ctx, parsers, isUri).None? <==>
      && (forall i :: k <= i < |defs| ==> parsers.isChannelType(defs[i].Type) && defs[i].ID >= 0)
      && (ctx == CC.AzureFunction ==> forall i :: k <= i < |defs| ==> isUri(defs[i].URL))
    decreases |defs| - k
  {
    if k < |defs| {
      DefinitionsFromOk(defs, k + 1, ctx, parsers, isUri);
    }
  }

  lemma {:induction false} DevicesFromOk(devices: seq<EcowittDeviceConfiguration>, k: nat, parsers: Parsers)
    requires k <= |devices|
    ensures CheckDevicesFrom(devices, k, parsers).None? <==>
      forall i :: k <= i < |devices| ==> ValidateDevice(devices[i], true, parsers).None?
    decreases |devices| - k
  {
    if k < |devices| {
      DevicesFromOk(devices, k + 1, parsers);
    }
  }

  /** The settings pass every check exactly when they are well formed. */
  lemma CheckSettingsIsWellFormed(config: ConfigurationData, ctx: CC.ConfigurationContext, parsers: Parsers,
                                  isUri: Option<string> -> bool)
    ensures CheckSettings(config, ctx, parsers, isUri).None? <==> WellFormed(config, ctx, parsers, isUri)
  {
    if config.Devices.Some? && |config.Devices.value| > 0 && config.OutputChannels.Some? && |config.OutputChannels.value| > 0 {
      DefinitionsFromOk(config.OutputChannels.value, 0, ctx, parsers, isUri);
      DevicesFromOk(config.Devices.value, 0, parsers);
    }
  }

  /**
   * An example: a configuration in which two channel definitions share an ID and a device names
   * an ID no definition has is accepted, since the checks the newer revision adds are missing.
   */
  lemma DuplicateAndDanglingIdsAccepted(parsers: Parsers, isUri: Option<string> -> bool)
    requires parsers.isChannelType(Some("File")) && parsers.isTimestampFormat(Some("Timestamp"))
    ensures var oc := OutputChannelConfiguration(Some("File"), 7, map[], Some("Timestamp"));
      var device := EcowittDeviceConfiguration("00:0E:C6:00:00:01", 60, Some(["outdoor"]), 1, 3, 6, 12, 16, Some(oc));
      var def := OutputChannelDefinition(Some("File"), 1, None);
      CheckSettings(ConfigurationData(Some([device]), Some([def, def])), CC.Cmdline, parsers, isUri).None?
  {
    var oc := OutputChannelConfiguration(Some("File"), 7, map[], Some("Timestamp"));
    var device := EcowittDeviceConfiguration("00:0E:C6:00:00:01", 60, Some(["outdoor"]), 1, 3, 6, 12, 16, Some(oc));
    var def := OutputChannelDefinition(Some("File"), 1, None);
    var config := ConfigurationData(Some([device]), Some([def, def]));
    assert "00:0E:C6:00:00:01" != CC.UnsetMAC by {
      assert "00:0E:C6:00:00:01"[4] != CC.UnsetMAC[4];
    }
    assert ValidateDevice(device, true, parsers).None?;
    CheckSettingsIsWellFormed(config, CC.Cmdline, parsers, isUri);
  }

  /** The configuration object of the older revision. */
  class Configuration {
    const context: CC.ConfigurationContext
    const parsers: Parsers
    var rawConfig: Option<Deserialized>
    var ConfigurationSettings: ConfigurationData

    constructor(context: CC.ConfigurationContext, parsers: Parsers)
      ensures this.context == context && this.parsers == parsers
      ensures rawConfig.None? && ConfigurationSettings == DefaultSettings
    {
      this.context := context;
      this.parsers := parsers;
      rawConfig := None;
      ConfigurationSettings := DefaultSettings;
    }

    /** `ReadConfiguration`: the file read either fails with a message or yields the text. */
    method ReadConfiguration(read: Result<Deserialized, string>) returns (ok: bool, errorMessage: string)
      modifies this
      ensures read.Err? ==> !ok && errorMessage == read.error && rawConfig == old(rawConfig)
      ensures read.Ok? ==> ok && errorMessage == "" && rawConfig == Some(read.value)
      ensures ConfigurationSettings == old(ConfigurationSettings)
    {
      if read.Err? {
        return false, read.error;
      }
      rawConfig := Some(read.value);
      return true, "";
    }

    /** `ValidateConfiguration`: the settings are replaced only when every check passes. */
    method ValidateConfiguration(isUri: Option<string> -> bool) returns (ok: bool, errorMessage: string)
      modifies this
      ensures (ok, errorMessage) == ValidationOutcome(old(rawConfig), context, parsers, isUri)
      ensures ok ==> ConfigurationSettings == old(rawConfig).value.data
      ensures !ok ==> ConfigurationSettings == old(ConfigurationSettings)
      ensures rawConfig == old(rawConfig)
    {
      if rawConfig.None? || rawConfig.value.NullDocument? {
        return false, "";
      }
      if rawConfig.value.Throws? {
        return false, rawConfig.value.message;
      }
      var config := rawConfig.value.data;
      if config.Devices.None? || |config.Devices.value| == 0 {
        return false, "No devices found in configuration";
      }
      if config.OutputChannels.None? || |config.OutputChannels.value| == 0 {
        return false, "No output channels found in configuration";
      }
      var defs := config.OutputChannels.value;
      var k := 0;
      while k < |defs|
        invariant 0 <= k <= |defs|
        invariant CheckDefinitionsFrom(defs, k, context, parsers, isUri) == CheckDefinitionsFrom(defs, 0, context, parsers, isUri)
      {
        var d := defs[k];
        if !parsers.isChannelType(d.Type) {
          return false, "Invalid channel type: " + OrEmpty(d.Type);
        }
        if d.ID < 0 {
          return false, "Invalid channel ID";
        }
        if context == CC.AzureFunction && !isUri(d.URL) {
          return false, "Invalid URL: " + OrEmpty(d.URL);
        }
        k := k + 1;
      }
      var devices := config.Devices.value;
      k := 0;
      while k < |devices|
        invariant 0 <= k <= |devices|
        invariant CheckDevicesFrom(devices, k, parsers) == CheckDevicesFrom(devices, 0, parsers)
      {
        var m := ValidateDevice(devices[k], true, parsers);
        if m.Some? {
          return false, m.value;
        }
        k := k + 1;
      }
      ConfigurationSettings := config;
      return true, "";
    }
  }
}
