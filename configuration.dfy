/**
 * The configuration records and validators of common_code/Configuration.cs. The JSON text is not
 * modelled: what `JsonSerializer.Deserialize<ConfigurationData>` returns for it (a record, the
 * JSON `null`, or an exception message) is the input.
 */
module Configuration {
  import opened Wrappers
  import opened Text
  import opened Decimal

  datatype TimestampFormat = Timestamp | UTC
  datatype ConfigurationContext = Cmdline | AzureFunction

  /** `ChannelTypes`, whose declaration is not part of this model; these are the members the source names. */
  datatype ChannelType = Invalid | File | Blob | Meta

  datatype OutputChannelConfiguration = OutputChannelConfiguration(
    ID: int,
    CustomChannelsNames: map<string, string>,
    TimeStampFormat: TimestampFormat,
    LocationChangesAllowed: bool,
    StationTypeChangesAllowed: bool)

  /** `new OutputChannelConfiguration()`. */
  const DefaultOutputChannel := OutputChannelConfiguration(0, map[], Timestamp, false, false)

  datatype EcowittDeviceConfiguration = EcowittDeviceConfiguration(
    MAC: string,
    PollRateMinutes: int,
    ConfiguredChannels: Option<seq<string>>,
    TemperatureUnit: int,
    PressureUnit: int,
    WindSpeedUnit: int,
    RainfallUnit: int,
    SolarIrradianceUnit: int,
    OutputChannel: Option<OutputChannelConfiguration>)

  datatype OutputChannelDefinition = OutputChannelDefinition(Type: ChannelType, ID: int, URL: Option<string>)

  datatype ConfigurationData = ConfigurationData(
    Devices: Option<seq<EcowittDeviceConfiguration>>,
    OutputChannels: Option<seq<OutputChannelDefinition>>)

  /** `new ConfigurationData()`: two empty lists. */
  const DefaultSettings := ConfigurationData(Some([]), Some([]))

  /** What deserialising the raw configuration text gives. */
  datatype Deserialized = NullDocument | Document(data: ConfigurationData) | Throws(message: string)

  const UnsetMAC := "00:00:00:00:00:00"
  const MinPollRate := 10
  const MaxPollRate := 10080

  /**
   * `EcowittDeviceConfiguration.Validate`: `None` when the device is valid, otherwise the message
   * of the first check that fails.
   */
  function ValidateDevice(d: EcowittDeviceConfiguration, validateOutputChannels: bool): (r: Option<string>)
    ensures r.None? <==>
      && d.MAC != UnsetMAC
      && MinPollRate <= d.PollRateMinutes <= MaxPollRate
      && d.ConfiguredChannels.Some? && |d.ConfiguredChannels.value| > 0
      && (validateOutputChannels ==> d.OutputChannel.Some? && d.OutputChannel.value.ID >= 0)
    ensures d.MAC == UnsetMAC ==> r == Some("MAC address not defined for device")
    ensures d.MAC != UnsetMAC && !(MinPollRate <= d.PollRateMinutes <= MaxPollRate) ==> r == Some("Invalid device poll rate")
  {
    if d.MAC == UnsetMAC then Some("MAC address not defined for device")
    else if d.PollRateMinutes < MinPollRate || d.PollRateMinutes > MaxPollRate then Some("Invalid device poll rate")
    else if d.ConfiguredChannels.None? || |d.ConfiguredChannels.value| == 0 then Some("No channels defined for device")
    else if validateOutputChannels && d.OutputChannel.None? then Some("No output channel defined for device")
    else if validateOutputChannels && d.OutputChannel.value.ID < 0 then Some("Invalid channel ID")
    else None
  }

  /** The first loop of `ValidateConfiguration`, from definition `k` on, with the IDs collected so far. */
  function CheckDefinitionsFrom(defs: seq<OutputChannelDefinition>, k: nat, ids: seq<int>,
                                ctx: ConfigurationContext, isUri: Option<string> -> bool): Result<seq<int>, string>
    requires k <= |defs|
    decreases |defs| - k
  {
    if k == |defs| then Ok(ids)
    else if defs[k].ID < 0 then Err("Invalid channel ID")
    else if defs[k].ID in ids then Err("Duplicate channel ID")
    else if ctx == AzureFunction && !isUri(defs[k].URL) then Err("Invalid URL: " + OrEmpty(defs[k].URL))
    else CheckDefinitionsFrom(defs, k + 1, ids + [defs[k].ID], ctx, isUri)
  }

  /** The second loop, from device `k` on. */
  function CheckDevicesFrom(devices: seq<EcowittDeviceConfiguration>, k: nat, ids: seq<int>): Option<string>
    requires k <= |devices|
    decreases |devices| - k
  {
    if k == |devices| then None
    else match ValidateDevice(devices[k], true)
      case Some(m) => Some(m)
      case None =>
        if devices[k].OutputChannel.value.ID !in ids
        then Some("Nonexistent output channel ID: " + IntToString(devices[k].OutputChannel.value.ID))
        else CheckDevicesFrom(devices, k + 1, ids)
  }

  /** The checks of `ValidateConfiguration` after deserialisation: `None`, or the message of the first failure. */
  function CheckSettings(config: ConfigurationData, ctx: ConfigurationContext, isUri: Option<string> -> bool): Option<string> {
    if config.Devices.None? || |config.Devices.value| == 0 then Some("No devices found in configuration")
    else if config.OutputChannels.None? || |config.OutputChannels.value| == 0 then Some("No output channels found in configuration")
    else match CheckDefinitionsFrom(config.OutputChannels.value, 0, [], ctx, isUri)
      case Err(m) => Some(m)
      case Ok(ids) => CheckDevicesFrom(config.Devices.value, 0, ids)
  }

  /** The value `ValidateConfiguration` returns and its `errorMessage`. */
  function ValidationOutcome(raw: Option<Deserialized>, ctx: ConfigurationContext, isUri: Option<string> -> bool): (bool, string) {
    match raw
    case None => (false, "")
    case Some(NullDocument) => (false, "")
    case Some(Throws(m)) => (false, m)
    case Some(Document(config)) =>
      match CheckSettings(config, ctx, isUri)
      case None => (true, "")
      case Some(m) => (false, m)
  }

  function IdsOf(defs: seq<OutputChannelDefinition>): (ids: seq<int>)
    ensures |ids| == |defs| && forall i :: 0 <= i < |defs| ==> ids[i] == defs[i].ID
  {
    seq(|defs|, i requires 0 <= i < |defs| => defs[i].ID)
  }

  /** A configuration the run can use, stated without the order of the checks. */
  ghost predicate WellFormed(config: ConfigurationData, ctx: ConfigurationContext, isUri: Option<string> -> bool) {
    && config.Devices.Some? && |config.Devices.value| > 0
    && config.OutputChannels.Some? && |config.OutputChannels.value| > 0
    && var defs := config.OutputChannels.value;
       var devices := config.Devices.value;
       && DefinitionsWellFormedFrom(defs, 0, [], ctx, isUri)
       && DevicesWellFormed(devices, IdsOf(defs))
  }

  /**
   * From definition `k` on, with the IDs `ids` already taken: every channel definition has a
   * non-negative ID not taken before, and on Azure a URL that parses.
   */
  ghost predicate DefinitionsWellFormedFrom(defs: seq<OutputChannelDefinition>, k: nat, ids: seq<int>,
                                            ctx: ConfigurationContext, isUri: Option<string> -> bool)
  {
    && (forall i :: k <= i < |defs| ==> defs[i].ID >= 0 && defs[i].ID !in ids)
    && (forall i, j :: k <= i < j < |defs| ==> defs[i].ID != defs[j].ID)
    && (ctx == AzureFunction ==> forall i :: k <= i < |defs| ==> isUri(defs[i].URL))
  }

  /** Every device is valid and names the ID of a channel definition. */
  ghost predicate DevicesWellFormed(devices: seq<EcowittDeviceConfiguration>, ids: seq<int>) {
    forall i :: 0 <= i < |devices| ==> ValidateDevice(devices[i], true).None? && devices[i].OutputChannel.value.ID in ids
  }

  lemma {:induction false} DefinitionsFromOk(defs: seq<OutputChannelDefinition>, k: nat, ids: seq<int>,
                                             ctx: ConfigurationContext, isUri: Option<string> -> bool)
    requires k <= |defs|
    ensures CheckDefinitionsFrom(defs, k, ids, ctx, isUri).Ok? <==> DefinitionsWellFormedFrom(defs, k, ids, ctx, isUri)
    ensures var r := CheckDefinitionsFrom(defs, k, ids, ctx, isUri);
      r.Ok? ==> r.value == ids + IdsOf(defs)[k..]
    decreases |defs| - k
  {
    if k < |defs| {
      DefinitionsFromOk(defs, k + 1, ids + [defs[k].ID], ctx, isUri);
      assert IdsOf(defs)[k..] == [defs[k].ID] + IdsOf(defs)[k + 1..];
    }
  }

  lemma {:induction false} DevicesFromOk(devices: seq<EcowittDeviceConfiguration>, k: nat, ids: seq<int>)
    requires k <= |devices|
    ensures CheckDevicesFrom(devices, k, ids).None? <==>
      forall i :: k <= i < |devices| ==>
        ValidateDevice(devices[i], true).None? && devices[i].OutputChannel.value.ID in ids
    decreases |devices| - k
  {
    if k < |devices| {
      DevicesFromOk(devices, k + 1, ids);
    }
  }

  /** The settings pass every check exactly when they are well formed. */
  lemma CheckSettingsIsWellFormed(config: ConfigurationData, ctx: ConfigurationContext, isUri: Option<string> -> bool)
    ensures CheckSettings(config, ctx, isUri).None? <==> WellFormed(config, ctx, isUri)
  {
    if config.Devices.Some? && |config.Devices.value| > 0 && config.OutputChannels.Some? && |config.OutputChannels.value| > 0 {
      var defs, devices := config.OutputChannels.value, config.Devices.value;
      DefinitionsFromOk(defs, 0, [], ctx, isUri);
      var r := CheckDefinitionsFrom(defs, 0, [], ctx, isUri);
      if r.Ok? {
        assert r.value == IdsOf(defs) by { assert [] + IdsOf(defs)[0..] == IdsOf(defs); }
        DevicesFromOk(devices, 0, r.value);
      }
    }
  }

  /** The configuration object: the deserialised text it read and the settings it accepted. */
  class Configuration {
    const context: ConfigurationContext
    var rawConfig: Option<Deserialized>
    var ConfigurationSettings: ConfigurationData

    constructor(context: ConfigurationContext)
      ensures this.context == context && rawConfig.None? && ConfigurationSettings == DefaultSettings
    {
      this.context := context;
      rawConfig := None;
      ConfigurationSettings := DefaultSettings;
    }

    /** `ReadConfiguration`: the file read either fails with a message or yields the text. */
    method ReadConfiguration(read: Result<Deserialized, string>) returns (ok: bool, errorMessage: string)
      modifies this
      ensures read.Err? ==> !ok && errorMessage == read.error && rawConfig == old(rawConfig)
      ensures read.Ok? ==> ok && errorMessage == "" && rawConfig == Some(read.value)
      ensures ConfigurationSettings == old(ConfigurationSettings)
    {
      if read.Err? {
        return false, read.error;
      }
      rawConfig := Some(read.value);
      return true, "";
    }

    /**
     * `ValidateConfiguration`: the settings are replaced only when every check passes. `isUri`
     * stands for `Uri.TryCreate`.
     */
    method ValidateConfiguration(isUri: Option<string> -> bool) returns (ok: bool, errorMessage: string)
      modifies this
      ensures (ok, errorMessage) == ValidationOutcome(old(rawConfig), context, isUri)
      ensures ok ==> ConfigurationSettings == old(rawConfig).value.data
      ensures !ok ==> ConfigurationSettings == old(ConfigurationSettings)
      ensures rawConfig == old(rawConfig)
    {
      if rawConfig.None? || rawConfig.value.NullDocument? {
        return false, "";
      }
      if rawConfig.value.Throws? {
        return false, rawConfig.value.message;
      }
      var config := rawConfig.value.data;
      if config.Devices.None? || |config.Devices.value| == 0 {
        return false, "No devices found in configuration";
      }
      if config.OutputChannels.None? || |config.OutputChannels.value| == 0 {
        return false, "No output channels found in configuration";
      }
      var defs := config.OutputChannels.value;
      var channelsIds: seq<int> := [];
      var k := 0;
      while k < |defs|
        invariant 0 <= k <= |defs|
        invariant CheckDefinitionsFrom(defs, k, channelsIds, context, isUri) == CheckDefinitionsFrom(defs, 0, [], context, isUri)
      {
        var d := defs[k];
        if d.ID < 0 {
          return false, "Invalid channel ID";
        }
        if d.ID in channelsIds {
          return false, "Duplicate channel ID";
        }
        channelsIds := channelsIds + [d.ID];
        if context == AzureFunction && !isUri(d.URL) {
          return false, "Invalid URL: " + OrEmpty(d.URL);
        }
        k := k + 1;
      }
      var devices := config.Devices.value;
      k := 0;
      while k < |devices|
        invariant 0 <= k <= |devices|
        invariant CheckDevicesFrom(devices, k, channelsIds) == CheckDevicesFrom(devices, 0, channelsIds)
      {
        var m := ValidateDevice(devices[k], true);
        if m.Some? {
          return false, m.value;
        }
        if devices[k].OutputChannel.value.ID !in channelsIds {
          return false, "Nonexistent output channel ID: " + IntToString(devices[k].OutputChannel.value.ID);
        }
        k := k + 1;
      }
      ConfigurationSettings := config;
      return true, "";
    }
  }
}
