/**
 * The oldest orchestrator, src/Controler.cs. Every configured device gets one request for the
 * 360 minutes before the run; each payload is parsed by the older parser, whose `GetChannels`
 * reports no channel, and the parsed channels listed for the first device are handed to a file
 * output channel. The model records which channel names reach that hand-over, and proves that
 * none ever does.
 */
module LegacyController {
  import opened Wrappers
  import opened InputData
  import opened RunPlan
  import Gateway
  import LC = LegacyConfiguration
  import LG = LegacyGateway
  import LID = LegacyInputData
  import CC = Configuration
  import C = Controller

  /** The sample payloads the oldest offline run reads, in order. */
  const LegacySamples: seq<string> := ["historical_data.json", "historical_data_2.json"]

  /** The one request of every device: the 360 minutes up to the run's time. */
  function OnlineWindow(now: int): Window {
    Window(now - IncrementalMinutes * Minute, now, 0)
  }

  /** The run's time, the API's clock and the API's answer, per configured device index. */
  datatype LegacyRequests = LegacyRequests(now: int, callTime: nat -> int, fetch: nat -> Fetch)

  /**
   * What the request task of device `i` ends with: the range check and `string.Join` on a null
   * channel list throw inside the data request task.
   */
  function LegacyTask(d: LC.EcowittDeviceConfiguration, i: nat, req: LegacyRequests): Fetch {
    var w := OnlineWindow(req.now);
    if Gateway.RangeCheck(req.callTime(i), w.start, w.end).Some? || d.ConfiguredChannels.None? then Faulted
    else req.fetch(i)
  }

  /** The request loop from device `k` on: a device the constructor rejects stops the run. */
  function LegacyTasksFrom(devices: seq<LC.EcowittDeviceConfiguration>, k: nat, tasks: seq<Fetch>, keys: ApiKeys,
                           req: LegacyRequests): Result<seq<Fetch>, Fault>
    requires k <= |devices|
    decreases |devices| - k
  {
    if k == |devices| then Ok(tasks)
    else match Gateway.ConstructorCheck(Some(devices[k]), keys.apiKey, keys.applicationKey, LG.BasicValidation)
      case Some(failure) => Err(DeviceRejected(failure))
      case None => LegacyTasksFrom(devices, k + 1, tasks + [LegacyTask(devices[k], k, req)], keys, req)
  }

  /** What reading one payload leads to: the names now to be processed, or the end of the run. */
  datatype Step = Continue(toProcess: seq<string>) | Stop(end: C.RunEnd)

  /**
   * One payload: a null one or one that does not parse ends the run normally, since the parse
   * throws inside the `try`; otherwise the names `GetChannels` reports and the first device lists
   * join those to be processed.
   */
  function PayloadStep(tokens: seq<Token>, malformed: bool, configured: Option<seq<string>>, toProcess: seq<string>)
    : Step
  {
    var run := Parse(Legacy, tokens, []);
    if malformed || run.error.Some? then Stop(C.StoppedOnParseError)
    else match C.Selected([], configured)
      case Err(f) => Stop(C.Aborted(f))
      case Ok(selected) => Continue(toProcess + selected)
  }

  /**
   * The processing loop from task `k` on, given the names handed to an output channel so far.
   * Every name to be processed is handed over again with each later payload.
   */
  function ProcessFrom(tasks: seq<Fetch>, k: nat, configured: Option<seq<string>>, toProcess: seq<string>,
                       handed: seq<string>): (seq<string>, C.RunEnd)
    requires k <= |tasks|
    decreases |tasks| - k
  {
    if k == |tasks| then (handed, C.Completed)
    else match tasks[k]
      case Faulted => (handed, C.Aborted(TaskFaulted))
      case NoResult => (handed, C.StoppedOnParseError)
      case Payload(tokens, malformed) =>
        match PayloadStep(tokens, malformed, configured, toProcess)
        case Stop(end) => (handed, end)
        case Continue(names) => ProcessFrom(tasks, k + 1, configured, names, handed + names)
  }

  /** `RunOnlineProcessing`: the names handed to an output channel, and how the run ends. */
  function LegacyOnlineSpec(settings: LC.ConfigurationData, keys: ApiKeys, req: LegacyRequests): (seq<string>, C.RunEnd) {
    if settings.Devices.None? then ([], C.Aborted(NullReference))
    else if |settings.Devices.value| == 0 then ([], C.Aborted(IndexOutOfRange))
    else
      var devices := settings.Devices.value;
      match LegacyTasksFrom(devices, 0, [], keys, req)
      case Err(f) => ([], C.Aborted(f))
      case Ok(tasks) =>
        if exists j :: 0 <= j < |tasks| && tasks[j].Faulted? then ([], C.Aborted(TaskFaulted))
        else ProcessFrom(tasks, 0, devices[0].ConfiguredChannels, [], [])
  }

  /** The sample loop of `RunOfflineProcessing` from sample `i` on. */
  function OfflineFrom(configured: Option<seq<string>>, readJson: string -> Option<(seq<Token>, bool)>, i: nat,
                       toProcess: seq<string>, handed: seq<string>): (seq<string>, C.RunEnd)
    requires i <= |LegacySamples|
    decreases |LegacySamples| - i
  {
    if i == |LegacySamples| then (handed, C.Completed)
    else match readJson(LegacySamples[i])
      case None => (handed, C.Aborted(ReadFailed(LegacySamples[i])))
      case Some((tokens, malformed)) =>
        match PayloadStep(tokens, malformed, configured, toProcess)
        case Stop(end) => (handed, end)
        case Continue(names) => OfflineFrom(configured, readJson, i + 1, names, handed + names)
  }

  /** `RunOfflineProcessing`: the channels listed for the first device, over the two samples. */
  function LegacyOfflineSpec(settings: LC.ConfigurationData, readJson: string -> Option<(seq<Token>, bool)>)
    : (seq<string>, C.RunEnd)
  {
    if settings.Devices.None? then ([], C.Aborted(NullReference))
    else if |settings.Devices.value| == 0 then ([], C.Aborted(IndexOutOfRange))
    else OfflineFrom(settings.Devices.value[0].ConfiguredChannels, readJson, 0, [], [])
  }

  /** `RunProcessing`: without a configuration it throws; otherwise the selected run. */
  function LegacyProcessingSpec(hasConfig: bool, mode: C.DataProcessingMode, settings: LC.ConfigurationData,
                                keys: ApiKeys, req: LegacyRequests, readJson: string -> Option<(seq<Token>, bool)>)
    : (seq<string>, C.RunEnd)
  {
    if !hasConfig then ([], C.Aborted(NoConfiguration))
    else match mode
      case Offline => LegacyOfflineSpec(settings, readJson)
      case Online => LegacyOnlineSpec(settings, keys, req)
  }

  /** One payload, with the older parser object. */
  method ReadPayload(tokens: seq<Token>, malformed: bool, configured: Option<seq<string>>, toProcess: seq<string>)
    returns (step: Step)
    ensures step == PayloadStep(tokens, malformed, configured, toProcess)
  {
    var inputData := new LID.EcowittInputData(tokens);
    var outcome := inputData.ProcessInput();
    if outcome.Fail? || malformed {
      return Stop(C.StoppedOnParseError);
    }
    var dataInputChannels := inputData.GetChannels();
    var selected := C.SelectChannels(dataInputChannels, configured);
    match selected {
      case Err(f) => step := Stop(C.Aborted(f));
      case Ok(names) => step := Continue(toProcess + names);
    }
  }

  /** `Controler` of the oldest revision. */
  class LegacyControler {
    const configuration: LC.Configuration
    const hasConfig: bool

    constructor (configuration: LC.Configuration, hasConfig: bool)
      ensures this.configuration == configuration && this.hasConfig == hasConfig
    {
      this.configuration := configuration;
      this.hasConfig := hasConfig;
    }

    /** `RunOnlineProcessing`, given what the API answers. */
    method RunOnlineProcessing(keys: ApiKeys, req: LegacyRequests) returns (handed: seq<string>, end: C.RunEnd)
      ensures (handed, end) == LegacyOnlineSpec(configuration.ConfigurationSettings, keys, req)
    {
      var settings := configuration.ConfigurationSettings;
      if settings.Devices.None? {
        return [], C.Aborted(NullReference);
      }
      var devices := settings.Devices.value;
      if |devices| == 0 {
        return [], C.Aborted(IndexOutOfRange);
      }
      var configuredchannels := devices[0].ConfiguredChannels;
      var requestTasks: seq<Fetch> := [];
      for k := 0 to |devices|
        invariant LegacyTasksFrom(devices, k, requestTasks, keys, req) == LegacyTasksFrom(devices, 0, [], keys, req)
      {
        var device := LG.NewEcowittDevice(Some(devices[k]), keys.apiKey, keys.applicationKey);
        if device.Err? {
          return [], C.Aborted(DeviceRejected(device.error));
        }
        requestTasks := requestTasks + [LegacyTask(devices[k], k, req)];
      }
      for j := 0 to |requestTasks|
        invariant forall i :: 0 <= i < j ==> !requestTasks[i].Faulted?
      {
        if requestTasks[j].Faulted? {
          return [], C.Aborted(TaskFaulted);
        }
      }
      var channelsToBeProcessed: seq<string> := [];
      handed := [];
      for k := 0 to |requestTasks|
        invariant ProcessFrom(requestTasks, k, configuredchannels, channelsToBeProcessed, handed)
               == ProcessFrom(requestTasks, 0, configuredchannels, [], [])
      {
        var task := requestTasks[k];
        if task.Faulted? {
          return handed, C.Aborted(TaskFaulted);
        }
        if task.NoResult? {
          return handed, C.StoppedOnParseError;
        }
        var step := ReadPayload(task.tokens, task.malformed, configuredchannels, channelsToBeProcessed);
        if step.Stop? {
          return handed, step.end;
        }
        channelsToBeProcessed := step.toProcess;
        handed := HandOver(channelsToBeProcessed, handed);
      }
      end := C.Completed;
    }

    /** `RunOfflineProcessing`, given what each sample file holds. */
    method RunOfflineProcessing(readJson: string -> Option<(seq<Token>, bool)>) returns (handed: seq<string>, end: C.RunEnd)
      ensures (handed, end) == LegacyOfflineSpec(configuration.ConfigurationSettings, readJson)
    {
      var settings := configuration.ConfigurationSettings;
      if settings.Devices.None? {
        return [], C.Aborted(NullReference);
      }
      if |settings.Devices.value| == 0 {
        return [], C.Aborted(IndexOutOfRange);
      }
      var configuredchannels := settings.Devices.value[0].ConfiguredChannels;
      var channelsToBeProcessed: seq<string> := [];
      handed := [];
      for i := 0 to 2
        invariant OfflineFrom(configuredchannels, readJson, i, channelsToBeProcessed, handed)
               == OfflineFrom(configuredchannels, readJson, 0, [], [])
      {
        var s := readJson(LegacySamples[i]);
        if s.None? {
          return handed, C.Aborted(ReadFailed(LegacySamples[i]));
        }
        var step := ReadPayload(s.value.0, s.value.1, configuredchannels, channelsToBeProcessed);
        if step.Stop? {
          return handed, step.end;
        }
        channelsToBeProcessed := step.toProcess;
        handed := HandOver(channelsToBeProcessed, handed);
      }
      end := C.Completed;
    }

    /** `RunProcessing`: without a configuration it throws; otherwise the selected run. */
    method RunProcessing(mode: C.DataProcessingMode, keys: ApiKeys, req: LegacyRequests,
                         readJson: string -> Option<(seq<Token>, bool)>) returns (handed: seq<string>, end: C.RunEnd)
      ensures (handed, end) == LegacyProcessingSpec(hasConfig, mode, configuration.ConfigurationSettings, keys, req, readJson)
    {
      if !hasConfig {
        return [], C.Aborted(NoConfiguration);
      }
      match mode {
        case Offline => handed, end := RunOfflineProcessing(readJson);
        case Online => handed, end := RunOnlineProcessing(keys, req);
      }
    }
  }

  /**
   * The inner loop over the names to be processed: each one is handed to a new file output
   * channel (built from the name alone, initialised, fed and saved).
   */
  method HandOver(channelsToBeProcessed: seq<string>, handed: seq<string>) returns (handed': seq<string>)
    ensures handed' == handed + channelsToBeProcessed
  {
    handed' := handed;
    for c := 0 to |channelsToBeProcessed|
      invariant handed' == handed + channelsToBeProcessed[..c]
    {
      handed' := handed' + [channelsToBeProcessed[c]];
    }
    assert channelsToBeProcessed[..|channelsToBeProcessed|] == channelsToBeProcessed;
  }

  /**
   * `new Controler(...)` of the oldest revision never throws: a configuration that cannot be
   * read or validated is only logged, and the controller is left without one.
   */
  method NewLegacyControler(context: CC.ConfigurationContext, parsers: LC.Parsers, read: Result<LC.Deserialized, string>,
                            isUri: Option<string> -> bool) returns (c: LegacyControler)
    ensures c.hasConfig <==> read.Ok? && LC.ValidationOutcome(Some(read.value), context, parsers, isUri).0
    ensures c.hasConfig ==> c.configuration.ConfigurationSettings == read.value.data
    ensures !c.hasConfig ==> c.configuration.ConfigurationSettings == LC.DefaultSettings
    ensures fresh(c) && fresh(c.configuration)
  {
    var configuration := new LC.Configuration(context, parsers);
    var ok, configErrorMessage := configuration.ReadConfiguration(read);
    if ok {
      ok, configErrorMessage := configuration.ValidateConfiguration(isUri);
    }
    c := new LegacyControler(configuration, ok);
  }

  // ---------------------------------------------------------------------------------------------
  // What the oldest runs do

  /** Every device gets exactly one request, for the 360 minutes before the run. */
  lemma {:induction false} LegacyTasksShape(devices: seq<LC.EcowittDeviceConfiguration>, k: nat, tasks: seq<Fetch>,
                                            keys: ApiKeys, req: LegacyRequests)
    requires k <= |devices| && |tasks| == k
    requires forall i :: 0 <= i < k ==> tasks[i] == LegacyTask(devices[i], i, req)
    ensures var r := LegacyTasksFrom(devices, k, tasks, keys, req);
      r.Ok? ==> |r.value| == |devices| && forall i :: 0 <= i < |devices| ==> r.value[i] == LegacyTask(devices[i], i, req)
    decreases |devices| - k
  {
    if k < |devices| {
      LegacyTasksShape(devices, k + 1, tasks + [LegacyTask(devices[k], k, req)], keys, req);
    }
  }

  /**
   * The request loop succeeds exactly when every device passes the constructor's checks; each
   * request then ends with the API's answer unless the clock or a null channel list makes it
   * throw.
   */
  lemma LegacyRequestsMade(devices: seq<LC.EcowittDeviceConfiguration>, keys: ApiKeys, req: LegacyRequests)
    ensures var r := LegacyTasksFrom(devices, 0, [], keys, req);
      && (r.Ok? <==> forall i :: 0 <= i < |devices| ==>
            Gateway.ConstructorCheck(Some(devices[i]), keys.apiKey, keys.applicationKey, LG.BasicValidation).None?)
      && (r.Ok? ==> |r.value| == |devices| && forall i :: 0 <= i < |devices| ==> r.value[i] == LegacyTask(devices[i], i, req))
  {
    LegacyTasksShape(devices, 0, [], keys, req);
    LegacyTasksOk(devices, 0, [], keys, req);
  }

  lemma {:induction false} LegacyTasksOk(devices: seq<LC.EcowittDeviceConfiguration>, k: nat, tasks: seq<Fetch>,
                                         keys: ApiKeys, req: LegacyRequests)
    requires k <= |devices|
    ensures LegacyTasksFrom(devices, k, tasks, keys, req).Ok? <==> forall i :: k <= i < |devices| ==>
      Gateway.ConstructorCheck(Some(devices[i]), keys.apiKey, keys.applicationKey, LG.BasicValidation).None?
    decreases |devices| - k
  {
    if k < |devices| {
      LegacyTasksOk(devices, k + 1, tasks + [LegacyTask(devices[k], k, req)], keys, req);
    }
  }

  /** The window is the 360 minutes up to the run's time, and the API accepts it from the run's time on. */
  lemma OnlineWindowShape(now: int, later: int)
    requires now <= later <= now + Gateway.Day
    ensures OnlineWindow(now).end == now && OnlineWindow(now).end - OnlineWindow(now).start == 360 * 60
    ensures Gateway.RangeCheck(later, OnlineWindow(now).start, OnlineWindow(now).end).None?
  {
  }

  /** The first device's channel list is never consulted, since no name is ever reported. */
  lemma NothingReported(configured: Option<seq<string>>)
    ensures C.Selected([], configured) == Ok([])
  {
  }

  lemma {:induction false} ProcessHandsNothing(tasks: seq<Fetch>, k: nat, configured: Option<seq<string>>)
    requires k <= |tasks|
    ensures var (handed, end) := ProcessFrom(tasks, k, configured, [], []);
      handed == [] && (end.Aborted? ==> end.fault == TaskFaulted)
    decreases |tasks| - k
  {
    if k < |tasks| && tasks[k].Payload? {
      NothingReported(configured);
      ProcessHandsNothing(tasks, k + 1, configured);
    }
  }

  /**
   * No channel of the oldest online run ever reaches an output channel, so no file is written;
   * and a run gets past its checks only to end normally or on a faulted request.
   */
  lemma LegacyOnlineWritesNothing(settings: LC.ConfigurationData, keys: ApiKeys, req: LegacyRequests)
    ensures var (handed, end) := LegacyOnlineSpec(settings, keys, req);
      && handed == []
      && (end.Aborted? && settings.Devices.Some? && |settings.Devices.value| > 0 ==>
            end.fault.DeviceRejected? || end.fault == TaskFaulted)
  {
    if settings.Devices.Some? && |settings.Devices.value| > 0 {
      var devices := settings.Devices.value;
      var r := LegacyTasksFrom(devices, 0, [], keys, req);
      LegacyTasksFailure(devices, 0, [], keys, req);
      if r.Ok? {
        ProcessHandsNothing(r.value, 0, devices[0].ConfiguredChannels);
      }
    }
  }

  lemma {:induction false} LegacyTasksFailure(devices: seq<LC.EcowittDeviceConfiguration>, k: nat, tasks: seq<Fetch>,
                                              keys: ApiKeys, req: LegacyRequests)
    requires k <= |devices|
    ensures LegacyTasksFrom(devices, k, tasks, keys, req).Err? ==> LegacyTasksFrom(devices, k, tasks, keys, req).error.DeviceRejected?
    decreases |devices| - k
  {
    if k < |devices| {
      LegacyTasksFailure(devices, k + 1, tasks + [LegacyTask(devices[k], k, req)], keys, req);
    }
  }

  lemma {:induction false} OfflineHandsNothing(configured: Option<seq<string>>, readJson: string -> Option<(seq<Token>, bool)>, i: nat)
    requires i <= |LegacySamples|
    ensures var (handed, end) := OfflineFrom(configured, readJson, i, [], []);
      handed == [] && (end.Aborted? ==> end.fault.ReadFailed?)
    decreases |LegacySamples| - i
  {
    if i < |LegacySamples| && readJson(LegacySamples[i]).Some? {
      NothingReported(configured);
      OfflineHandsNothing(configured, readJson, i + 1);
    }
  }

  /** The oldest offline run hands no channel over either; it can only fail reading a sample. */
  lemma LegacyOfflineWritesNothing(settings: LC.ConfigurationData, readJson: string -> Option<(seq<Token>, bool)>)
    ensures var (handed, end) := LegacyOfflineSpec(settings, readJson);
      && handed == []
      && (end.Aborted? && settings.Devices.Some? && |settings.Devices.value| > 0 ==> end.fault.ReadFailed?)
  {
    if settings.Devices.Some? && |settings.Devices.value| > 0 {
      OfflineHandsNothing(settings.Devices.value[0].ConfiguredChannels, readJson, 0);
    }
  }
}
