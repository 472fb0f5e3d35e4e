/**
 * The second half of `RunOnlineProcessing` in src/common_code/Controler.cs and its older copy in
 * common_code/Controler.cs (binding an output channel to each device channel, routing the
 * fetched data to the bound channels, saving each), the run as a whole, `RunOfflineProcessing`,
 * `RunProcessing` and the constructor. Every output channel is a value: the class methods of
 * the file and blob channels are proved equal to the functions threaded through here.
 */
module Controller {
  import opened Wrappers
  import opened Assoc
  import opened Text
  import opened Units
  import opened InputData
  import opened Backend
  import opened RunPlan
  import OC = OutputChannel
  import CC = Configuration
  import Gateway
  import CSV = CSVFileOutputChannel
  import Blob = BlobOutputChannel

  // ---------------------------------------------------------------------------------------------
  // Progress of a loop that can throw

  /** The state a loop reached, and the exception that stopped it there, if any. */
  datatype Progress<S> = Progress(state: S, fault: Option<Fault>)

  // ---------------------------------------------------------------------------------------------
  // Output channels

  /** Where a channel writes: a CSV folder and its metadata file, or a blob base and its metadata blob. */
  datatype Sink = CsvSink(filePath: string, metaFile: string) | BlobSink(blobBase: string, metaBlob: string)

  /** A bound output channel: where it writes, and what its `SaveData` works from. */
  datatype OpenChannel = OpenChannel(sink: Sink, input: SaveInput)

  /** `outputChannels`, keyed by MAC + channel name, in insertion order. */
  type OutputChannels = Assoc<OpenChannel>

  /** The files and the channels bound so far. */
  datatype Binding = Binding(store: Store, channels: OutputChannels)

  /** A channel as `InitChannel` leaves it: an empty buffer, and the stored metadata and its checkpoint when adopted. */
  function Opened(meta: OC.OutputChannelMetadata, adopted: Option<OC.OutputChannelMetadata>): SaveInput {
    SaveInput(OC.Buffer(None, None, 0, 0), if adopted.Some? then adopted.value.LastTimestamp else 0,
              meta.ChannelName, if adopted.Some? then adopted.value else meta)
  }

  function MetadataName(sink: Sink): string {
    match sink
    case CsvSink(_, metaFile) => metaFile
    case BlobSink(_, metaBlob) => metaBlob
  }

  /**
   * The metadata the binding loop builds for channel `ch` from the cloud's details; the units
   * keep the record's defaults. The source then assigns a `TimestampFormat`, a member the
   * metadata record does not declare; that assignment is not modelled.
   */
  function ChannelMetadata(ch: string, details: Gateway.DeviceDetailData): OC.OutputChannelMetadata {
    OC.OutputChannelMetadata(ch, OrEmpty(details.Name), OrEmpty(details.StationType), OrEmpty(details.MAC), 0,
                             details.CreateTime, details.Id, details.Longitude, details.Latitude,
                             Celsius, hPa, mps, mm, Wpm, CC.DefaultOutputChannel)
  }

  /** `OutputChannels.Where(x => x.ID == id).FirstOrDefault()`. */
  function FirstWithId(defs: seq<CC.OutputChannelDefinition>, id: int): (r: Option<CC.OutputChannelDefinition>)
    ensures r.None? <==> forall k :: 0 <= k < |defs| ==> defs[k].ID != id
    ensures r.Some? ==> exists k :: 0 <= k < |defs| && defs[k] == r.value && r.value.ID == id
                                    && forall j :: 0 <= j < k ==> defs[j].ID != id
  {
    if defs == [] then None
    else if defs[0].ID == id then Some(defs[0])
    else
      var r := FirstWithId(defs[1..], id);
      if r.Some? then
        ghost var k :| 0 <= k < |defs[1..]| && defs[1..][k] == r.value && r.value.ID == id
                       && forall j :: 0 <= j < k ==> defs[1..][j].ID != id;
        assert defs[k + 1] == r.value;
        assert forall j :: 0 < j < k + 1 ==> defs[j] == defs[1..][j - 1];
        r
      else r
  }

  /** What the switch on the definition's type does: construct a channel, throw, or skip an unimplemented type. */
  datatype Construction = Built(sink: Sink) | Rejected(message: string) | Unimplemented

  /**
   * The switch on the channel type, with the constructor checks of `CSVFileOutputChannel` and
   * `BlobOutputChannel`. `DefaultAzureCredential` is never null here; `urlParses` stands for
   * `Uri.TryCreate`.
   */
  function ConstructChannel(def: CC.OutputChannelDefinition, meta: OC.OutputChannelMetadata,
                            urlParses: Option<string> -> bool): (r: Construction)
    ensures r.Unimplemented? <==> !(def.Type.File? || def.Type.Blob?)
    ensures (def.Type.File? || def.Type.Blob?) && !OC.Validate(meta) ==> r == Rejected("Invalid output channel configuration")
    ensures def.Type.File? && OC.Validate(meta) ==>
      r == Built(CsvSink(CSV.FolderOf(def.URL), CSV.MetadataFileName(CSV.FolderOf(def.URL), meta.ChannelName)))
    ensures def.Type.Blob? ==>
      (r.Built? <==> OC.Validate(meta) && !IsNullOrWhiteSpace(def.URL) && urlParses(def.URL))
    ensures def.Type.Blob? && r.Built? ==>
      r.sink == BlobSink(def.URL.value, Blob.MetadataBlobName(def.URL.value, meta.ChannelName))
  {
    match def.Type
    case File =>
      if !OC.Validate(meta) then Rejected("Invalid output channel configuration")
      else
        var path := CSV.FolderOf(def.URL);
        Built(CsvSink(path, CSV.MetadataFileName(path, meta.ChannelName)))
    case Blob =>
      if !OC.Validate(meta) then Rejected("Invalid output channel configuration")
      else if IsNullOrWhiteSpace(def.URL) then Rejected("Blob URL is empty")
      else if !urlParses(def.URL) then Rejected("Invalid URL provided")
      else Built(BlobSink(def.URL.value, Blob.MetadataBlobName(def.URL.value, meta.ChannelName)))
    case _ => Unimplemented
  }

  /** What the binding loop reads besides the verified devices. */
  datatype BindContext = BindContext(definitions: Option<seq<CC.OutputChannelDefinition>>,
                                     details: Assoc<Gateway.DeviceDetailData>,
                                     urlParses: Option<string> -> bool)

  /**
   * One pass of the inner binding loop for channel `ch` of device `d`: an id already bound is
   * passed over; a missing definition or a rejected construction throws; a channel whose
   * `InitChannel` returns false, or of a type not implemented, is left unbound.
   */
  function BindChannel(ctx: BindContext, d: CC.EcowittDeviceConfiguration, ch: string, st: Binding): Progress<Binding> {
    var id := d.MAC + ch;
    if id in Keys(st.channels) then Progress(st, None)
    else match Lookup(ctx.details, d.MAC)
      case None => Progress(st, Some(NullReference))
      case Some(details) =>
        var meta := ChannelMetadata(ch, details);
        match d.OutputChannel
        case None => Progress(st, Some(NullReference))
        case Some(settings) =>
          var config := OC.OutputChannelBehaviorConfiguration(settings.LocationChangesAllowed, settings.StationTypeChangesAllowed);
          match ctx.definitions
          case None => Progress(st, Some(NullReference))
          case Some(defs) =>
            match FirstWithId(defs, settings.ID)
            case None => Progress(st, Some(MissingChannelDefinition))
            case Some(def) =>
              match ConstructChannel(def, meta, ctx.urlParses)
              case Unimplemented => Progress(st, None)
              case Rejected(message) => Progress(st, Some(ChannelRejected(message)))
              case Built(sink) =>
                var (store', outcome, adopted) := InitSpec(MetadataName(sink), meta, config, st.store, sink.BlobSink?);
                match outcome
                case Ready => Progress(Binding(store', st.channels + [(id, OpenChannel(sink, Opened(meta, adopted)))]), None)
                case Refused(_) => Progress(st.(store := store'), None)
                case Threw => Progress(st.(store := store'), Some(InitThrew))
  }

  /** The inner binding loop from channel `c` of `chs` on. */
  function BindChannelsFrom(ctx: BindContext, d: CC.EcowittDeviceConfiguration, chs: seq<string>, c: nat, st: Binding)
    : Progress<Binding>
    requires c <= |chs|
    decreases |chs| - c
  {
    if c == |chs| then Progress(st, None)
    else
      var p := BindChannel(ctx, d, chs[c], st);
      if p.fault.Some? then p else BindChannelsFrom(ctx, d, chs, c + 1, p.state)
  }

  /** The outer binding loop from verified device `j` on; a null channel list throws. */
  function BindDevicesFrom(ctx: BindContext, verified: Verified, j: nat, st: Binding): Progress<Binding>
    requires j <= |verified|
    decreases |verified| - j
  {
    if j == |verified| then Progress(st, None)
    else
      var d := verified[j].0;
      if d.ConfiguredChannels.None? then Progress(st, Some(NullReference))
      else
        var p := BindChannelsFrom(ctx, d, d.ConfiguredChannels.value, 0, st);
        if p.fault.Some? then p else BindDevicesFrom(ctx, verified, j + 1, p.state)
  }

  /**
   * One pass of the inner binding loop, constructing and initialising the channel objects
   * themselves.
   */
  method BindChannelStep(ctx: BindContext, d: CC.EcowittDeviceConfiguration, ch: string, st: Binding)
    returns (p: Progress<Binding>)
    ensures p == BindChannel(ctx, d, ch, st)
  {
    var id := d.MAC + ch;
    if id in Keys(st.channels) {
      return Progress(st, None);
    }
    var deviceDetails := Lookup(ctx.details, d.MAC);
    if deviceDetails.None? {
      return Progress(st, Some(NullReference));
    }
    var meta := ChannelMetadata(ch, deviceDetails.value);
    if d.OutputChannel.None? {
      return Progress(st, Some(NullReference));
    }
    var settings := d.OutputChannel.value;
    var config := OC.OutputChannelBehaviorConfiguration(settings.LocationChangesAllowed, settings.StationTypeChangesAllowed);
    if ctx.definitions.None? {
      return Progress(st, Some(NullReference));
    }
    var def := FirstWithId(ctx.definitions.value, settings.ID);
    if def.None? {
      return Progress(st, Some(MissingChannelDefinition));
    }
    var store', outcome, sink, input;
    match def.value.Type {
      case File =>
        var r := CSV.NewCSVFileOutputChannel(def.value.URL, meta, config);
        if r.Err? {
          return Progress(st, Some(ChannelRejected(r.error)));
        }
        var c := r.value;
        store', outcome := c.InitChannel(st.store);
        sink, input := CsvSink(c.filePath, c.metaDataFileName), c.Input();
      case Blob =>
        var r := Blob.NewBlobOutputChannel(def.value.URL, true, ctx.urlParses(def.value.URL), meta, config);
        if r.Err? {
          return Progress(st, Some(ChannelRejected(r.error)));
        }
        var c := r.value;
        store', outcome := c.InitChannel(st.store);
        sink, input := BlobSink(c.blobBase, c.MetadataBlob()), c.Input();
      case _ =>
        return Progress(st, None);
    }
    match outcome {
      case Ready => p := Progress(Binding(store', st.channels + [(id, OpenChannel(sink, input))]), None);
      case Refused(_) => p := Progress(st.(store := store'), None);
      case Threw => p := Progress(st.(store := store'), Some(InitThrew));
    }
  }

  /** The binding loops of `RunOnlineProcessing`. */
  method BindOutputChannels(ctx: BindContext, verified: Verified, store: Store) returns (p: Progress<Binding>)
    ensures p == BindDevicesFrom(ctx, verified, 0, Binding(store, []))
  {
    var st := Binding(store, []);
    for j := 0 to |verified|
      invariant BindDevicesFrom(ctx, verified, j, st) == BindDevicesFrom(ctx, verified, 0, Binding(store, []))
    {
      var d := verified[j].0;
      if d.ConfiguredChannels.None? {
        return Progress(st, Some(NullReference));
      }
      var chs := d.ConfiguredChannels.value;
      ghost var st0 := st;
      for c := 0 to |chs|
        invariant BindChannelsFrom(ctx, d, chs, c, st) == BindChannelsFrom(ctx, d, chs, 0, st0)
      {
        var q := BindChannelStep(ctx, d, chs[c], st);
        if q.fault.Some? {
          return q;
        }
        st := q.state;
      }
    }
    return Progress(st, None);
  }

  // ---------------------------------------------------------------------------------------------
  // Routing the fetched data

  /**
   * One pass of the inner routing loop for parsed channel `name` of a device with MAC `mac`: a
   * channel with no binding is only logged; otherwise `GetChannel` (which throws on a blank
   * name) feeds `AddData` of the bound channel, whose exceptions propagate.
   */
  function RouteChannel(mac: string, parsed: InputData.Channels, name: string, bound: OutputChannels)
    : Progress<OutputChannels>
  {
    var id := mac + name;
    match Lookup(bound, id)
    case None => Progress(bound, None)
    case Some(oc) =>
      if IsBlank(name) then Progress(bound, Some(BlankChannelName))
      else
        var (buffer, err) := OC.AddDataSpec(oc.input.buffer, Lookup(parsed, name));
        var bound' := Put(bound, id, oc.(input := oc.input.(buffer := buffer)));
        Progress(bound', if err.Some? then Some(AddFailed(err.value)) else None)
  }

  /** The inner routing loop from parsed channel `c` of `names` on. */
  function RouteChannelsFrom(mac: string, parsed: InputData.Channels, names: seq<string>, c: nat, bound: OutputChannels)
    : Progress<OutputChannels>
    requires c <= |names|
    decreases |names| - c
  {
    if c == |names| then Progress(bound, None)
    else
      var p := RouteChannel(mac, parsed, names[c], bound);
      if p.fault.Some? then p else RouteChannelsFrom(mac, parsed, names, c + 1, p.state)
  }

  /**
   * What a completed task's payload parses to: nothing when it is null or the parse throws
   * (that data request is then skipped), otherwise the channels.
   */
  function Parsed(f: Fetch): Option<InputData.Channels> {
    match f
    case Payload(tokens, malformed) =>
      var run := Parse(Current, tokens, []);
      if malformed || run.error.Some? then None else Some(run.state.channels)
    case _ => None
  }

  /**
   * The outer routing loop from sorted task `k` on. Reading the result of a faulted task
   * rethrows; a task whose payload does not parse is skipped.
   */
  function RouteTasksFrom(tasks: seq<DataTask>, k: nat, bound: OutputChannels): Progress<OutputChannels>
    requires k <= |tasks|
    decreases |tasks| - k
  {
    if k == |tasks| then Progress(bound, None)
    else if tasks[k].result.Faulted? then Progress(bound, Some(TaskFaulted))
    else match Parsed(tasks[k].result)
      case None => RouteTasksFrom(tasks, k + 1, bound)
      case Some(parsed) =>
        var p := RouteChannelsFrom(tasks[k].device.MAC, parsed, Keys(parsed), 0, bound);
        if p.fault.Some? then p else RouteTasksFrom(tasks, k + 1, p.state)
  }

  /** One pass of the inner routing loop, with `GetChannel` of the parser object. */
  method RouteChannelStep(mac: string, inputData: InputData.EcowittInputData, name: string, bound: OutputChannels)
    returns (p: Progress<OutputChannels>)
    ensures p == RouteChannel(mac, inputData.channelsList, name, bound)
  {
    var id := mac + name;
    var oc := Lookup(bound, id);
    if oc.None? {
      return Progress(bound, None);
    }
    var inputChannel := inputData.GetChannel(name);
    if inputChannel.Err? {
      return Progress(bound, Some(BlankChannelName));
    }
    var (buffer, err) := OC.AddDataSpec(oc.value.input.buffer, inputChannel.value);
    var bound' := Put(bound, id, oc.value.(input := oc.value.input.(buffer := buffer)));
    p := Progress(bound', if err.Some? then Some(AddFailed(err.value)) else None);
  }

  /** The routing loops of `RunOnlineProcessing`, parsing each payload with a fresh parser object. */
  method RouteData(tasks: seq<DataTask>, bound: OutputChannels) returns (p: Progress<OutputChannels>)
    ensures p == RouteTasksFrom(tasks, 0, bound)
  {
    var current := bound;
    for k := 0 to |tasks|
      invariant RouteTasksFrom(tasks, k, current) == RouteTasksFrom(tasks, 0, bound)
    {
      var task := tasks[k];
      if task.result.Faulted? {
        return Progress(current, Some(TaskFaulted));
      }
      if task.result.NoResult? {
        continue;
      }
      var inputData := new InputData.EcowittInputData(task.result.tokens);
      var outcome := inputData.ProcessInput();
      if outcome.Fail? || task.result.malformed {
        continue;
      }
      assert Parsed(task.result) == Some(inputData.channelsList);
      var dataInputChannels := inputData.GetChannels();
      assert dataInputChannels == Keys(inputData.channelsList);
      ghost var start, parsed := current, inputData.channelsList;
      for c := 0 to |dataInputChannels|
        invariant inputData.channelsList == parsed
        invariant RouteChannelsFrom(task.device.MAC, parsed, dataInputChannels, c, current)
               == RouteChannelsFrom(task.device.MAC, parsed, dataInputChannels, 0, start)
      {
        var q := RouteChannelStep(task.device.MAC, inputData, dataInputChannels[c], current);
        if q.fault.Some? {
          return q;
        }
        current := q.state;
      }
    }
    return Progress(current, None);
  }

  // ---------------------------------------------------------------------------------------------
  // Saving

  /** `SaveData` of one bound channel, on its backend. */
  function SaveChannel(oc: OpenChannel, store: Store): (Store, Option<SaveError>) {
    match oc.sink
    case CsvSink(filePath, metaFile) =>
      var (store', _, err) := CSV.SaveSpec(filePath, metaFile, oc.input, store);
      (store', err)
    case BlobSink(blobBase, metaBlob) =>
      var (store', _, err) := Blob.BlobSaveSpec(blobBase, metaBlob, oc.input, store);
      (store', err)
  }

  /** The save loop from bound channel `k` on, in binding order; the first exception stops it. */
  function SaveFrom(bound: OutputChannels, k: nat, store: Store): Progress<Store>
    requires k <= |bound|
    decreases |bound| - k
  {
    if k == |bound| then Progress(store, None)
    else
      var (store', err) := SaveChannel(bound[k].1, store);
      if err.Some? then Progress(store', Some(SaveFailed(err.value))) else SaveFrom(bound, k + 1, store')
  }

  /** One channel of the save loop: its exception stops the loop, otherwise the loop goes on. */
  lemma SaveFromStep(bound: OutputChannels, k: nat, store: Store)
    requires k < |bound|
    ensures var r := SaveChannel(bound[k].1, store);
      SaveFrom(bound, k, store)
      == if r.1.Some? then Progress(r.0, Some(SaveFailed(r.1.value))) else SaveFrom(bound, k + 1, r.0)
  {
  }

  /** The save loop of `RunOnlineProcessing`. */
  method SaveAll(bound: OutputChannels, store: Store) returns (p: Progress<Store>)
    ensures p == SaveFrom(bound, 0, store)
  {
    var current := store;
    for k := 0 to |bound|
      invariant SaveFrom(bound, k, current) == SaveFrom(bound, 0, store)
    {
      var (store', err) := SaveChannel(bound[k].1, current);
      SaveFromStep(bound, k, current);
      if err.Some? {
        return Progress(store', Some(SaveFailed(err.value)));
      }
      current := store';
    }
    return Progress(current, None);
  }

  // ---------------------------------------------------------------------------------------------
  // The online run

  /** How a run ends: normally, by returning early, or by an exception. */
  datatype RunEnd = Completed | NoDevicesAvailable | StoppedOnParseError | Aborted(fault: Fault)

  /**
   * What the online run reads from outside: the API keys, what each details request and each
   * data request ends with, the run's time and mode, and `Uri.TryCreate`.
   */
  datatype Environment = Environment(keys: ApiKeys, details: nat -> DetailsFetch, requests: Requests,
                                     urlParses: Option<string> -> bool)

  /** `Task.WaitAll` on the details tasks throws when any of them faulted. */
  predicate AnyDetailsFaulted(outcomes: seq<DetailsFetch>) {
    exists i :: 0 <= i < |outcomes| && outcomes[i].DetailsFaulted?
  }

  /** What every details task of the configured devices ends with. */
  function DetailsOutcomes(devices: seq<CC.EcowittDeviceConfiguration>, keys: ApiKeys, details: nat -> DetailsFetch)
    : (r: seq<DetailsFetch>)
    ensures |r| == |devices| && forall i :: 0 <= i < |devices| ==> r[i] == DetailsOutcome(devices[i], i, keys, details)
  {
    seq(|devices|, i requires 0 <= i < |devices| => DetailsOutcome(devices[i], i, keys, details))
  }

  /** The channels bound by a run that gets past its tasks. */
  function BoundBy(settings: CC.ConfigurationData, devices: seq<CC.EcowittDeviceConfiguration>,
                   outcomes: seq<DetailsFetch>, env: Environment, store: Store): Progress<Binding>
    requires |devices| == |outcomes|
  {
    var ctx := BindContext(settings.OutputChannels, DetailsUpTo(devices, outcomes, |devices|), env.urlParses);
    BindDevicesFrom(ctx, VerifiedUpTo(devices, outcomes, |devices|), 0, Binding(store, []))
  }

  /**
   * `RunOnlineProcessing` on the files `store`: the files when the run ends, and how it ends.
   * Null lists throw; a faulted details or data task makes `Task.WaitAll` throw; with no
   * verified device the run returns before fetching; otherwise the data request tasks are sorted, channels
   * bound, the data routed, and every bound channel saved.
   */
  function OnlineSpec(settings: CC.ConfigurationData, env: Environment, store: Store): (Store, RunEnd) {
    if settings.Devices.None? then (store, Aborted(NullReference))
    else
      var devices := settings.Devices.value;
      var outcomes := DetailsOutcomes(devices, env.keys, env.details);
      if AnyDetailsFaulted(outcomes) then (store, Aborted(TaskFaulted))
      else
        var verified := VerifiedUpTo(devices, outcomes, |devices|);
        if verified == [] then (store, NoDevicesAvailable)
        else match TasksUpTo(verified, |verified|, env.keys, env.requests)
          case Err(f) => (store, Aborted(f))
          case Ok(tasks) =>
            if AnyFaulted(tasks) then (store, Aborted(TaskFaulted))
            else BindRouteSave(BoundBy(settings, devices, outcomes, env, store), tasks)
  }

  /** The end of an online run: with the channels bound, the sorted data is routed and every channel saved. */
  function BindRouteSave(b: Progress<Binding>, tasks: seq<DataTask>): (Store, RunEnd) {
    if b.fault.Some? then (b.state.store, Aborted(b.fault.value))
    else
      var r := RouteTasksFrom(SortTasks(tasks), 0, b.state.channels);
      if r.fault.Some? then (b.state.store, Aborted(r.fault.value))
      else
        var s := SaveFrom(r.state, 0, b.state.store);
        (s.state, if s.fault.Some? then Aborted(s.fault.value) else Completed)
  }

  /** `Task.WaitAll` over the details tasks. */
  method WaitAllDetails(outcomes: seq<DetailsFetch>) returns (faulted: bool)
    ensures faulted == AnyDetailsFaulted(outcomes)
  {
    faulted := false;
    for i := 0 to |outcomes|
      invariant faulted == exists j :: 0 <= j < i && outcomes[j].DetailsFaulted?
    {
      faulted := faulted || outcomes[i].DetailsFaulted?;
    }
  }

  /** `Task.WaitAll` over the data tasks. */
  method WaitAllData(tasks: seq<DataTask>) returns (faulted: bool)
    ensures faulted == AnyFaulted(tasks)
  {
    faulted := false;
    for i := 0 to |tasks|
      invariant faulted == exists j :: 0 <= j < i && tasks[j].result.Faulted?
    {
      faulted := faulted || tasks[i].result.Faulted?;
    }
  }

  /** Which run `RunProcessing` starts. */
  datatype DataProcessingMode = Online | Offline

  /**
   * Which copy of the controller: src/common_code/Controler.cs (`Newest`), whose constructor
   * throws when the configuration cannot be read, or common_code/Controler.cs (`Older`), whose
   * constructor only logs that and leaves the controller without configuration.
   */
  datatype Edition = Newest | Older

  /** `Controler`. */
  class Controler {
    const edition: Edition
    const configuration: CC.Configuration
    const hasConfig: bool

    constructor (edition: Edition, configuration: CC.Configuration, hasConfig: bool)
      ensures this.edition == edition && this.configuration == configuration && this.hasConfig == hasConfig
    {
      this.edition := edition;
      this.configuration := configuration;
      this.hasConfig := hasConfig;
    }

    /** `RunOnlineProcessing`, given what the API and the files answer. */
    method RunOnlineProcessing(env: Environment, store: Store) returns (store': Store, end: RunEnd)
      ensures (store', end) == OnlineSpec(configuration.ConfigurationSettings, env, store)
    {
      var settings := configuration.ConfigurationSettings;
      if settings.Devices.None? {
        return store, Aborted(NullReference);
      }
      var devices := settings.Devices.value;
      var outcomes := FetchDetails(devices, env.keys, env.details);
      assert outcomes == DetailsOutcomes(devices, env.keys, env.details);
      var faulted := WaitAllDetails(outcomes);
      if faulted {
        return store, Aborted(TaskFaulted);
      }
      var verifiedDevices, devicesDetails := FilterVerified(devices, outcomes);
      if |verifiedDevices| == 0 {
        return store, NoDevicesAvailable;
      }
      var dataRequestTasks := MakeTasks(verifiedDevices, env.keys, env.requests);
      if dataRequestTasks.Err? {
        return store, Aborted(dataRequestTasks.error);
      }
      faulted := WaitAllData(dataRequestTasks.value);
      if faulted {
        return store, Aborted(TaskFaulted);
      }
      var sorted := SortTasks(dataRequestTasks.value);
      var ctx := BindContext(settings.OutputChannels, devicesDetails, env.urlParses);
      var b := BindOutputChannels(ctx, verifiedDevices, store);
      if b.fault.Some? {
        return b.state.store, Aborted(b.fault.value);
      }
      var r := RouteData(sorted, b.state.channels);
      if r.fault.Some? {
        return b.state.store, Aborted(r.fault.value);
      }
      var saved := SaveAll(r.state, b.state.store);
      store', end := saved.state, if saved.fault.Some? then Aborted(saved.fault.value) else Completed;
    }

    /** `RunOfflineProcessing`, given what each sample file holds and the files. */
    method RunOfflineProcessing(readJson: string -> Option<(seq<Token>, bool)>, store: Store) returns (store': Store, end: RunEnd)
      ensures (store', end) == OfflineSpec(configuration.ConfigurationSettings, readJson, store)
    {
      var settings := configuration.ConfigurationSettings;
      if settings.Devices.None? {
        return store, Aborted(NullReference);
      }
      if |settings.Devices.value| < 2 {
        return store, Aborted(IndexOutOfRange);
      }
      var configuredchannels := settings.Devices.value[1].ConfiguredChannels;
      var channelsToBeProcessed: seq<string> := [];
      var current := store;
      for i := 0 to |DataSamples|
        invariant OfflineSamplesFrom(configuredchannels, readJson, i, channelsToBeProcessed, current)
               == OfflineSamplesFrom(configuredchannels, readJson, 0, [], store)
      {
        var s := readJson(DataSamples[i]);
        if s.None? {
          return current, Aborted(ReadFailed(DataSamples[i]));
        }
        var inputData := new InputData.EcowittInputData(s.value.0);
        var outcome := inputData.ProcessInput();
        if outcome.Fail? || s.value.1 {
          return current, StoppedOnParseError;
        }
        var dataInputChannels := inputData.GetChannels();
        assert dataInputChannels == Keys(inputData.channelsList);
        var selected := SelectChannels(dataInputChannels, configuredchannels);
        if selected.Err? {
          return current, Aborted(selected.error);
        }
        channelsToBeProcessed := channelsToBeProcessed + selected.value;
        var p := OfflineChannels(inputData, channelsToBeProcessed, current);
        if p.fault.Some? {
          return p.state, Aborted(p.fault.value);
        }
        current := p.state;
      }
      return current, Completed;
    }

    /** `RunProcessing`: without a configuration it throws; otherwise the selected run. */
    method RunProcessing(mode: DataProcessingMode, env: Environment, readJson: string -> Option<(seq<Token>, bool)>,
                         store: Store) returns (store': Store, end: RunEnd)
      ensures (store', end) == ProcessingSpec(hasConfig, mode, configuration.ConfigurationSettings, env, readJson, store)
    {
      if !hasConfig {
        return store, Aborted(NoConfiguration);
      }
      match mode {
        case Offline => store', end := RunOfflineProcessing(readJson, store);
        case Online => store', end := RunOnlineProcessing(env, store);
      }
    }
  }

  // ---------------------------------------------------------------------------------------------
  // What the online run does to the files

  /** Every file of `store` is still there in `store'`, with its old content as a prefix. */
  predicate Grows(store: Store, store': Store) {
    forall n :: n in store.files ==> n in store'.files && Extends(store.files[n], store'.files[n])
  }

  lemma GrowsTrans(s0: Store, s1: Store, s2: Store)
    requires Grows(s0, s1) && Grows(s1, s2)
    ensures Grows(s0, s2)
  {
    forall n | n in s0.files ensures n in s2.files && Extends(s0.files[n], s2.files[n]) {
      assert s2.files[n][..|s1.files[n]|][..|s0.files[n]|] == s2.files[n][..|s0.files[n]|];
    }
  }

  /** Binding reads and writes metadata documents only: no data file changes. */
  lemma {:induction false} BindingKeepsFiles(ctx: BindContext, verified: Verified, j: nat, st: Binding)
    requires j <= |verified|
    ensures BindDevicesFrom(ctx, verified, j, st).state.store.files == st.store.files
    decreases |verified| - j
  {
    if j < |verified| {
      var d := verified[j].0;
      if d.ConfiguredChannels.Some? {
        var chs := d.ConfiguredChannels.value;
        ChannelBindingKeepsFiles(ctx, d, chs, 0, st);
        var p := BindChannelsFrom(ctx, d, chs, 0, st);
        if p.fault.None? {
          BindingKeepsFiles(ctx, verified, j + 1, p.state);
        }
      }
    }
  }

  lemma {:induction false} ChannelBindingKeepsFiles(ctx: BindContext, d: CC.EcowittDeviceConfiguration,
                                                    chs: seq<string>, c: nat, st: Binding)
    requires c <= |chs|
    ensures BindChannelsFrom(ctx, d, chs, c, st).state.store.files == st.store.files
    decreases |chs| - c
  {
    if c < |chs| {
      var p := BindChannel(ctx, d, chs[c], st);
      assert p.state.store.files == st.store.files;
      if p.fault.None? {
        ChannelBindingKeepsFiles(ctx, d, chs, c + 1, p.state);
      }
    }
  }

  /** Saving one channel only appends to files or creates them. */
  lemma SaveChannelGrows(oc: OpenChannel, store: Store)
    ensures Grows(store, SaveChannel(oc, store).0)
  {
    match oc.sink
    case CsvSink(filePath, metaFile) =>
      CSV.SaveOnlyAppends(filePath, metaFile, oc.input, store, false);
    case BlobSink(blobBase, metaBlob) =>
      Blob.BlobSaveOnlyAppends(blobBase, metaBlob, oc.input, store, false);
  }

  lemma {:induction false} SaveFromGrows(bound: OutputChannels, k: nat, store: Store)
    requires k <= |bound|
    ensures Grows(store, SaveFrom(bound, k, store).state)
    decreases |bound| - k
  {
    if k < |bound| {
      var (store', err) := SaveChannel(bound[k].1, store);
      SaveChannelGrows(bound[k].1, store);
      SaveFromStep(bound, k, store);
      if err.None? {
        SaveFromGrows(bound, k + 1, store');
        GrowsTrans(store, store', SaveFrom(bound, k + 1, store').state);
      }
    }
  }

  /**
   * However it ends, an online run never loses data: every file it finds is still there with its
   * old content as a prefix.
   */
  lemma OnlineRunOnlyAppends(settings: CC.ConfigurationData, env: Environment, store: Store)
    ensures Grows(store, OnlineSpec(settings, env, store).0)
  {
    if settings.Devices.Some? {
      var devices := settings.Devices.value;
      var outcomes := DetailsOutcomes(devices, env.keys, env.details);
      var verified := VerifiedUpTo(devices, outcomes, |devices|);
      var ctx := BindContext(settings.OutputChannels, DetailsUpTo(devices, outcomes, |devices|), env.urlParses);
      BindingKeepsFiles(ctx, verified, 0, Binding(store, []));
      var tasks := TasksUpTo(verified, |verified|, env.keys, env.requests);
      if tasks.Ok? {
        BindRouteSaveGrows(BoundBy(settings, devices, outcomes, env, store), tasks.value, store);
      }
    }
  }

  lemma BindRouteSaveGrows(b: Progress<Binding>, tasks: seq<DataTask>, store: Store)
    requires b.state.store.files == store.files
    ensures Grows(store, BindRouteSave(b, tasks).0)
  {
    if b.fault.None? {
      var r := RouteTasksFrom(SortTasks(tasks), 0, b.state.channels);
      if r.fault.None? {
        SaveFromGrows(r.state, 0, b.state.store);
      }
    }
  }

  // ---------------------------------------------------------------------------------------------
  // Which channels are bound

  /** `ch` is one of the channels configured for `d`. */
  predicate ConfiguredFor(d: CC.EcowittDeviceConfiguration, ch: string) {
    d.ConfiguredChannels.Some? && ch in d.ConfiguredChannels.value
  }

  /** `id` is the MAC of a verified device followed by one of its configured channels. */
  ghost predicate VerifiedId(verified: Verified, id: string) {
    exists j, ch :: 0 <= j < |verified| && ConfiguredFor(verified[j].0, ch) && id == verified[j].0.MAC + ch
  }

  /**
   * What binding keeps true of the channels bound so far: no id twice, every id that of a
   * verified device channel, every buffer empty and the channel's name at the end of its id.
   */
  ghost predicate BoundWell(verified: Verified, channels: OutputChannels) {
    && DistinctKeys(channels)
    && forall q :: 0 <= q < |channels| ==>
         && VerifiedId(verified, channels[q].0)
         && channels[q].1.input.buffer == OC.Buffer(None, None, 0, 0)
  }

  lemma BindChannelWell(ctx: BindContext, verified: Verified, j: nat, ch: string, st: Binding)
    requires j < |verified| && ConfiguredFor(verified[j].0, ch) && BoundWell(verified, st.channels)
    ensures BoundWell(verified, BindChannel(ctx, verified[j].0, ch, st).state.channels)
  {
    var d := verified[j].0;
    var id := d.MAC + ch;
    var r := BindChannel(ctx, d, ch, st).state.channels;
    if r != st.channels {
      assert id !in Keys(st.channels);
      assert r == st.channels + [(id, r[|r| - 1].1)];
      forall a, b | 0 <= a < b < |r| ensures r[a].0 != r[b].0 {
        if b == |st.channels| {
          assert Keys(st.channels)[a] == st.channels[a].0;
        }
      }
      assert VerifiedId(verified, r[|r| - 1].0);
    }
  }

  lemma {:induction false} BindChannelsWell(ctx: BindContext, verified: Verified, j: nat, c: nat, st: Binding)
    requires j < |verified| && verified[j].0.ConfiguredChannels.Some?
    requires c <= |verified[j].0.ConfiguredChannels.value| && BoundWell(verified, st.channels)
    ensures BoundWell(verified, BindChannelsFrom(ctx, verified[j].0, verified[j].0.ConfiguredChannels.value, c, st).state.channels)
    decreases |verified[j].0.ConfiguredChannels.value| - c
  {
    var d := verified[j].0;
    var chs := d.ConfiguredChannels.value;
    if c < |chs| {
      assert ConfiguredFor(d, chs[c]);
      BindChannelWell(ctx, verified, j, chs[c], st);
      var p := BindChannel(ctx, d, chs[c], st);
      if p.fault.None? {
        BindChannelsWell(ctx, verified, j, c + 1, p.state);
      }
    }
  }

  /**
   * Each id, MAC + channel name, is bound at most once and only for a channel configured on a
   * verified device, and every bound channel starts with an empty buffer.
   */
  lemma {:induction false} BindingIsWell(ctx: BindContext, verified: Verified, j: nat, st: Binding)
    requires j <= |verified| && BoundWell(verified, st.channels)
    ensures BoundWell(verified, BindDevicesFrom(ctx, verified, j, st).state.channels)
    decreases |verified| - j
  {
    if j < |verified| {
      var d := verified[j].0;
      if d.ConfiguredChannels.Some? {
        BindChannelsWell(ctx, verified, j, 0, st);
        var p := BindChannelsFrom(ctx, d, d.ConfiguredChannels.value, 0, st);
        if p.fault.None? {
          BindingIsWell(ctx, verified, j + 1, p.state);
        }
      }
    }
  }

  // ---------------------------------------------------------------------------------------------
  // What routing changes

  /** `b` holds the channels of `a` under the same ids in the same order; only buffers may differ. */
  predicate SameChannels(a: OutputChannels, b: OutputChannels) {
    && |a| == |b|
    && forall q :: 0 <= q < |a| ==>
         && a[q].0 == b[q].0 && a[q].1.sink == b[q].1.sink
         && b[q].1.input == a[q].1.input.(buffer := b[q].1.input.buffer)
  }

  lemma SameChannelsTrans(a: OutputChannels, b: OutputChannels, c: OutputChannels)
    requires SameChannels(a, b) && SameChannels(b, c)
    ensures SameChannels(a, c)
  {
  }

  lemma SameChannelsDistinct(a: OutputChannels, b: OutputChannels)
    requires SameChannels(a, b) && DistinctKeys(a)
    ensures DistinctKeys(b)
  {
    forall i, j | 0 <= i < j < |b| ensures b[i].0 != b[j].0 {
      assert a[i].0 == b[i].0 && a[j].0 == b[j].0;
    }
  }

  lemma RouteChannelSame(mac: string, parsed: InputData.Channels, name: string, bound: OutputChannels)
    requires DistinctKeys(bound)
    ensures SameChannels(bound, RouteChannel(mac, parsed, name, bound).state)
  {
    var id := mac + name;
    var oc := Lookup(bound, id);
    if oc.Some? && !IsBlank(name) {
      var i := IndexOf(bound, id);
      ghost var w :| 0 <= w < |bound| && bound[w] == (id, oc.value);
      assert w == i;
      var (buffer, err) := OC.AddDataSpec(oc.value.input.buffer, Lookup(parsed, name));
      var v := oc.value.(input := oc.value.input.(buffer := buffer));
      assert Put(bound, id, v) == bound[i := (id, v)];
    }
  }

  lemma {:induction false} RouteChannelsSame(mac: string, parsed: InputData.Channels, names: seq<string>, c: nat,
                                             bound: OutputChannels)
    requires c <= |names| && DistinctKeys(bound)
    ensures SameChannels(bound, RouteChannelsFrom(mac, parsed, names, c, bound).state)
    decreases |names| - c
  {
    if c < |names| {
      RouteChannelSame(mac, parsed, names[c], bound);
      var p := RouteChannel(mac, parsed, names[c], bound);
      if p.fault.None? {
        SameChannelsDistinct(bound, p.state);
        RouteChannelsSame(mac, parsed, names, c + 1, p.state);
        SameChannelsTrans(bound, p.state, RouteChannelsFrom(mac, parsed, names, c + 1, p.state).state);
      }
    }
  }

  /**
   * Routing feeds the bound channels and nothing else: the same ids in the same order, the same
   * destinations, names, checkpoints and metadata; only the buffers take data.
   */
  lemma {:induction false} RoutingKeepsChannels(tasks: seq<DataTask>, k: nat, bound: OutputChannels)
    requires k <= |tasks| && DistinctKeys(bound)
    ensures SameChannels(bound, RouteTasksFrom(tasks, k, bound).state)
    decreases |tasks| - k
  {
    if k < |tasks| && !tasks[k].result.Faulted? {
      match Parsed(tasks[k].result)
      case None =>
        RoutingKeepsChannels(tasks, k + 1, bound);
      case Some(parsed) =>
        RouteChannelsSame(tasks[k].device.MAC, parsed, Keys(parsed), 0, bound);
        var p := RouteChannelsFrom(tasks[k].device.MAC, parsed, Keys(parsed), 0, bound);
        if p.fault.None? {
          SameChannelsDistinct(bound, p.state);
          RoutingKeepsChannels(tasks, k + 1, p.state);
          SameChannelsTrans(bound, p.state, RouteTasksFrom(tasks, k + 1, p.state).state);
        }
    }
  }

  // ---------------------------------------------------------------------------------------------
  // When saving succeeds

  /** `SaveData` throws on a channel that received no rows or has no columns. */
  lemma SaveChannelNeedsData(oc: OpenChannel, store: Store)
    ensures !HasData(oc.input.buffer) ==> SaveChannel(oc, store).1.Some? && SaveChannel(oc, store).1.value in {NoData, EmptyColumns}
  {
  }

  /**
   * The save loop gets through only if every bound channel received data: a channel that no
   * payload fed stops the run with the exception of its `SaveData`.
   */
  lemma {:induction false} SaveNeedsData(bound: OutputChannels, k: nat, store: Store)
    requires k <= |bound|
    ensures SaveFrom(bound, k, store).fault.None? ==> forall q :: k <= q < |bound| ==> HasData(bound[q].1.input.buffer)
    decreases |bound| - k
  {
    if k < |bound| {
      var r := SaveChannel(bound[k].1, store);
      SaveChannelNeedsData(bound[k].1, store);
      SaveFromStep(bound, k, store);
      if r.1.None? {
        assert HasData(bound[k].1.input.buffer);
        SaveNeedsData(bound, k + 1, r.0);
        if SaveFrom(bound, k + 1, r.0).fault.None? {
          forall q | k <= q < |bound| ensures HasData(bound[q].1.input.buffer) {
            if q > k {
              assert k + 1 <= q;
            }
          }
        }
      }
    }
  }

  /** When the cloud confirms no configured device, the run returns before touching any file. */
  lemma NoVerifiedDeviceNoWrites(settings: CC.ConfigurationData, env: Environment, store: Store)
    requires settings.Devices.Some?
    requires var devices := settings.Devices.value;
      forall i :: 0 <= i < |devices| ==> DetailsOutcome(devices[i], i, env.keys, env.details).NoDetails?
    ensures OnlineSpec(settings, env, store) == (store, NoDevicesAvailable)
  {
    var devices := settings.Devices.value;
    var outcomes := DetailsOutcomes(devices, env.keys, env.details);
    NothingVerified(devices, outcomes, |devices|);
    assert !AnyDetailsFaulted(outcomes) by {
      forall i | 0 <= i < |outcomes| ensures !outcomes[i].DetailsFaulted? {
      }
    }
  }

  lemma {:induction false} NothingVerified(devices: seq<CC.EcowittDeviceConfiguration>, outcomes: seq<DetailsFetch>, k: nat)
    requires k <= |devices| == |outcomes|
    requires forall i :: 0 <= i < |outcomes| ==> outcomes[i].NoDetails?
    ensures VerifiedUpTo(devices, outcomes, k) == []
  {
    if k > 0 {
      NothingVerified(devices, outcomes, k - 1);
    }
  }

  /** The bindings of a run are well formed. */
  lemma OnlineBindingIsWell(settings: CC.ConfigurationData, devices: seq<CC.EcowittDeviceConfiguration>,
                            outcomes: seq<DetailsFetch>, env: Environment, store: Store)
    requires |devices| == |outcomes|
    ensures BoundWell(VerifiedUpTo(devices, outcomes, |devices|), BoundBy(settings, devices, outcomes, env, store).state.channels)
  {
    var ctx := BindContext(settings.OutputChannels, DetailsUpTo(devices, outcomes, |devices|), env.urlParses);
    BindingIsWell(ctx, VerifiedUpTo(devices, outcomes, |devices|), 0, Binding(store, []));
  }

  // ---------------------------------------------------------------------------------------------
  // The offline run

  /** The sample payloads `RunOfflineProcessing` reads, in order. */
  const DataSamples: seq<string> := ["historical_data_3.json", "historical_data_2.json"]

  /** The metadata of the stand-in device the offline run writes under. */
  function DummyMetadata(name: string): OC.OutputChannelMetadata {
    OC.OutputChannelMetadata(name, "ecowitt_dummy", "dummy_station_type", "00:00:00:00:00:00", 0, 0, 0, 0.0, 0.0,
                             Celsius, hPa, mps, mm, Wpm, CC.DefaultOutputChannel)
  }

  /** `new OutputChannelBehaviorConfiguration()`: no change allowed. */
  const NoChangesAllowed := OC.OutputChannelBehaviorConfiguration(false, false)

  /**
   * The parsed channel names `channelsToBeProcessed` gains: those the configuration lists, in
   * parse order. `Contains` on a null list throws once there is a name to test.
   */
  function Selected(names: seq<string>, configured: Option<seq<string>>): (r: Result<seq<string>, Fault>)
    ensures r.Err? <==> names != [] && configured.None?
    ensures r.Ok? ==> forall n :: n in r.value <==> n in names && configured.Some? && n in configured.value
    ensures r.Ok? ==> |r.value| <= |names|
  {
    if names == [] then Ok([])
    else if configured.None? then Err(NullReference)
    else
      var rest := Selected(names[1..], configured);
      assert forall n :: n in names <==> n == names[0] || n in names[1..];
      Ok((if names[0] in configured.value then [names[0]] else []) + rest.value)
  }

  /**
   * One pass of the offline channel loop: a fresh CSV channel in the working folder under the
   * stand-in device; `InitChannel`'s answer is ignored unless it throws; a channel missing from
   * this sample is passed over; otherwise its data is added and saved.
   */
  function OfflineChannel(parsed: InputData.Channels, name: string, store: Store): Progress<Store> {
    var meta := DummyMetadata(name);
    if !OC.Validate(meta) then Progress(store, Some(ChannelRejected("Invalid output channel configuration")))
    else
      var metaFile := CSV.MetadataFileName(CSV.FolderOf(None), name);
      var (store1, outcome, adopted) := InitSpec(metaFile, meta, NoChangesAllowed, store, false);
      if outcome.Threw? then Progress(store1, Some(InitThrew))
      else OfflineFeed(parsed, name, Opened(meta, adopted), metaFile, store1)
  }

  /** The rest of that pass, on the opened channel: the channel's data, if parsed, is added and saved. */
  function OfflineFeed(parsed: InputData.Channels, name: string, input: SaveInput, metaFile: string, store1: Store): Progress<Store> {
    match Lookup(parsed, name)
    case None => Progress(store1, None)
    case Some(sensors) =>
      var (buffer, err) := OC.AddDataSpec(input.buffer, Some(sensors));
      if err.Some? then Progress(store1, Some(AddFailed(err.value)))
      else
        var (store2, _, serr) := CSV.SaveSpec(CSV.FolderOf(None), metaFile, input.(buffer := buffer), store1);
        Progress(store2, if serr.Some? then Some(SaveFailed(serr.value)) else None)
  }

  function OfflineChannelsFrom(parsed: InputData.Channels, names: seq<string>, c: nat, store: Store): Progress<Store>
    requires c <= |names|
    decreases |names| - c
  {
    if c == |names| then Progress(store, None)
    else
      var p := OfflineChannel(parsed, names[c], store);
      if p.fault.Some? then p else OfflineChannelsFrom(parsed, names, c + 1, p.state)
  }

  /**
   * The sample loop from sample `i` on, with the names selected so far: an unreadable file
   * throws, a payload that does not parse ends the run normally, and every name selected so far
   * is processed again with each later sample.
   */
  function OfflineSamplesFrom(configured: Option<seq<string>>, readJson: string -> Option<(seq<Token>, bool)>,
                              i: nat, toProcess: seq<string>, store: Store): (Store, RunEnd)
    requires i <= |DataSamples|
    decreases |DataSamples| - i
  {
    if i == |DataSamples| then (store, Completed)
    else match readJson(DataSamples[i])
      case None => (store, Aborted(ReadFailed(DataSamples[i])))
      case Some((tokens, malformed)) =>
        var run := Parse(Current, tokens, []);
        if malformed || run.error.Some? then (store, StoppedOnParseError)
        else match Selected(Keys(run.state.channels), configured)
          case Err(f) => (store, Aborted(f))
          case Ok(selected) =>
            var names := toProcess + selected;
            var p := OfflineChannelsFrom(run.state.channels, names, 0, store);
            if p.fault.Some? then (p.state, Aborted(p.fault.value))
            else OfflineSamplesFrom(configured, readJson, i + 1, names, p.state)
  }

  /** `RunOfflineProcessing`: the channels configured for the second device, over the two samples. */
  function OfflineSpec(settings: CC.ConfigurationData, readJson: string -> Option<(seq<Token>, bool)>, store: Store)
    : (Store, RunEnd)
  {
    if settings.Devices.None? then (store, Aborted(NullReference))
    else if |settings.Devices.value| < 2 then (store, Aborted(IndexOutOfRange))
    else OfflineSamplesFrom(settings.Devices.value[1].ConfiguredChannels, readJson, 0, [], store)
  }

  /** The selection loop of `RunOfflineProcessing`. */
  method SelectChannels(names: seq<string>, configured: Option<seq<string>>) returns (r: Result<seq<string>, Fault>)
    ensures r == Selected(names, configured)
  {
    var selected: seq<string> := [];
    var i := |names|;
    while i > 0
      invariant 0 <= i <= |names|
      invariant (i < |names| ==> configured.Some?) && Selected(names[i..], configured) == Ok(selected)
    {
      i := i - 1;
      if configured.None? {
        return Err(NullReference);
      }
      assert names[i..][1..] == names[i + 1..];
      ghost var rest := selected;
      assert Selected(names[i..], configured)
        == Ok((if names[i] in configured.value then [names[i]] else []) + rest);
      if names[i] in configured.value {
        selected := [names[i]] + selected;
      } else {
        assert [] + rest == rest;
      }
    }
    assert names[0..] == names;
    return Ok(selected);
  }

  /**
   * One pass of the offline channel loop, with the file channel object itself and `GetChannel`
   * of the parser object.
   */
  method OfflineChannelStep(inputData: InputData.EcowittInputData, name: string, store: Store) returns (p: Progress<Store>)
    ensures p == OfflineChannel(inputData.channelsList, name, store)
  {
    var meta := DummyMetadata(name);
    var r := CSV.NewCSVFileOutputChannel(None, meta, NoChangesAllowed);
    if r.Err? {
      return Progress(store, Some(ChannelRejected(r.error)));
    }
    var outputChannel := r.value;
    var store1, outcome := outputChannel.InitChannel(store);
    if outcome.Threw? {
      return Progress(store1, Some(InitThrew));
    }
    p := OfflineFeedStep(outputChannel, inputData, name, store1);
  }

  /** The rest of that pass: `GetChannel`, then `AddData` and `SaveData` of the opened channel. */
  method OfflineFeedStep(outputChannel: CSV.CSVFileOutputChannel, inputData: InputData.EcowittInputData,
                         name: string, store1: Store) returns (p: Progress<Store>)
    requires outputChannel.filePath == CSV.FolderOf(None) && !IsBlank(name)
    modifies outputChannel.base
    ensures p == OfflineFeed(inputData.channelsList, name, old(outputChannel.Input()), outputChannel.metaDataFileName, store1)
  {
    var channelData := inputData.GetChannel(name);
    if channelData.value.None? {
      return Progress(store1, None);
    }
    var err := outputChannel.AddData(channelData.value);
    if err.Some? {
      return Progress(store1, Some(AddFailed(err.value)));
    }
    var store2, serr := outputChannel.SaveData(store1);
    p := Progress(store2, if serr.Some? then Some(SaveFailed(serr.value)) else None);
  }

  /** The offline channel loop over the names selected so far. */
  method OfflineChannels(inputData: InputData.EcowittInputData, names: seq<string>, store: Store) returns (p: Progress<Store>)
    ensures p == OfflineChannelsFrom(inputData.channelsList, names, 0, store)
  {
    var current := store;
    for c := 0 to |names|
      invariant OfflineChannelsFrom(inputData.channelsList, names, c, current)
             == OfflineChannelsFrom(inputData.channelsList, names, 0, store)
    {
      var q := OfflineChannelStep(inputData, names[c], current);
      if q.fault.Some? {
        return q;
      }
      current := q.state;
    }
    return Progress(current, None);
  }

  /** `RunProcessing` after the configuration check: the selected run. */
  function ProcessingSpec(hasConfig: bool, mode: DataProcessingMode, settings: CC.ConfigurationData, env: Environment,
                          readJson: string -> Option<(seq<Token>, bool)>, store: Store): (Store, RunEnd)
  {
    if !hasConfig then (store, Aborted(NoConfiguration))
    else match mode
      case Offline => OfflineSpec(settings, readJson, store)
      case Online => OnlineSpec(settings, env, store)
  }

  /**
   * `new Controler(...)`: the configuration is read and validated. A failed validation throws
   * "Error loading configuration: " and the message; so does a failed read in the `Newest`
   * edition, while the `Older` one only logs it and builds a controller without configuration.
   */
  method NewControler(edition: Edition, context: CC.ConfigurationContext, read: Result<CC.Deserialized, string>,
                      isUri: Option<string> -> bool) returns (r: Result<Controler, string>)
    ensures var validation := CC.ValidationOutcome(if read.Ok? then Some(read.value) else None, context, isUri);
      && (r.Err? <==> (read.Err? && edition == Newest) || (read.Ok? && !validation.0))
      && (r.Err? ==> r.error == "Error loading configuration: " + (if read.Err? then read.error else validation.1))
      && (r.Ok? ==> r.value.hasConfig == read.Ok? && r.value.edition == edition)
      && (r.Ok? && read.Ok? ==> r.value.configuration.ConfigurationSettings == read.value.data)
      && (r.Ok? && read.Err? ==> r.value.configuration.ConfigurationSettings == CC.DefaultSettings)
    ensures r.Ok? ==> fresh(r.value) && fresh(r.value.configuration)
  {
    var configuration := new CC.Configuration(context);
    var ok, configErrorMessage := configuration.ReadConfiguration(read);
    if !ok {
      var message := "Error loading configuration: " + configErrorMessage;
      if edition == Newest {
        return Err(message);
      }
      var c := new Controler(edition, configuration, false);
      return Ok(c);
    }
    ok, configErrorMessage := configuration.ValidateConfiguration(isUri);
    if !ok {
      return Err("Error loading configuration: " + configErrorMessage);
    }
    var c := new Controler(edition, configuration, true);
    return Ok(c);
  }

  // ---------------------------------------------------------------------------------------------
  // What the offline run does to the files

  lemma OfflineChannelGrows(parsed: InputData.Channels, name: string, store: Store)
    ensures Grows(store, OfflineChannel(parsed, name, store).state)
  {
    var meta := DummyMetadata(name);
    if OC.Validate(meta) {
      var metaFile := CSV.MetadataFileName(CSV.FolderOf(None), name);
      var (store1, outcome, adopted) := InitSpec(metaFile, meta, NoChangesAllowed, store, false);
      assert store1.files == store.files;
      OfflineFeedGrows(parsed, name, Opened(meta, adopted), metaFile, store1);
    }
  }

  lemma OfflineFeedGrows(parsed: InputData.Channels, name: string, input: SaveInput, metaFile: string, store1: Store)
    ensures Grows(store1, OfflineFeed(parsed, name, input, metaFile, store1).state)
  {
    match Lookup(parsed, name)
    case None =>
    case Some(sensors) =>
      var (buffer, err) := OC.AddDataSpec(input.buffer, Some(sensors));
      CSV.SaveOnlyAppends(CSV.FolderOf(None), metaFile, input.(buffer := buffer), store1, false);
  }

  lemma {:induction false} OfflineChannelsGrow(parsed: InputData.Channels, names: seq<string>, c: nat, store: Store)
    requires c <= |names|
    ensures Grows(store, OfflineChannelsFrom(parsed, names, c, store).state)
    decreases |names| - c
  {
    if c < |names| {
      var p := OfflineChannel(parsed, names[c], store);
      OfflineChannelGrows(parsed, names[c], store);
      if p.fault.None? {
        OfflineChannelsGrow(parsed, names, c + 1, p.state);
        GrowsTrans(store, p.state, OfflineChannelsFrom(parsed, names, c + 1, p.state).state);
      }
    }
  }

  lemma {:induction false} OfflineSamplesGrow(configured: Option<seq<string>>, readJson: string -> Option<(seq<Token>, bool)>,
                                              i: nat, toProcess: seq<string>, store: Store)
    requires i <= |DataSamples|
    ensures Grows(store, OfflineSamplesFrom(configured, readJson, i, toProcess, store).0)
    decreases |DataSamples| - i
  {
    if i < |DataSamples| && readJson(DataSamples[i]).Some? {
      var (tokens, malformed) := readJson(DataSamples[i]).value;
      var run := Parse(Current, tokens, []);
      if !malformed && run.error.None? && Selected(Keys(run.state.channels), configured).Ok? {
        var names := toProcess + Selected(Keys(run.state.channels), configured).value;
        var p := OfflineChannelsFrom(run.state.channels, names, 0, store);
        OfflineChannelsGrow(run.state.channels, names, 0, store);
        if p.fault.None? {
          OfflineSamplesGrow(configured, readJson, i + 1, names, p.state);
          GrowsTrans(store, p.state, OfflineSamplesFrom(configured, readJson, i + 1, names, p.state).0);
        }
      }
    }
  }

  /** However it ends, an offline run never loses data either. */
  lemma OfflineRunOnlyAppends(settings: CC.ConfigurationData, readJson: string -> Option<(seq<Token>, bool)>, store: Store)
    ensures Grows(store, OfflineSpec(settings, readJson, store).0)
  {
    if settings.Devices.Some? && |settings.Devices.value| >= 2 {
      OfflineSamplesGrow(settings.Devices.value[1].ConfiguredChannels, readJson, 0, [], store);
    }
  }

  lemma {:induction false} SelectNothing(names: seq<string>)
    ensures Selected(names, Some([])) == Ok([])
  {
    if names != [] {
      SelectNothing(names[1..]);
    }
  }

  lemma {:induction false} NothingSelectedFrom(readJson: string -> Option<(seq<Token>, bool)>, i: nat, store: Store)
    requires i <= |DataSamples|
    ensures OfflineSamplesFrom(Some([]), readJson, i, [], store).0 == store
    decreases |DataSamples| - i
  {
    if i < |DataSamples| && readJson(DataSamples[i]).Some? {
      var (tokens, malformed) := readJson(DataSamples[i]).value;
      var run := Parse(Current, tokens, []);
      if !malformed && run.error.None? {
        SelectNothing(Keys(run.state.channels));
        NothingSelectedFrom(readJson, i + 1, store);
      }
    }
  }

  /** When the second device lists no channel, the offline run leaves every file as it was. */
  lemma NoConfiguredChannelNoWrites(settings: CC.ConfigurationData, readJson: string -> Option<(seq<Token>, bool)>, store: Store)
    requires settings.Devices.Some? && |settings.Devices.value| >= 2
    requires settings.Devices.value[1].ConfiguredChannels == Some([])
    ensures OfflineSpec(settings, readJson, store).0 == store
  {
    NothingSelectedFrom(readJson, 0, store);
  }

  /** Both runs only append, and without a configuration nothing changes at all. */
  lemma ProcessingOnlyAppends(hasConfig: bool, mode: DataProcessingMode, settings: CC.ConfigurationData, env: Environment,
                              readJson: string -> Option<(seq<Token>, bool)>, store: Store)
    ensures Grows(store, ProcessingSpec(hasConfig, mode, settings, env, readJson, store).0)
    ensures !hasConfig ==> ProcessingSpec(hasConfig, mode, settings, env, readJson, store) == (store, Aborted(NoConfiguration))
  {
    if hasConfig {
      match mode
      case Offline => OfflineRunOnlyAppends(settings, readJson, store);
      case Online => OnlineRunOnlyAppends(settings, env, store);
    }
  }
}
