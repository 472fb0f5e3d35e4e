/**
 * The first half of `RunOnlineProcessing` in src/common_code/Controler.cs and its older copy in
 * common_code/Controler.cs: the fetch windows, the devices the cloud confirms, the data request
 * tasks and their sort. Tasks are not run: what each one ends with is given.
 */
module RunPlan {
  import opened Wrappers
  import opened Assoc
  import opened Decimal
  import opened CivilTime
  import opened InputData
  import Configuration
  import Gateway
  import OutputChannel
  import Backend

  // ---------------------------------------------------------------------------------------------
  // Times

  /** `DateTime`, as whole seconds since 1970-01-01 00:00 UTC. */
  datatype DateTime = DateTime(seconds: int)

  /** `UnixTimeStampToDateTime`: the epoch plus that many seconds, in UTC. */
  function UnixTimeStampToDateTime(unixTimeStamp: UInt32): (d: DateTime)
    ensures d.seconds == unixTimeStamp as int
  {
    DateTime(0 + unixTimeStamp as int)
  }

  /** The year of a time on or after the epoch. */
  function Year(d: DateTime): int
    requires d.seconds >= 0
  {
    UtcYear(d.seconds)
  }

  /** The date a checkpoint names falls in the UTC year the partitions are named after. */
  lemma UnixTimeStampYear(ts: UInt32)
    ensures var d := UnixTimeStampToDateTime(ts);
      && Year(d) == UtcYear(ts as nat)
      && YearStart(Year(d)) <= ts as int < YearStart(Year(d) + 1)
  {
    UtcYearBounds(ts as nat);
  }

  // ---------------------------------------------------------------------------------------------
  // Fetch windows

  const Minute: int := Gateway.Minute
  const Day: int := Gateway.Day
  /** A backfill starts 89 days before the run. */
  const BackfillDays: int := 89
  /** An incremental run looks 360 minutes back. */
  const IncrementalMinutes: int := 360
  /** A backfill window spans 1439 minutes. */
  const WindowMinutes: int := 1439

  /** One `ReadHistoricalData` request: its time range and its `requestIndex`. */
  datatype Window = Window(start: int, end: int, index: nat)

  /** The backfill loop from `currentStartTime == start` and `idx == index` on. */
  function BackfillFrom(start: int, end: int, index: nat): seq<Window>
    decreases end - start
  {
    if start < end - Day then [Window(start, start + WindowMinutes * Minute, index)] + BackfillFrom(start + Day, end, index + 1)
    else [Window(start, end, index)]
  }

  /** The requests a run ending at `now` makes for each device. */
  function Windows(now: int, initialRun: bool): seq<Window> {
    if initialRun then BackfillFrom(now - BackfillDays * Day, now, 0)
    else [Window(now - IncrementalMinutes * Minute, now, 0)]
  }

  /** The window loop of `RunOnlineProcessing` for one device. */
  method RequestWindows(now: int, initialRun: bool) returns (ws: seq<Window>)
    ensures ws == Windows(now, initialRun)
  {
    var endTime := now;
    if !initialRun {
      return [Window(endTime - IncrementalMinutes * Minute, endTime, 0)];
    }
    var startTime := endTime - BackfillDays * Day;
    var currentStartTime := startTime;
    var currentEndTime := currentStartTime + WindowMinutes * Minute;
    var idx: nat := 0;
    ws := [];
    while currentStartTime < endTime - Day
      invariant currentEndTime == currentStartTime + WindowMinutes * Minute
      invariant ws + BackfillFrom(currentStartTime, endTime, idx) == BackfillFrom(startTime, endTime, 0)
      decreases endTime - currentStartTime
    {
      assert BackfillFrom(currentStartTime, endTime, idx)
          == [Window(currentStartTime, currentEndTime, idx)] + BackfillFrom(currentStartTime + Day, endTime, idx + 1);
      ws := ws + [Window(currentStartTime, currentEndTime, idx)];
      currentStartTime := currentStartTime + Day;
      currentEndTime := currentStartTime + WindowMinutes * Minute;
      idx := idx + 1;
    }
    ws := ws + [Window(currentStartTime, endTime, idx)];
  }

  lemma {:induction false} BackfillShape(start: int, end: int, index: nat, m: nat)
    requires m >= 1 && start == end - m * Day
    ensures var r := BackfillFrom(start, end, index);
      && |r| == m
      && (forall k :: 0 <= k < m - 1 ==>
            r[k] == Window(start + k * Day, start + k * Day + WindowMinutes * Minute, index + k))
      && r[m - 1] == Window(end - Day, end, index + m - 1)
    decreases m
  {
    if m > 1 {
      BackfillShape(start + Day, end, index + 1, m - 1);
      var r := BackfillFrom(start, end, index);
      var rest := BackfillFrom(start + Day, end, index + 1);
      assert r == [Window(start, start + WindowMinutes * Minute, index)] + rest;
      forall k | 0 <= k < m - 1
        ensures r[k] == Window(start + k * Day, start + k * Day + WindowMinutes * Minute, index + k)
      {
        if k > 0 {
          assert r[k] == rest[k - 1];
        }
      }
    }
  }

  /**
   * A backfill makes 89 requests, one per day with indices 0, 1, ...: 88 windows of 1439 minutes
   * a day apart from 89 days back, then the last day up to the run's time. Otherwise one request
   * covers the last 360 minutes.
   */
  lemma WindowsShape(now: int, initialRun: bool)
    ensures var ws := Windows(now, initialRun);
      && |ws| == (if initialRun then BackfillDays else 1)
      && (forall k :: 0 <= k < |ws| ==> ws[k].index == k)
      && ws[|ws| - 1].end == now
      && (initialRun ==>
            && ws[|ws| - 1].start == now - Day
            && forall k :: 0 <= k < |ws| - 1 ==>
                 ws[k].start == now - (BackfillDays - k) * Day && ws[k].end == ws[k].start + WindowMinutes * Minute)
      && (!initialRun ==> ws == [Window(now - IncrementalMinutes * Minute, now, 0)])
  {
    if initialRun {
      BackfillShape(now - BackfillDays * Day, now, 0, BackfillDays as nat);
    }
  }

  /**
   * Every window passes the range check of `ReadHistoricalData`, whose own clock reads any time
   * from the run's start to a day later.
   */
  lemma WindowsWithinApiRange(now: int, initialRun: bool, later: int)
    requires now <= later <= now + Day
    ensures forall w :: w in Windows(now, initialRun) ==> Gateway.WithinApiRange(later, w.start, w.end)
  {
    WindowsShape(now, initialRun);
    var ws := Windows(now, initialRun);
    forall w | w in ws ensures Gateway.WithinApiRange(later, w.start, w.end) {
      var k :| 0 <= k < |ws| && ws[k] == w;
      if initialRun && k < |ws| - 1 {
        assert w.start == now - (BackfillDays - k) * Day;
      }
    }
  }

  // ---------------------------------------------------------------------------------------------
  // Device details and the verified devices

  /** The API keys the configuration loads. */
  datatype ApiKeys = ApiKeys(apiKey: Option<string>, applicationKey: Option<string>)

  /**
   * What a `GetDeviceDetails` task ends with: it faults (a rejected device, a failed request, or a
   * reply with no `data` member), gives `null` (a blank reply, a `JsonException`, a `null` record),
   * or gives the record.
   */
  datatype DetailsFetch = DetailsFaulted | NoDetails | Details(data: Gateway.DeviceDetailData)

  /** The details task of configured device `i`: the `EcowittDevice` constructor throws inside it. */
  function DetailsOutcome(d: Configuration.EcowittDeviceConfiguration, i: nat, keys: ApiKeys, details: nat -> DetailsFetch)
    : DetailsFetch
  {
    if Gateway.ConstructorCheck(Some(d), keys.apiKey, keys.applicationKey, Gateway.DeviceValidation).Some? then DetailsFaulted
    else details(i)
  }

  /** The details loop: one task per configured device, in configuration order. */
  method FetchDetails(devices: seq<Configuration.EcowittDeviceConfiguration>, keys: ApiKeys, details: nat -> DetailsFetch)
    returns (outcomes: seq<DetailsFetch>)
    ensures |outcomes| == |devices|
    ensures forall i :: 0 <= i < |devices| ==> outcomes[i] == DetailsOutcome(devices[i], i, keys, details)
  {
    outcomes := [];
    for i := 0 to |devices|
      invariant |outcomes| == i
      invariant forall j :: 0 <= j < i ==> outcomes[j] == DetailsOutcome(devices[j], j, keys, details)
    {
      outcomes := outcomes + [DetailsOutcome(devices[i], i, keys, details)];
    }
  }

  predicate IsVerified(o: DetailsFetch) {
    o.Details? && Gateway.ValidateDetails(o.data)
  }

  /** Configured devices with their configuration index. */
  type Verified = seq<(Configuration.EcowittDeviceConfiguration, nat)>

  /** `verifiedDevices` after the first `k` tasks. */
  function VerifiedUpTo(devices: seq<Configuration.EcowittDeviceConfiguration>, outcomes: seq<DetailsFetch>, k: nat)
    : Verified
    requires k <= |devices| == |outcomes|
  {
    if k == 0 then []
    else VerifiedUpTo(devices, outcomes, k - 1) + (if IsVerified(outcomes[k - 1]) then [(devices[k - 1], k - 1)] else [])
  }

  /** `devicesDetails` after the first `k` tasks: the first verified record of each MAC. */
  function DetailsUpTo(devices: seq<Configuration.EcowittDeviceConfiguration>, outcomes: seq<DetailsFetch>, k: nat)
    : Assoc<Gateway.DeviceDetailData>
    requires k <= |devices| == |outcomes|
  {
    if k == 0 then []
    else
      var m := DetailsUpTo(devices, outcomes, k - 1);
      if IsVerified(outcomes[k - 1]) && devices[k - 1].MAC !in Keys(m) then m + [(devices[k - 1].MAC, outcomes[k - 1].data)]
      else m
  }

  /** The filter loop over the completed details tasks. */
  method FilterVerified(devices: seq<Configuration.EcowittDeviceConfiguration>, outcomes: seq<DetailsFetch>)
    returns (verifiedDevices: Verified, devicesDetails: Assoc<Gateway.DeviceDetailData>)
    requires |devices| == |outcomes|
    ensures verifiedDevices == VerifiedUpTo(devices, outcomes, |devices|)
    ensures devicesDetails == DetailsUpTo(devices, outcomes, |devices|)
  {
    verifiedDevices, devicesDetails := [], [];
    for k := 0 to |devices|
      invariant verifiedDevices == VerifiedUpTo(devices, outcomes, k)
      invariant devicesDetails == DetailsUpTo(devices, outcomes, k)
    {
      var deviceDetails := outcomes[k];
      if !IsVerified(deviceDetails) {
        continue;
      }
      verifiedDevices := verifiedDevices + [(devices[k], k)];
      if devices[k].MAC !in Keys(devicesDetails) {
        devicesDetails := devicesDetails + [(devices[k].MAC, deviceDetails.data)];
      }
    }
  }

  /**
   * The verified devices are exactly the configured devices whose details are a record that
   * passes `Validate`, each with its own index, in configuration order.
   */
  lemma {:induction false} VerifiedMeaning(devices: seq<Configuration.EcowittDeviceConfiguration>,
                                           outcomes: seq<DetailsFetch>, k: nat)
    requires k <= |devices| == |outcomes|
    ensures var v := VerifiedUpTo(devices, outcomes, k);
      && (forall j :: 0 <= j < |v| ==> v[j].1 < k && v[j].0 == devices[v[j].1] && IsVerified(outcomes[v[j].1]))
      && (forall a, b :: 0 <= a < b < |v| ==> v[a].1 < v[b].1)
      && (forall i :: 0 <= i < k ==> (IsVerified(outcomes[i]) <==> (devices[i], i) in v))
  {
    if k > 0 {
      VerifiedMeaning(devices, outcomes, k - 1);
      var v := VerifiedUpTo(devices, outcomes, k);
      var prior := VerifiedUpTo(devices, outcomes, k - 1);
      forall i | 0 <= i < k ensures IsVerified(outcomes[i]) <==> (devices[i], i) in v {
        if i < k - 1 {
          assert (devices[i], i) in v <==> (devices[i], i) in prior;
        }
      }
    }
  }

  /**
   * `devicesDetails` holds, for each MAC, the record of the first verified device with that MAC,
   * and no entry for a MAC no verified device has.
   */
  lemma {:induction false} DetailsFirstPerMac(devices: seq<Configuration.EcowittDeviceConfiguration>,
                                              outcomes: seq<DetailsFetch>, k: nat, mac: string)
    requires k <= |devices| == |outcomes|
    ensures var r := Lookup(DetailsUpTo(devices, outcomes, k), mac);
      && (r.None? <==> forall i :: 0 <= i < k ==> !(IsVerified(outcomes[i]) && devices[i].MAC == mac))
      && (r.Some? ==> exists i :: 0 <= i < k && IsVerified(outcomes[i]) && devices[i].MAC == mac
                        && outcomes[i].data == r.value
                        && forall j :: 0 <= j < i ==> !(IsVerified(outcomes[j]) && devices[j].MAC == mac))
  {
    DetailsAbsent(devices, outcomes, k, mac);
    DetailsWitness(devices, outcomes, k, mac);
    var r := Lookup(DetailsUpTo(devices, outcomes, k), mac);
    if r.Some? {
      var i :| 0 <= i < k && FirstVerifiedAt(devices, outcomes, i, mac, r.value);
      assert IsVerified(outcomes[i]) && devices[i].MAC == mac && outcomes[i].data == r.value;
    }
  }

  /** No device among the first `k` is verified with this MAC. */
  ghost predicate NoneVerifiedWith(devices: seq<Configuration.EcowittDeviceConfiguration>, outcomes: seq<DetailsFetch>,
                                   k: nat, mac: string)
    requires k <= |devices| == |outcomes|
  {
    forall i :: 0 <= i < k ==> !(IsVerified(outcomes[i]) && devices[i].MAC == mac)
  }

  /** Device `i` is the first verified one with this MAC, and its record is `v`. */
  ghost predicate FirstVerifiedAt(devices: seq<Configuration.EcowittDeviceConfiguration>, outcomes: seq<DetailsFetch>,
                                  i: nat, mac: string, v: Gateway.DeviceDetailData)
    requires |devices| == |outcomes|
  {
    i < |devices| && IsVerified(outcomes[i]) && devices[i].MAC == mac && outcomes[i].data == v
    && NoneVerifiedWith(devices, outcomes, i, mac)
  }

  /** One task of the filter loop, seen from one MAC. */
  lemma DetailsStep(devices: seq<Configuration.EcowittDeviceConfiguration>, outcomes: seq<DetailsFetch>, k: nat, mac: string)
    requires 0 < k <= |devices| == |outcomes|
    ensures var m := Lookup(DetailsUpTo(devices, outcomes, k - 1), mac);
      Lookup(DetailsUpTo(devices, outcomes, k), mac)
        == if IsVerified(outcomes[k - 1]) && devices[k - 1].MAC == mac && m.None? then Some(outcomes[k - 1].data) else m
  {
    var m := DetailsUpTo(devices, outcomes, k - 1);
    if IsVerified(outcomes[k - 1]) && devices[k - 1].MAC !in Keys(m) {
      LookupAppend(m, devices[k - 1].MAC, outcomes[k - 1].data);
    }
  }

  lemma {:induction false} DetailsAbsent(devices: seq<Configuration.EcowittDeviceConfiguration>,
                                         outcomes: seq<DetailsFetch>, k: nat, mac: string)
    requires k <= |devices| == |outcomes|
    ensures Lookup(DetailsUpTo(devices, outcomes, k), mac).None? <==> NoneVerifiedWith(devices, outcomes, k, mac)
  {
    if k > 0 {
      DetailsAbsent(devices, outcomes, k - 1, mac);
      DetailsStep(devices, outcomes, k, mac);
      assert NoneVerifiedWith(devices, outcomes, k, mac) <==>
        NoneVerifiedWith(devices, outcomes, k - 1, mac) && !(IsVerified(outcomes[k - 1]) && devices[k - 1].MAC == mac);
    }
  }

  lemma {:induction false} DetailsWitness(devices: seq<Configuration.EcowittDeviceConfiguration>,
                                          outcomes: seq<DetailsFetch>, k: nat, mac: string)
    requires k <= |devices| == |outcomes|
    ensures var r := Lookup(DetailsUpTo(devices, outcomes, k), mac);
      r.Some? ==> exists i :: 0 <= i < k && FirstVerifiedAt(devices, outcomes, i, mac, r.value)
  {
    if k > 0 {
      DetailsWitness(devices, outcomes, k - 1, mac);
      DetailsStep(devices, outcomes, k, mac);
      var m := Lookup(DetailsUpTo(devices, outcomes, k - 1), mac);
      if IsVerified(outcomes[k - 1]) && devices[k - 1].MAC == mac && m.None? {
        DetailsAbsent(devices, outcomes, k - 1, mac);
        assert FirstVerifiedAt(devices, outcomes, k - 1, mac, outcomes[k - 1].data);
      } else if m.Some? {
        var i :| 0 <= i < k - 1 && FirstVerifiedAt(devices, outcomes, i, mac, m.value);
        assert 0 <= i < k && FirstVerifiedAt(devices, outcomes, i, mac, m.value);
      }
    }
  }

  // ---------------------------------------------------------------------------------------------
  // Data request tasks

  /**
   * What a `ReadHistoricalData` task ends with: the JSON payload (its tokens, and whether the
   * reader throws after them), no result, or a fault.
   */
  datatype Fetch = Payload(tokens: seq<Token>, malformed: bool) | NoResult | Faulted

  /** `DataRequestTask`: the device, its configuration index, the request index and the result. */
  datatype DataTask = DataTask(device: Configuration.EcowittDeviceConfiguration, ConfiguredDeviceIndex: nat,
                               requestIndex: nat, result: Fetch)

  /** The API's answers and the clock `ReadHistoricalData` reads, per device index and request. */
  datatype Requests = Requests(now: int, initialRun: bool, callTime: (nat, Window) -> int, fetch: (nat, Window) -> Fetch)

  /** The data request task for one window: the range check throws inside it. */
  function TaskOf(d: Configuration.EcowittDeviceConfiguration, i: nat, w: Window, req: Requests): DataTask {
    DataTask(d, i, w.index, if Gateway.RangeCheck(req.callTime(i, w), w.start, w.end).Some? then Faulted else req.fetch(i, w))
  }

  /** The data request tasks of one verified device, one per window. */
  function DeviceTasks(d: Configuration.EcowittDeviceConfiguration, i: nat, ws: seq<Window>, req: Requests)
    : (r: seq<DataTask>)
    ensures |r| == |ws|
    ensures forall k :: 0 <= k < |ws| ==> r[k] == TaskOf(d, i, ws[k], req)
  {
    seq(|ws|, k requires 0 <= k < |ws| => TaskOf(d, i, ws[k], req))
  }

  /** Why a run stops early. */
  datatype Fault =
    | NullReference                    // a null list or record is dereferenced
    | IndexOutOfRange                  // a list is indexed past its end
    | DeviceRejected(failure: Gateway.Failure)   // the `EcowittDevice` constructor throws
    | TaskFaulted                      // `Task.WaitAll` rethrows a faulted task
    | MissingChannelDefinition         // "Fatal error can't find output channel configuration"
    | ChannelRejected(message: string) // an output channel constructor throws
    | InitThrew                        // `InitChannel` rethrows
    | BlankChannelName                 // `GetChannel` on a blank name
    | AddFailed(addError: OutputChannel.AddError)   // `AddData` throws
    | SaveFailed(saveError: Backend.SaveError)       // `SaveData` throws
    | NoConfiguration                  // "No configuration to start processing"
    | ReadFailed(fileName: string)     // a sample file cannot be read

  /**
   * The request loop after the first `k` verified devices: a device whose channel list is null or
   * whose `EcowittDevice` constructor throws stops the run.
   */
  function TasksUpTo(verified: Verified, k: nat, keys: ApiKeys, req: Requests): Result<seq<DataTask>, Fault>
    requires k <= |verified|
  {
    if k == 0 then Ok([])
    else
      match TasksUpTo(verified, k - 1, keys, req)
      case Err(f) => Err(f)
      case Ok(tasks) =>
        var (d, i) := verified[k - 1];
        if d.ConfiguredChannels.None? then Err(NullReference)
        else match Gateway.ConstructorCheck(Some(d), keys.apiKey, keys.applicationKey, Gateway.DeviceValidation)
          case Some(failure) => Err(DeviceRejected(failure))
          case None => Ok(tasks + DeviceTasks(d, i, Windows(req.now, req.initialRun), req))
  }

  /** The inner loop of the request loop: one task per window of the device. */
  method MakeDeviceTasks(d: Configuration.EcowittDeviceConfiguration, i: nat, ws: seq<Window>, req: Requests)
    returns (added: seq<DataTask>)
    ensures added == DeviceTasks(d, i, ws, req)
  {
    var j := 0;
    added := [];
    while j < |ws|
      invariant 0 <= j <= |ws|
      invariant added == DeviceTasks(d, i, ws[..j], req)
    {
      added := added + [TaskOf(d, i, ws[j], req)];
      j := j + 1;
    }
    assert ws[..j] == ws;
  }

  /** One step of the request loop, for a device that passes its checks. */
  lemma TasksStep(verified: Verified, k: nat, keys: ApiKeys, req: Requests, tasks: seq<DataTask>)
    requires k < |verified| && TasksUpTo(verified, k, keys, req) == Ok(tasks)
    requires verified[k].0.ConfiguredChannels.Some?
    requires Gateway.ConstructorCheck(Some(verified[k].0), keys.apiKey, keys.applicationKey, Gateway.DeviceValidation).None?
    ensures TasksUpTo(verified, k + 1, keys, req)
         == Ok(tasks + DeviceTasks(verified[k].0, verified[k].1, Windows(req.now, req.initialRun), req))
  {
  }

  /** The request loop of `RunOnlineProcessing`. */
  method MakeTasks(verified: Verified, keys: ApiKeys, req: Requests) returns (r: Result<seq<DataTask>, Fault>)
    ensures r == TasksUpTo(verified, |verified|, keys, req)
  {
    var dataRequestTasks: seq<DataTask> := [];
    for k := 0 to |verified|
      invariant TasksUpTo(verified, k, keys, req) == Ok(dataRequestTasks)
    {
      var (d, i) := verified[k];
      if d.ConfiguredChannels.None? {
        TasksErrSticks(verified, k + 1, |verified|, keys, req);
        return Err(NullReference);
      }
      var check := Gateway.ConstructorCheck(Some(d), keys.apiKey, keys.applicationKey, Gateway.DeviceValidation);
      if check.Some? {
        TasksErrSticks(verified, k + 1, |verified|, keys, req);
        return Err(DeviceRejected(check.value));
      }
      var ws := RequestWindows(req.now, req.initialRun);
      var added := MakeDeviceTasks(d, i, ws, req);
      TasksStep(verified, k, keys, req, dataRequestTasks);
      dataRequestTasks := dataRequestTasks + added;
    }
    return Ok(dataRequestTasks);
  }

  /** `Task.WaitAll` throws when any task faulted. */
  predicate AnyFaulted(tasks: seq<DataTask>) {
    exists j :: 0 <= j < |tasks| && tasks[j].result.Faulted?
  }

  /**
   * When the API's clock reads from the run's time to a day later, no range check fails: a task
   * faults only where the API answer itself is a fault.
   */
  lemma TaskFaultsOnlyFromFetch(d: Configuration.EcowittDeviceConfiguration, i: nat, req: Requests)
    requires forall w :: req.now <= req.callTime(i, w) <= req.now + Day
    ensures var ws := Windows(req.now, req.initialRun);
      forall k :: 0 <= k < |ws| ==> DeviceTasks(d, i, ws, req)[k].result == req.fetch(i, ws[k])
  {
    var ws := Windows(req.now, req.initialRun);
    forall k | 0 <= k < |ws| ensures DeviceTasks(d, i, ws, req)[k].result == req.fetch(i, ws[k]) {
      WindowsWithinApiRange(req.now, req.initialRun, req.callTime(i, ws[k]));
      assert ws[k] in ws;
    }
  }

  // ---------------------------------------------------------------------------------------------
  // The sort

  /** The comparison passed to `List.Sort`: by device index, then by request index. */
  function CompareTasks(a: DataTask, b: DataTask): (c: int)
    ensures c == 0 <==> a.ConfiguredDeviceIndex == b.ConfiguredDeviceIndex && a.requestIndex == b.requestIndex
    ensures c < 0 <==> (a.ConfiguredDeviceIndex < b.ConfiguredDeviceIndex
                        || (a.ConfiguredDeviceIndex == b.ConfiguredDeviceIndex && a.requestIndex < b.requestIndex))
  {
    if a.ConfiguredDeviceIndex < b.ConfiguredDeviceIndex then -1
    else if a.ConfiguredDeviceIndex == b.ConfiguredDeviceIndex then
      if a.requestIndex < b.requestIndex then -1
      else if a.requestIndex > b.requestIndex then 1
      else 0
    else 1
  }

  /** Each task compares at most equal to the next. */
  predicate Ordered(s: seq<DataTask>) {
    forall j :: 0 < j < |s| ==> CompareTasks(s[j - 1], s[j]) <= 0
  }

  /** Each task compares below the next. */
  predicate StrictlyOrdered(s: seq<DataTask>) {
    forall j :: 0 < j < |s| ==> CompareTasks(s[j - 1], s[j]) < 0
  }

  function Insert(t: DataTask, s: seq<DataTask>): (r: seq<DataTask>)
    ensures multiset(r) == multiset(s) + multiset{t}
    ensures |r| == |s| + 1 && (r[0] == t || (s != [] && r[0] == s[0]))
  {
    if s == [] then [t]
    else if CompareTasks(t, s[0]) <= 0 then [t] + s
    else
      assert s == [s[0]] + s[1..];
      [s[0]] + Insert(t, s[1..])
  }

  lemma {:induction false} InsertOrdered(t: DataTask, s: seq<DataTask>)
    requires Ordered(s)
    ensures Ordered(Insert(t, s))
  {
    if s != [] && CompareTasks(t, s[0]) > 0 {
      InsertOrdered(t, s[1..]);
      var rest := Insert(t, s[1..]);
      assert Insert(t, s) == [s[0]] + rest;
      assert CompareTasks(s[0], rest[0]) <= 0 by {
        if |s| > 1 && rest[0] == s[1] {
          assert CompareTasks(s[0], s[1]) <= 0;
        }
      }
    }
  }

  /** `dataRequestTasks.Sort(...)`: ordered by the comparison, with the same tasks. */
  function SortTasks(s: seq<DataTask>): (r: seq<DataTask>)
    ensures Ordered(r) && multiset(r) == multiset(s)
  {
    if s == [] then []
    else
      assert s == [s[0]] + s[1..];
      InsertOrdered(s[0], SortTasks(s[1..]));
      Insert(s[0], SortTasks(s[1..]))
  }

  /** A list already strictly ordered comes out of the sort unchanged. */
  lemma {:induction false} SortKeepsOrdered(s: seq<DataTask>)
    requires StrictlyOrdered(s)
    ensures SortTasks(s) == s
  {
    if s != [] {
      SortKeepsOrdered(s[1..]);
      assert SortTasks(s[1..]) == s[1..];
      if |s| > 1 {
        assert CompareTasks(s[0], s[1]) < 0;
      }
      assert Insert(s[0], s[1..]) == [s[0]] + s[1..];
      assert [s[0]] + s[1..] == s;
    }
  }

  /** A device's tasks follow its windows, whose indices count up from 0. */
  lemma DeviceTasksOrdered(d: Configuration.EcowittDeviceConfiguration, i: nat, req: Requests)
    ensures var added := DeviceTasks(d, i, Windows(req.now, req.initialRun), req);
      && |added| > 0 && StrictlyOrdered(added)
      && forall j :: 0 <= j < |added| ==> added[j].ConfiguredDeviceIndex == i
  {
    WindowsShape(req.now, req.initialRun);
  }

  /** The request list stops being extended once a device stops the loop. */
  lemma {:induction false} TasksErrSticks(verified: Verified, k: nat, n: nat, keys: ApiKeys, req: Requests)
    requires k <= n <= |verified|
    requires TasksUpTo(verified, k, keys, req).Err?
    ensures TasksUpTo(verified, n, keys, req) == TasksUpTo(verified, k, keys, req)
    decreases n - k
  {
    if k < n {
      TasksErrSticks(verified, k + 1, n, keys, req);
    }
  }

  /**
   * The request loop already emits the data request tasks in the sort's order: devices by increasing index, and
   * each device's requests by increasing index.
   */
  lemma {:induction false} TasksStrictlyOrdered(verified: Verified, k: nat, keys: ApiKeys, req: Requests)
    requires k <= |verified|
    requires forall a, b :: 0 <= a < b < |verified| ==> verified[a].1 < verified[b].1
    ensures var r := TasksUpTo(verified, k, keys, req);
      r.Ok? ==> StrictlyOrdered(r.value)
                && (k > 0 ==> |r.value| > 0 && r.value[|r.value| - 1].ConfiguredDeviceIndex == verified[k - 1].1)
                && (k == 0 ==> r.value == [])
  {
    if k > 0 {
      TasksStrictlyOrdered(verified, k - 1, keys, req);
      var r := TasksUpTo(verified, k, keys, req);
      if r.Ok? {
        var prior := TasksUpTo(verified, k - 1, keys, req).value;
        var (d, i) := verified[k - 1];
        var added := DeviceTasks(d, i, Windows(req.now, req.initialRun), req);
        DeviceTasksOrdered(d, i, req);
        assert r.value == prior + added;
        AppendStrictlyOrdered(prior, added);
      }
    }
  }

  lemma AppendStrictlyOrdered(a: seq<DataTask>, b: seq<DataTask>)
    requires StrictlyOrdered(a) && StrictlyOrdered(b)
    requires a != [] && b != [] ==> CompareTasks(a[|a| - 1], b[0]) < 0
    ensures StrictlyOrdered(a + b)
  {
    var s := a + b;
    forall j | 0 < j < |s| ensures CompareTasks(s[j - 1], s[j]) < 0 {
      if j < |a| {
        assert s[j - 1] == a[j - 1] && s[j] == a[j];
      } else if j > |a| {
        assert s[j - 1] == b[j - 1 - |a|] && s[j] == b[j - |a|];
      }
    }
  }

  /**
   * The sort changes nothing: the data request tasks of the verified devices, emitted device by device, are
   * already in the order the comparison asks for.
   */
  lemma SortIsGenerationOrder(devices: seq<Configuration.EcowittDeviceConfiguration>, outcomes: seq<DetailsFetch>,
                              keys: ApiKeys, req: Requests)
    requires |devices| == |outcomes|
    ensures var v := VerifiedUpTo(devices, outcomes, |devices|);
      var r := TasksUpTo(v, |v|, keys, req);
      r.Ok? ==> SortTasks(r.value) == r.value
  {
    var v := VerifiedUpTo(devices, outcomes, |devices|);
    VerifiedMeaning(devices, outcomes, |devices|);
    TasksStrictlyOrdered(v, |v|, keys, req);
    var r := TasksUpTo(v, |v|, keys, req);
    if r.Ok? {
      SortKeepsOrdered(r.value);
    }
  }
}
