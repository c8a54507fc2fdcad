/**
  The Monitor of src/monitor.py: an ordered registry of devices and the cycle
  that polls every device once, in registration order, adds each record to a
  fresh store session and commits once.
 */
module Monitoring {
  import opened Wrappers
  import opened Inverters
  import opened Replay
  import opened Sink

  /** The two device kinds of src/device.py. A plain Inverter never changes, so
      it is a value; a FakeInverter is an object whose clock and cursor move. */
  datatype Device =
    | Inverter(config: Config, rawData: Option<string>)
    | Fake(fake: FakeInverter)

  /** What init_device may be handed: a Device, or any other object. */
  datatype Candidate = DeviceObject(device: Device) | OtherObject

  /** Inverter(**kwargs): _raw_data is set only when passed as a keyword argument. */
  function NewInverter(kwargs: map<string, string>): (d: Device)
    ensures d.Inverter? && d.config == ConfigFromKwargs(kwargs)
    ensures d.rawData.Some? <==> "_raw_data" in kwargs
  {
    Inverter(ConfigFromKwargs(kwargs), if "_raw_data" in kwargs then Some(kwargs["_raw_data"]) else None)
  }

  function ConfigOf(d: Device): Config {
    match d
    case Inverter(cfg, _) => cfg
    case Fake(f) => f.config
  }

  /** How many times `f` occurs in `ds`. */
  function Occ(ds: seq<Device>, f: FakeInverter): nat
    decreases |ds|
  {
    if ds == [] then 0 else Occ(ds[..|ds| - 1], f) + (if ds[|ds| - 1] == Fake(f) then 1 else 0)
  }

  lemma OccSnoc(ds: seq<Device>, i: nat, f: FakeInverter)
    requires i < |ds|
    ensures Occ(ds[..i + 1], f) == Occ(ds[..i], f) + (if ds[i] == Fake(f) then 1 else 0)
  {
    assert ds[..i + 1][..i] == ds[..i];
  }

  /** `snap` holds a state for every FakeInverter registered in `ds`. */
  predicate Covers(snap: map<FakeInverter, ReplayState>, ds: seq<Device>) {
    forall i :: 0 <= i < |ds| && ds[i].Fake? ==> ds[i].fake in snap
  }

  /** What a device hands to the frame decoder when polled: its
      configuration, its frame (none for a plain Inverter without _raw_data)
      and the time stamp of the record. */
  datatype Reading = Reading(config: Config, frame: Option<string>, time: int)

  /** The reading device i gives in a cycle that starts with the replay
      devices in states `snap`: a FakeInverter registered more than once has
      already been polled once for each earlier occurrence. */
  function ReadingOf(ds: seq<Device>, snap: map<FakeInverter, ReplayState>, i: nat, clock: seq<int>): Reading
    requires i < |ds| && Covers(snap, ds) && |clock| == |ds|
  {
    match ds[i]
    case Inverter(cfg, raw) => Reading(cfg, raw, clock[i])
    case Fake(f) =>
      var sample := SampleOf(Advance(snap[f], Occ(ds[..i], f)));
      Reading(f.config, Some(FrameAt(f.telemetry, sample.line)), sample.time)
  }

  /** get_data on a reading: no frame is an error, a frame is decoded. */
  function Resolve(reading: Reading, toFloat: Converter): Result<Record, Error> {
    if reading.frame.None? then Err(NoRawData)
    else Decode(reading.config, reading.frame.value, reading.time, toFloat)
  }

  /** What polling device i returns. */
  function Expected(ds: seq<Device>, snap: map<FakeInverter, ReplayState>, i: nat, clock: seq<int>,
                    toFloat: Converter)
    : Result<Record, Error>
    requires i < |ds| && Covers(snap, ds) && |clock| == |ds|
  {
    Resolve(ReadingOf(ds, snap, i, clock), toFloat)
  }

  /** The expected result is get_data of the device: Inverter.get_data with no
      current_time for a plain Inverter, and for a FakeInverter the call that
      follows one earlier call per earlier occurrence in the cycle. */
  lemma ExpectedIsGetData(ds: seq<Device>, snap: map<FakeInverter, ReplayState>, i: nat, clock: seq<int>,
                          toFloat: Converter)
    requires i < |ds| && Covers(snap, ds) && |clock| == |ds|
    ensures ds[i].Inverter? ==>
      Expected(ds, snap, i, clock, toFloat) == InverterGetData(ds[i].config, ds[i].rawData, None, clock[i], toFloat)
    ensures ds[i].Fake? ==>
      var f := ds[i].fake;
      Expected(ds, snap, i, clock, toFloat)
        == RecordOf(SampleOf(Advance(snap[f], Occ(ds[..i], f))), f.config, f.telemetry, toFloat)
  {
  }

  /** The results the first n devices give, in registration order. */
  function PollResults(ds: seq<Device>, snap: map<FakeInverter, ReplayState>, n: nat, clock: seq<int>,
                       toFloat: Converter)
    : (rs: seq<Result<Record, Error>>)
    requires n <= |ds| && Covers(snap, ds) && |clock| == |ds|
    ensures |rs| == n
    decreases n
  {
    if n == 0 then [] else PollResults(ds, snap, n - 1, clock, toFloat) + [Expected(ds, snap, n - 1, clock, toFloat)]
  }

  /** Polling fewer devices gives a prefix of the results. */
  lemma {:induction false} PollPrefix(ds: seq<Device>, snap: map<FakeInverter, ReplayState>, m: nat, n: nat,
                                      clock: seq<int>, toFloat: Converter)
    requires m <= n <= |ds| && Covers(snap, ds) && |clock| == |ds|
    ensures PollResults(ds, snap, n, clock, toFloat)[..m] == PollResults(ds, snap, m, clock, toFloat)
    decreases n
  {
    if m < n {
      PollPrefix(ds, snap, m, n - 1, clock, toFloat);
      assert PollResults(ds, snap, n, clock, toFloat)[..m] == PollResults(ds, snap, n - 1, clock, toFloat)[..m];
    }
  }

  /** Result j of the poll is what device j gives. */
  lemma {:induction false} PollResultsAt(ds: seq<Device>, snap: map<FakeInverter, ReplayState>, n: nat, clock: seq<int>,
                                          toFloat: Converter, j: nat)
    requires n <= |ds| && Covers(snap, ds) && |clock| == |ds| && j < n
    ensures PollResults(ds, snap, n, clock, toFloat)[j] == Expected(ds, snap, j, clock, toFloat)
    decreases n
  {
    if j < n - 1 {
      PollResultsAt(ds, snap, n - 1, clock, toFloat, j);
    }
  }

  /** `expected` lists, device by device, what polling gives in the cycle
      that started in `snap`. */
  predicate Tabulates(expected: seq<Result<Record, Error>>, ds: seq<Device>, snap: map<FakeInverter, ReplayState>,
                      clock: seq<int>, toFloat: Converter)
    requires Covers(snap, ds) && |clock| == |ds|
  {
    && |expected| == |ds|
    && forall j {:trigger Expected(ds, snap, j, clock, toFloat)} :: 0 <= j < |ds| ==>
         expected[j] == Expected(ds, snap, j, clock, toFloat)
  }

  /** The results of the whole cycle list every device's result. */
  lemma PollResultsTabulate(ds: seq<Device>, snap: map<FakeInverter, ReplayState>, clock: seq<int>, toFloat: Converter)
    requires Covers(snap, ds) && |clock| == |ds|
    ensures Tabulates(PollResults(ds, snap, |ds|, clock, toFloat), ds, snap, clock, toFloat)
  {
    forall j | 0 <= j < |ds|
      ensures PollResults(ds, snap, |ds|, clock, toFloat)[j] == Expected(ds, snap, j, clock, toFloat)
    {
      PollResultsAt(ds, snap, |ds|, clock, toFloat, j);
    }
  }

  /** The session calls of one cycle: an add per record until a device fails;
      the commit only when none did. */
  function CycleCalls(rs: seq<Result<Record, Error>>): seq<SinkCall> {
    if rs == [] then [Committed]
    else match rs[0]
      case Err(_) => []
      case Ok(r) => [Added(r)] + CycleCalls(rs[1..])
  }

  /** The records added before the first failure. */
  function Batch(rs: seq<Result<Record, Error>>): seq<Record> {
    if rs == [] || rs[0].Err? then [] else [rs[0].value] + Batch(rs[1..])
  }

  /** How many devices get polled: all of them, or up to and including the first that fails. */
  function Polled(rs: seq<Result<Record, Error>>): (n: nat)
    ensures n <= |rs|
  {
    if rs == [] then 0 else if rs[0].Err? then 1 else 1 + Polled(rs[1..])
  }

  /** The error that ends the cycle, if any. */
  function CycleError(rs: seq<Result<Record, Error>>): Option<Error> {
    if rs == [] then None else if rs[0].Err? then Some(rs[0].error) else CycleError(rs[1..])
  }

  /** When every device answers, each record is added once, in device order,
      followed by exactly one commit. */
  lemma {:induction false} CompletedCycle(rs: seq<Result<Record, Error>>)
    requires forall j :: 0 <= j < |rs| ==> rs[j].Ok?
    ensures |Batch(rs)| == |rs| && forall j :: 0 <= j < |rs| ==> Batch(rs)[j] == rs[j].value
    ensures CycleCalls(rs) == AddCalls(Batch(rs)) + [Committed]
    ensures Polled(rs) == |rs| && CycleError(rs) == None
  {
    if rs != [] {
      CompletedCycle(rs[1..]);
      assert AddCalls(Batch(rs)) == [Added(rs[0].value)] + AddCalls(Batch(rs[1..]));
    }
  }

  /** When device k is the first to fail, the records of devices 0..k-1 have
      been added, nothing else is polled and commit is never reached. */
  lemma {:induction false} AbortedCycle(rs: seq<Result<Record, Error>>, k: nat)
    requires k < |rs| && rs[k].Err? && forall j :: 0 <= j < k ==> rs[j].Ok?
    ensures |Batch(rs)| == k && forall j :: 0 <= j < k ==> Batch(rs)[j] == rs[j].value
    ensures CycleCalls(rs) == AddCalls(Batch(rs))
    ensures Polled(rs) == k + 1 && CycleError(rs) == Some(rs[k].error)
  {
    if k > 0 {
      AbortedCycle(rs[1..], k - 1);
      assert AddCalls(Batch(rs)) == [Added(rs[0].value)] + AddCalls(Batch(rs[1..]));
    }
  }

  /** A cycle commits at most once and only as its last call, and it commits
      exactly when no device failed. */
  lemma {:induction false} CommitOnlyAtEnd(rs: seq<Result<Record, Error>>)
    ensures var calls := CycleCalls(rs);
      && (Committed in calls <==> forall j :: 0 <= j < |rs| ==> rs[j].Ok?)
      && (forall j :: 0 <= j < |calls| - 1 ==> calls[j].Added?)
      && (CycleError(rs).None? <==> forall j :: 0 <= j < |rs| ==> rs[j].Ok?)
  {
    if rs != [] && rs[0].Ok? {
      CommitOnlyAtEnd(rs[1..]);
      var calls := CycleCalls(rs);
      assert calls == [Added(rs[0].value)] + CycleCalls(rs[1..]);
      assert (forall j :: 0 <= j < |rs| ==> rs[j].Ok?) <==> (forall j :: 0 <= j < |rs| - 1 ==> rs[1..][j].Ok?) by {
        if forall j :: 0 <= j < |rs| - 1 ==> rs[1..][j].Ok? {
          forall j | 0 < j < |rs| ensures rs[j].Ok? { assert rs[j] == rs[1..][j - 1]; }
        }
      }
    }
  }

  /** The records added in a cycle are those of the devices in registration
      order: record j comes from device j, under its name and tags. */
  lemma {:induction false} BatchInRegistrationOrder(ds: seq<Device>, snap: map<FakeInverter, ReplayState>,
                                                    clock: seq<int>, toFloat: Converter)
    requires Covers(snap, ds) && |clock| == |ds|
    ensures var batch := Batch(PollResults(ds, snap, |ds|, clock, toFloat));
      && |batch| <= |ds|
      && forall j :: 0 <= j < |batch| ==>
           batch[j].measurement == ConfigOf(ds[j]).name && batch[j].tags == TagsOf(ConfigOf(ds[j]))
  {
    var rs := PollResults(ds, snap, |ds|, clock, toFloat);
    BatchIsPrefix(rs);
    forall j | 0 <= j < |Batch(rs)|
      ensures Batch(rs)[j].measurement == ConfigOf(ds[j]).name && Batch(rs)[j].tags == TagsOf(ConfigOf(ds[j]))
    {
      PollResultsAt(ds, snap, |ds|, clock, toFloat, j);
      ExpectedLabelled(ds, snap, j, clock, toFloat);
    }
  }

  /** A record a device returns carries that device's name and tags. */
  lemma ExpectedLabelled(ds: seq<Device>, snap: map<FakeInverter, ReplayState>, i: nat, clock: seq<int>,
                         toFloat: Converter)
    requires i < |ds| && Covers(snap, ds) && |clock| == |ds|
    ensures var r := Expected(ds, snap, i, clock, toFloat);
      r.Ok? ==> r.value.measurement == ConfigOf(ds[i]).name && r.value.tags == TagsOf(ConfigOf(ds[i]))
  {
    ExpectedIsGetData(ds, snap, i, clock, toFloat);
    match ds[i]
    case Inverter(_, _) =>
    case Fake(f) =>
      RecordStamped(SampleOf(Advance(snap[f], Occ(ds[..i], f))), f.config, f.telemetry, toFloat);
  }

  /** The batch is the values of the leading run of successful results. */
  lemma {:induction false} BatchIsPrefix(rs: seq<Result<Record, Error>>)
    ensures |Batch(rs)| <= |rs|
    ensures forall j :: 0 <= j < |Batch(rs)| ==> rs[j].Ok? && Batch(rs)[j] == rs[j].value
  {
    if rs != [] && rs[0].Ok? {
      BatchIsPrefix(rs[1..]);
    }
  }

  /** One more result after a run of successes: it is polled, and it is
      queued if it succeeded or ends the cycle if it failed. */
  lemma {:induction false} ResultSnoc(rs: seq<Result<Record, Error>>, x: Result<Record, Error>)
    requires CycleError(rs) == None
    ensures CycleError(rs + [x]) == (if x.Ok? then None else Some(x.error))
    ensures Batch(rs + [x]) == Batch(rs) + (if x.Ok? then [x.value] else [])
    ensures Polled(rs + [x]) == Polled(rs) + 1
  {
    if rs == [] {
      assert rs + [x] == [x];
    } else {
      assert (rs + [x])[1..] == rs[1..] + [x];
      ResultSnoc(rs[1..], x);
    }
  }

  /** Results after the first failure change nothing about the cycle. */
  lemma {:induction false} PastFirstError(rs: seq<Result<Record, Error>>, k: nat)
    requires k <= |rs| && CycleError(rs[..k]).Some?
    ensures CycleError(rs) == CycleError(rs[..k]) && Batch(rs) == Batch(rs[..k])
    ensures Polled(rs) == Polled(rs[..k]) && CycleCalls(rs) == CycleCalls(rs[..k])
  {
    assert rs[..k][0] == rs[0];
    if rs[0].Ok? {
      assert rs[1..][..k - 1] == rs[..k][1..];
      PastFirstError(rs[1..], k - 1);
    }
  }

  /** How a cycle's calls end: with the commit after the whole batch when no
      device failed, and with the last add otherwise. */
  lemma {:induction false} CycleShape(rs: seq<Result<Record, Error>>)
    ensures CycleError(rs).None? ==>
      CycleCalls(rs) == AddCalls(Batch(rs)) + [Committed] && |Batch(rs)| == |rs| && Polled(rs) == |rs|
    ensures CycleError(rs).Some? ==> CycleCalls(rs) == AddCalls(Batch(rs))
  {
    if rs != [] && rs[0].Ok? {
      CycleShape(rs[1..]);
      assert AddCalls(Batch(rs)) == [Added(rs[0].value)] + AddCalls(Batch(rs[1..]));
    }
  }

  /** The replay states at the start of cycle c of the main loop, every
      earlier cycle having polled each registration once. */
  function CycleStart(snap: map<FakeInverter, ReplayState>, ds: seq<Device>, c: nat): map<FakeInverter, ReplayState> {
    map f | f in snap :: Advance(snap[f], c * Occ(ds, f))
  }

  /** The batches the first n cycles of the main loop write when none fails;
      in cycle c, device i reads the wall clock as nows[c][i]. */
  function LoopBatches(snap: map<FakeInverter, ReplayState>, ds: seq<Device>, nows: seq<seq<int>>, n: nat,
                       toFloat: Converter): (bs: seq<seq<Record>>)
    requires n <= |nows| && Covers(snap, ds)
    requires forall k :: 0 <= k < |nows| ==> |nows[k]| == |ds|
    ensures |bs| == n
    decreases n
  {
    if n == 0 then []
    else LoopBatches(snap, ds, nows, n - 1, toFloat)
         + [Batch(PollResults(ds, CycleStart(snap, ds, n - 1), |ds|, nows[n - 1], toFloat))]
  }

  /** Batch c of the main loop is the batch of cycle c's results, polled from
      the states c full cycles have left. */
  lemma {:induction false} LoopBatchesAt(snap: map<FakeInverter, ReplayState>, ds: seq<Device>, nows: seq<seq<int>>,
                                         n: nat, toFloat: Converter, c: nat)
    requires n <= |nows| && Covers(snap, ds) && c < n
    requires forall k :: 0 <= k < |nows| ==> |nows[k]| == |ds|
    ensures LoopBatches(snap, ds, nows, n, toFloat)[c]
      == Batch(PollResults(ds, CycleStart(snap, ds, c), |ds|, nows[c], toFloat))
    decreases n
  {
    if c < n - 1 {
      LoopBatchesAt(snap, ds, nows, n - 1, toFloat, c);
    }
  }

  /** A completed cycle takes the replay states from one cycle start to the next. */
  lemma NextCycleStart(snap: map<FakeInverter, ReplayState>, ds: seq<Device>, c: nat, f: FakeInverter)
    requires f in snap
    ensures CycleStart(snap, ds, c + 1)[f] == Advance(CycleStart(snap, ds, c)[f], Occ(ds, f))
  {
    assert (c + 1) * Occ(ds, f) == c * Occ(ds, f) + Occ(ds, f);
  }

  /** Polling device i moves its replay state, if any, one step and leaves
      every other replay device as it was. */
  lemma StatesAdvance(ds: seq<Device>, i: nat, snap: map<FakeInverter, ReplayState>,
                      before: map<FakeInverter, ReplayState>, after: map<FakeInverter, ReplayState>)
    requires i < |ds| && snap.Keys == before.Keys == after.Keys
    requires forall f :: f in snap ==> before[f] == Advance(snap[f], Occ(ds[..i], f))
    requires forall f :: f in snap ==> after[f] == if ds[i] == Fake(f) then Advance(before[f], 1) else before[f]
    ensures forall f :: f in snap ==> after[f] == Advance(snap[f], Occ(ds[..i + 1], f))
  {
    forall f | f in snap
      ensures after[f] == Advance(snap[f], Occ(ds[..i + 1], f))
    {
      OccSnoc(ds, i, f);
    }
  }

  /** What get_data returned for device i is its entry in the cycle's results. */
  lemma PolledIsExpected(ds: seq<Device>, snap: map<FakeInverter, ReplayState>, i: nat, clock: seq<int>,
                         toFloat: Converter,
                         s0: ReplayState, data: Result<Record, Error>, expected: seq<Result<Record, Error>>)
    requires i < |ds| && Covers(snap, ds) && |clock| == |ds|
    requires Tabulates(expected, ds, snap, clock, toFloat)
    requires ds[i].Inverter? ==> data == InverterGetData(ds[i].config, ds[i].rawData, None, clock[i], toFloat)
    requires ds[i].Fake? ==> s0 == Advance(snap[ds[i].fake], Occ(ds[..i], ds[i].fake))
    requires ds[i].Fake? ==> data == RecordOf(SampleOf(s0), ds[i].fake.config, ds[i].fake.telemetry, toFloat)
    ensures data == expected[i]
  {
    ExpectedIsGetData(ds, snap, i, clock, toFloat);
  }

  class Monitor {
    /** Registered devices; registration order is poll order. */
    var deviceList: seq<Device>
    const sessionConfig: map<string, string>
    /** Seconds to sleep between cycles (the sleep itself is not modelled). */
    const poolingDelay: real

    constructor (sessionConfig: map<string, string>, poolingDelay: real := 0.1)
      ensures deviceList == []
      ensures this.sessionConfig == sessionConfig && this.poolingDelay == poolingDelay
    {
      deviceList := [];
      this.sessionConfig := sessionConfig;
      this.poolingDelay := poolingDelay;
    }

    /** The replay devices registered, whose state a cycle changes. */
    function Fakes(): set<FakeInverter>
      reads this
    {
      set i | 0 <= i < |deviceList| && deviceList[i].Fake? :: deviceList[i].fake
    }

    /** The current state of every registered replay device. */
    function Snapshot(): (snap: map<FakeInverter, ReplayState>)
      reads this, Fakes()
      ensures snap.Keys == Fakes() && Covers(snap, deviceList)
      ensures forall f :: f in snap ==> snap[f] == f.State()
    {
      var snap := map f | f in Fakes() :: f.State();
      assert forall i :: 0 <= i < |deviceList| && deviceList[i].Fake? ==> deviceList[i].fake in Fakes();
      snap
    }

    /** init_device: a Device is appended at the end; anything else raises
        TypeError and leaves the registry as it was. */
    method InitDevice(candidate: Candidate) returns (outcome: Outcome<Error>)
      modifies this`deviceList
      ensures candidate.DeviceObject? ==> outcome == Pass && deviceList == old(deviceList) + [candidate.device]
      ensures candidate.OtherObject? ==> outcome == Fail(NotADevice) && deviceList == old(deviceList)
    {
      if candidate.DeviceObject? {
        deviceList := deviceList + [candidate.device];
        outcome := Pass;
      } else {
        outcome := Fail(NotADevice);
      }
    }

    /** __get_device_data: device.get_data() with no keyword arguments, so a
        plain Inverter stamps `now`, the wall-clock time read for this call. */
    method GetDeviceData(d: Device, now: int, toFloat: Converter) returns (r: Result<Record, Error>)
      modifies if d.Fake? then {d.fake} else {}
      ensures d.Inverter? ==> r == InverterGetData(d.config, d.rawData, None, now, toFloat)
      ensures d.Fake? ==> d.fake.State() == Advance(old(d.fake.State()), 1)
      ensures d.Fake? ==> r == RecordOf(SampleOf(old(d.fake.State())), d.fake.config, d.fake.telemetry, toFloat)
    {
      match d
      case Inverter(cfg, raw) =>
        r := InverterGetData(cfg, raw, None, now, toFloat);
      case Fake(f) =>
        r := f.GetData(toFloat);
    }

    /** Device i of the cycle that started in `snap` is polled: it gives
        its expected result `expected[i]` and its replay state, if any, moves
        one step. */
    method PollDevice(i: nat, clock: seq<int>, toFloat: Converter, ghost snap: map<FakeInverter, ReplayState>,
                      ghost expected: seq<Result<Record, Error>>)
      returns (data: Result<Record, Error>)
      requires i < |deviceList| && Covers(snap, deviceList) && |clock| == |deviceList|
      requires Tabulates(expected, deviceList, snap, clock, toFloat)
      requires forall f :: f in snap ==> f.State() == Advance(snap[f], Occ(deviceList[..i], f))
      modifies if deviceList[i].Fake? then {deviceList[i].fake} else {}
      ensures data == expected[i]
      ensures forall f :: f in snap ==> f.State() == Advance(snap[f], Occ(deviceList[..i + 1], f))
    {
      var d := deviceList[i];
      if d.Fake? {
        assert d.fake in snap;
      }
      ghost var before := map f | f in snap :: f.State();
      ghost var s0 := if d.Fake? then d.fake.State() else ReplayState(0, 0);
      data := GetDeviceData(d, clock[i], toFloat);
      ghost var after := map f | f in snap :: f.State();
      StatesAdvance(deviceList, i, snap, before, after);
      PolledIsExpected(deviceList, snap, i, clock, toFloat, s0, data, expected);
    }

    /** The polling loop of __send_devices_data_to_db: the devices are polled
        in registration order and each record is added to `session`, until a
        device fails. `results` are the results of the devices polled, a
        prefix of the results `expected` of all devices. */
    method PollAll(session: Session, clock: seq<int>, toFloat: Converter, ghost snap: map<FakeInverter, ReplayState>,
                   ghost expected: seq<Result<Record, Error>>)
      returns (err: Option<Error>, ghost results: seq<Result<Record, Error>>)
      requires Covers(snap, deviceList) && forall f :: f in snap ==> f.State() == snap[f]
      requires |clock| == |deviceList|
      requires Tabulates(expected, deviceList, snap, clock, toFloat)
      requires session.queue == [] && session.written == [] && session.calls == []
      modifies session, Fakes()
      ensures |results| <= |deviceList| && results == expected[..|results|]
      ensures err == CycleError(results) && Polled(results) == |results|
      ensures err.None? ==> |results| == |deviceList|
      ensures session.queue == Batch(results) && session.calls == AddCalls(session.queue) && session.written == []
      ensures forall f :: f in snap ==> f.State() == Advance(snap[f], Occ(deviceList[..|results|], f))
    {
      results := [];
      err := None;
      var i := 0;
      while i < |deviceList|
        invariant 0 <= i <= |deviceList| && |results| == i
        invariant results == expected[..i]
        invariant CycleError(results) == None && Polled(results) == i
        invariant session.queue == Batch(results) && session.written == []
        invariant session.calls == AddCalls(session.queue)
        invariant forall f :: f in snap ==> f.State() == Advance(snap[f], Occ(deviceList[..i], f))
      {
        var data := PollDevice(i, clock, toFloat, snap, expected);
        ResultSnoc(results, data);
        assert expected[..i + 1] == results + [data];
        results := results + [data];
        if data.Err? {
          err := Some(data.error);
          return;
        }
        AddCallsSnoc(session.queue, data.value);
        session.Add(data.value);
        i := i + 1;
      }
    }

    /** __send_devices_data_to_db: one poll-and-flush cycle on a fresh session.
        The session receives exactly the calls CycleCalls describes for the
        devices' results in registration order; the first failure ends the
        cycle before commit; each replay device has been polled once per
        occurrence among the devices reached. */
    method SendDevicesDataToDb(clock: seq<int>, toFloat: Converter) returns (session: Session, err: Option<Error>)
      requires |clock| == |deviceList|
      modifies Fakes()
      ensures fresh(session) && session.config == sessionConfig
      ensures var rs := PollResults(deviceList, old(Snapshot()), |deviceList|, clock, toFloat);
        && err == CycleError(rs)
        && session.calls == CycleCalls(rs)
        && session.written == (if err.None? then Batch(rs) else [])
        && session.queue == (if err.None? then [] else Batch(rs))
      ensures err.None? ==> |session.written| == |deviceList|
      ensures var rs := PollResults(deviceList, old(Snapshot()), |deviceList|, clock, toFloat);
        forall f :: f in old(Snapshot()) ==> f.State() == Advance(old(Snapshot())[f], Occ(deviceList[..Polled(rs)], f))
    {
      session := new Session(sessionConfig);
      ghost var snap := Snapshot();
      ghost var rs := PollResults(deviceList, snap, |deviceList|, clock, toFloat);
      ghost var polled;
      PollResultsTabulate(deviceList, snap, clock, toFloat);
      err, polled := PollAll(session, clock, toFloat, snap, rs);
      if err.Some? {
        PastFirstError(rs, |polled|);
      } else {
        assert rs == polled;
      }
      CycleShape(rs);
      if err.None? {
        session.Commit();
      }
    }

    /** One pass of mainloop's body, as cycle c of a loop that started with
        the replay devices in states `snap0` and in which every earlier cycle
        completed: the cycle's error, and when there is none, the records it
        wrote and the states it leaves for cycle c + 1. */
    method RunCycle(clock: seq<int>, toFloat: Converter, ghost snap0: map<FakeInverter, ReplayState>, ghost c: nat)
      returns (written: seq<Record>, err: Option<Error>)
      requires snap0.Keys == Fakes() && Covers(snap0, deviceList) && |clock| == |deviceList|
      requires forall f :: f in snap0 ==> f.State() == CycleStart(snap0, deviceList, c)[f]
      modifies Fakes()
      ensures var rs := PollResults(deviceList, CycleStart(snap0, deviceList, c), |deviceList|, clock, toFloat);
        && err == CycleError(rs)
        && (err.None? ==> written == Batch(rs) && |written| == |deviceList|)
      ensures err.None? ==> forall f :: f in snap0 ==> f.State() == CycleStart(snap0, deviceList, c + 1)[f]
      ensures var rs := PollResults(deviceList, CycleStart(snap0, deviceList, c), |deviceList|, clock, toFloat);
        err.Some? ==> forall f :: f in snap0 ==>
          f.State() == Advance(CycleStart(snap0, deviceList, c)[f], Occ(deviceList[..Polled(rs)], f))
    {
      ghost var snap := Snapshot();
      assert snap == CycleStart(snap0, deviceList, c);
      var session;
      session, err := SendDevicesDataToDb(clock, toFloat);
      written := session.written;
      if err.None? {
        ghost var rs := PollResults(deviceList, snap, |deviceList|, clock, toFloat);
        CycleShape(rs);
        assert deviceList[..|deviceList|] == deviceList;
        forall f | f in snap0
          ensures f.State() == CycleStart(snap0, deviceList, c + 1)[f]
        {
          NextCycleStart(snap0, deviceList, c, f);
        }
      }
    }

    /** mainloop, bounded to one cycle per entry of `nows` (nows[c][i] is the
        wall-clock time device i reads in cycle c): cycles run back to back
        until one fails. Cycle c starts with every replay device advanced by
        c full cycles and writes the batch that cycle's results give; the
        failing cycle's error ends the loop, leaving each replay device
        advanced once per occurrence among the devices that cycle reached. */
    method Mainloop(nows: seq<seq<int>>, toFloat: Converter) returns (batches: seq<seq<Record>>, err: Option<Error>)
      requires forall k :: 0 <= k < |nows| ==> |nows[k]| == |deviceList|
      modifies Fakes()
      ensures deviceList == old(deviceList)
      ensures |batches| <= |nows| && (err.None? <==> |batches| == |nows|)
      ensures batches == LoopBatches(old(Snapshot()), deviceList, nows, |batches|, toFloat)
      ensures forall c :: 0 <= c < |batches| ==> |batches[c]| == |deviceList|
      ensures err.Some? ==>
        && |batches| < |nows|
        && err == CycleError(PollResults(deviceList, CycleStart(old(Snapshot()), deviceList, |batches|), |deviceList|,
                                         nows[|batches|], toFloat))
      ensures err.None? ==>
        forall f :: f in old(Snapshot()) ==> f.State() == CycleStart(old(Snapshot()), deviceList, |nows|)[f]
      ensures err.Some? && |batches| < |nows| ==>
        var start := CycleStart(old(Snapshot()), deviceList, |batches|);
        var rs := PollResults(deviceList, start, |deviceList|, nows[|batches|], toFloat);
        forall f :: f in old(Snapshot()) ==> f.State() == Advance(start[f], Occ(deviceList[..Polled(rs)], f))
    {
      ghost var snap0 := Snapshot();
      batches := [];
      err := None;
      var c := 0;
      while c < |nows|
        invariant c <= |nows| && |batches| == c
        invariant deviceList == old(deviceList)
        invariant batches == LoopBatches(snap0, deviceList, nows, c, toFloat)
        invariant forall k :: 0 <= k < c ==> |batches[k]| == |deviceList|
        invariant forall f :: f in snap0 ==> f.State() == CycleStart(snap0, deviceList, c)[f]
      {
        var written, e := RunCycle(nows[c], toFloat, snap0, c);
        if e.Some? {
          err := e;
          return;
        }
        batches := batches + [written];
        c := c + 1;
      }
    }
  }
}
