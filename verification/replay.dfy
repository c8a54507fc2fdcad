/**
  FakeInverter of src/device.py: an inverter that replays a recorded telemetry
  file. Reading its clock advances the clock by ten minutes; reading its raw
  frame re-reads the file, takes the line at the cursor and moves the cursor
  two lines on. Both side effects are explicit methods here.
 */
module Replay {
  import opened Wrappers
  import opened Text
  import opened Inverters

  /** The clock starts 23 hours (in minutes) before construction. */
  const ClockLag := 23 * 60

  /** The two pieces of state a FakeInverter changes. */
  datatype ReplayState = ReplayState(curDatetime: int, lineCounter: nat)

  function Initial(now: int): ReplayState {
    ReplayState(now - ClockLag, 0)
  }

  /** The state after `m` get_data calls: each reads the clock once, which
      advances it ten minutes, and the frame once, which moves the cursor two
      lines. */
  function Advance(s: ReplayState, m: nat): ReplayState {
    ReplayState(s.curDatetime + 10 * m, s.lineCounter + 2 * m)
  }

  /** f.readline() on a file whose lines are `file`, with the file position at
      line `pos`: the line and the new position; "" at the end of the file. */
  function ReadLine(file: seq<string>, pos: nat): (string, nat) {
    if pos < |file| then (file[pos], pos + 1) else ("", pos)
  }

  /** The frame the replay yields for cursor value `k`: line k stripped, or ""
      past the end of the file. */
  function FrameAt(telemetry: seq<string>, k: nat): string {
    if k < |telemetry| then Strip(telemetry[k]) else ""
  }

  /** What one get_data hands to the parser: the cursor of the line it reads
      (the frame is FrameAt(telemetry, line)) and its single clock reading. */
  datatype Sample = Sample(line: nat, time: int)

  /** The sample one FakeInverter.get_data takes in state `s`: the clock is read
      first (advanced, then used), then the frame at the cursor. */
  function SampleOf(s: ReplayState): Sample {
    Sample(s.lineCounter, s.curDatetime + 10)
  }

  /** The samples of `k` successive get_data calls from state `s`, in call order. */
  function Samples(s: ReplayState, k: nat): seq<Sample>
    decreases k
  {
    if k == 0 then [] else [SampleOf(s)] + Samples(Advance(s, 1), k - 1)
  }

  /** The record one get_data builds from a sample. */
  function RecordOf(sample: Sample, cfg: Config, telemetry: seq<string>, toFloat: Converter): Result<Record, Error> {
    Decode(cfg, FrameAt(telemetry, sample.line), sample.time, toFloat)
  }

  /** Call j (from 0) of k successive calls reads line lineCounter + 2j and is
      stamped curDatetime + 10(j+1). */
  lemma {:induction false} SamplesClosedForm(s: ReplayState, k: nat)
    ensures |Samples(s, k)| == k
    ensures forall j :: 0 <= j < k ==>
      Samples(s, k)[j] == Sample(s.lineCounter + 2 * j, s.curDatetime + 10 * (j + 1))
    decreases k
  {
    if k > 0 {
      var rest := Samples(Advance(s, 1), k - 1);
      SamplesClosedForm(Advance(s, 1), k - 1);
      forall j | 0 < j < k
        ensures Samples(s, k)[j] == Sample(s.lineCounter + 2 * j, s.curDatetime + 10 * (j + 1))
      {
        assert Samples(s, k)[j] == rest[j - 1];
      }
    }
  }

  /** From construction at `now`: the j-th call (from 0) reads line 2j and is
      stamped now - 23h + 10(j+1) minutes, so consecutive stamps are exactly
      ten minutes apart, and a record built from a sample carries its stamp. */
  lemma ReplayFromConstruction(now: int, k: nat)
    ensures var samples := Samples(Initial(now), k);
      && |samples| == k
      && (forall j :: 0 <= j < k ==> samples[j].line == 2 * j)
      && (forall j :: 0 <= j < k ==> samples[j].time == now - ClockLag + 10 * (j + 1))
      && (forall j :: 0 < j < k ==> samples[j].time == samples[j - 1].time + 10)
  {
    SamplesClosedForm(Initial(now), k);
  }

  /** A record decoded from a sample is stamped with the sample's clock reading
      and named after the device. */
  lemma RecordStamped(sample: Sample, cfg: Config, telemetry: seq<string>, toFloat: Converter)
    ensures var r := RecordOf(sample, cfg, telemetry, toFloat);
      r.Ok? ==> r.value.time == sample.time && r.value.measurement == cfg.name && r.value.tags == TagsOf(cfg)
  {
    DecodeTokensSpec(cfg, Tokens(FrameAt(telemetry, sample.line)), sample.time, toFloat);
  }

  /** Past the end of the file, or on a blank line, the frame is empty and the
      ten-token check rejects it. */
  lemma NoFrameRejected(telemetry: seq<string>, k: nat, cfg: Config, time: int, toFloat: Converter)
    requires k >= |telemetry| || forall i :: 0 <= i < |telemetry[k]| ==> IsSpace(telemetry[k][i])
    ensures Decode(cfg, FrameAt(telemetry, k), time, toFloat) == Err(WrongTokenCount(0))
  {
    if k < |telemetry| {
      BlankHasNoTokens(telemetry[k]);
    }
    assert FrameAt(telemetry, k) == "";
    assert Normalize("") == "";
    BlankHasNoTokens("");
    DecodeTokensSpec(cfg, [], time, toFloat);
  }

  class FakeInverter {
    const config: Config
    /** The lines of the telemetry file, read afresh on every frame read. */
    const telemetry: seq<string>
    var curDatetime: int
    var lineCounter: nat

    /** FakeInverter(**kwargs) at wall-clock time `now`. */
    constructor (kwargs: map<string, string>, telemetry: seq<string>, now: int)
      ensures config == ConfigFromKwargs(kwargs) && this.telemetry == telemetry
      ensures State() == Initial(now)
    {
      config := ConfigFromKwargs(kwargs);
      this.telemetry := telemetry;
      curDatetime := now - ClockLag;
      lineCounter := 0;
    }

    function State(): ReplayState
      reads this
    {
      ReplayState(curDatetime, lineCounter)
    }

    /** A read of cur_datetime: the clock moves first, and the new value is returned. */
    method ReadClock() returns (t: int)
      modifies this
      ensures curDatetime == old(curDatetime) + 10 && t == curDatetime
      ensures lineCounter == old(lineCounter)
    {
      curDatetime := curDatetime + 10;
      t := curDatetime;
    }

    /** A read of _raw_data: open the file, skip lineCounter lines, read and
        strip the next one, move the cursor on. */
    method NextRawFrame() returns (frame: string)
      modifies this
      ensures frame == FrameAt(telemetry, old(lineCounter))
      ensures lineCounter == old(lineCounter) + 2
      ensures curDatetime == old(curDatetime)
    {
      var pos := 0;
      var skipped := 0;
      while skipped < lineCounter
        invariant skipped <= lineCounter
        invariant pos == if skipped < |telemetry| then skipped else |telemetry|
      {
        var (_, next) := ReadLine(telemetry, pos);
        pos := next;
        skipped := skipped + 1;
      }
      var (line, _) := ReadLine(telemetry, pos);
      frame := Strip(line);
      lineCounter := lineCounter + 2;
    }

    /** FakeInverter.get_data(): the parser stamped with one clock read. */
    method GetData(toFloat: Converter) returns (r: Result<Record, Error>)
      modifies this
      ensures State() == Advance(old(State()), 1)
      ensures r == RecordOf(SampleOf(old(State())), config, telemetry, toFloat)
    {
      ghost var before := State();
      var t := ReadClock();
      var frame := NextRawFrame();
      assert frame == FrameAt(telemetry, SampleOf(before).line) && t == SampleOf(before).time;
      r := Decode(config, frame, t, toFloat);
    }
  }
}
